/** Nothing is lost by the cut, and splitting again changes nothing. */
module SqlRoundTrip {
  import opened SqlLexer
  import opened SqlLexemes

  function Join(parts: seq<string>, separator: string): string
  {
    if parts == [] then "" else if |parts| == 1 then parts[0] else parts[0] + separator + Join(parts[1..], separator)
  }

  lemma JoinPrepend(a: string, ps: seq<string>, separator: string)
    requires ps != []
    ensures Join(Prepend(a, ps), separator) == a + Join(ps, separator)
  {
    var r := Prepend(a, ps);
    assert r[1..] == ps[1..];
    if |ps| > 1 {
      assert a + ps[0] + separator + Join(ps[1..], separator) == a + (ps[0] + separator + Join(ps[1..], separator));
    }
  }

  /** The untrimmed pieces joined by semicolons rebuild the text. */
  lemma {:induction false} PiecesRebuild(s: string)
    requires Pieces(s).Done?
    ensures Join(Pieces(s).value, ";") == s
    decreases |s|
  {
    hide First;
    if s != "" {
      var n := First(s).value;
      var ps := Pieces(s[n..]).value;
      PiecesRebuild(s[n..]);
      if s[0] == ';' {
        assert ([""] + ps)[1..] == ps;
        assert s == ";" + s[1..];
      } else {
        JoinPrepend(s[..n], ps, ";");
        assert s == s[..n] + s[n..];
      }
    }
  }

  // ----- A lexeme does not depend on what follows it -----

  /** Text that cannot extend the lexeme before it, unless that is an unended line comment. */
  predicate Calm(v: string) { v == "" || v[0] == ';' || v[0] == '\n' }

  /** A line comment that only the end of the text closes. */
  predicate OpenLine(a: string) { "--" <= a && '\n' !in a }

  lemma TagInside(a: string, v: string, t: string)
    requires a != "" && Calm(v) && t <= a + v
    ensures |t| > |a| ==> !IsTag(t)
  {
    if |t| > |a| { assert t[|a|] == v[0]; }
  }

  lemma MarkerStable(p: string, x: string, r: string, u: string, v: string)
    requires |p| == 2 && |x| == 1 && p[1] != ';' && p[1] != '\n' && Calm(v)
    requires !(p <= x + (r + u))
    ensures !(p <= x + (r + v))
  {
    if r != "" { assert (x + (r + u))[..2] == (x + (r + v))[..2]; }
  }

  lemma PlainStable(x: string, r: string, u: string, v: string)
    requires Calm(v) && IsPlain(x, r + u)
    ensures IsPlain(x, r + v)
  {
    MarkerStable("--", x, r, u, v);
    MarkerStable("/*", x, r, u, v);
    forall t | IsTag(t) ensures !(t <= x + (r + v)) {
      assert x + (r + v) == x + r + v && x + (r + u) == x + r + u;
      if t <= x + (r + v) { TagInside(x + r, v, t); }
      assert !(t <= x + (r + u));
    }
  }

  /** Calm text does not start with a quote, so a quote in front of it was there before. */
  lemma QuoteStart(r: string, u: string, v: string, q: char)
    requires Calm(v) && (q == '\'' || q == '"')
    ensures [q] <= r + v ==> [q] <= r + u
  {
    if r == "" {
      assert r + v == v;
    } else {
      assert (r + v)[0] == r[0] == (r + u)[0];
    }
  }

  lemma QuotedStable(x: string, r: string, u: string, v: string, q: char)
    requires Calm(v) && (q == '\'' || q == '"') && IsQuoted(x, r + u, q)
    ensures IsQuoted(x, r + v, q)
  {
    hide Calm, Doubled;
    QuoteStart(r, u, v, q);
  }

  /** What follows a lexeme can be replaced by calm text. */
  lemma LexemeStable(x: string, r: string, u: string, v: string)
    requires Calm(v) && IsLexeme(x, r + u) && !(OpenLine(x) && r + u == "" && v != "")
    ensures IsLexeme(x, r + v)
  {
    if IsLineComment(x, r + u) {
      var body :| '\n' !in body && (x == "--" + body + "\n" || (x == "--" + body && r + u == ""));
      assert x == "--" + body + "\n" || (x == "--" + body && r + v == "");
    } else if IsQuoted(x, r + u, '\'') {
      QuotedStable(x, r, u, v, '\'');
    } else if IsQuoted(x, r + u, '"') {
      QuotedStable(x, r, u, v, '"');
    } else if IsPlain(x, r + u) {
      PlainStable(x, r, u, v);
    }
  }

  lemma FirstStable(a: string, u: string, v: string, n: nat)
    requires Calm(v) && a != "" && First(a + u) == Done(n) && n <= |a|
    requires !(OpenLine(a) && u == "" && v != "")
    ensures First(a + v) == Done(n)
  {
    hide First, IsLexeme;
    var x, r := a[..n], a[n..];
    assert a + u == x + (r + u) && a + v == x + (r + v);
    FirstIff(x, r + u);
    if r + u == "" { assert x == a; }
    LexemeStable(x, r, u, v);
    FirstIff(x, r + v);
  }

  /** Removing a plain prefix of white space or a suffix leaves the other lexemes alone. */
  lemma SpacePlain(s: string)
    requires s != "" && IsSpace(s[0])
    ensures First(s) == Done(1)
  {
  }

  // ----- A piece split alone -----

  ghost predicate Solo(p: string) { Pieces(p) == Done([p]) }

  lemma PrependOne(a: string, p: string)
    ensures Prepend(a, [p]) == [a + p]
  {
  }

  /** One more lexeme in front of a solo text. */
  lemma SoloCons(s: string, n: nat)
    requires s != "" && s[0] != ';' && First(s) == Done(n) && Solo(s[n..])
    ensures Solo(s)
  {
    hide First;
    PrependOne(s[..n], s[n..]);
    assert s == s[..n] + s[n..];
  }

  lemma SoloTail(s: string)
    requires s != "" && Solo(s)
    ensures s[0] != ';' && First(s).Done? && Solo(s[First(s).value..])
  {
    hide First;
    var n := First(s).value;
    var ps := Pieces(s[n..]).value;
    assert s[0] != ';';
    assert |Prepend(s[..n], ps)| == |ps| == 1;
    assert Prepend(s[..n], ps)[0] == s[..n] + ps[0];
    assert s == s[..n] + s[n..];
    assert ps[0] == s[n..];
    assert ps == [ps[0]];
  }

  lemma PieceParts(s: string)
    requires s != "" && s[0] != ';' && Pieces(s).Done?
    ensures First(s).Done? && Pieces(s[First(s).value..]).Done?
    ensures Pieces(s).value[0] == s[..First(s).value] + Pieces(s[First(s).value..]).value[0]
  {
    hide First;
  }

  /** What follows the first piece: nothing, or a semicolon. */
  lemma {:induction false} FirstPiece(s: string)
    requires Pieces(s).Done?
    ensures var p := Pieces(s).value[0]; p <= s && Calm(s[|p|..]) && Solo(p)
    decreases |s|
  {
    hide First, Solo;
    if s == "" {
      SoloEmpty();
    } else if s[0] == ';' {
      assert s[0..] == s;
      SoloEmpty();
    } else {
      PieceParts(s);
      hide Pieces, Prepend;
      var n := First(s).value;
      FirstPiece(s[n..]);
      var p' := Pieces(s[n..]).value[0];
      var p := s[..n] + p';
      assert s == s[..n] + s[n..] && p <= s && s[|p|..] == s[n..][|p'|..];
      assert s == p + s[|p|..] && p + "" == p;
      FirstStable(p, s[|p|..], "", n);
      assert p[n..] == p';
      SoloCons(p, n);
    }
  }

  lemma SoloEmpty()
    ensures Solo("")
  {
  }

  /** Every piece, split alone, is its own only piece. */
  lemma {:induction false} PieceSolo(s: string, k: nat)
    requires Pieces(s).Done? && k < |Pieces(s).value|
    ensures Solo(Pieces(s).value[k])
    decreases |s|
  {
    hide First, Solo;
    FirstPiece(s);
    if k > 0 {
      var n := First(s).value;
      var ps := Pieces(s[n..]).value;
      if s[0] == ';' {
        PieceSolo(s[n..], k - 1);
      } else {
        assert Prepend(s[..n], ps)[k] == ps[k];
        PieceSolo(s[n..], k);
      }
    }
  }

  // ----- Trimming a solo text -----

  lemma {:induction false} SoloTrimStart(p: string)
    requires Solo(p)
    ensures Solo(TrimStart(p))
  {
    hide First, Solo;
    if p != "" && IsSpace(p[0]) {
      SpacePlain(p);
      SoloTail(p);
      SoloTrimStart(p[1..]);
    }
  }

  lemma DollarLast(a: string)
    requires IsDollarBlock(a)
    ensures a != "" && a[|a| - 1] == '$'
  {
    var t, b :| IsTag(t) && EndsFirstIn(b, t) && a == t + b;
    assert t <= b[|b| - |t|..];
    assert b[|b| - 1] == b[|b| - |t|..][|t| - 1];
  }

  /** Only a line comment can end in white space, apart from a space itself. */
  lemma SpaceLast(s: string, n: nat)
    requires s != "" && First(s) == Done(n) && n > 1 && IsSpace(s[n - 1])
    ensures "--" <= s
  {
    hide BlockLen, QuoteLen, DollarLen, LineLen, TagLen, IsDollarBlock;
    if TagLen(s) > 0 && !("--" <= s) {
      assert s == s[..n] + s[n..];
      TagLead(s);
      DollarBlockSound(s[..n], s[n..], TagLen(s));
      DollarLast(s[..n]);
    }
  }

  lemma TagLead(s: string)
    requires s != "" && TagLen(s) > 0 && First(s).Done?
    ensures DollarLen(s[TagLen(s)..], s[..TagLen(s)]) == Done(First(s).value - TagLen(s))
  {
    hide BlockLen, QuoteLen, DollarLen, LineLen;
  }

  lemma OpenLineFirst(t: string)
    requires OpenLine(t)
    ensures First(t) == Done(|t|)
  {
    hide First;
    assert t == "--" + t[2..];
    assert IsLineComment(t, "");
    FirstIff(t, "");
    assert t + "" == t;
  }

  /** A line comment cut short inside its trailing white space is still one lexeme. */
  lemma ShortComment(p: string, t: string, n: nat)
    requires p != "" && First(p) == Done(n) && t != "" && t <= p && |t| < n
    requires forall k :: |t| <= k < |p| ==> IsSpace(p[k])
    ensures OpenLine(t)
  {
    hide First, BlockLen, QuoteLen, DollarLen, LineLen, TagLen, PartLen;
    SpaceLast(p, n);
    assert p[1] == '-' && |t| >= 2;
    var x, r := p[..n], p[n..];
    assert p == x + r;
    CommentSound(x, r);
    var body :| '\n' !in body && (x == "--" + body + "\n" || (x == "--" + body && r == ""));
    forall k | 0 <= k < |t| ensures t[k] != '\n' {
      assert t[k] == x[k];
      if k >= 2 { assert x[k] == body[k - 2] && body[k - 2] in body; }
    }
  }

  lemma {:induction false} SoloTrimEnd(p: string, t: string)
    requires Solo(p) && t <= p && forall k :: |t| <= k < |p| ==> IsSpace(p[k])
    ensures Solo(t)
    decreases |p|
  {
    hide First, Solo;
    if t == "" {
      SoloEmpty();
    } else {
      SoloTail(p);
      var n := First(p).value;
      assert t[0] == p[0];
      if n <= |t| {
        var u := p[|t|..];
        assert p == t + u && t + "" == t;
        FirstStable(t, u, "", n);
        forall k | |t[n..]| <= k < |p[n..]| ensures IsSpace(p[n..][k]) { assert p[n..][k] == p[n + k]; }
        assert t[n..] <= p[n..];
        SoloTrimEnd(p[n..], t[n..]);
        SoloCons(t, n);
      } else {
        ShortComment(p, t, n);
        OpenLineFirst(t);
        assert t[|t|..] == "";
        SoloEmpty();
        SoloCons(t, |t|);
      }
    }
  }

  lemma SoloTrim(p: string)
    requires Solo(p)
    ensures Solo(Trim(p)) && Trim(Trim(p)) == Trim(p)
  {
    hide Solo;
    SoloTrimStart(p);
    SoloTrimEnd(TrimStart(p), Trim(p));
    if Trim(p) != "" { assert Trim(p)[0] == TrimStart(p)[0]; }
  }

  // ----- Round trips -----

  lemma {:induction false} CleanMember(ps: seq<string>, t: string) returns (k: nat)
    requires t in Clean(ps)
    ensures k < |ps| && t == Trim(ps[k]) && t != ""
  {
    hide Trim;
    if Trim(ps[0]) == t {
      k := 0;
    } else {
      k := CleanMember(ps[1..], t);
      k := k + 1;
    }
  }

  lemma SoloStatements(t: string)
    requires Solo(t) && Trim(t) == t && t != ""
    ensures Statements(t) == Done([t])
  {
    hide Trim;
    assert [t][1..] == [];
    assert Clean([t]) == [t];
  }

  /** Every statement the splitter returns splits to itself alone. */
  lemma StatementAlone(s: string, t: string)
    requires Statements(s).Done? && t in Statements(s).value
    ensures Statements(t) == Done([t])
  {
    hide Clean, Solo;
    var ps := Pieces(s).value;
    var k := CleanMember(ps, t);
    PieceSolo(s, k);
    SoloTrim(ps[k]);
    SoloStatements(t);
  }

  lemma {:induction false} JoinLength(ps: seq<string>, k: nat)
    requires k < |ps|
    ensures |Join(ps, ";")| >= |ps[k]| + |ps| - 1
  {
    if |ps| > 1 {
      JoinLength(ps[1..], if k > 0 then k - 1 else 0);
    }
  }

  lemma TrimShorter(p: string)
    ensures |Trim(p)| <= |p|
  {
    StartShorter(p);
  }

  lemma {:induction false} StartShorter(p: string)
    ensures |TrimStart(p)| <= |p|
    ensures p != "" && IsSpace(p[0]) ==> |TrimStart(p)| < |p|
  {
    if p != "" && IsSpace(p[0]) { StartShorter(p[1..]); }
  }

  /** A text that splits to itself alone is one untrimmed piece with nothing to trim. */
  lemma AloneIsSolo(t: string)
    requires Statements(t) == Done([t])
    ensures Solo(t) && Trim(t) == t && t != ""
  {
    hide Clean, Trim;
    var ps := Pieces(t).value;
    assert t in Clean(ps);
    var k := CleanMember(ps, t);
    TrimShorter(ps[k]);
    PiecesRebuild(t);
    JoinLength(ps, k);
    assert ps == [ps[0]];
  }

  /** A solo text keeps its own piece when a line break follows. */
  lemma {:induction false} SoloExtend(t: string, v: string)
    requires Solo(t)
    ensures Pieces(t + ("\n" + v)) ==
            if Pieces(v).Done? then Done(Prepend(t + "\n", Pieces(v).value)) else Pieces(v)
    decreases |t|
  {
    hide First, Solo, Prepend, OpenLine;
    if t == "" {
      var s := "\n" + v;
      assert t + s == s && t + "\n" == "\n";
      SpacePlain(s);
      SplitAt("\n", v, 1);
      assert "\n"[1..] + v == v && "\n"[..1] == "\n";
      PiecesCons(s, 1);
    } else if OpenLine(t) {
      OpenLineExtend(t, v);
    } else {
      SoloTail(t);
      var n := First(t).value;
      SoloExtend(t[n..], v);
      ExtendStep(t, n, v);
    }
  }

  lemma OpenLineExtend(t: string, v: string)
    requires OpenLine(t)
    ensures Pieces(t + ("\n" + v)) ==
            if Pieces(v).Done? then Done(Prepend(t + "\n", Pieces(v).value)) else Pieces(v)
  {
    hide First;
    var x := t + "\n";
    assert t == "--" + t[2..] && x == "--" + t[2..] + "\n";
    assert IsLineComment(x, v);
    FirstIff(x, v);
    assert (x + v)[..|x|] == x && (x + v)[|x|..] == v && t + ("\n" + v) == x + v;
  }

  lemma BreakCalm(v: string)
    ensures Calm("\n" + v)
  {
  }

  lemma PiecesCons(s: string, n: nat)
    requires s != "" && s[0] != ';' && First(s) == Done(n)
    ensures Pieces(s) ==
            if Pieces(s[n..]).Done? then Done(Prepend(s[..n], Pieces(s[n..]).value)) else Pieces(s[n..])
  {
    hide First;
  }

  lemma ExtendStep(t: string, n: nat, v: string)
    requires t != "" && t[0] != ';' && First(t) == Done(n) && !OpenLine(t)
    requires Pieces(t[n..] + ("\n" + v)) ==
             if Pieces(v).Done? then Done(Prepend(t[n..] + "\n", Pieces(v).value)) else Pieces(v)
    ensures Pieces(t + ("\n" + v)) ==
            if Pieces(v).Done? then Done(Prepend(t + "\n", Pieces(v).value)) else Pieces(v)
  {
    hide First, Prepend, Pieces, OpenLine;
    var m := "\n" + v;
    BreakCalm(v);
    assert t + "" == t;
    FirstStable(t, "", m, n);
    SplitAt(t, m, n);
    PiecesCons(t + m, n);
    if Pieces(v).Done? {
      PrependTwice(t[..n], t[n..] + "\n", Pieces(v).value);
      assert t[..n] + (t[n..] + "\n") == t + "\n";
    }
  }

  lemma TrimBreaks(t: string, p: string)
    requires Trim(t) == t && t != ""
    ensures Trim(t + "\n") == t && Trim("\n" + p) == Trim(p)
  {
    assert ("\n" + p)[1..] == p;
    StartShorter(t);
    var s := t + "\n";
    assert TrimStart(t) == t && TrimStart(s) == s;
    assert s[..|s| - 1] == t;
  }

  lemma BreakCut(w: string)
    requires Pieces(w).Done?
    ensures Pieces(";\n" + w) == Done([""] + Prepend("\n", Pieces(w).value))
  {
    hide First, Solo;
    SoloEmpty();
    SoloExtend("", w);
    var s := ";\n" + w;
    assert s[1..] == "" + ("\n" + w) && First(s) == Done(1);
    assert "" + "\n" == "\n";
  }

  lemma CleanJoin(t: string, ps: seq<string>)
    requires Trim(t) == t && t != "" && ps != []
    ensures Clean(Prepend(t + "\n", [""] + Prepend("\n", ps))) == [t] + Clean(ps)
  {
    hide Trim;
    TrimBreaks(t, ps[0]);
    var tail := Prepend("\n", ps);
    assert t + "\n" + "" == t + "\n";
    assert Prepend(t + "\n", [""] + tail) == [t + "\n"] + tail;
    CleanAppend([t + "\n"], tail);
    CleanAppend(["\n" + ps[0]], ps[1..]);
    CleanAppend([ps[0]], ps[1..]);
    assert ps == [ps[0]] + ps[1..];
    CleanSingle(t + "\n");
    CleanSingle("\n" + ps[0]);
    CleanSingle(ps[0]);
  }

  lemma CleanSingle(p: string)
    ensures Clean([p]) == if Trim(p) == "" then [] else [Trim(p)]
  {
    hide Trim;
    assert [p][1..] == [];
  }

  lemma JoinTwo(t: string, w: string)
    requires Solo(t) && Trim(t) == t && t != "" && Statements(w).Done?
    ensures Statements(t + "\n;\n" + w) == Done([t] + Statements(w).value)
  {
    hide Solo, Trim, Clean, Prepend, Pieces;
    var ps := Pieces(w).value;
    BreakCut(w);
    SoloExtend(t, ";\n" + w);
    assert t + "\n;\n" + w == t + ("\n" + (";\n" + w));
    CleanJoin(t, ps);
  }

  lemma NothingToSplit()
    ensures Statements("") == Done([])
  {
    CleanSingle("");
  }

  /** Splitting a newline-semicolon-newline join of such statements returns the list. */
  lemma {:induction false} JoinThenSplit(list: seq<string>)
    requires forall t :: t in list ==> Statements(t) == Done([t])
    ensures Statements(Join(list, "\n;\n")) == Done(list)
  {
    hide Statements, Solo;
    if list == [] {
      NothingToSplit();
    } else if |list| == 1 {
      assert list[0] in list && list == [list[0]];
    } else {
      assert list[0] in list;
      AloneIsSolo(list[0]);
      forall t | t in list[1..] ensures Statements(t) == Done([t]) { assert t in list; }
      JoinThenSplit(list[1..]);
      JoinTwo(list[0], Join(list[1..], "\n;\n"));
      assert list == [list[0]] + list[1..];
    }
  }

  /** Split, join and split again. */
  lemma SplitIsStable(s: string)
    requires Statements(s).Done?
    ensures Statements(Join(Statements(s).value, "\n;\n")) == Statements(s)
  {
    hide Statements;
    forall t | t in Statements(s).value ensures Statements(t) == Done([t]) { StatementAlone(s, t); }
    JoinThenSplit(Statements(s).value);
  }

  /** The splitter refuses a text exactly when the text has no lexing. */
  lemma OpenIff(s: string)
    ensures Statements(s).Open? <==> !exists atoms :: LexesAs(s, atoms)
  {
    hide Pieces;
    if Statements(s).Done? { var atoms := LexingOfPieces(s); }
    forall atoms | LexesAs(s, atoms) ensures Statements(s).Done? { PiecesOfLexing(s, atoms); }
  }
}
