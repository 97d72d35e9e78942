/** The two sets of characters the splitter knows, as code points, and what is lost between them: nothing visible. */
module SqlCharacters {
  import opened SqlLexer
  import opened SqlLexemes

  // ----- White space -----

  /** WhiteSpace and LineTerminator of ECMAScript: tab to carriage return, the space separators, and the byte order mark. */
  predicate White(point: int)
  {
    point in {9, 10, 11, 12, 13, 32, 160, 5760, 8192, 8193, 8194, 8195, 8196, 8197, 8198, 8199, 8200, 8201, 8202,
              8232, 8233, 8239, 8287, 12288, 65279}
  }

  predicate AllWhite(s: string) { forall k :: 0 <= k < |s| ==> White(s[k] as int) }

  /** A text with its white space deleted. */
  function Visible(s: string): string
  {
    if s == "" then "" else (if White(s[0] as int) then "" else [s[0]]) + Visible(s[1..])
  }

  /** `t` is `p` without the white space at its two ends. */
  ghost predicate Trims(p: string, t: string)
  {
    t != "" && !White(t[0] as int) && !White(t[|t| - 1] as int) &&
    exists before, after :: AllWhite(before) && AllWhite(after) && p == before + t + after
  }

  /** One statement for each piece in which anything is visible, in order. */
  ghost predicate Trimmed(ps: seq<string>, ts: seq<string>)
  {
    if ps == [] then ts == []
    else if AllWhite(ps[0]) then Trimmed(ps[1..], ts)
    else ts != [] && Trims(ps[0], ts[0]) && Trimmed(ps[1..], ts[1..])
  }

  lemma SpaceIsWhite(c: char)
    ensures IsSpace(c) <==> White(c as int)
  {
  }

  lemma {:induction false} StartCut(s: string) returns (before: string)
    ensures AllWhite(before) && s == before + TrimStart(s)
  {
    hide IsSpace, White;
    before := "";
    if s != "" {
      SpaceIsWhite(s[0]);
      if IsSpace(s[0]) {
        before := StartCut(s[1..]);
        before := [s[0]] + before;
      }
    }
  }

  lemma EndCut(s: string) returns (after: string)
    ensures AllWhite(after) && s == TrimEnd(s) + after
  {
    hide IsSpace, White;
    after := s[|TrimEnd(s)|..];
    forall k | 0 <= k < |after| ensures White(after[k] as int) { SpaceIsWhite(s[|TrimEnd(s)| + k]); }
  }

  lemma TrimEnds(p: string)
    ensures var t := Trim(p); t != "" ==> !White(t[0] as int) && !White(t[|t| - 1] as int)
  {
    hide White, IsSpace;
    var t := Trim(p);
    if t != "" {
      assert t[0] == TrimStart(p)[0];
      SpaceIsWhite(t[0]);
      SpaceIsWhite(t[|t| - 1]);
    }
  }

  lemma TrimTrims(p: string)
    ensures if AllWhite(p) then Trim(p) == "" else Trim(p) != "" && Trims(p, Trim(p))
  {
    hide White, IsSpace;
    TrimEnds(p);
    var before := StartCut(p);
    var after := EndCut(TrimStart(p));
    hide TrimStart, TrimEnd;
    var t := Trim(p);
    assert p == before + t + after;
    if t != "" { assert p[|before|] == t[0]; }
  }

  lemma {:induction false} CleanTrims(ps: seq<string>)
    ensures Trimmed(ps, Clean(ps))
  {
    hide White, Trim, AllWhite, Trims;
    if ps != [] {
      TrimTrims(ps[0]);
      CleanTrims(ps[1..]);
      var rest := Clean(ps[1..]);
      if AllWhite(ps[0]) {
        assert [] + rest == rest;
      } else {
        assert Clean(ps) == [Trim(ps[0])] + rest;
        assert Clean(ps)[1..] == rest;
      }
    }
  }

  lemma {:induction false} VisibleBoth(a: string, b: string)
    ensures Visible(a + b) == Visible(a) + Visible(b)
  {
    hide White;
    if a == "" {
      assert a + b == b;
    } else {
      assert (a + b)[1..] == a[1..] + b;
      VisibleBoth(a[1..], b);
    }
  }

  lemma {:induction false} WhiteIsInvisible(s: string)
    requires AllWhite(s)
    ensures Visible(s) == ""
  {
    hide White;
    if s != "" { WhiteIsInvisible(s[1..]); }
  }

  lemma TrimsVisible(p: string, t: string)
    requires Trims(p, t)
    ensures Visible(p) == Visible(t)
  {
    hide White, AllWhite, Visible;
    var before, after :| AllWhite(before) && AllWhite(after) && p == before + t + after;
    WhiteIsInvisible(before);
    WhiteIsInvisible(after);
    VisibleBoth(before + t, after);
    VisibleBoth(before, t);
  }

  lemma {:induction false} TrimmedVisible(ps: seq<string>, ts: seq<string>)
    requires Trimmed(ps, ts)
    ensures Visible(Concat(ts)) == Visible(Concat(ps))
    ensures forall t :: t in ts ==> t != "" && !White(t[0] as int) && !White(t[|t| - 1] as int)
    decreases |ps|
  {
    hide White, AllWhite, Visible;
    if ps != [] {
      VisibleBoth(ps[0], Concat(ps[1..]));
      if AllWhite(ps[0]) {
        WhiteIsInvisible(ps[0]);
        TrimmedVisible(ps[1..], ts);
      } else {
        TrimsVisible(ps[0], ts[0]);
        VisibleBoth(ts[0], Concat(ts[1..]));
        TrimmedVisible(ps[1..], ts[1..]);
      }
    }
  }

  /**
    Of a text that is not refused only white space is dropped, and the semicolons it is cut at: there is
    one statement for each piece in which anything is visible, and it is that piece without the white
    space at its ends.
   */
  lemma OnlyWhiteSpaceIsLost(s: string)
    requires Statements(s).Done?
    ensures Pieces(s).Done? && Trimmed(Pieces(s).value, Statements(s).value)
    ensures Visible(Concat(Statements(s).value)) == Visible(Concat(Pieces(s).value))
    ensures forall t :: t in Statements(s).value ==> t != "" && !White(t[0] as int) && !White(t[|t| - 1] as int)
  {
    hide White, Visible, Trimmed;
    CleanTrims(Pieces(s).value);
    TrimmedVisible(Pieces(s).value, Clean(Pieces(s).value));
  }

  // ----- Dollar tags -----

  predicate Letter(point: int) { 65 <= point <= 90 || 97 <= point <= 122 || point == 95 }

  predicate Digit(point: int) { 48 <= point <= 57 }

  /** The regular expression of the tag: a dollar sign, nothing or an identifier of ASCII letters and digits, a dollar sign. */
  ghost predicate DollarTag(t: string)
  {
    |t| >= 2 && t[0] as int == 36 && t[|t| - 1] as int == 36 &&
    forall k :: 0 < k < |t| - 1 ==> Letter(t[k] as int) || (k > 1 && Digit(t[k] as int))
  }

  lemma TagIsDollarTag(t: string)
    ensures IsTag(t) <==> DollarTag(t)
  {
  }

  /** A dollar quotation opens exactly with such a tag. */
  lemma DollarTagOpens(s: string)
    ensures var n := TagLen(s); n <= |s| && (n > 0 ==> DollarTag(s[..n])) && (n == 0 ==> forall t :: t <= s ==> !DollarTag(t))
  {
    var n := TagLen(s);
    if n > 0 { TagFound(s); }
    forall t | t <= s && DollarTag(t) ensures n > 0 {
      TagIsDollarTag(t);
      TagUnique(s, t);
    }
  }
}
