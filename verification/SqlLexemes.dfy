/** The scan and the grammar agree, so a text has at most one lexing and `Pieces` cuts that one. */
module SqlLexemes {
  import opened SqlLexer

  // ----- Line comments -----

  lemma SplitAt(a: string, rest: string, n: nat)
    requires n <= |a|
    ensures (a + rest)[..n] == a[..n] && (a + rest)[n..] == a[n..] + rest
  {
  }

  lemma {:induction false} LineSound(b: string, rest: string) returns (body: string)
    requires LineLen(b + rest) == |b|
    ensures '\n' !in body && (b == body + "\n" || (b == body && rest == ""))
  {
    if b == "" {
      assert b + rest == rest;
      body := "";
    } else {
      assert (b + rest)[1..] == b[1..] + rest;
      if b[0] == '\n' {
        body := "";
      } else {
        body := LineSound(b[1..], rest);
        body := [b[0]] + body;
      }
    }
  }

  lemma {:induction false} LineComplete(body: string, rest: string)
    requires '\n' !in body
    ensures LineLen(body + "\n" + rest) == |body| + 1
    ensures LineLen(body) == |body|
  {
    if body != "" {
      assert (body + "\n" + rest)[1..] == body[1..] + "\n" + rest;
      LineComplete(body[1..], rest);
    }
  }

  // ----- Quotes -----

  lemma QuoteOther(c: char, rest: string, q: char, left: Unclosed)
    requires c != q
    ensures QuoteLen([c] + rest, q, left) == Plus(1, QuoteLen(rest, q, left))
  {
    assert ([c] + rest)[1..] == rest;
  }

  lemma QuoteTwice(rest: string, q: char, left: Unclosed)
    ensures QuoteLen([q, q] + rest, q, left) == Plus(2, QuoteLen(rest, q, left))
  {
    assert ([q, q] + rest)[2..] == rest;
  }

  lemma QuoteOnce(rest: string, q: char, left: Unclosed)
    requires !([q] <= rest)
    ensures QuoteLen([q] + rest, q, left) == Done(1)
  {
    assert ([q] + rest)[1..] == rest;
  }

  lemma QuoteEnd(b: string, rest: string, q: char, left: Unclosed)
    requires QuoteLen(b + rest, q, left) == Done(|b|)
    requires b != "" && b[0] == q && !(|b| > 1 && b[1] == q)
    ensures b == [q] && !([q] <= rest)
  {
  }

  /** How much of a literal its first character takes. */
  function QuoteStep(b: string, q: char): nat
    requires b != ""
  {
    if b[0] == q then 2 else 1
  }

  lemma QuoteRest(b: string, rest: string, q: char, left: Unclosed)
    requires QuoteLen(b + rest, q, left) == Done(|b|)
    requires b != "" && !(b[0] == q && !(|b| > 1 && b[1] == q))
    ensures var n := QuoteStep(b, q);
            n <= |b| && QuoteLen(b[n..] + rest, q, left) == Done(|b| - n) &&
            b == (if b[0] == q then [q, q] else [b[0]]) + b[n..]
  {
    hide QuoteLen;
    if b[0] == q {
      assert b + rest == [q, q] + (b[2..] + rest);
      QuoteTwice(b[2..] + rest, q, left);
    } else {
      assert b + rest == [b[0]] + (b[1..] + rest);
      QuoteOther(b[0], b[1..] + rest, q, left);
    }
  }

  lemma DoubledCons(c: char, body: string, q: char)
    ensures Doubled([c] + body, q) + [q] == (if c == q then [q, q] else [c]) + (Doubled(body, q) + [q])
  {
    assert ([c] + body)[1..] == body;
  }

  lemma DoubledNothing(q: char)
    ensures Doubled("", q) == ""
  {
  }

  lemma {:induction false} QuoteSound(b: string, rest: string, q: char, left: Unclosed) returns (body: string)
    requires QuoteLen(b + rest, q, left) == Done(|b|)
    ensures b == Doubled(body, q) + [q] && !([q] <= rest)
    decreases |b|
  {
    hide QuoteLen, Doubled;
    if b[0] == q && !(|b| > 1 && b[1] == q) {
      QuoteEnd(b, rest, q, left);
      DoubledNothing(q);
      body := "";
    } else {
      QuoteRest(b, rest, q, left);
      var more := QuoteSound(b[QuoteStep(b, q)..], rest, q, left);
      DoubledCons(b[0], more, q);
      body := [b[0]] + more;
    }
  }

  lemma DoubledHead(b: string, body: string, q: char)
    requires body != "" && b == Doubled(body, q) + [q]
    ensures var tail := Doubled(body[1..], q) + [q];
            b == if body[0] == q then [q, q] + tail else [body[0]] + tail
  {
  }

  lemma {:induction false} QuoteComplete(b: string, body: string, rest: string, q: char, left: Unclosed)
    requires b == Doubled(body, q) + [q] && !([q] <= rest)
    ensures QuoteLen(b + rest, q, left) == Done(|b|)
    decreases |b|
  {
    hide QuoteLen;
    if body == "" {
      assert b == [q];
      QuoteOnce(rest, q, left);
    } else {
      hide Doubled;
      var tail := Doubled(body[1..], q) + [q];
      DoubledHead(b, body, q);
      QuoteComplete(tail, body[1..], rest, q, left);
      if body[0] == q {
        assert b + rest == [q, q] + (tail + rest);
        QuoteTwice(tail + rest, q, left);
      } else {
        assert b + rest == [body[0]] + (tail + rest);
        QuoteOther(body[0], tail + rest, q, left);
      }
    }
  }

  // ----- Block comments -----

  lemma {:induction false} TokenizedCons(head: Item, tail: seq<Item>)
    requires Tokenized(tail)
    requires head.Other? ==> !("/*" <= [head.c] + Render(tail)) && !("*/" <= [head.c] + Render(tail))
    ensures Tokenized([head] + tail)
  {
    hide Render;
    var items := [head] + tail;
    forall k | 0 <= k < |items| && items[k].Other?
      ensures var next := Render(items[k + 1..]); !("/*" <= [items[k].c] + next) && !("*/" <= [items[k].c] + next)
    {
      if k == 0 {
        assert items[1..] == tail;
      } else {
        assert items[k] == tail[k - 1] && items[k + 1..] == tail[k..];
      }
    }
  }

  function After(head: Item, depth: int): int
  {
    depth + (match head case Opener => 1 case Closer => -1 case Other(_) => 0)
  }

  lemma {:induction false} ClosesCons(head: Item, tail: seq<Item>, depth: nat)
    requires depth > 0
    requires if tail == [] then After(head, depth) == 0 else After(head, depth) > 0 && Closes(tail, After(head, depth))
    ensures Closes([head] + tail, depth)
  {
    var items := [head] + tail;
    assert items[1..] == tail;
    forall k | 0 <= k < |items| ensures Balance(items[..k], depth) > 0 {
      if k > 0 { assert items[..k][1..] == tail[..k - 1]; }
    }
  }

  lemma {:induction false} ClosesTail(items: seq<Item>, depth: nat)
    requires depth > 0 && Closes(items, depth)
    ensures items != []
    ensures var next := After(items[0], depth);
            if |items| == 1 then next == 0 else next > 0 && Closes(items[1..], next)
  {
    var tail := items[1..];
    var next := After(items[0], depth);
    if tail != [] {
      forall k | 0 <= k < |tail| ensures Balance(tail[..k], next) > 0 {
        assert items[..k + 1][1..] == tail[..k];
        assert Balance(items[..k + 1], depth) > 0;
      }
      assert tail[..0] == [];
      assert Balance(tail[..0], next) == next;
    }
  }

  lemma BlockStep(head: Item, rest: string, depth: nat)
    requires depth > 0
    requires head.Other? ==> !("/*" <= [head.c] + rest) && !("*/" <= [head.c] + rest)
    ensures BlockLen(ItemText(head) + rest, depth) ==
            if After(head, depth) == 0 then Done(2) else Plus(|ItemText(head)|, BlockLen(rest, After(head, depth)))
  {
    var s := ItemText(head) + rest;
    assert s[|ItemText(head)|..] == rest;
    match head
    case Opener => assert s[0] == '/' && s[1] == '*';
    case Closer => assert s[0] == '*' && s[1] == '/';
    case Other(c) => OtherStep(c, rest, depth);
  }

  lemma OtherStep(c: char, rest: string, depth: nat)
    requires depth > 0 && !("/*" <= [c] + rest) && !("*/" <= [c] + rest)
    ensures BlockLen([c] + rest, depth) == Plus(1, BlockLen(rest, depth))
  {
    var s := [c] + rest;
    assert s[1..] == rest;
    if |s| > 1 { assert s[..2] == [s[0], s[1]]; }
  }

  lemma EmptyTokenized()
    ensures Tokenized([])
  {
  }

  lemma TokenizedTail(items: seq<Item>)
    requires Tokenized(items) && items != []
    ensures Tokenized(items[1..])
  {
    var tail := items[1..];
    forall k | 0 <= k < |tail| && tail[k].Other?
      ensures var next := Render(tail[k + 1..]); !("/*" <= [tail[k].c] + next) && !("*/" <= [tail[k].c] + next)
    {
      assert tail[k] == items[k + 1] && tail[k + 1..] == items[k + 1 + 1..];
    }
  }

  lemma {:induction false} BlockSound(b: string, rest: string, depth: nat) returns (items: seq<Item>)
    requires depth > 0 && BlockLen(b + rest, depth) == Done(|b|)
    ensures Tokenized(items) && Closes(items, depth) && b == Render(items)
    decreases |b|
  {
    hide BlockLen, Tokenized, Closes;
    var head := if "/*" <= b then Opener else if "*/" <= b then Closer else Other(b[0]);
    var n := |ItemText(head)|;
    assert b == ItemText(head) + b[n..];
    assert b + rest == ItemText(head) + (b[n..] + rest);
    if head.Other? { assert [head.c] + (b[n..] + rest) == b + rest && (b + rest)[..2] == b[..2]; }
    BlockStep(head, b[n..] + rest, depth);
    var tail: seq<Item> := [];
    if After(head, depth) == 0 {
      assert b == "*/";
      EmptyTokenized();
    } else {
      tail := BlockSound(b[n..], rest, After(head, depth));
      ClosesTail(tail, After(head, depth));
    }
    items := [head] + tail;
    assert items[1..] == tail;
    ClosesCons(head, tail, depth);
    if head.Other? { assert [head.c] + Render(tail) == b; }
    TokenizedCons(head, tail);
  }

  /** Two characters that start no marker start none with more text behind them. */
  lemma MarkerFar(m: string, c: char, t: string, rest: string)
    requires |m| == 2 && t != "" && !(m <= [c] + t)
    ensures !(m <= [c] + (t + rest))
  {
    assert ([c] + (t + rest))[..2] == ([c] + t)[..2];
  }

  lemma RenderCons(items: seq<Item>, rest: string)
    requires items != []
    ensures Render(items) == ItemText(items[0]) + Render(items[1..])
    ensures Render(items) + rest == ItemText(items[0]) + (Render(items[1..]) + rest)
  {
    hide ItemText;
  }

  /** A rendered comment starts with its first item, whatever follows it. */
  lemma BlockHead(items: seq<Item>, rest: string)
    requires Tokenized(items) && items != [] && (items[0].Other? ==> |items| > 1)
    ensures var (head, next) := (items[0], Render(items[1..]) + rest);
            Render(items) == ItemText(head) + Render(items[1..]) && Render(items) + rest == ItemText(head) + next &&
            (head.Other? ==> !("/*" <= [head.c] + next) && !("*/" <= [head.c] + next))
  {
    hide Tokenized, Render, ItemText;
    RenderCons(items, rest);
    var head, tail := items[0], items[1..];
    if head.Other? {
      HeadSafe(items);
      RenderNonempty(tail);
      MarkerFar("/*", head.c, Render(tail), rest);
      MarkerFar("*/", head.c, Render(tail), rest);
    }
  }

  lemma HeadSafe(items: seq<Item>)
    requires Tokenized(items) && items != [] && items[0].Other?
    ensures var plain := [items[0].c] + Render(items[1..]); !("/*" <= plain) && !("*/" <= plain)
  {
    hide Render;
  }

  lemma RenderNonempty(items: seq<Item>)
    requires items != []
    ensures Render(items) != ""
  {
  }

  lemma {:induction false} BlockComplete(items: seq<Item>, rest: string, depth: nat)
    requires depth > 0 && Tokenized(items) && Closes(items, depth)
    ensures BlockLen(Render(items) + rest, depth) == Done(|Render(items)|)
    decreases |items|
  {
    hide BlockLen, Closes, Tokenized, Render;
    ClosesTail(items, depth);
    var head, tail := items[0], items[1..];
    BlockHead(items, rest);
    BlockStep(head, Render(tail) + rest, depth);
    if tail != [] {
      TokenizedTail(items);
      BlockComplete(tail, rest, After(head, depth));
    } else {
      RenderNothing();
    }
  }

  lemma RenderNothing()
    ensures Render([]) == ""
  {
  }

  // ----- Dollar blocks -----

  lemma EndsFirstAtOnce(t: string)
    ensures EndsFirstIn(t, t)
  {
  }

  lemma EndsFirstCons(b: string, t: string)
    requires b != "" && EndsFirstIn(b[1..], t) && !(t <= b)
    ensures EndsFirstIn(b, t)
  {
    forall k | 0 <= k <= |b| - |t| ensures t <= b[k..] <==> k == |b| - |t| {
      if k > 0 { assert b[k..] == b[1..][k - 1..]; }
    }
  }

  lemma {:induction false} DollarSound(b: string, rest: string, t: string)
    requires t != "" && DollarLen(b + rest, t) == Done(|b|)
    ensures EndsFirstIn(b, t)
    decreases |b|
  {
    hide EndsFirstIn;
    if t <= b + rest {
      assert b == (b + rest)[..|t|] == t;
      EndsFirstAtOnce(t);
    } else {
      SplitAt(b, rest, 1);
      DollarSound(b[1..], rest, t);
      assert b <= b + rest;
      EndsFirstCons(b, t);
    }
  }

  lemma {:induction false} DollarComplete(b: string, rest: string, t: string)
    requires t != "" && EndsFirstIn(b, t)
    ensures DollarLen(b + rest, t) == Done(|b|)
    decreases |b|
  {
    var s := b + rest;
    assert s[..|t|] == b[..|t|] && b[0..] == b;
    if |b| > |t| {
      assert s[1..] == b[1..] + rest;
      forall k | 0 <= k <= |b[1..]| - |t| ensures t <= b[1..][k..] <==> k == |b[1..]| - |t| {
        assert b[1..][k..] == b[k + 1..];
      }
      DollarComplete(b[1..], rest, t);
    }
  }

  lemma TagFound(s: string)
    requires TagLen(s) > 0
    ensures IsTag(s[..TagLen(s)])
  {
    var n := TagLen(s);
    if n > 2 {
      forall k | 2 <= k < n - 1 ensures IsTagPart(s[k]) { assert s[k] == s[2..][k - 2]; }
    }
  }

  lemma {:induction false} PartLenIs(s: string, n: nat)
    requires n < |s| && !IsTagPart(s[n]) && forall k :: 0 <= k < n ==> IsTagPart(s[k])
    ensures PartLen(s) == n
  {
    if n > 0 { PartLenIs(s[1..], n - 1); }
  }

  lemma TagUnique(s: string, t: string)
    requires IsTag(t) && t <= s
    ensures TagLen(s) == |t|
  {
    if |t| > 2 {
      var n := |t| - 3;
      forall k | 0 <= k < n ensures IsTagPart(s[2..][k]) { assert s[2..][k] == t[k + 2]; }
      assert s[2..][n] == t[|t| - 1] == '$';
      PartLenIs(s[2..], n);
    }
  }

  // ----- All lexemes -----

  lemma CommentSound(a: string, rest: string)
    requires "--" <= a + rest && First(a + rest) == Done(|a|)
    ensures IsLineComment(a, rest)
  {
    SplitAt(a, rest, 2);
    var body := LineSound(a[2..], rest);
    assert a == "--" + a[2..];
    assert a == "--" + body + "\n" || (a == "--" + body && rest == "");
  }

  lemma BlockCommentSound(a: string, rest: string)
    requires "/*" <= a + rest && First(a + rest) == Done(|a|)
    ensures IsBlockComment(a)
  {
    SplitAt(a, rest, 2);
    var items := BlockSound(a[2..], rest, 1);
    assert a == "/*" + a[2..];
  }

  lemma QuotedSound(a: string, rest: string, q: char)
    requires q == '\'' || q == '"'
    requires [q] <= a + rest && First(a + rest) == Done(|a|)
    ensures IsQuoted(a, rest, q)
  {
    SplitAt(a, rest, 1);
    var body := QuoteSound(a[1..], rest, q, if q == '\'' then SingleQuote else DoubleQuote);
    assert a == [q] + a[1..];
    assert a == [q] + Doubled(body, q) + [q];
  }

  lemma DollarBlockSound(a: string, rest: string, n: nat)
    requires n == TagLen(a + rest) > 0 && n <= |a|
    requires DollarLen((a + rest)[n..], (a + rest)[..n]) == Done(|a| - n)
    ensures IsDollarBlock(a)
  {
    hide DollarLen, PartLen;
    SplitAt(a, rest, n);
    TagFound(a + rest);
    DollarSound(a[n..], rest, a[..n]);
    assert a == a[..n] + a[n..];
  }

  lemma FirstSound(a: string, rest: string)
    requires a != "" && First(a + rest) == Done(|a|)
    ensures IsLexeme(a, rest)
  {
    hide DollarLen, LineLen, BlockLen, QuoteLen, PartLen;
    var s := a + rest;
    if "--" <= s { CommentSound(a, rest); }
    else if "/*" <= s { BlockCommentSound(a, rest); }
    else if s[0] == '\'' || s[0] == '"' { QuotedSound(a, rest, s[0]); }
    else if TagLen(s) > 0 { DollarBlockSound(a, rest, TagLen(s)); }
    else {
      forall t | IsTag(t) && t <= s ensures false { TagUnique(s, t); }
      assert IsPlain(a, rest);
    }
  }

  lemma LineFirst(a: string, rest: string)
    requires IsLineComment(a, rest)
    ensures First(a + rest) == Done(|a|)
  {
    hide QuoteLen, LineLen, BlockLen, DollarLen, PartLen;
    var body :| '\n' !in body && (a == "--" + body + "\n" || (a == "--" + body && rest == ""));
    LineComplete(body, rest);
    var s := a + rest;
    if a == "--" + body + "\n" {
      assert s[2..] == body + "\n" + rest;
    } else {
      assert s[2..] == body;
    }
  }

  lemma BlockFirst(a: string, rest: string)
    requires IsBlockComment(a)
    ensures First(a + rest) == Done(|a|)
  {
    hide QuoteLen, LineLen, BlockLen, DollarLen, PartLen, Tokenized, Closes, Render;
    var items :| Tokenized(items) && Closes(items, 1) && a == "/*" + Render(items);
    BlockComplete(items, rest, 1);
    SplitAt(a, rest, 2);
    assert a[2..] == Render(items);
  }

  lemma QuotedFirst(a: string, rest: string, q: char)
    requires q == '\'' || q == '"'
    requires IsQuoted(a, rest, q)
    ensures First(a + rest) == Done(|a|)
  {
    hide First, QuoteLen, Doubled;
    var left := if q == '\'' then SingleQuote else DoubleQuote;
    var body :| a == [q] + Doubled(body, q) + [q];
    assert a[1..] == Doubled(body, q) + [q];
    QuoteComplete(a[1..], body, rest, q, left);
    SplitAt(a, rest, 1);
    FirstQuote(a + rest, q, left);
  }

  lemma FirstQuote(s: string, q: char, left: Unclosed)
    requires s != "" && s[0] == q
    requires (q == '\'' && left == SingleQuote) || (q == '"' && left == DoubleQuote)
    ensures First(s) == Plus(1, QuoteLen(s[1..], q, left))
  {
    hide QuoteLen, LineLen, BlockLen, DollarLen, PartLen, TagLen;
  }

  lemma DollarOpens(s: string, t: string)
    requires IsTag(t) && t <= s
    ensures First(s) == Plus(|t|, DollarLen(s[|t|..], t))
  {
    hide DollarLen, LineLen, BlockLen, QuoteLen, PartLen;
    TagUnique(s, t);
    assert s[..|t|] == t;
  }

  lemma DollarFirst(a: string, rest: string)
    requires IsDollarBlock(a)
    ensures First(a + rest) == Done(|a|)
  {
    hide DollarLen, LineLen, BlockLen, QuoteLen, PartLen;
    var t, b :| IsTag(t) && EndsFirstIn(b, t) && a == t + b;
    DollarComplete(b, rest, t);
    assert a + rest == t + (b + rest);
    DollarOpens(t + (b + rest), t);
  }

  lemma PlainFirst(a: string, rest: string)
    requires IsPlain(a, rest)
    ensures First(a + rest) == Done(|a|)
  {
    var s := a + rest;
    if TagLen(s) > 0 { TagFound(s); }
    assert s[..TagLen(s)] <= s;
  }

  /** The scan finds exactly the lexemes of the grammar. */
  lemma FirstIff(a: string, rest: string)
    requires a != ""
    ensures First(a + rest) == Done(|a|) <==> IsLexeme(a, rest)
  {
    if First(a + rest) == Done(|a|) { FirstSound(a, rest); }
    if IsLexeme(a, rest) {
      if IsLineComment(a, rest) { LineFirst(a, rest); }
      else if IsBlockComment(a) { BlockFirst(a, rest); }
      else if IsQuoted(a, rest, '\'') { QuotedFirst(a, rest, '\''); }
      else if IsQuoted(a, rest, '"') { QuotedFirst(a, rest, '"'); }
      else if IsDollarBlock(a) { DollarFirst(a, rest); }
      else { PlainFirst(a, rest); }
    }
  }

  lemma LexemeNonempty(a: string, rest: string)
    requires IsLexeme(a, rest)
    ensures a != ""
  {
  }

  // ----- The cut of the one lexing -----

  lemma {:induction false} LexingTail(s: string, atoms: seq<string>)
    requires LexesAs(s, atoms) && atoms != []
    ensures atoms[0] != "" && s == atoms[0] + Concat(atoms[1..])
    ensures First(s) == Done(|atoms[0]|)
    ensures LexesAs(Concat(atoms[1..]), atoms[1..])
  {
    var tail := atoms[1..];
    assert IsLexeme(atoms[0], Concat(tail));
    LexemeNonempty(atoms[0], Concat(tail));
    FirstIff(atoms[0], Concat(tail));
    forall k | 0 <= k < |tail| ensures IsLexeme(tail[k], Concat(tail[k + 1..])) {
      assert tail[k] == atoms[k + 1] && tail[k + 1..] == atoms[k + 1 + 1..];
    }
  }

  /** A text with a lexing is cut exactly at the bare semicolons of that lexing. */
  lemma {:induction false} PiecesOfLexing(s: string, atoms: seq<string>)
    requires LexesAs(s, atoms)
    ensures Pieces(s) == Done(CutAt(atoms))
    decreases |atoms|
  {
    if atoms != [] {
      LexingTail(s, atoms);
      var n := |atoms[0]|;
      assert s[..n] == atoms[0] && s[n..] == Concat(atoms[1..]);
      PiecesOfLexing(s[n..], atoms[1..]);
      assert atoms[0] == ";" <==> s[0] == ';';
    }
  }

  /** A text that is cut has a lexing. */
  lemma {:induction false} LexingOfPieces(s: string) returns (atoms: seq<string>)
    requires Pieces(s).Done?
    ensures LexesAs(s, atoms)
    decreases |s|
  {
    hide First, IsLexeme;
    if s == "" {
      atoms := [];
    } else {
      var n := First(s).value;
      var tail := LexingOfPieces(s[n..]);
      atoms := [s[..n]] + tail;
      assert atoms[1..] == tail && s == s[..n] + s[n..];
      FirstSound(s[..n], s[n..]);
      forall k | 0 <= k < |atoms| ensures IsLexeme(atoms[k], Concat(atoms[k + 1..])) {
        if k > 0 { assert atoms[k] == tail[k - 1] && atoms[k + 1..] == tail[k..]; }
      }
    }
  }

  /** A text has at most one lexing. */
  lemma {:induction false} LexingUnique(s: string, x: seq<string>, y: seq<string>)
    requires LexesAs(s, x) && LexesAs(s, y)
    ensures x == y
    decreases |s|
  {
    if x != [] { LexingTail(s, x); }
    if y != [] { LexingTail(s, y); }
    if x != [] && y != [] {
      assert s[|x[0]|..] == Concat(x[1..]) && s[|y[0]|..] == Concat(y[1..]);
      assert x[0] == s[..|x[0]|] && y[0] == s[..|y[0]|];
      LexingUnique(s[|x[0]|..], x[1..], y[1..]);
      assert x == [x[0]] + x[1..] && y == [y[0]] + y[1..];
    }
  }
}
