/** When the splitter refuses a text: exactly when its end lies inside a literal, comment or block, which it names. */
module SqlUnclosed {
  import opened SqlLexer
  import opened SqlLexemes

  /** Every level opened so far is still open. */
  ghost predicate StaysOpen(items: seq<Item>, depth: nat)
  {
    forall k :: 0 <= k <= |items| ==> Balance(items[..k], depth) > 0
  }

  predicate Lacks(b: string, t: string)
  {
    forall k :: 0 <= k <= |b| ==> !(t <= b[k..])
  }

  /** A lexeme that was begun and whose end the text does not reach. */
  ghost predicate Unterminated(rest: string, left: Unclosed)
  {
    match left
    case SingleQuote => exists body :: rest == "'" + Doubled(body, '\'')
    case DoubleQuote => exists body :: rest == "\"" + Doubled(body, '"')
    case BlockComment => exists items :: Tokenized(items) && StaysOpen(items, 1) && rest == "/*" + Render(items)
    case DollarBlock(t) => IsTag(t) && exists b :: rest == t + b && Lacks(b, t)
  }

  // ----- Quotes -----

  lemma {:induction false} QuoteOpenSound(b: string, q: char, left: Unclosed) returns (body: string)
    requires QuoteLen(b, q, left).Open?
    ensures b == Doubled(body, q)
    decreases |b|
  {
    if b == "" {
      body := "";
    } else {
      var n := if b[0] == q then 2 else 1;
      var more := QuoteOpenSound(b[n..], q, left);
      body := [b[0]] + more;
      assert body[1..] == more && b == b[..n] + b[n..];
    }
  }

  lemma {:induction false} QuoteOpenComplete(body: string, q: char, left: Unclosed)
    ensures QuoteLen(Doubled(body, q), q, left) == Open(left)
    decreases |body|
  {
    hide QuoteLen;
    if body == "" {
      NothingLeft(q, left);
    } else {
      QuoteOpenComplete(body[1..], q, left);
      if body[0] == q { QuoteTwice(Doubled(body[1..], q), q, left); } else { QuoteOther(body[0], Doubled(body[1..], q), q, left); }
    }
  }

  lemma NothingLeft(q: char, left: Unclosed)
    ensures QuoteLen("", q, left) == Open(left)
  {
  }

  // ----- Block comments -----

  lemma StaysOpenCons(head: Item, tail: seq<Item>, depth: nat)
    requires depth > 0 && After(head, depth) > 0 && StaysOpen(tail, After(head, depth))
    ensures StaysOpen([head] + tail, depth)
  {
    var items := [head] + tail;
    forall k | 0 <= k <= |items| ensures Balance(items[..k], depth) > 0 {
      if k > 0 { assert items[..k][1..] == tail[..k - 1]; }
    }
  }

  lemma StaysOpenTail(items: seq<Item>, depth: nat)
    requires StaysOpen(items, depth) && items != []
    ensures depth > 0 && After(items[0], depth) > 0 && StaysOpen(items[1..], After(items[0], depth))
  {
    var tail, next := items[1..], After(items[0], depth);
    assert items[..0] == [] && Balance(items[..0], depth) > 0;
    forall k | 0 <= k <= |tail| ensures Balance(tail[..k], next) > 0 {
      assert items[..k + 1][1..] == tail[..k] && Balance(items[..k + 1], depth) > 0;
    }
    assert tail[..0] == [] && Balance(tail[..0], next) == next;
  }

  lemma {:induction false} BlockOpenSound(b: string, depth: nat) returns (items: seq<Item>)
    requires depth > 0 && BlockLen(b, depth).Open?
    ensures Tokenized(items) && StaysOpen(items, depth) && b == Render(items)
    decreases |b|
  {
    hide BlockLen, Tokenized, StaysOpen;
    if b == "" {
      items := [];
      EmptyTokenized();
      EmptyStaysOpen(depth);
    } else {
      var head := if "/*" <= b then Opener else if "*/" <= b then Closer else Other(b[0]);
      var n := |ItemText(head)|;
      assert b == ItemText(head) + b[n..];
      if head.Other? { assert [head.c] + b[n..] == b; }
      BlockStep(head, b[n..], depth);
      var tail := BlockOpenSound(b[n..], After(head, depth));
      items := [head] + tail;
      assert items[1..] == tail;
      StaysOpenCons(head, tail, depth);
      if head.Other? { assert [head.c] + Render(tail) == b; }
      TokenizedCons(head, tail);
    }
  }

  lemma EmptyStaysOpen(depth: nat)
    requires depth > 0
    ensures StaysOpen([], depth)
  {
  }

  lemma {:induction false} BlockOpenComplete(items: seq<Item>, depth: nat)
    requires depth > 0 && Tokenized(items) && StaysOpen(items, depth)
    ensures BlockLen(Render(items), depth) == Open(BlockComment)
    decreases |items|
  {
    hide BlockLen, StaysOpen;
    if items == [] {
      NoBlockLeft(depth);
    } else {
      var head, tail := items[0], items[1..];
      StaysOpenTail(items, depth);
      if head.Other? { assert items[0 + 1..] == tail; }
      BlockStep(head, Render(tail), depth);
      TokenizedTail(items);
      BlockOpenComplete(tail, After(head, depth));
    }
  }

  lemma NoBlockLeft(depth: nat)
    requires depth > 0
    ensures BlockLen("", depth) == Open(BlockComment)
  {
  }

  // ----- Dollar blocks -----

  lemma {:induction false} DollarOpenIff(b: string, t: string)
    requires t != ""
    ensures DollarLen(b, t) == Open(DollarBlock(t)) <==> Lacks(b, t)
    decreases |b|
  {
    assert b[0..] == b;
    if b != "" && !(t <= b) {
      DollarOpenIff(b[1..], t);
      assert forall k :: 0 <= k <= |b[1..]| ==> b[1..][k..] == b[k + 1..];
      assert forall k :: 0 < k <= |b| ==> b[k..] == b[1..][k - 1..];
    }
  }

  // ----- The first lexeme -----

  lemma QuotedOpen(s: string, q: char, left: Unclosed)
    requires s != "" && s[0] == q && First(s) == Open(left)
    requires (q == '\'' && left == SingleQuote) || (q == '"' && left == DoubleQuote)
    ensures Unterminated(s, left)
  {
    hide QuoteLen, BlockLen, DollarLen, LineLen, PartLen;
    var body := QuoteOpenSound(s[1..], q, left);
    assert s == [q] + s[1..];
  }

  lemma BlockOpen(s: string)
    requires "/*" <= s && First(s).Open?
    ensures First(s) == Open(BlockComment) && Unterminated(s, BlockComment)
  {
    hide QuoteLen, BlockLen, DollarLen, LineLen, PartLen;
    var items := BlockOpenSound(s[2..], 1);
    assert s == "/*" + s[2..];
  }

  lemma DollarOpen(s: string)
    requires s != "" && TagLen(s) > 0 && First(s).Open?
    ensures var t := s[..TagLen(s)]; First(s) == Open(DollarBlock(t)) && Unterminated(s, DollarBlock(t))
  {
    hide QuoteLen, BlockLen, DollarLen, LineLen, PartLen, IsTag, Lacks;
    var t, b := s[..TagLen(s)], s[TagLen(s)..];
    TagFound(s);
    DollarOpens(s, t);
    DollarOpenIff(b, t);
    assert s == t + b;
  }

  lemma FirstOpenSound(s: string, left: Unclosed)
    requires s != "" && First(s) == Open(left)
    ensures Unterminated(s, left)
  {
    hide QuoteLen, BlockLen, DollarLen, LineLen, PartLen, TagLen, Unterminated;
    if "/*" <= s { BlockOpen(s); }
    else if s[0] == '\'' { QuotedOpen(s, '\'', SingleQuote); }
    else if s[0] == '"' { QuotedOpen(s, '"', DoubleQuote); }
    else if !("--" <= s) && TagLen(s) > 0 { DollarOpen(s); }
  }

  lemma FirstOpenComplete(s: string, left: Unclosed)
    requires Unterminated(s, left)
    ensures s != "" && First(s) == Open(left)
  {
    hide QuoteLen, BlockLen, DollarLen, LineLen, PartLen, Tokenized, StaysOpen, Render, Doubled, Lacks;
    match left
    case SingleQuote =>
      var body :| s == "'" + Doubled(body, '\'');
      assert s[1..] == Doubled(body, '\'');
      QuoteOpenComplete(body, '\'', SingleQuote);
    case DoubleQuote =>
      var body :| s == "\"" + Doubled(body, '"');
      assert s[1..] == Doubled(body, '"');
      QuoteOpenComplete(body, '"', DoubleQuote);
    case BlockComment =>
      var items :| Tokenized(items) && StaysOpen(items, 1) && s == "/*" + Render(items);
      assert s[2..] == Render(items);
      BlockOpenComplete(items, 1);
    case DollarBlock(t) =>
      var b :| s == t + b && Lacks(b, t);
      assert s[|t|..] == b;
      DollarOpens(s, t);
      DollarOpenIff(b, t);
  }

  // ----- The whole text -----

  /** `s` is whole lexemes and then a rest. */
  ghost predicate LexesUpTo(s: string, atoms: seq<string>, rest: string)
  {
    s == Concat(atoms) + rest && forall k :: 0 <= k < |atoms| ==> IsLexeme(atoms[k], Concat(atoms[k + 1..]) + rest)
  }

  lemma {:induction false} OpenSound(s: string, left: Unclosed) returns (atoms: seq<string>, rest: string)
    requires Pieces(s) == Open(left)
    ensures LexesUpTo(s, atoms, rest) && Unterminated(rest, left)
    decreases |s|
  {
    hide QuoteLen, LineLen, BlockLen, DollarLen, PartLen, TagLen, Unterminated, First;
    if First(s).Open? {
      atoms, rest := [], s;
      FirstOpenSound(s, left);
      assert Concat([]) + s == s;
    } else {
      var n := First(s).value;
      var tail, more := OpenSound(s[n..], left);
      atoms, rest := [s[..n]] + tail, more;
      assert atoms[1..] == tail && s == s[..n] + s[n..];
      assert Concat(atoms) + rest == s[..n] + (Concat(tail) + rest);
      SoundHere(s, n);
      forall k | 0 <= k < |atoms| ensures IsLexeme(atoms[k], Concat(atoms[k + 1..]) + rest) {
        if k > 0 { assert atoms[k] == tail[k - 1] && atoms[k + 1..] == tail[k..]; }
      }
    }
  }

  lemma SoundHere(s: string, n: nat)
    requires s != "" && First(s) == Done(n)
    ensures 1 <= n <= |s| && IsLexeme(s[..n], s[n..])
  {
    hide QuoteLen, LineLen, BlockLen, DollarLen, PartLen, TagLen;
    assert s == s[..n] + s[n..];
    FirstSound(s[..n], s[n..]);
  }

  lemma {:induction false} OpenComplete(s: string, atoms: seq<string>, rest: string, left: Unclosed)
    requires LexesUpTo(s, atoms, rest) && Unterminated(rest, left)
    ensures Pieces(s) == Open(left)
    decreases |atoms|
  {
    hide First, IsLexeme, Unterminated;
    if atoms == [] {
      FirstOpenComplete(rest, left);
      assert s == rest;
    } else {
      var a, tail := atoms[0], atoms[1..];
      var more := Concat(tail) + rest;
      assert IsLexeme(a, Concat(atoms[0 + 1..]) + rest) && s == a + more;
      LexemeNonempty(a, more);
      FirstIff(a, more);
      forall k | 0 <= k < |tail| ensures IsLexeme(tail[k], Concat(tail[k + 1..]) + rest) {
        assert tail[k] == atoms[k + 1] && tail[k + 1..] == atoms[k + 1 + 1..];
      }
      assert s[|a|..] == more;
      OpenComplete(more, tail, rest, left);
    }
  }

  /**
    The splitter refuses a text, naming what is open, exactly when the text is whole lexemes followed
    by a quoted literal, block comment or dollar block of that kind whose end it does not reach.
   */
  lemma RefusesExactly(s: string, left: Unclosed)
    ensures Statements(s) == Open(left) <==> exists atoms, rest :: LexesUpTo(s, atoms, rest) && Unterminated(rest, left)
  {
    hide Pieces, LexesUpTo, Unterminated;
    if Statements(s) == Open(left) { var atoms, rest := OpenSound(s, left); }
    forall atoms, rest | LexesUpTo(s, atoms, rest) && Unterminated(rest, left) ensures Statements(s) == Open(left) {
      OpenComplete(s, atoms, rest, left);
    }
  }
}
