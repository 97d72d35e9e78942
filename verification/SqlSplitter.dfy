/** The six-mode scanner of `splitMigrationSql`, proved to return the statements of the grammar. */
module SqlSplitter {
  import opened SqlLexer
  import opened SqlCharacters

  datatype Mode = Normal | SingleQuoted | DoubleQuoted | LineCommented | BlockCommented | DollarQuoted

  /** How much of `rest` the open lexeme still covers. */
  function OpenLen(mode: Mode, depth: nat, tag: string, rest: string): (r: Scan<nat>)
    requires mode == BlockCommented ==> depth > 0
    requires mode == DollarQuoted ==> tag != ""
    ensures r.Done? ==> r.value <= |rest|
  {
    match mode
    case Normal => Done(0)
    case SingleQuoted => QuoteLen(rest, '\'', SingleQuote)
    case DoubleQuoted => QuoteLen(rest, '"', DoubleQuote)
    case LineCommented => Done(LineLen(rest))
    case BlockCommented => BlockLen(rest, depth)
    case DollarQuoted => DollarLen(rest, tag)
  }

  /** The statements still to come, when `covered` says where the open lexeme ends in `rest`. */
  function Resume(covered: Scan<nat>, cur: string, rest: string): (r: Scan<seq<string>>)
    requires covered.Done? ==> covered.value <= |rest|
  {
    match covered
    case Open(left) => Open(left)
    case Done(n) =>
      match Pieces(rest[n..])
      case Open(left) => Open(left)
      case Done(ps) => Done(Clean(Prepend(cur + rest[..n], ps)))
  }

  function Then(before: seq<string>, r: Scan<seq<string>>): Scan<seq<string>>
  {
    if r.Done? then Done(before + r.value) else r
  }

  function Finish(cur: string): seq<string> { if Trim(cur) == "" then [] else [Trim(cur)] }

  /** Moving the next `n` characters into the statement changes nothing. */
  lemma Consume(covered: Scan<nat>, later: Scan<nat>, cur: string, s: string, n: nat)
    requires n <= |s| && covered == Plus(n, later)
    requires later.Done? ==> later.value <= |s| - n
    ensures Resume(covered, cur, s) == Resume(later, cur + s[..n], s[n..])
  {
    hide Pieces, Clean;
    if later.Done? {
      var m := later.value;
      assert s[n + m..] == s[n..][m..];
      assert cur + s[..n + m] == cur + s[..n] + s[n..][..m];
    }
  }

  /** In normal mode an unread text other than a bare semicolon opens its first lexeme. */
  lemma OpenFirst(cur: string, s: string)
    requires s != "" && s[0] != ';'
    ensures Resume(Done(0), cur, s) == Resume(First(s), cur, s)
  {
    hide First, Clean;
    assert s[0..] == s && cur + s[..0] == cur;
    if First(s).Done? && Pieces(s[First(s).value..]).Done? {
      var n := First(s).value;
      PrependTwice(cur, s[..n], Pieces(s[n..]).value);
    }
  }

  lemma CutHere(cur: string, s: string)
    requires s != "" && s[0] == ';'
    ensures Resume(Done(0), cur, s) == Then(Finish(cur), Resume(Done(0), "", s[1..]))
  {
    hide First, Trim;
    assert s[0..] == s && cur + s[..0] == cur && First(s) == Done(1);
    assert s[1..][0..] == s[1..] && "" + s[1..][..0] == "";
    if Pieces(s[1..]).Done? {
      var ps := Pieces(s[1..]).value;
      assert cur + "" == cur && "" + ps[0] == ps[0];
      assert Prepend(cur, [""] + ps) == [cur] + ps;
      assert Prepend("", ps) == ps;
      CleanAppend([cur], ps);
    }
  }

  // ----- How each mode covers the next characters -----

  lemma InLine(s: string)
    requires s != ""
    ensures OpenLen(LineCommented, 0, "", s) ==
            Plus(1, OpenLen(if s[0] == '\n' then Normal else LineCommented, 0, "", s[1..]))
  {
  }

  lemma InBlock(s: string, depth: nat)
    requires s != "" && depth > 0
    ensures OpenLen(BlockCommented, depth, "", s) ==
            if |s| > 1 && s[0] == '/' && s[1] == '*' then Plus(2, OpenLen(BlockCommented, depth + 1, "", s[2..]))
            else if |s| > 1 && s[0] == '*' && s[1] == '/' then
              Plus(2, OpenLen(if depth == 1 then Normal else BlockCommented, depth - 1, "", s[2..]))
            else Plus(1, OpenLen(BlockCommented, depth, "", s[1..]))
  {
  }

  lemma InDollar(s: string, tag: string)
    requires s != "" && tag != ""
    ensures OpenLen(DollarQuoted, 0, tag, s) ==
            if tag <= s then Plus(|tag|, OpenLen(Normal, 0, "", s[|tag|..]))
            else Plus(1, OpenLen(DollarQuoted, 0, tag, s[1..]))
  {
  }

  predicate IsQuoteMode(mode: Mode) { mode == SingleQuoted || mode == DoubleQuoted }

  function QuoteOf(mode: Mode): char { if mode == SingleQuoted then '\'' else '"' }

  lemma InQuote(mode: Mode, s: string)
    requires s != "" && IsQuoteMode(mode)
    ensures OpenLen(mode, 0, "", s) ==
            if s[0] != QuoteOf(mode) then Plus(1, OpenLen(mode, 0, "", s[1..]))
            else if |s| > 1 && s[1] == QuoteOf(mode) then Plus(2, OpenLen(mode, 0, "", s[2..]))
            else Plus(1, OpenLen(Normal, 0, "", s[1..]))
  {
  }

  lemma AtNormal(s: string)
    requires s != ""
    ensures First(s) ==
            if |s| > 1 && s[0] == '-' && s[1] == '-' then Plus(2, OpenLen(LineCommented, 0, "", s[2..]))
            else if |s| > 1 && s[0] == '/' && s[1] == '*' then Plus(2, OpenLen(BlockCommented, 1, "", s[2..]))
            else if s[0] == '\'' then Plus(1, OpenLen(SingleQuoted, 0, "", s[1..]))
            else if s[0] == '"' then Plus(1, OpenLen(DoubleQuoted, 0, "", s[1..]))
            else if s[0] == '$' && TagLen(s) > 0 then
              Plus(TagLen(s), OpenLen(DollarQuoted, 0, s[..TagLen(s)], s[TagLen(s)..]))
            else Plus(1, OpenLen(Normal, 0, "", s[1..]))
  {
    hide QuoteLen, LineLen, BlockLen, DollarLen;
  }

  /** How much the open lexeme covers; the depth and the tag matter in their own mode only. */
  function Covered(mode: Mode, depth: nat, tag: string, rest: string): (r: Scan<nat>)
    requires mode == BlockCommented ==> depth > 0
    requires mode == DollarQuoted ==> tag != ""
    ensures r.Done? ==> r.value <= |rest|
  {
    OpenLen(mode, if mode == BlockCommented then depth else 0, if mode == DollarQuoted then tag else "", rest)
  }

  /** `finishStatement`: keep the trimmed statement unless nothing is left of it. */
  method FinishStatement(statements: seq<string>, statement: string) returns (more: seq<string>)
    ensures more == statements + Finish(statement)
    ensures if AllWhite(statement) then more == statements
            else |more| == |statements| + 1 && Trims(statement, more[|statements|])
  {
    TrimTrims(statement);
    hide Trim, AllWhite, Trims;
    var trimmed := Trim(statement);
    more := if trimmed != "" then statements + [trimmed] else statements;
  }

  /** One step of the scanner outside a bare semicolon: what it moves and where it ends up. */
  method Step(ddl: string, index: nat, mode: Mode, blockCommentDepth: nat, dollarDelimiter: string)
    returns (taken: string, mode': Mode, blockCommentDepth': nat, dollarDelimiter': string)
    requires index < |ddl|
    requires mode == BlockCommented ==> blockCommentDepth > 0
    requires mode == DollarQuoted ==> dollarDelimiter != ""
    requires !(mode == Normal && ddl[index] == ';')
    ensures taken != "" && taken <= ddl[index..]
    ensures mode' == BlockCommented ==> blockCommentDepth' > 0
    ensures mode' == DollarQuoted ==> dollarDelimiter' != ""
    ensures (if mode == Normal then First(ddl[index..]) else Covered(mode, blockCommentDepth, dollarDelimiter, ddl[index..])) ==
            Plus(|taken|, Covered(mode', blockCommentDepth', dollarDelimiter', ddl[index..][|taken|..]))
  {
    hide OpenLen, First, TagLen;
    var rest := ddl[index..];
    var character := rest[0];
    var next := if |rest| > 1 then [rest[1]] else "";
    taken, mode', blockCommentDepth', dollarDelimiter' := [character], mode, blockCommentDepth, dollarDelimiter;
    match mode
    case Normal =>
      AtNormal(rest);
      if character == '-' && next == "-" {
        taken, mode' := "--", LineCommented;
      } else if character == '/' && next == "*" {
        taken, mode', blockCommentDepth' := "/*", BlockCommented, 1;
      } else if character == '\'' {
        mode' := SingleQuoted;
      } else if character == '"' {
        mode' := DoubleQuoted;
      } else if character == '$' && TagLen(rest) > 0 {
        dollarDelimiter' := rest[..TagLen(rest)];
        taken, mode' := dollarDelimiter', DollarQuoted;
      }
    case LineCommented =>
      InLine(rest);
      if character == '\n' { mode' := Normal; }
    case BlockCommented =>
      InBlock(rest, blockCommentDepth);
      if character == '/' && next == "*" {
        taken, blockCommentDepth' := "/*", blockCommentDepth + 1;
      } else if character == '*' && next == "/" {
        taken, blockCommentDepth' := "*/", blockCommentDepth - 1;
        if blockCommentDepth' == 0 { mode' := Normal; }
      }
    case DollarQuoted =>
      InDollar(rest, dollarDelimiter);
      if dollarDelimiter <= rest {
        taken, dollarDelimiter', mode' := dollarDelimiter, "", Normal;
      }
    case _ =>
      InQuote(mode, rest);
      if character == QuoteOf(mode) {
        if next == [character] { taken := [character] + next; } else { mode' := Normal; }
      }
  }

  lemma Start(ddl: string)
    ensures Statements(ddl) == Then([], Resume(Covered(Normal, 0, "", ddl[0..]), "", ddl[0..]))
  {
    hide Pieces, Clean;
    assert ddl[0..] == ddl && ddl[0..][0..] == ddl && "" + ddl[..0] == "";
    assert Covered(Normal, 0, "", ddl) == Done(0);
    if Pieces(ddl).Done? {
      var ps := Pieces(ddl).value;
      assert "" + ps[0] == ps[0];
      assert Prepend("", ps) == ps;
      assert [] + Clean(ps) == Clean(ps);
    }
  }

  /** Splits migration text into its statements, or reports the lexeme its end leaves open. */
  method SplitMigrationSql(ddl: string) returns (r: Scan<seq<string>>)
    ensures r == Statements(ddl)
    ensures r.Done? ==> Pieces(ddl).Done? && Trimmed(Pieces(ddl).value, r.value)
  {
    hide Covered, Resume, First, Clean, Pieces, Statements, Finish, Trimmed, AllWhite, Trims;
    if Statements(ddl).Done? { OnlyWhiteSpaceIsLost(ddl); }
    var statements: seq<string> := [];
    var statement := "";
    var mode := Normal;
    var blockCommentDepth: nat := 0;
    var dollarDelimiter := "";
    var index := 0;
    Start(ddl);
    while index < |ddl|
      invariant index <= |ddl|
      invariant mode == BlockCommented ==> blockCommentDepth > 0
      invariant mode == DollarQuoted ==> dollarDelimiter != ""
      invariant Statements(ddl) == Then(statements,
        Resume(Covered(mode, blockCommentDepth, dollarDelimiter, ddl[index..]), statement, ddl[index..]))
    {
      ghost var rest := ddl[index..];
      if mode == Normal && ddl[index] == ';' {
        NormalCovers(blockCommentDepth, dollarDelimiter, statement, rest);
        NormalCovers(blockCommentDepth, dollarDelimiter, "", rest[1..]);
        CutHere(statement, rest);
        ThenThen(statements, Finish(statement), Resume(Done(0), "", rest[1..]));
        assert ddl[index + 1..] == rest[1..];
        statements := FinishStatement(statements, statement);
        statement := "";
        index := index + 1;
      } else {
        ghost var covered := if mode == Normal then First(rest) else Covered(mode, blockCommentDepth, dollarDelimiter, rest);
        if mode == Normal {
          NormalCovers(blockCommentDepth, dollarDelimiter, statement, rest);
          OpenFirst(statement, rest);
        }
        var taken;
        taken, mode, blockCommentDepth, dollarDelimiter := Step(ddl, index, mode, blockCommentDepth, dollarDelimiter);
        Consume(covered, Covered(mode, blockCommentDepth, dollarDelimiter, rest[|taken|..]), statement, rest, |taken|);
        assert rest[..|taken|] == taken && ddl[index + |taken|..] == rest[|taken|..];
        statement := statement + taken;
        index := index + |taken|;
      }
    }
    assert ddl[index..] == "";
    EndCovers(mode, blockCommentDepth, dollarDelimiter, statement);
    match mode
    case SingleQuoted => r := Open(SingleQuote);
    case DoubleQuoted => r := Open(DoubleQuote);
    case BlockCommented => r := Open(BlockComment);
    case DollarQuoted => r := Open(DollarBlock(dollarDelimiter));
    case _ =>
      statements := FinishStatement(statements, statement);
      r := Done(statements);
  }

  lemma NormalCovers(depth: nat, tag: string, cur: string, s: string)
    ensures Covered(Normal, depth, tag, s) == Done(0)
  {
  }

  lemma ThenThen(a: seq<string>, b: seq<string>, r: Scan<seq<string>>)
    ensures Then(a, Then(b, r)) == Then(a + b, r)
  {
    if r.Done? { assert a + (b + r.value) == a + b + r.value; }
  }

  lemma EndCovers(mode: Mode, depth: nat, tag: string, cur: string)
    requires mode == BlockCommented ==> depth > 0
    requires mode == DollarQuoted ==> tag != ""
    ensures Resume(Covered(mode, depth, tag, ""), cur, "") ==
            match mode
            case SingleQuoted => Open(SingleQuote)
            case DoubleQuoted => Open(DoubleQuote)
            case BlockCommented => Open(BlockComment)
            case DollarQuoted => Open(DollarBlock(tag))
            case Normal => Done(Finish(cur))
            case LineCommented => Done(Finish(cur))
  {
    hide Trim, Finish;
    assert cur + "" == cur && ""[0..] == "";
    assert Prepend(cur, [""]) == [cur];
    CleanOne(cur);
  }

  lemma CleanOne(cur: string)
    ensures Clean([cur]) == Finish(cur)
  {
    hide Trim;
    assert [cur][1..] == [];
  }
}
