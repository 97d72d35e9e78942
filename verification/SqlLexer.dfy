/**
  The lexical grammar behind `splitMigrationSql`: which stretch of migration text is one
  lexeme. `First` scans; `IsLexeme` says what the scan means without scanning.
 */
module SqlLexer {

  datatype Unclosed = SingleQuote | DoubleQuote | BlockComment | DollarBlock(tag: string)

  datatype Scan<+T> = Done(value: T) | Open(left: Unclosed)

  // ----- Scanning one lexeme -----

  function Plus(k: nat, r: Scan<nat>): (sum: Scan<nat>)
  {
    if r.Done? then Done(k + r.value) else r
  }

  /** Length of a line comment's remainder: through the first newline, or to the end of the text. */
  function LineLen(s: string): (n: nat)
    ensures n <= |s|
  {
    if s == "" then 0 else if s[0] == '\n' then 1 else 1 + LineLen(s[1..])
  }

  /** Length of a quoted lexeme's remainder after its opening quote `q`; a doubled quote is content. */
  function QuoteLen(s: string, q: char, left: Unclosed): (r: Scan<nat>)
    ensures r.Done? ==> 1 <= r.value <= |s| && s[r.value - 1] == q
    ensures r.Open? ==> r.left == left
  {
    if s == "" then Open(left)
    else if s[0] != q then Plus(1, QuoteLen(s[1..], q, left))
    else if |s| > 1 && s[1] == q then Plus(2, QuoteLen(s[2..], q, left))
    else Done(1)
  }

  /** Length of a block comment's remainder while `depth` openers are unmatched. */
  function BlockLen(s: string, depth: nat): (r: Scan<nat>)
    requires depth > 0
    ensures r.Done? ==> 2 <= r.value <= |s| && s[r.value - 1] == '/'
    ensures r.Open? ==> r.left == BlockComment
    decreases |s|
  {
    if s == "" then Open(BlockComment)
    else if |s| > 1 && s[0] == '/' && s[1] == '*' then Plus(2, BlockLen(s[2..], depth + 1))
    else if |s| > 1 && s[0] == '*' && s[1] == '/' then
      if depth == 1 then Done(2) else Plus(2, BlockLen(s[2..], depth - 1))
    else Plus(1, BlockLen(s[1..], depth))
  }

  /** Length of a dollar block's remainder after its opening tag. */
  function DollarLen(s: string, tag: string): (r: Scan<nat>)
    requires tag != ""
    ensures r.Done? ==> |tag| <= r.value <= |s|
    ensures r.Open? ==> r.left == DollarBlock(tag)
  {
    if tag <= s then Done(|tag|)
    else if s == "" then Open(DollarBlock(tag))
    else Plus(1, DollarLen(s[1..], tag))
  }

  predicate IsTagStart(c: char) { 'A' <= c <= 'Z' || 'a' <= c <= 'z' || c == '_' }

  predicate IsTagPart(c: char) { IsTagStart(c) || '0' <= c <= '9' }

  function PartLen(s: string): (n: nat)
    ensures n <= |s|
    ensures forall k :: 0 <= k < n ==> IsTagPart(s[k])
    ensures n < |s| ==> !IsTagPart(s[n])
  {
    if s == "" || !IsTagPart(s[0]) then 0 else 1 + PartLen(s[1..])
  }

  /** Length of the dollar tag that opens `s`, or zero when none does. */
  function TagLen(s: string): (n: nat)
    ensures n <= |s|
    ensures n > 0 ==> n >= 2 && s[0] == '$' && s[n - 1] == '$'
  {
    if |s| < 2 || s[0] != '$' then 0
    else if s[1] == '$' then 2
    else if !IsTagStart(s[1]) then 0
    else
      var k := PartLen(s[2..]);
      if 2 + k < |s| && s[2 + k] == '$' then k + 3 else 0
  }

  /** Length of the lexeme that starts a nonempty text in normal mode. */
  function First(s: string): (r: Scan<nat>)
    requires s != ""
    ensures r.Done? ==> 1 <= r.value <= |s|
    ensures s[0] == ';' ==> r == Done(1)
  {
    if |s| > 1 && s[0] == '-' && s[1] == '-' then Done(2 + LineLen(s[2..]))
    else if |s| > 1 && s[0] == '/' && s[1] == '*' then Plus(2, BlockLen(s[2..], 1))
    else if s[0] == '\'' then Plus(1, QuoteLen(s[1..], '\'', SingleQuote))
    else if s[0] == '"' then Plus(1, QuoteLen(s[1..], '"', DoubleQuote))
    else if TagLen(s) > 0 then Plus(TagLen(s), DollarLen(s[TagLen(s)..], s[..TagLen(s)]))
    else Done(1)
  }

  // ----- Cutting a text into pieces -----

  function Prepend(a: string, ps: seq<string>): (r: seq<string>)
    requires ps != []
    ensures |r| == |ps|
  {
    [a + ps[0]] + ps[1..]
  }

  /** The untrimmed pieces of a text: it is cut at every lexeme that is a bare semicolon. */
  function Pieces(s: string): (r: Scan<seq<string>>)
    ensures r.Done? ==> r.value != []
    decreases |s|
  {
    if s == "" then Done([""])
    else
      match First(s)
      case Open(left) => Open(left)
      case Done(n) =>
        match Pieces(s[n..])
        case Open(left) => Open(left)
        case Done(ps) => if s[0] == ';' then Done([""] + ps) else Done(Prepend(s[..n], ps))
  }

  /** White space and line terminators of ECMAScript, the characters `trim` removes. */
  predicate IsSpace(c: char)
  {
    '\t' <= c <= '\r' || c == ' ' || c == '\U{A0}' || c == '\U{1680}' ||
    '\U{2000}' <= c <= '\U{200A}' || c == '\U{2028}' || c == '\U{2029}' ||
    c == '\U{202F}' || c == '\U{205F}' || c == '\U{3000}' || c == '\U{FEFF}'
  }

  function TrimStart(s: string): (r: string)
    ensures r != "" ==> !IsSpace(r[0])
  {
    if s != "" && IsSpace(s[0]) then TrimStart(s[1..]) else s
  }

  function TrimEnd(s: string): (r: string)
    ensures r != "" ==> !IsSpace(r[|r| - 1])
    ensures r <= s
    ensures forall k :: |r| <= k < |s| ==> IsSpace(s[k])
  {
    if s != "" && IsSpace(s[|s| - 1]) then TrimEnd(s[..|s| - 1]) else s
  }

  function Trim(s: string): string { TrimEnd(TrimStart(s)) }

  /** `finishStatement` over all pieces: trim each and drop the empty ones. */
  function Clean(ps: seq<string>): (r: seq<string>)
    ensures "" !in r
  {
    if ps == [] then []
    else (if Trim(ps[0]) == "" then [] else [Trim(ps[0])]) + Clean(ps[1..])
  }

  function Statements(s: string): (r: Scan<seq<string>>)
  {
    match Pieces(s)
    case Open(left) => Open(left)
    case Done(ps) => Done(Clean(ps))
  }

  lemma PrependTwice(a: string, b: string, ps: seq<string>)
    requires ps != []
    ensures Prepend(a, Prepend(b, ps)) == Prepend(a + b, ps)
  {
    assert a + (b + ps[0]) == a + b + ps[0];
  }

  lemma {:induction false} CleanAppend(a: seq<string>, b: seq<string>)
    ensures Clean(a + b) == Clean(a) + Clean(b)
  {
    if a == [] {
      assert a + b == b;
    } else {
      assert (a + b)[1..] == a[1..] + b;
      CleanAppend(a[1..], b);
    }
  }

  // ----- What a lexeme is, without scanning -----

  /** A literal's body with every quote character doubled. */
  function Doubled(body: string, q: char): (r: string)
  {
    if body == "" then "" else (if body[0] == q then [q, q] else [body[0]]) + Doubled(body[1..], q)
  }

  datatype Item = Opener | Closer | Other(c: char)

  function ItemText(i: Item): (t: string)
    ensures t != ""
  {
    match i case Opener => "/*" case Closer => "*/" case Other(c) => [c]
  }

  function Render(items: seq<Item>): string
  {
    if items == [] then "" else ItemText(items[0]) + Render(items[1..])
  }

  /** No single character of the rendering hides the start of a marker. */
  ghost predicate Tokenized(items: seq<Item>)
  {
    forall k :: 0 <= k < |items| && items[k].Other? ==>
      var next := Render(items[k + 1..]);
      !("/*" <= [items[k].c] + next) && !("*/" <= [items[k].c] + next)
  }

  /** Unmatched openers after these items, when `depth` were unmatched before. */
  function Balance(items: seq<Item>, depth: int): int
  {
    if items == [] then depth
    else Balance(items[1..], depth + (match items[0] case Opener => 1 case Closer => -1 case Other(_) => 0))
  }

  /** The items close `depth` levels exactly at their end. */
  ghost predicate Closes(items: seq<Item>, depth: nat)
  {
    Balance(items, depth) == 0 && forall k :: 0 <= k < |items| ==> Balance(items[..k], depth) > 0
  }

  /** A dollar tag: two dollar signs around nothing or an identifier. */
  ghost predicate IsTag(t: string)
  {
    |t| >= 2 && t[0] == '$' && t[|t| - 1] == '$' &&
    (|t| > 2 ==> IsTagStart(t[1]) && forall k :: 2 <= k < |t| - 1 ==> IsTagPart(t[k]))
  }

  ghost predicate IsLineComment(a: string, rest: string)
  {
    exists body :: '\n' !in body && (a == "--" + body + "\n" || (a == "--" + body && rest == ""))
  }

  ghost predicate IsBlockComment(a: string)
  {
    exists items :: Tokenized(items) && Closes(items, 1) && a == "/*" + Render(items)
  }

  ghost predicate IsQuoted(a: string, rest: string, q: char)
  {
    (exists body :: a == [q] + Doubled(body, q) + [q]) && !([q] <= rest)
  }

  /** `b` ends in `t` and holds no earlier occurrence of it. */
  ghost predicate EndsFirstIn(b: string, t: string)
  {
    |t| <= |b| && forall k :: 0 <= k <= |b| - |t| ==> (t <= b[k..] <==> k == |b| - |t|)
  }

  /** A dollar block: its closing tag is the first occurrence of the tag after the opening one. */
  ghost predicate IsDollarBlock(a: string)
  {
    exists t, b :: IsTag(t) && EndsFirstIn(b, t) && a == t + b
  }

  /** An ordinary character: nothing longer starts at it. */
  ghost predicate IsPlain(a: string, rest: string)
  {
    |a| == 1 && a[0] != '\'' && a[0] != '"' && !("--" <= a + rest) && !("/*" <= a + rest) &&
    !(exists t :: IsTag(t) && t <= a + rest)
  }

  ghost predicate IsLexeme(a: string, rest: string)
  {
    IsLineComment(a, rest) || IsBlockComment(a) || IsQuoted(a, rest, '\'') || IsQuoted(a, rest, '"') ||
    IsDollarBlock(a) || IsPlain(a, rest)
  }

  function Concat(atoms: seq<string>): string
  {
    if atoms == [] then "" else atoms[0] + Concat(atoms[1..])
  }

  /** `atoms` is a lexing of `s`: they spell it out and each is a lexeme before what follows it. */
  ghost predicate LexesAs(s: string, atoms: seq<string>)
  {
    Concat(atoms) == s && forall k :: 0 <= k < |atoms| ==> IsLexeme(atoms[k], Concat(atoms[k + 1..]))
  }

  /** Cut a lexing at its bare semicolons. */
  function CutAt(atoms: seq<string>): (ps: seq<string>)
    ensures ps != []
  {
    if atoms == [] then [""]
    else if atoms[0] == ";" then [""] + CutAt(atoms[1..])
    else Prepend(atoms[0], CutAt(atoms[1..]))
  }
}
