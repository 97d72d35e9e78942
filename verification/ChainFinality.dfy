/**
  Payment evidence from a chain whose head may reorganise between two RPC calls, while its
  finalized prefix only grows. Hashes and words are numbers; case is already folded.
 */
module ChainFinality {
  import opened Tables

  type Hash = nat

  // ----- The chain -----

  datatype Data = Empty | Word(value: nat) | Blob

  datatype Log = Log(address: nat, topics: seq<nat>, data: Data)

  datatype Execution = Execution(succeeded: bool, logs: seq<Log>)

  datatype Block = Block(number: nat, timestamp: nat, transactions: map<Hash, Execution>)

  /** One moment: the canonical block at each height, and the height that is final. */
  datatype View = View(blocks: seq<Hash>, finalized: nat)

  /** What every block hash stands for, and the moments in order. */
  datatype Chain = Chain(content: map<Hash, Block>, history: seq<View>)

  ghost predicate ViewOk(content: map<Hash, Block>, v: View)
  {
    v.finalized < |v.blocks| &&
    (forall i :: 0 <= i < |v.blocks| ==> v.blocks[i] in content && content[v.blocks[i]].number == i) &&
    forall i, j, tx ::
      (0 <= i < |v.blocks| && 0 <= j < |v.blocks| &&
       tx in content[v.blocks[i]].transactions && tx in content[v.blocks[j]].transactions) ==> i == j
  }

  /** The final prefix is kept; everything above it may be replaced. */
  predicate Evolves(v: View, w: View)
  {
    v.finalized <= w.finalized && v.finalized < |v.blocks| && v.finalized < |w.blocks| &&
    forall i :: 0 <= i <= v.finalized ==> w.blocks[i] == v.blocks[i]
  }

  ghost predicate ChainOk(c: Chain)
  {
    (forall t :: 0 <= t < |c.history| ==> ViewOk(c.content, c.history[t])) &&
    forall t :: 0 <= t < |c.history| - 1 ==> Evolves(c.history[t], c.history[t + 1])
  }

  /** The block is canonical at moment `t`. */
  predicate Canonical(c: Chain, t: nat, number: nat, hash: Hash)
    requires t < |c.history|
  {
    number < |c.history[t].blocks| && c.history[t].blocks[number] == hash
  }

  lemma {:induction false} FinalStays(c: Chain, t: nat, u: nat, n: nat)
    requires ChainOk(c) && t <= u < |c.history| && n <= c.history[t].finalized
    ensures n <= c.history[u].finalized < |c.history[u].blocks| && n < |c.history[t].blocks|
    ensures c.history[u].blocks[n] == c.history[t].blocks[n]
    decreases u - t
  {
    assert ViewOk(c.content, c.history[t]);
    if t < u {
      assert Evolves(c.history[t], c.history[t + 1]);
      FinalStays(c, t + 1, u, n);
    }
  }

  // ----- Replies -----

  /** `Down` is a failed call, `Malformed` a reply that fails the shape checks. */
  datatype Reply<T> = Down | Malformed | Got(value: Option<T>)

  datatype Head = Head(number: nat)
  datatype Numbered = Numbered(number: nat, hash: Hash)
  datatype Stamped = Stamped(number: nat, hash: Hash, timestamp: nat)

  datatype Receipt = Receipt(succeeded: bool, tx: Hash, hash: Hash, number: nat, logs: seq<Log>)

  predicate HeadHonest(c: Chain, t: nat, r: Reply<Head>)
    requires t < |c.history|
  {
    r.Got? && r.value.Some? ==> r.value.value.number == c.history[t].finalized
  }

  /** `eth_getBlockByNumber` with a number. */
  predicate NumberedHonest(c: Chain, t: nat, n: nat, r: Reply<Numbered>)
    requires t < |c.history|
  {
    r.Got? ==> match r.value
      case None => n >= |c.history[t].blocks|
      case Some(b) => b.number == n && Canonical(c, t, n, b.hash)
  }

  /** `eth_getBlockByHash`: a node may also have forgotten an orphaned block. */
  predicate StampedHonest(c: Chain, hash: Hash, r: Reply<Stamped>)
  {
    r.Got? && r.value.Some? ==>
      hash in c.content && r.value.value == Stamped(c.content[hash].number, hash, c.content[hash].timestamp)
  }

  predicate ReceiptHonest(c: Chain, t: nat, tx: Hash, r: Receipt)
    requires t < |c.history|
  {
    r.tx == tx && Canonical(c, t, r.number, r.hash) && r.hash in c.content && tx in c.content[r.hash].transactions &&
    Execution(r.succeeded, r.logs) == c.content[r.hash].transactions[tx]
  }

  // ----- receiptFinality -----

  datatype Evidence = Evidence(blockTime: nat, number: nat, hash: Hash)

  datatype Finality = Finalized(evidence: Evidence) | CanonicalPending | Pending | Unavailable

  /** A date holds at most this many seconds. */
  const MAX_DATE: nat := 8_640_000_000_000

  /** `receiptFinality`, over the replies to its calls in the order it makes them. */
  function ReceiptFinality(receipt: Receipt, head: Reply<Head>, numbered: Reply<Numbered>, stamped: Reply<Stamped>): Finality
  {
    if !head.Got? || head.value.None? then Unavailable
    else if head.value.value.number < receipt.number then CanonicalPending
    else if !numbered.Got? then Unavailable
    else if numbered.value.None? then Pending
    else if numbered.value.value.hash != receipt.hash || numbered.value.value.number != receipt.number then Pending
    else if !stamped.Got? || stamped.value.None? || stamped.value.value.hash != receipt.hash ||
            stamped.value.value.number != receipt.number || stamped.value.value.timestamp > MAX_DATE then Unavailable
    else Finalized(Evidence(stamped.value.value.timestamp, receipt.number, receipt.hash))
  }

  /** The three calls of one run, at moments that only move forward. */
  datatype Reads = Reads(head: Reply<Head>, numbered: Reply<Numbered>, stamped: Reply<Stamped>, headAt: nat, numberedAt: nat)

  predicate Honest(c: Chain, receipt: Receipt, r: Reads)
  {
    r.headAt <= r.numberedAt < |c.history| && HeadHonest(c, r.headAt, r.head) &&
    NumberedHonest(c, r.numberedAt, receipt.number, r.numbered) && StampedHonest(c, receipt.hash, r.stamped)
  }

  function Settle(receipt: Receipt, r: Reads): Finality { ReceiptFinality(receipt, r.head, r.numbered, r.stamped) }

  /** A `finalized` answer is for ever: at every later moment the block is canonical and final. */
  lemma FinalizedForever(c: Chain, receipt: Receipt, r: Reads, t: nat)
    requires ChainOk(c) && Honest(c, receipt, r) && Settle(receipt, r).Finalized? && r.numberedAt <= t < |c.history|
    ensures Canonical(c, t, receipt.number, receipt.hash) && receipt.number <= c.history[t].finalized
    ensures receipt.hash in c.content &&
      Settle(receipt, r).evidence == Evidence(c.content[receipt.hash].timestamp, receipt.number, receipt.hash)
  {
    hide ViewOk, Evolves;
    FinalStays(c, r.headAt, r.numberedAt, receipt.number);
    FinalStays(c, r.numberedAt, t, receipt.number);
  }

  /**
    When every call is answered, `finalized` means exactly: the final head had reached the block's
    height, and then the block was canonical.
   */
  lemma FinalizedExactly(c: Chain, receipt: Receipt, r: Reads)
    requires ChainOk(c) && Honest(c, receipt, r)
    requires r.head.Got? && r.head.value.Some? && r.numbered.Got? && r.stamped.Got? && r.stamped.value.Some?
    requires receipt.hash in c.content && c.content[receipt.hash].number == receipt.number &&
      c.content[receipt.hash].timestamp <= 8_640_000_000_000
    ensures Settle(receipt, r).Finalized? <==>
      receipt.number <= c.history[r.headAt].finalized && Canonical(c, r.numberedAt, receipt.number, receipt.hash)
  {
    hide ViewOk, Evolves;
  }

  /** What the other answers mean: the final head is still below the block, the block is off the chain, or a call failed. */
  lemma UnfinalExactly(c: Chain, receipt: Receipt, r: Reads)
    requires ChainOk(c) && Honest(c, receipt, r)
    ensures var answer := Settle(receipt, r);
            if !r.head.Got? || r.head.value.None? then answer == Unavailable
            else if c.history[r.headAt].finalized < receipt.number then answer == CanonicalPending
            else if !r.numbered.Got? then answer == Unavailable
            else if !Canonical(c, r.numberedAt, receipt.number, receipt.hash) then answer == Pending
            else answer.Finalized? || answer == Unavailable
  {
    hide ViewOk, Evolves;
  }

  // ----- The order of the reads -----

  /** A two-block chain whose second block is replaced just before it becomes final. */
  const REORGANISED: Chain :=
    Chain(map[10 := Block(0, 0, map[]), 11 := Block(1, 2, map[7 := Execution(true, [])]), 12 := Block(1, 3, map[])],
          [View([10, 11], 0), View([10, 12], 1)])

  /** Reading the numbered block first would call an orphaned receipt finalized. */
  lemma ReversedReadsAcceptOrphans()
    ensures var receipt := Receipt(true, 7, 11, 1, []);
            ChainOk(REORGANISED) && ReceiptHonest(REORGANISED, 0, 7, receipt) &&
            NumberedHonest(REORGANISED, 0, 1, Got(Some(Numbered(1, 11)))) && HeadHonest(REORGANISED, 1, Got(Some(Head(1)))) &&
            StampedHonest(REORGANISED, 11, Got(Some(Stamped(1, 11, 2)))) &&
            ReceiptFinality(receipt, Got(Some(Head(1))), Got(Some(Numbered(1, 11))), Got(Some(Stamped(1, 11, 2)))).Finalized? &&
            !Canonical(REORGANISED, 1, 1, 11)
  {
    assert ViewOk(REORGANISED.content, REORGANISED.history[0]);
    assert ViewOk(REORGANISED.content, REORGANISED.history[1]);
    assert Evolves(REORGANISED.history[0], REORGANISED.history[1]);
  }

  // ----- classifyReceiptTransfer -----

  const ADDRESSES: nat := 0x1_0000_0000_0000_0000_0000_0000_0000_0000_0000_0000

  datatype Query = Query(
    tx: Hash, to: nat, minimum: int, expectedFrom: Option<nat>, exact: bool, nonce: Option<nat>)

  /** The token and the two event signatures. */
  datatype Token = Token(address: nat, transfer: nat, authorizationUsed: nat)

  /** `addrFromTopic` */
  function AddressOf(topic: nat): nat { topic % ADDRESSES }

  predicate Qualifies(token: Token, q: Query, log: Log)
  {
    log.address == token.address && |log.topics| >= 3 && log.topics[0] == token.transfer && log.topics[2] == q.to &&
    (q.expectedFrom.Some? ==> AddressOf(log.topics[1]) == q.expectedFrom.value) && log.data.Word? &&
    (if q.exact then log.data.value == q.minimum else log.data.value >= q.minimum)
  }

  predicate ProvesNonce(token: Token, q: Query, log: Log)
  {
    q.nonce.Some? && q.expectedFrom.Some? && log.address == token.address && |log.topics| == 3 &&
    log.topics[0] == token.authorizationUsed && log.topics[1] == q.expectedFrom.value && log.topics[2] == q.nonce.value &&
    log.data == Empty
  }

  predicate Authorized(token: Token, q: Query, logs: seq<Log>)
  {
    q.nonce.None? || exists i :: 0 <= i < |logs| && ProvesNonce(token, q, logs[i])
  }

  predicate HasHit(token: Token, q: Query, logs: seq<Log>)
  {
    exists i :: 0 <= i < |logs| && Qualifies(token, q, logs[i])
  }

  /** `hit` is the first log that qualifies. */
  predicate FirstHit(token: Token, q: Query, logs: seq<Log>, hit: Option<Log>)
  {
    match hit
    case None => !HasHit(token, q, logs)
    case Some(log) => exists i :: 0 <= i < |logs| && logs[i] == log && Qualifies(token, q, log) &&
                        forall j :: 0 <= j < i ==> !Qualifies(token, q, logs[j])
  }

  datatype Transfer = Transfer(from: nat, to: nat, amount: nat)

  datatype Verdict =
    | Matched(transfer: Transfer, evidence: Evidence)
    | MatchedPending(transfer: Transfer)
    | AwaitsFinality
    | Unreachable
    | InvalidFinal(failed: bool, evidence: Evidence)

  /** The receipt pays what the query asks for. */
  predicate Pays(token: Token, q: Query, receipt: Receipt)
  {
    receipt.succeeded && HasHit(token, q, receipt.logs) && Authorized(token, q, receipt.logs)
  }

  function Refused(failed: bool, f: Finality): Verdict
  {
    match f
    case Finalized(e) => InvalidFinal(failed, e)
    case CanonicalPending => AwaitsFinality
    case Pending => AwaitsFinality
    case Unavailable => Unreachable
  }

  function Accepted(t: Transfer, f: Finality): Verdict
  {
    match f
    case Finalized(e) => Matched(t, e)
    case CanonicalPending => MatchedPending(t)
    case Pending => AwaitsFinality
    case Unavailable => Unreachable
  }

  /** The answer: the first qualifying log makes it `matched` once final, anything else `invalid_final`. */
  ghost predicate Answers(token: Token, q: Query, receipt: Receipt, r: Reads, v: Verdict)
  {
    if Pays(token, q, receipt) then
      exists hit :: FirstHit(token, q, receipt.logs, Some(hit)) && |hit.topics| >= 3 && hit.data.Word? &&
        v == Accepted(Transfer(AddressOf(hit.topics[1]), q.to, hit.data.value), Settle(receipt, r))
    else v == Refused(!receipt.succeeded, Settle(receipt, r))
  }

  /** `classifyReceiptTransfer`: the loop stops at the first log that qualifies. */
  method ClassifyReceiptTransfer(token: Token, q: Query, receipt: Receipt, r: Reads) returns (v: Verdict)
    ensures Answers(token, q, receipt, r, v)
    ensures VerdictMeans(token, q, receipt, Settle(receipt, r), v)
  {
    hide VerdictMeans;
    if !receipt.succeeded {
      v := Refused(true, Settle(receipt, r));
      VerdictExactly(token, q, receipt, r, v);
      return;
    }
    var hit: Option<Log> := None;
    var i := 0;
    while i < |receipt.logs| && hit == None
      invariant 0 <= i <= |receipt.logs|
      invariant hit == None ==> forall j :: 0 <= j < i ==> !Qualifies(token, q, receipt.logs[j])
      invariant hit.Some? ==> FirstHit(token, q, receipt.logs, hit)
    {
      if Qualifies(token, q, receipt.logs[i]) {
        hit := Some(receipt.logs[i]);
      }
      i := i + 1;
    }
    var authorized := Authorized(token, q, receipt.logs);
    if hit == None || !authorized {
      v := Refused(false, Settle(receipt, r));
      VerdictExactly(token, q, receipt, r, v);
      return;
    }
    assert FirstHit(token, q, receipt.logs, Some(hit.value));
    v := Accepted(Transfer(AddressOf(hit.value.topics[1]), q.to, hit.value.data.value), Settle(receipt, r));
    VerdictExactly(token, q, receipt, r, v);
  }

  // ----- What a verdict means, read off the receipt's logs -----

  /** The event that moves `t.amount` of the token from `t.from` to `t.to`; an address is the low twenty bytes of its topic. */
  predicate TransferEvent(token: Token, log: Log, t: Transfer)
  {
    log.address == token.address && |log.topics| >= 3 && log.topics[0] == token.transfer &&
    t.from == log.topics[1] % 0x1_0000_0000_0000_0000_0000_0000_0000_0000_0000_0000 && log.topics[2] == t.to &&
    log.data == Word(t.amount)
  }

  /** The transfer is to the recipient, from the payer if one is named, and of enough or exactly the amount. */
  predicate AsAsked(q: Query, t: Transfer)
  {
    t.to == q.to && (q.expectedFrom.Some? ==> t.from == q.expectedFrom.value) &&
    (q.exact ==> t.amount == q.minimum) && t.amount >= q.minimum
  }

  /** The event that the token's contract logs when this payer's authorization is used up. */
  predicate AuthorizationEvent(token: Token, log: Log, payer: nat, nonce: nat)
  {
    log.address == token.address && log.topics == [token.authorizationUsed, payer, nonce] && log.data == Empty
  }

  /** The receipt succeeded, and holds a transfer as asked and, if a nonce is asked for, the use of its authorization. */
  ghost predicate Settles(token: Token, q: Query, receipt: Receipt)
  {
    receipt.succeeded &&
    (exists log, t :: log in receipt.logs && TransferEvent(token, log, t) && AsAsked(q, t)) &&
    (q.nonce.Some? ==>
       q.expectedFrom.Some? &&
       exists log :: log in receipt.logs && AuthorizationEvent(token, log, q.expectedFrom.value, q.nonce.value))
  }

  /** `t` is the first transfer of the receipt that is as asked. */
  ghost predicate FirstAsAsked(token: Token, q: Query, receipt: Receipt, t: Transfer)
  {
    AsAsked(q, t) &&
    exists i ::
      0 <= i < |receipt.logs| && TransferEvent(token, receipt.logs[i], t) &&
      forall j, u :: 0 <= j < i && TransferEvent(token, receipt.logs[j], u) ==> !AsAsked(q, u)
  }

  function Moved(q: Query, log: Log): Transfer
    requires |log.topics| >= 3 && log.data.Word?
  {
    Transfer(AddressOf(log.topics[1]), q.to, log.data.value)
  }

  lemma QualifiesIff(token: Token, q: Query, log: Log)
    ensures Qualifies(token, q, log) <==>
      |log.topics| >= 3 && log.data.Word? && TransferEvent(token, log, Moved(q, log)) && AsAsked(q, Moved(q, log))
    ensures forall t :: TransferEvent(token, log, t) && AsAsked(q, t) ==> |log.topics| >= 3 && log.data.Word? && t == Moved(q, log)
  {
  }

  lemma PaysIff(token: Token, q: Query, receipt: Receipt)
    ensures Pays(token, q, receipt) <==> Settles(token, q, receipt)
  {
    hide Qualifies, TransferEvent, AsAsked;
    assert HasHit(token, q, receipt.logs) <==>
           exists log, t :: log in receipt.logs && TransferEvent(token, log, t) && AsAsked(q, t) by {
      forall log ensures Qualifies(token, q, log) <==> exists t :: TransferEvent(token, log, t) && AsAsked(q, t) {
        QualifiesIff(token, q, log);
      }
    }
    forall log | q.nonce.Some? && q.expectedFrom.Some?
      ensures ProvesNonce(token, q, log) <==> AuthorizationEvent(token, log, q.expectedFrom.value, q.nonce.value)
    {
      NonceIff(token, q, log);
    }
    hide ProvesNonce, AuthorizationEvent;
  }

  lemma NonceIff(token: Token, q: Query, log: Log)
    ensures ProvesNonce(token, q, log) <==>
      q.nonce.Some? && q.expectedFrom.Some? && AuthorizationEvent(token, log, q.expectedFrom.value, q.nonce.value)
  {
  }

  /**
    Once the receipt is final, the verdict is `matched`, with the first transfer of the token that is as
    asked, exactly if there is one and the authorization asked for was used; before that it is pending.
    Without such a transfer a final receipt is `invalid_final`, and an unfinal one no verdict at all.
   */
  ghost predicate VerdictMeans(token: Token, q: Query, receipt: Receipt, finality: Finality, v: Verdict)
  {
    var good := Settles(token, q, receipt);
    (v.Matched? <==> good && finality.Finalized?) && (v.MatchedPending? <==> good && finality == CanonicalPending) &&
    (v.InvalidFinal? <==> !good && finality.Finalized?) && (v == Unreachable <==> finality == Unavailable) &&
    (v.Matched? || v.MatchedPending? ==> FirstAsAsked(token, q, receipt, v.transfer)) &&
    (v.Matched? || v.InvalidFinal? ==> v.evidence == finality.evidence) &&
    (v.InvalidFinal? ==> v.failed == !receipt.succeeded)
  }

  lemma VerdictExactly(token: Token, q: Query, receipt: Receipt, r: Reads, v: Verdict)
    requires Answers(token, q, receipt, r, v)
    ensures VerdictMeans(token, q, receipt, Settle(receipt, r), v)
  {
    PaysIff(token, q, receipt);
    hide Settle, Settles, Pays;
    if Pays(token, q, receipt) {
      var hit :| FirstHit(token, q, receipt.logs, Some(hit)) && |hit.topics| >= 3 && hit.data.Word? &&
        v == Accepted(Transfer(AddressOf(hit.topics[1]), q.to, hit.data.value), Settle(receipt, r));
      FirstIsFirst(token, q, receipt, hit);
    }
  }

  lemma FirstIsFirst(token: Token, q: Query, receipt: Receipt, hit: Log)
    requires FirstHit(token, q, receipt.logs, Some(hit)) && |hit.topics| >= 3 && hit.data.Word?
    ensures FirstAsAsked(token, q, receipt, Moved(q, hit))
  {
    hide Qualifies, TransferEvent, AsAsked;
    var i :| 0 <= i < |receipt.logs| && receipt.logs[i] == hit && Qualifies(token, q, hit) &&
      forall j :: 0 <= j < i ==> !Qualifies(token, q, receipt.logs[j]);
    QualifiesIff(token, q, hit);
    forall j, u | 0 <= j < i && TransferEvent(token, receipt.logs[j], u) ensures !AsAsked(q, u) {
      QualifiesIff(token, q, receipt.logs[j]);
    }
  }

  // ----- One query, two moments -----

  /** A verdict on a receipt that was read at moment `at`. */
  datatype Look = Look(receipt: Receipt, at: nat, calls: Reads)

  predicate LookHonest(c: Chain, q: Query, l: Look)
  {
    l.at <= l.calls.headAt && Honest(c, l.receipt, l.calls) && ReceiptHonest(c, l.at, q.tx, l.receipt)
  }

  /** Two receipts of one transaction that were both called finalized are the same. */
  lemma FinalReceiptsAgree(c: Chain, q: Query, a: Look, b: Look)
    requires ChainOk(c) && LookHonest(c, q, a) && LookHonest(c, q, b)
    requires Settle(a.receipt, a.calls).Finalized? && Settle(b.receipt, b.calls).Finalized?
    ensures a.receipt == b.receipt
  {
    hide Evolves, Settle;
    var t := if a.calls.numberedAt >= b.calls.numberedAt then a.calls.numberedAt else b.calls.numberedAt;
    FinalizedForever(c, a.receipt, a.calls, t);
    FinalizedForever(c, b.receipt, b.calls, t);
    OneBlock(c, t, q.tx, a.receipt, b.receipt);
  }

  lemma OneBlock(c: Chain, t: nat, tx: Hash, a: Receipt, b: Receipt)
    requires ChainOk(c) && t < |c.history| && Canonical(c, t, a.number, a.hash) && Canonical(c, t, b.number, b.hash)
    requires a.hash in c.content && tx in c.content[a.hash].transactions
    requires b.hash in c.content && tx in c.content[b.hash].transactions
    ensures a.number == b.number && a.hash == b.hash
  {
    assert ViewOk(c.content, c.history[t]);
  }

  /** For one query, `matched` and `invalid_final` can never both be answered, whenever it is asked. */
  lemma NeverBothWays(c: Chain, token: Token, q: Query, a: Look, b: Look, va: Verdict, vb: Verdict)
    requires ChainOk(c) && LookHonest(c, q, a) && LookHonest(c, q, b)
    requires Answers(token, q, a.receipt, a.calls, va) && Answers(token, q, b.receipt, b.calls, vb)
    ensures !(va.Matched? && vb.InvalidFinal?)
    ensures va.Matched? && vb.Matched? ==> va == vb
  {
    hide ChainOk, LookHonest, Pays;
    if Settle(a.receipt, a.calls).Finalized? && Settle(b.receipt, b.calls).Finalized? {
      FinalReceiptsAgree(c, q, a, b);
      if va.Matched? && vb.Matched? { SameTransfer(token, q, c, a, b, va, vb); }
    }
  }

  lemma FirstHitUnique(token: Token, q: Query, logs: seq<Log>, x: Log, y: Log)
    requires FirstHit(token, q, logs, Some(x)) && FirstHit(token, q, logs, Some(y))
    ensures x == y
  {
  }

  lemma SameTransfer(token: Token, q: Query, c: Chain, a: Look, b: Look, va: Verdict, vb: Verdict)
    requires ChainOk(c) && LookHonest(c, q, a) && LookHonest(c, q, b) && a.receipt == b.receipt
    requires Answers(token, q, a.receipt, a.calls, va) && Answers(token, q, b.receipt, b.calls, vb)
    requires va.Matched? && vb.Matched?
    ensures va == vb
  {
    hide FirstHit, Pays;
    FinalizedForever(c, a.receipt, a.calls, a.calls.numberedAt);
    FinalizedForever(c, b.receipt, b.calls, b.calls.numberedAt);
    assert Pays(token, q, a.receipt);
    var x :| FirstHit(token, q, a.receipt.logs, Some(x)) && |x.topics| >= 3 && x.data.Word? &&
      va == Accepted(Transfer(AddressOf(x.topics[1]), q.to, x.data.value), Settle(a.receipt, a.calls));
    var y :| FirstHit(token, q, b.receipt.logs, Some(y)) && |y.topics| >= 3 && y.data.Word? &&
      vb == Accepted(Transfer(AddressOf(y.topics[1]), q.to, y.data.value), Settle(b.receipt, b.calls));
    FirstHitUnique(token, q, a.receipt.logs, x, y);
  }

  /** Every call was answered, and the block is one a date can hold. */
  predicate Answered(c: Chain, receipt: Receipt, r: Reads)
  {
    r.head.Got? && r.head.value.Some? && r.numbered.Got? && r.stamped.Got? && r.stamped.value.Some? &&
    receipt.hash in c.content && c.content[receipt.hash].number == receipt.number &&
    c.content[receipt.hash].timestamp <= 8_640_000_000_000
  }

  /** Once a look was final, every later look that is answered finds the same receipt and the same evidence. */
  lemma FinalIsPermanent(c: Chain, q: Query, a: Look, b: Look)
    requires ChainOk(c) && LookHonest(c, q, a) && LookHonest(c, q, b)
    requires Settle(a.receipt, a.calls).Finalized? && a.calls.numberedAt <= b.at && Answered(c, b.receipt, b.calls)
    ensures b.receipt == a.receipt && Settle(b.receipt, b.calls) == Settle(a.receipt, a.calls)
  {
    hide ViewOk, Evolves, Settle;
    FinalizedForever(c, a.receipt, a.calls, b.at);
    FinalizedForever(c, a.receipt, a.calls, b.calls.headAt);
    FinalizedForever(c, a.receipt, a.calls, b.calls.numberedAt);
    OneBlock(c, b.at, q.tx, a.receipt, b.receipt);
    FinalizedExactly(c, b.receipt, b.calls);
    FinalizedForever(c, b.receipt, b.calls, b.calls.numberedAt);
  }
}
