/** The two request flows that drive payment rows: a direct purchase claim and a direct listing fee. */
module PaymentFlows {
  import opened Tables
  import opened PaymentCustody
  import opened PaymentLaws
  import opened PaymentRuns

  // ----- directPaymentWindowError -----

  datatype WindowError = InvalidTiming | Predates | Outside | ExpiredRequest

  /** `directPaymentWindowError`; `retry` allows a request that began after the deadline. */
  function WindowErrorOf(i: Intent, paidAt: nat, started: nat, retry: bool): Option<WindowError>
  {
    if i.expires <= i.created || i.expires - i.created > TTL || started < i.created then Some(InvalidTiming)
    else if paidAt < i.created then Some(Predates)
    else if paidAt > i.expires then Some(Outside)
    else if !retry && started > i.expires then Some(ExpiredRequest)
    else None
  }

  // ----- Oracles -----

  /** `verifyDirectPayment` */
  datatype Chain<+T> = Verified(paidAt: T) | Unfinal | Invalid(seen: Option<T>) | Unavailable

  /** `verifyPersonalSignatureProof` */
  datatype Proof = Signed | Forged | Unchecked

  // ----- resolveDirectPaymentClaim -----

  datatype Refusal =
    | OtherTransaction
    | BadWindow(error: WindowError)
    | BadSignature(proof: Proof)
    | PaymentInvalid
    | PaymentUnavailable
    | PaymentOutsideWindow(error: WindowError)
    | HashTaken
    | IntentChanged
    | NotPreserved
    | AwaitingFinality
    | UnderReview
    | ReviewUncertain

  datatype Resolution = Refused(why: Refusal) | AlreadyCompleted | Proven(paidAt: nat)

  /** `reviewDirectPaymentClaim`: the answer depends on the row as it is afterwards. */
  function ReviewAnswer(db: Custody, k: Key): Resolution
  {
    if k in db.intents && db.intents[k].status == Completed then AlreadyCompleted
    else if k in db.intents && db.intents[k].status == NeedsReview then Refused(UnderReview)
    else Refused(ReviewUncertain)
  }

  /** What follows once the row that should hold the transaction has been read back. */
  function AfterStore(db: Custody, read: Intent, k: Key, attempt: Option<Intent>, tx: Hash, chain: Chain<nat>, started: nat): (Custody, Resolution)
  {
    if attempt.None? || attempt.value.tx != Some(tx) then (db, Refused(IntentChanged))
    else if attempt.value.status == NeedsReview then (db, Refused(UnderReview))
    else if attempt.value.status == Completed then (db, AlreadyCompleted)
    else if attempt.value.status != Pending then (db, Refused(NotPreserved))
    else match chain
      case Verified(paidAt) =>
        (match WindowErrorOf(read, paidAt, started, true)
         case None => (db, Proven(paidAt))
         case Some(_) => (Review(db, k, Some(paidAt)), ReviewAnswer(Review(db, k, Some(paidAt)), k)))
      case _ => (db, Refused(AwaitingFinality))
  }

  /**
    `resolveDirectPaymentClaim`. `read` is the row as the request read it, which may be stale by the
    time `db`, the tables at the moment of the write, is reached.
   */
  function Resolve(db: Custody, read: Intent, k: Key, tx: Hash, proof: Proof, chain: Chain<nat>, started: nat): (Custody, Resolution)
  {
    var retrying := read.status == Pending;
    if read.status == Completed then (db, AlreadyCompleted)
    else if read.status == NeedsReview then (db, Refused(UnderReview))
    else if retrying && read.tx != Some(tx) then (db, Refused(OtherTransaction))
    else if WindowErrorOf(read, read.created, started, retrying).Some?
    then (db, Refused(BadWindow(WindowErrorOf(read, read.created, started, retrying).value)))
    else if proof != Signed then (db, Refused(BadSignature(proof)))
    else if chain.Invalid? && !retrying then (db, Refused(PaymentInvalid))
    else if chain.Invalid? then (Review(db, k, chain.seen), ReviewAnswer(Review(db, k, chain.seen), k))
    else if chain.Unavailable? then (db, Refused(PaymentUnavailable))
    else if retrying then AfterStore(db, read, k, Some(read), tx, chain, started)
    else if chain.Verified? && WindowErrorOf(read, chain.paidAt, started, false).Some?
    then (db, Refused(PaymentOutsideWindow(WindowErrorOf(read, chain.paidAt, started, false).value)))
    else
      var (next, stored) := Reserve(db, k, tx, started);
      if stored == AlreadyUsed then (db, Refused(HashTaken))
      else AfterStore(next, read, k, if k in next.intents then Some(next.intents[k]) else None, tx, chain, started)
  }

  /** A retry of a stored claim is never refused for lateness, however late it comes. */
  lemma RetryNeverLate(db: Custody, read: Intent, k: Key, tx: Hash, proof: Proof, chain: Chain<nat>, started: nat)
    requires IntentOk(db, k, read) && read.status == Pending && read.tx == Some(tx) && started >= read.created
    ensures var r := Resolve(db, read, k, tx, proof, chain, started).1;
            (r.Refused? ==> !r.why.BadWindow? && !r.why.PaymentOutsideWindow?) &&
            (proof == Signed && chain.Verified? && read.created <= chain.paidAt <= read.expires ==> r == Proven(chain.paidAt))
  {
  }

  /**
    A proven payment is stored: the row read at the write holds this transaction, and its block time
    lies in the inclusive window of the contract the signature was checked against.
   */
  lemma ProvenIsStored(db: Custody, read: Intent, k: Key, tx: Hash, proof: Proof, chain: Chain<nat>, started: nat, paidAt: nat)
    requires Resolve(db, read, k, tx, proof, chain, started).1 == Proven(paidAt)
    ensures chain == Verified(paidAt) && proof == Signed && read.created <= paidAt <= read.expires && read.created <= started
    ensures (read.status == Pending && read.tx == Some(tx)) || (read.status == Unsubmitted && started <= read.expires)
    ensures var next := Resolve(db, read, k, tx, proof, chain, started).0;
            read.status == Unsubmitted ==> k in next.intents && next.intents[k].status == Pending && next.intents[k].tx == Some(tx)
  {
  }

  /** Only a claim that may be stored is stored: a refused first claim leaves the tables as they were. */
  lemma FirstClaimStoresLast(db: Custody, read: Intent, k: Key, tx: Hash, proof: Proof, chain: Chain<nat>, started: nat)
    requires read.status == Unsubmitted
    ensures var (next, r) := Resolve(db, read, k, tx, proof, chain, started);
            next != db ==>
              proof == Signed && !chain.Invalid? && !chain.Unavailable? && read.created <= started <= read.expires &&
              (chain.Verified? ==> read.created <= chain.paidAt <= read.expires) &&
              next == Reserve(db, k, tx, started).0 && Reserve(db, k, tx, started).1 == Stored
  {
  }

  /** Whatever a claim does, it is one of the guarded writes. */
  lemma ResolveValid(db: Custody, read: Intent, k: Key, tx: Hash, proof: Proof, chain: Chain<nat>, started: nat)
    requires Valid(db)
    ensures var next := Resolve(db, read, k, tx, proof, chain, started).0; Valid(next) && Onward(db, next)
  {
    hide Valid, Onward, Reserve, Review, WindowErrorOf;
    OnwardRefl(db);
    ReserveValid(db, k, tx, started);
    ReserveOnward(db, k, tx, started);
    var reserved := Reserve(db, k, tx, started).0;
    var paidAt := match chain case Verified(p) => Some(p) case Invalid(p) => p case _ => None;
    ReviewValid(db, k, paidAt);
    ReviewOnward(db, k, paidAt);
    ReviewValid(reserved, k, paidAt);
    ReviewOnward(reserved, k, paidAt);
    OnwardBoth(db, reserved, Review(reserved, k, paidAt));
  }

  lemma OnwardBoth(a: Custody, b: Custody, c: Custody)
    requires Onward(a, b) && Onward(b, c)
    ensures Onward(a, c)
  {
    hide MoneyOnward, GoodsOnward;
    MoneyTrans(a, b, c);
    GoodsTrans(a, b, c);
  }

  // ----- resolveListingFeePayment -----

  datatype FeeRefusal =
    | DifferentFee
    | FeeHashTaken
    | FeeUnderReview
    | FeeUnavailable
    | FeeAwaitingFinality
    | FeeReviewUncertain

  datatype FeeResolution = FeeRefused(why: FeeRefusal) | FeeDone(listing: nat) | FeeProven(paidAt: int)

  function FeeReviewAnswer(db: Custody, r: Request): FeeResolution
  {
    if r !in db.attempts then FeeRefused(FeeReviewUncertain)
    else match db.attempts[r].status
      case FeeCompleted(listing, _) => FeeDone(listing)
      case FeeReview => FeeRefused(FeeUnderReview)
      case FeePending => FeeRefused(FeeReviewUncertain)
  }

  /** `attemptMatches`, on the artifact rail. */
  predicate AttemptMatches(a: FeeAttempt, tx: Hash, payer: nat) { a.tx == tx && a.payer == payer }

  /** The attempt as a request reads it. */
  function ReadFee(db: Custody, r: Request): Option<FeeAttempt>
  {
    if r in db.attempts then Some(db.attempts[r]) else None
  }

  /** What a request has come to when it is time to ask the chain: an answer, or a window. */
  datatype FeeStep = Answered(answer: FeeResolution) | Checking(minimum: int, maximum: int)

  /**
    `resolveListingFeePayment` up to its chain call. `read` is the attempt as first read; `db` the
    tables at the write, which other requests may have moved on.
   */
  function BeginFee(db: Custody, read: Option<FeeAttempt>, r: Request, tx: Hash, payer: nat, started: int): (Custody, FeeStep)
  {
    if read.Some? && read.value.status.FeeCompleted? then
      (db, Answered(if AttemptMatches(read.value, tx, payer) then FeeDone(read.value.status.listing) else FeeRefused(FeeUnderReview)))
    else if read.Some? && read.value.status.FeeReview? then (db, Answered(FeeRefused(FeeUnderReview)))
    else if read.Some? && !AttemptMatches(read.value, tx, payer) then (db, Answered(FeeRefused(DifferentFee)))
    else if read.Some? && read.value.maximum - read.value.minimum != HOUR
    then (ReviewFee(db, r), Answered(FeeReviewAnswer(ReviewFee(db, r), r)))
    else if read.Some? then (db, Checking(read.value.minimum, read.value.maximum))
    else
      var next := ReserveFee(db, r, tx, payer, started);
      if r !in next.attempts || !AttemptMatches(next.attempts[r], tx, payer) then (next, Answered(FeeRefused(FeeHashTaken)))
      else match next.attempts[r].status
        case FeeCompleted(listing, _) => (next, Answered(FeeDone(listing)))
        case FeeReview => (next, Answered(FeeRefused(FeeUnderReview)))
        case FeePending => (next, Checking(started - HOUR, started))
  }

  /** `verifyDirectPayment` calls a transfer invalid that was paid before the window opened. */
  function NotBefore(chain: Chain<int>, minimum: int): Chain<int>
  {
    if chain.Verified? && chain.paidAt < minimum then Invalid(Some(chain.paidAt)) else chain
  }

  /** The rest, once the chain has answered; `db` is the tables by then. */
  function EndFee(db: Custody, r: Request, minimum: int, maximum: int, chain: Chain<int>): (Custody, FeeResolution)
  {
    match NotBefore(chain, minimum)
    case Invalid(_) => (ReviewFee(db, r), FeeReviewAnswer(ReviewFee(db, r), r))
    case Unavailable => (db, FeeRefused(FeeUnavailable))
    case Unfinal => (db, FeeRefused(FeeAwaitingFinality))
    case Verified(paidAt) =>
      if paidAt > maximum then (ReviewFee(db, r), FeeReviewAnswer(ReviewFee(db, r), r)) else (db, FeeProven(paidAt))
  }

  /** The stored window of an attempt. */
  predicate InWindow(a: FeeAttempt, paidAt: int) { a.minimum <= paidAt <= a.maximum }

  /**
    Whatever runs between the first read, the write and the chain's answer: a request that gets to the
    chain owns its transaction, and proves exactly the payments of its own hour. That hour is the
    stored one if and only if the first read found the attempt or the attempt was stored by a request that
    began at the same moment; and this is exactly when every payment it proves can be listed, and exactly
    when it sends no payment to review that could be.
   */
  lemma FeeProvenExactly(db: Custody, es: seq<Event>, es': seq<Event>, r: Request, tx: Hash, payer: nat, started: int)
    requires Valid(db) && BeginFee(Run(db, es), ReadFee(db, r), r, tx, payer, started).1.Checking?
    ensures var (next, step) := BeginFee(Run(db, es), ReadFee(db, r), r, tx, payer, started);
            var late := Run(next, es');
            r in late.attempts && AttemptMatches(late.attempts[r], tx, payer) && tx in late.uses && late.uses[tx] == FeeOwner(r) &&
            step.maximum == step.minimum + HOUR && late.attempts[r].maximum == late.attempts[r].minimum + HOUR &&
            (forall chain, paidAt :: EndFee(late, r, step.minimum, step.maximum, chain).1 == FeeProven(paidAt) <==>
               chain == Verified(paidAt) && step.minimum <= paidAt <= step.maximum) &&
            ((forall paidAt :: EndFee(late, r, step.minimum, step.maximum, Verified(paidAt)).1 == FeeProven(paidAt) ==>
                InWindow(late.attempts[r], paidAt)) <==>
             ReadFee(db, r).Some? || late.attempts[r].maximum == started) &&
            ((forall paidAt :: InWindow(late.attempts[r], paidAt) ==>
                EndFee(late, r, step.minimum, step.maximum, Verified(paidAt)) == (late, FeeProven(paidAt))) <==>
             ReadFee(db, r).Some? || late.attempts[r].maximum == started)
  {
    var (next, step) := BeginFee(Run(db, es), ReadFee(db, r), r, tx, payer, started);
    var late := Run(next, es');
    RunKeeps(db, es);
    BeginFeeValid(Run(db, es), ReadFee(db, r), r, tx, payer, started);
    RunKeeps(next, es');
    CheckedRow(db, Run(db, es), r, tx, payer, started);
    AttemptKept(next, late, r);
    hide Run, Valid, Onward, BeginFee, EndFee, InWindow;
    EndFeeProves(late, r, step.minimum, step.maximum);
    EndFeeInside(late, r, step.minimum, step.maximum, late.attempts[r]);
  }

  /** The chain's answer is a proof exactly for a transfer inside the window that was asked about. */
  lemma EndFeeProves(db: Custody, r: Request, minimum: int, maximum: int)
    ensures forall chain, paidAt :: EndFee(db, r, minimum, maximum, chain).1 == FeeProven(paidAt) <==>
              chain == Verified(paidAt) && minimum <= paidAt <= maximum
  {
    hide ReviewFee;
  }

  /** Two windows of an hour: either holds all of the other only if they are the same. */
  lemma EndFeeInside(db: Custody, r: Request, minimum: int, maximum: int, a: FeeAttempt)
    requires maximum == minimum + HOUR && a.maximum == a.minimum + HOUR
    ensures (forall paidAt :: EndFee(db, r, minimum, maximum, Verified(paidAt)).1 == FeeProven(paidAt) ==> InWindow(a, paidAt)) <==>
            a.maximum == maximum
    ensures (forall paidAt :: InWindow(a, paidAt) ==> EndFee(db, r, minimum, maximum, Verified(paidAt)) == (db, FeeProven(paidAt))) <==>
            a.maximum == maximum
  {
    EndFeeProves(db, r, minimum, maximum);
    assert EndFee(db, r, minimum, maximum, Verified(maximum)).1 == FeeProven(maximum);
    assert EndFee(db, r, minimum, maximum, Verified(minimum)).1 == FeeProven(minimum);
    assert InWindow(a, a.maximum) && InWindow(a, a.minimum);
  }

  /** The row behind a request that asks the chain, and the window it asks about. */
  lemma CheckedRow(db: Custody, mid: Custody, r: Request, tx: Hash, payer: nat, started: int)
    requires Valid(db) && Valid(mid) && Onward(db, mid) && BeginFee(mid, ReadFee(db, r), r, tx, payer, started).1.Checking?
    ensures var (next, step) := BeginFee(mid, ReadFee(db, r), r, tx, payer, started);
            r in next.attempts && AttemptMatches(next.attempts[r], tx, payer) && AttemptOk(next, r, next.attempts[r]) &&
            step == (if ReadFee(db, r).Some? then Checking(next.attempts[r].minimum, next.attempts[r].maximum)
                     else Checking(started - HOUR, started))
  {
    hide CountsOk, IntentsOk, PurchasesOk, GoodsOnward, IntentsOnward;
  }

  lemma AttemptKept(a: Custody, b: Custody, r: Request)
    requires Onward(a, b) && r in a.attempts && AttemptOk(a, r, a.attempts[r])
    ensures r in b.attempts && b.attempts[r] == a.attempts[r].(status := b.attempts[r].status)
    ensures a.attempts[r].tx in b.uses && b.uses[a.attempts[r].tx] == FeeOwner(r)
  {
    hide GoodsOnward, IntentsOnward;
  }

  /** In any later state a proven fee makes its listing exactly if it lies in the stored window and is still pending. */
  lemma ProvenFeeLists(db: Custody, es: seq<Event>, r: Request, tx: Hash, paidAt: int, terms: Terms, price: nat, wallet: nat)
    requires Valid(db) && r in db.attempts && db.attempts[r].tx == tx
    ensures var late := Run(db, es);
            r in late.attempts &&
            (ListDirect(late, r, tx, paidAt, terms, price, wallet) != late <==>
               late.attempts[r].status == FeePending && InWindow(db.attempts[r], paidAt))
  {
    RunKeeps(db, es);
    assert AttemptOk(db, r, db.attempts[r]) by { hide CountsOk; }
    AttemptKept(db, Run(db, es), r);
    hide Run, Valid, Onward;
  }

  /** The repeated request then asks about the stored window, and the payment goes to review. */
  lemma OutsideFeeIsReviewed(db: Custody, r: Request, tx: Hash, payer: nat, started: int, paidAt: int)
    requires Valid(db) && r in db.attempts && AttemptMatches(db.attempts[r], tx, payer) && db.attempts[r].status == FeePending
    requires !InWindow(db.attempts[r], paidAt)
    ensures var (next, step) := BeginFee(db, ReadFee(db, r), r, tx, payer, started);
            next == db && step.Checking? &&
            EndFee(db, r, step.minimum, step.maximum, Verified(paidAt)) == (ReviewFee(db, r), FeeRefused(FeeUnderReview))
  {
    hide CountsOk, IntentsOk, PurchasesOk;
    assert AttemptOk(db, r, db.attempts[r]);
  }

  const SECOND: int := 1_000_000

  lemma ReservedAlone(r: Request, tx: Hash, payer: nat, started: nat)
    ensures Run(EMPTY, [FeeReserved(r, tx, payer, started)]) ==
      EMPTY.(attempts := map[r := FeeAttempt(tx, payer, started - HOUR, started, FeePending)], uses := map[tx := FeeOwner(r)])
  {
    var one := Apply(EMPTY, FeeReserved(r, tx, payer, started));
    assert Run(EMPTY, [FeeReserved(r, tx, payer, started)]) == Run(one, [FeeReserved(r, tx, payer, started)][1..]) == one;
  }

  /**
    Two identical requests: one begins at 0 and stores the payment, the other begins five seconds later,
    having read nothing, and proves a payment of that moment, which no listing can be made from.
   */
  lemma LateFeeProven(r: Request, tx: Hash, payer: nat, terms: Terms, price: nat, wallet: nat)
    ensures var (next, step) := BeginFee(Run(EMPTY, [FeeReserved(r, tx, payer, 0)]), ReadFee(EMPTY, r), r, tx, payer, 5 * SECOND);
            r in next.attempts && step == Checking(5 * SECOND - HOUR, 5 * SECOND) &&
            EndFee(next, r, step.minimum, step.maximum, Verified(5 * SECOND)) == (next, FeeProven(5 * SECOND)) &&
            !InWindow(next.attempts[r], 5 * SECOND) && ListDirect(next, r, tx, 5 * SECOND, terms, price, wallet) == next
  {
    ReservedAlone(r, tx, payer, 0);
    hide Run;
  }

  /**
    The other way round: the request that begins at 0 reads nothing and finds the attempt that one begun
    five seconds later stored. A payment made in between could be listed, but goes to review for ever.
   */
  lemma EarlyFeeReviewed(r: Request, tx: Hash, payer: nat, terms: Terms, price: nat, wallet: nat, es: seq<Event>)
    ensures var (next, step) := BeginFee(Run(EMPTY, [FeeReserved(r, tx, payer, 5_000_000)]), ReadFee(EMPTY, r), r, tx, payer, 0);
            r in next.attempts && step == Checking(0 - 3600 * SECOND, 0) && InWindow(next.attempts[r], 3 * SECOND) &&
            ListDirect(next, r, tx, 3 * SECOND, terms, price, wallet) != next &&
            var (reviewed, answer) := EndFee(next, r, step.minimum, step.maximum, Verified(3 * SECOND));
            answer == FeeRefused(FeeUnderReview) &&
            ListDirect(Run(reviewed, es), r, tx, 3 * SECOND, terms, price, wallet) == Run(reviewed, es)
  {
    EmptyValid();
    RunKeeps(EMPTY, [FeeReserved(r, tx, payer, 5_000_000)]);
    ReservedAlone(r, tx, payer, 5_000_000);
    hide Run, Valid, Onward;
    var db := Run(EMPTY, [FeeReserved(r, tx, payer, 5_000_000)]);
    ReviewFeeValid(db, r);
    RunKeeps(ReviewFee(db, r), es);
    ReviewStays(ReviewFee(db, r), Run(ReviewFee(db, r), es), r);
  }

  /** A fee under review stays there. */
  lemma ReviewStays(a: Custody, b: Custody, r: Request)
    requires Onward(a, b) && r in a.attempts && a.attempts[r].status.FeeReview?
    ensures r in b.attempts && b.attempts[r].status.FeeReview?
  {
    hide GoodsOnward, IntentsOnward;
  }

  /** Once a request stored a fee payment, the same request with another transaction or payer changes nothing. */
  lemma AnotherFeeRefused(db: Custody, r: Request, tx: Hash, payer: nat, started: int)
    requires r in db.attempts && !AttemptMatches(db.attempts[r], tx, payer)
    ensures var (next, step) := BeginFee(db, ReadFee(db, r), r, tx, payer, started);
            next == db && step.Answered? && step.answer.FeeRefused? && !step.answer.why.FeeHashTaken?
  {
  }

  /** Whatever a fee request does, before or after the chain call, is one of the guarded writes. */
  lemma BeginFeeValid(db: Custody, read: Option<FeeAttempt>, r: Request, tx: Hash, payer: nat, started: int)
    requires Valid(db)
    ensures var next := BeginFee(db, read, r, tx, payer, started).0; Valid(next) && Onward(db, next)
  {
    hide Valid, Onward, ReserveFee, ReviewFee;
    OnwardRefl(db);
    ReserveFeeValid(db, r, tx, payer, started);
    ReserveFeeOnward(db, r, tx, payer, started);
    ReviewFeeValid(db, r);
    ReviewFeeOnward(db, r);
  }

  lemma EndFeeValid(db: Custody, r: Request, minimum: int, maximum: int, chain: Chain<int>)
    requires Valid(db)
    ensures var next := EndFee(db, r, minimum, maximum, chain).0; Valid(next) && Onward(db, next)
  {
    hide Valid, Onward, ReviewFee;
    OnwardRefl(db);
    ReviewFeeValid(db, r);
    ReviewFeeOnward(db, r);
  }
}
