/** Each payment statement and flow as a table over the rows themselves: when it acts, what it writes, what it answers. */
module PaymentAnswers {
  import opened Tables
  import opened PaymentCustody
  import opened PaymentFlows

  // ----- The direct claim -----

  /** The intent's times are those of an intent, and the request began after it was made. */
  predicate Timely(i: Intent, started: nat) { i.created < i.expires <= i.created + 10 * MINUTE && i.created <= started }

  /** A pending row goes to review with its transaction and contract; any other row stays and decides the answer. */
  ghost predicate SentToReview(a: Custody, b: Custody, k: Key, paidAt: Option<nat>, answer: Resolution)
  {
    if k in a.intents && a.intents[k].status == Pending then
      b == a.(intents := a.intents[k := a.intents[k].(status := NeedsReview, paidAt := paidAt)]) &&
      b.intents[k].tx == a.intents[k].tx && answer == Refused(UnderReview)
    else
      b == a &&
      answer == if k !in a.intents || a.intents[k].status == Unsubmitted then Refused(ReviewUncertain)
                else if a.intents[k].status == Completed then AlreadyCompleted else Refused(UnderReview)
  }

  /**
    The end of a stored claim, by the chain's answer: an invalid transfer or one outside the window sends the
    row to review, a transfer inside it is proven however late the retry, and an open or missing answer leaves
    the tables as they were. Before that, another transaction, a clock before the intent or a bad signature is refused.
   */
  ghost predicate StoredClaimEnd(a: Custody, b: Custody, read: Intent, k: Key, tx: Hash, proof: Proof, chain: Chain<nat>,
                                 started: nat, answer: Resolution)
  {
    if read.tx != Some(tx) then b == a && answer == Refused(OtherTransaction)
    else if !Timely(read, started) then b == a && answer == Refused(BadWindow(InvalidTiming))
    else if proof != Signed then b == a && answer == Refused(BadSignature(proof))
    else match chain
      case Verified(paidAt) =>
        if read.created <= paidAt <= read.expires then b == a && answer == Proven(paidAt)
        else SentToReview(a, b, k, Some(paidAt), answer)
      case Invalid(seen) => SentToReview(a, b, k, seen, answer)
      case Unfinal => b == a && answer == Refused(AwaitingFinality)
      case Unavailable => b == a && answer == Refused(PaymentUnavailable)
  }

  lemma StoredClaimEnds(db: Custody, read: Intent, k: Key, tx: Hash, proof: Proof, chain: Chain<nat>, started: nat)
    requires read.status == Pending
    ensures var (next, answer) := Resolve(db, read, k, tx, proof, chain, started);
            StoredClaimEnd(db, next, read, k, tx, proof, chain, started, answer)
  {
    hide SentToReview, Review, ReviewAnswer;
    match chain
    case Verified(paidAt) => ReviewSends(db, k, Some(paidAt));
    case Invalid(seen) => ReviewSends(db, k, seen);
    case _ =>
  }

  lemma ReviewSends(db: Custody, k: Key, paidAt: Option<nat>)
    ensures SentToReview(db, Review(db, k, paidAt), k, paidAt, ReviewAnswer(Review(db, k, paidAt), k))
  {
  }

  /** A settled claim is answered without a look at the chain. */
  lemma SettledClaimEnds(db: Custody, read: Intent, k: Key, tx: Hash, proof: Proof, chain: Chain<nat>, started: nat)
    ensures read.status == Completed ==> Resolve(db, read, k, tx, proof, chain, started) == (db, AlreadyCompleted)
    ensures read.status == NeedsReview ==> Resolve(db, read, k, tx, proof, chain, started) == (db, Refused(UnderReview))
  {
  }

  /** The answer to a payment that is stored, when the chain had not found anything wrong with it. */
  function StoredAnswer(chain: Chain<nat>): Resolution
  {
    if chain.Verified? then Proven(chain.paidAt) else Refused(AwaitingFinality)
  }

  /** The write of a first claim: it takes the row and the transaction together, and otherwise reads the row. */
  ghost predicate TriedToStore(a: Custody, b: Custody, k: Key, tx: Hash, chain: Chain<nat>, started: nat, answer: Resolution)
  {
    if k in a.intents && a.intents[k].status == Unsubmitted && a.intents[k].created <= started <= a.intents[k].expires then
      if tx in a.uses then b == a && answer == Refused(HashTaken)
      else
        b == a.(intents := a.intents[k := a.intents[k].(status := Pending, tx := Some(tx), claimStarted := Some(started))],
                uses := a.uses[tx := IntentOwner(k)]) &&
        answer == StoredAnswer(chain)
    else
      b == a &&
      if k !in a.intents || a.intents[k].tx != Some(tx) then answer == Refused(IntentChanged)
      else match a.intents[k].status
        case NeedsReview => answer == Refused(UnderReview)
        case Completed => answer == AlreadyCompleted
        case Pending => answer == StoredAnswer(chain)
        case Unsubmitted => answer == Refused(NotPreserved)
  }

  /** The end of a first claim: everything that can be wrong is refused before anything is written. */
  ghost predicate FirstClaimEnd(a: Custody, b: Custody, read: Intent, k: Key, tx: Hash, proof: Proof, chain: Chain<nat>,
                                started: nat, answer: Resolution)
  {
    if !Timely(read, started) then b == a && answer == Refused(BadWindow(InvalidTiming))
    else if started > read.expires then b == a && answer == Refused(BadWindow(ExpiredRequest))
    else if proof != Signed then b == a && answer == Refused(BadSignature(proof))
    else if chain.Invalid? then b == a && answer == Refused(PaymentInvalid)
    else if chain.Unavailable? then b == a && answer == Refused(PaymentUnavailable)
    else if chain.Verified? && chain.paidAt < read.created then b == a && answer == Refused(PaymentOutsideWindow(Predates))
    else if chain.Verified? && chain.paidAt > read.expires then b == a && answer == Refused(PaymentOutsideWindow(Outside))
    else TriedToStore(a, b, k, tx, chain, started, answer)
  }

  lemma FirstClaimEnds(db: Custody, read: Intent, k: Key, tx: Hash, proof: Proof, chain: Chain<nat>, started: nat)
    requires read.status == Unsubmitted
    ensures var (next, answer) := Resolve(db, read, k, tx, proof, chain, started);
            FirstClaimEnd(db, next, read, k, tx, proof, chain, started, answer)
  {
  }

  /** Every claim ends as its row, as the request read it, says. */
  ghost predicate ClaimEnd(a: Custody, b: Custody, read: Intent, k: Key, tx: Hash, proof: Proof, chain: Chain<nat>, started: nat,
                           answer: Resolution)
  {
    match read.status
    case Unsubmitted => FirstClaimEnd(a, b, read, k, tx, proof, chain, started, answer)
    case Pending => StoredClaimEnd(a, b, read, k, tx, proof, chain, started, answer)
    case Completed => b == a && answer == AlreadyCompleted
    case NeedsReview => b == a && answer == Refused(UnderReview)
  }

  lemma ClaimEnds(db: Custody, read: Intent, k: Key, tx: Hash, proof: Proof, chain: Chain<nat>, started: nat)
    ensures var (next, answer) := Resolve(db, read, k, tx, proof, chain, started);
            ClaimEnd(db, next, read, k, tx, proof, chain, started, answer)
  {
    hide StoredClaimEnd, FirstClaimEnd;
    match read.status {
      case Unsubmitted => FirstClaimEnds(db, read, k, tx, proof, chain, started);
      case Pending => StoredClaimEnds(db, read, k, tx, proof, chain, started);
      case _ => SettledClaimEnds(db, read, k, tx, proof, chain, started);
    }
  }

  // ----- The listing fee -----

  /** A stored attempt decides the answer, except that a pending one is asked about. */
  function FeeAnswer(status: FeeStatus, minimum: int, maximum: int): FeeStep
  {
    match status
    case FeeCompleted(listing, _) => Answered(FeeDone(listing))
    case FeeReview => Answered(FeeRefused(FeeUnderReview))
    case FeePending => Checking(minimum, maximum)
  }

  /** A pending attempt goes to review; any other stays and decides the answer. */
  ghost predicate FeeSentToReview(a: Custody, b: Custody, r: Request, answer: FeeResolution)
  {
    if r in a.attempts && a.attempts[r].status == FeePending then
      b == a.(attempts := a.attempts[r := a.attempts[r].(status := FeeReview)]) && answer == FeeRefused(FeeUnderReview)
    else
      b == a &&
      answer == if r !in a.attempts then FeeRefused(FeeReviewUncertain)
                else if a.attempts[r].status.FeeCompleted? then FeeDone(a.attempts[r].status.listing)
                else FeeRefused(FeeUnderReview)
  }

  /**
    Before the chain is asked: a request that read nothing stores its payment, once, with the hour that ends
    at its own start, if neither the request nor the transaction is taken; one that read its attempt goes on
    with the stored window. Another transaction or payer is refused.
   */
  lemma FeeBegins(db: Custody, read: Option<FeeAttempt>, r: Request, tx: Hash, payer: nat, started: int)
    ensures var (next, step) := BeginFee(db, read, r, tx, payer, started);
            match read
            case None =>
              (if r !in db.attempts && tx !in db.uses then
                 next == db.(attempts := db.attempts[r := FeeAttempt(tx, payer, started - 60 * MINUTE, started, FeePending)],
                             uses := db.uses[tx := FeeOwner(r)]) &&
                 step == Checking(started - 60 * MINUTE, started)
               else
                 next == db &&
                 step == if r in db.attempts && db.attempts[r].tx == tx && db.attempts[r].payer == payer
                         then FeeAnswer(db.attempts[r].status, started - 60 * MINUTE, started)
                         else Answered(FeeRefused(FeeHashTaken)))
            case Some(a) =>
              if a.tx != tx || a.payer != payer then
                next == db && step == Answered(FeeRefused(if a.status == FeePending then DifferentFee else FeeUnderReview))
              else if a.status == FeePending && a.maximum - a.minimum != 60 * MINUTE then
                step.Answered? && FeeSentToReview(db, next, r, step.answer)
              else next == db && step == FeeAnswer(a.status, a.minimum, a.maximum)
  {
  }

  /**
    After the chain answered: proven inside the window that was asked about, reviewed when invalid or outside
    it, and otherwise nothing.
   */
  lemma FeeEnds(db: Custody, r: Request, minimum: int, maximum: int, chain: Chain<int>)
    ensures var (next, answer) := EndFee(db, r, minimum, maximum, chain);
            match chain
            case Verified(paidAt) =>
              if minimum <= paidAt <= maximum then next == db && answer == FeeProven(paidAt)
              else FeeSentToReview(db, next, r, answer)
            case Invalid(_) => FeeSentToReview(db, next, r, answer)
            case Unfinal => next == db && answer == FeeRefused(FeeAwaitingFinality)
            case Unavailable => next == db && answer == FeeRefused(FeeUnavailable)
  {
  }

  // ----- Purchases -----

  predicate ForSale(l: Listing) { !l.removed && !l.withdrawn }

  /** On sale, or no later than the first time it stopped being. */
  predicate Owed(l: Listing, paidAt: nat)
  {
    ForSale(l) ||
    ((l.removedAt.Some? || l.withdrawnAt.Some?) &&
     (l.removedAt.Some? ==> paidAt <= l.removedAt.value) && (l.withdrawnAt.Some? ==> paidAt <= l.withdrawnAt.value))
  }

  lemma OwedIff(l: Listing, paidAt: nat)
    ensures StillOwed(l, paidAt) <==> Owed(l, paidAt)
  {
  }

  /** The listing is another merchant's, at this price and wallet. */
  predicate Buyable(db: Custody, k: Key, price: nat, wallet: nat)
  {
    k.listing in db.listings && db.listings[k.listing].merchant != k.buyer && db.listings[k.listing].price == price &&
    db.listings[k.listing].wallet == wallet
  }

  /**
    An intent is opened exactly for a priced listing on sale that the buyer neither owns nor has bought, under
    the price and wallet shown; it lasts ten minutes. An earlier one is replaced only if unsubmitted and run out.
   */
  lemma OpensIntentExactly(db: Custody, k: Key, payer: nat, price: nat, wallet: nat, nonce: nat, started: nat)
    ensures OpenIntent(db, k, payer, price, wallet, nonce, started) ==
      if Buyable(db, k, price, wallet) && ForSale(db.listings[k.listing]) && price > 0 && k !in db.purchases &&
         (k in db.intents ==> db.intents[k].status == Unsubmitted && db.intents[k].expires <= started)
      then db.(intents := db.intents[k :=
             Intent(payer, wallet, price, nonce, started, started + 10 * MINUTE, Unsubmitted, None, None, None)])
      else db
  {
  }

  /** One more sale, with its purchase row. */
  predicate SoldTo(a: Custody, b: Custody, k: Key, p: Purchase)
  {
    k.listing in a.listings && b.purchases == a.purchases[k := p] &&
    b.listings == a.listings[k.listing := a.listings[k.listing].(sales := a.listings[k.listing].sales + 1)]
  }

  /**
    A payment is delivered exactly on the pending row that stores this transaction, payer, price and wallet,
    paid inside its window and while the goods were owed, when the transaction is the row's own and the buyer
    has no copy: then purchase, sale and completed row appear together. Otherwise nothing moves.
   */
  lemma DeliversExactly(db: Custody, k: Key, price: nat, wallet: nat, tx: Hash, payer: nat, paidAt: nat)
    ensures var (next, result) := Deliver(db, k, price, wallet, tx, payer, paidAt);
            var claimed := Buyable(db, k, price, wallet) && k in db.intents && db.intents[k].status == Pending &&
              db.intents[k].tx == Some(tx) && db.intents[k].payer == payer && db.intents[k].seller == wallet &&
              db.intents[k].amount == price && db.intents[k].created <= paidAt <= db.intents[k].expires &&
              Owed(db.listings[k.listing], paidAt);
            var free := k !in db.purchases && tx in db.uses && db.uses[tx] == IntentOwner(k);
            result == (if !claimed then Changed else if free then Delivered else Conflicting) &&
            (result != Delivered ==> next == db) &&
            (result == Delivered ==>
               SoldTo(db, next, k, Purchase(price, Some(tx), Claim)) &&
               next == db.(purchases := next.purchases, listings := next.listings,
                           intents := db.intents[k := db.intents[k].(status := Completed, paidAt := Some(paidAt))]))
  {
    hide StillOwed, Owed;
    if k.listing in db.listings { OwedIff(db.listings[k.listing], paidAt); }
  }

  /**
    A copy is sold outside a claim exactly when the listing is another merchant's at this price and wallet, is
    on sale or was at the accepted moment, and is not yet the buyer's: free when it costs nothing, else for a
    transaction of the x402 rail's own operation that bought nothing before.
   */
  lemma BuysExactly(db: Custody, k: Key, price: nat, wallet: nat, payment: Option<(Hash, nat)>, boundary: Option<nat>)
    ensures var next := Buy(db, k, price, wallet, payment, boundary);
            var open := Buyable(db, k, price, wallet) && k !in db.purchases &&
              (match boundary case None => ForSale(db.listings[k.listing]) case Some(at) => Owed(db.listings[k.listing], at));
            var paid := match payment
              case None => price == 0
              case Some((tx, operation)) =>
                tx in db.uses && db.uses[tx] == X402Owner(operation) &&
                forall j :: j in db.purchases ==> db.purchases[j].tx != Some(tx);
            if open && paid then
              next == db.(purchases := next.purchases, listings := next.listings) &&
              SoldTo(db, next, k, match payment case None => Purchase(0, None, Free)
                                                case Some((tx, operation)) => Purchase(price, Some(tx), X402(operation)))
            else next == db
  {
    hide StillOwed, Owed;
    if k.listing in db.listings && boundary.Some? { OwedIff(db.listings[k.listing], boundary.value); }
  }

  // ----- Listings -----

  /** Only its own merchant withdraws or edits a listing, only while on sale and, to edit, unsold; the maintainer removes any. */
  lemma ShelvesExactly(db: Custody, id: nat, merchant: nat, to: Terms)
    ensures Withdraw(db, id, merchant) ==
      if id in db.listings && db.listings[id].merchant == merchant && ForSale(db.listings[id])
      then db.(listings := db.listings[id := db.listings[id].(withdrawn := true, withdrawnAt := Some(db.now))]) else db
    ensures Remove(db, id) ==
      if id in db.listings && !db.listings[id].removed
      then db.(listings := db.listings[id := db.listings[id].(removed := true, removedAt := Some(db.now), withdrawn := false)])
      else db
    ensures var next := Edit(db, id, merchant, to);
            if id in db.listings && db.listings[id].merchant == merchant && ForSale(db.listings[id]) &&
               db.listings[id].sales == 0 && forall k :: k in db.purchases ==> k.listing != id
            then
              id in next.listings &&
              next == db.(listings := db.listings[id := db.listings[id].(terms := next.listings[id].terms)]) &&
              next.listings[id].terms.blurb == to.blurb &&
              (db.listings[id].price == 0 ==> next.listings[id].terms == to) &&
              (db.listings[id].price > 0 ==>
                 next.listings[id].terms.title == db.listings[id].terms.title &&
                 next.listings[id].terms.artifact == db.listings[id].terms.artifact)
            else next == db
  {
  }

  /** A new listing of this merchant, with these terms, price and wallet, unsold and on sale; `fee` is its one fee row, if any. */
  predicate NewListing(a: Custody, b: Custody, merchant: nat, terms: Terms, price: nat, wallet: nat, fee: Option<Fee>)
  {
    b.listings == a.listings[a.nextListing := Listing(merchant, terms, price, wallet, 0, fee.None?, false, None, false, None)] &&
    b.nextListing == a.nextListing + 1 && b.intents == a.intents && b.purchases == a.purchases && b.uses == a.uses &&
    b.now == a.now &&
    b.fees == (if fee.None? then a.fees else a.fees[a.nextFee := fee.value]) &&
    b.nextFee == if fee.None? then a.nextFee else a.nextFee + 1
  }

  /**
    On the direct rail a listing is made exactly for a pending attempt with this transaction that was paid
    inside its stored window; with the row go its fee row and the completed attempt.
   */
  lemma ListsDirectExactly(db: Custody, r: Request, tx: Hash, paidAt: int, terms: Terms, price: nat, wallet: nat)
    ensures var next := ListDirect(db, r, tx, paidAt, terms, price, wallet);
            if r in db.attempts && db.attempts[r].tx == tx && db.attempts[r].status == FeePending &&
               db.attempts[r].minimum <= paidAt <= db.attempts[r].maximum
            then
              NewListing(db, next, r.merchant, terms, price, wallet, Some(Fee(db.nextListing, tx, Direct(r)))) &&
              next.attempts == db.attempts[r := db.attempts[r].(status := FeeCompleted(db.nextListing, paidAt))]
            else next == db
  {
  }

  /** On the x402 rail it is made exactly for a transaction of the rail's own operation that paid no fee before. */
  lemma ListsX402Exactly(db: Custody, merchant: nat, tx: Hash, operation: nat, terms: Terms, price: nat, wallet: nat)
    ensures var next := ListX402(db, merchant, tx, operation, terms, price, wallet);
            if tx in db.uses && db.uses[tx] == X402Owner(operation) && forall f :: f in db.fees ==> db.fees[f].tx != tx then
              NewListing(db, next, merchant, terms, price, wallet, Some(Fee(db.nextListing, tx, ByX402(operation)))) &&
              next.attempts == db.attempts
            else next == db
  {
    hide NewListing;
    if tx in db.uses && db.uses[tx] == X402Owner(operation) && !TxCharged(db, tx) {
      assert NewListing(db, ListX402(db, merchant, tx, operation, terms, price, wallet), merchant, terms, price, wallet,
                        Some(Fee(db.nextListing, tx, ByX402(operation)))) by {
        X402Listing(db, merchant, tx, operation, terms, price, wallet);
      }
    }
  }

  lemma X402Listing(db: Custody, merchant: nat, tx: Hash, operation: nat, terms: Terms, price: nat, wallet: nat)
    requires tx in db.uses && db.uses[tx] == X402Owner(operation) && !TxCharged(db, tx)
    ensures NewListing(db, ListX402(db, merchant, tx, operation, terms, price, wallet), merchant, terms, price, wallet,
                       Some(Fee(db.nextListing, tx, ByX402(operation))))
  {
    hide TxCharged;
  }

  /** And the shopkeeper's own always, without a fee. */
  lemma ListsSeed(db: Custody, merchant: nat, terms: Terms, price: nat, wallet: nat)
    ensures var next := ListSeed(db, merchant, terms, price, wallet);
            NewListing(db, next, merchant, terms, price, wallet, None) && next.attempts == db.attempts
  {
  }
}
