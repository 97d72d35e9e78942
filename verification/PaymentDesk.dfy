/** The payment tables as the statements update them in place, each proved against its function. */
module PaymentDesk {
  import opened Tables
  import opened PaymentCustody
  import opened PaymentLaws
  import opened PaymentRuns
  import opened PaymentFlows
  import opened PaymentAnswers

  class Desk {
    var now: nat
    var listings: map<nat, Listing>
    var intents: map<Key, Intent>
    var purchases: map<Key, Purchase>
    var uses: map<Hash, Owner>
    var attempts: map<Request, FeeAttempt>
    var fees: map<nat, Fee>
    var nextListing: nat
    var nextFee: nat

    ghost function State(): Custody
      reads this
    {
      Custody(now, listings, intents, purchases, uses, attempts, fees, nextListing, nextFee)
    }

    constructor ()
      ensures Valid(State())
    {
      now, listings, intents, purchases, uses := 0, map[], map[], map[], map[];
      attempts, fees, nextListing, nextFee := map[], map[], 0, 0;
    }

    method OpenIntent(k: Key, payer: nat, price: nat, wallet: nat, nonce: nat, started: nat)
      requires Valid(State())
      modifies `intents
      ensures State() == PaymentCustody.OpenIntent(old(State()), k, payer, price, wallet, nonce, started)
      ensures Valid(State())
    {
      hide Valid;
      OpenIntentValid(State(), k, payer, price, wallet, nonce, started);
      if k.listing !in listings || k in purchases || price == 0 { return; }
      var l := listings[k.listing];
      if l.merchant == k.buyer || l.removed || l.withdrawn || l.price != price || l.wallet != wallet { return; }
      if k in intents {
        var row := intents[k];
        if row.status != Unsubmitted || row.expires > started { return; }
      }
      intents := intents[k := Intent(payer, wallet, price, nonce, started, started + TTL, Unsubmitted, None, None, None)];
    }

    method ReserveDirectPaymentAttempt(k: Key, tx: Hash, started: nat) returns (result: ReserveResult)
      requires Valid(State())
      modifies `intents, `uses
      ensures (State(), result) == PaymentCustody.Reserve(old(State()), k, tx, started)
      ensures Valid(State())
    {
      hide Valid;
      ReserveValid(State(), k, tx, started);
      if k !in intents { return Kept; }
      var row := intents[k];
      if row.status != Unsubmitted || started < row.created || row.expires < started { return Kept; }
      if tx in uses { return AlreadyUsed; }
      intents := intents[k := row.(status := Pending, tx := Some(tx), claimStarted := Some(started))];
      uses := uses[tx := IntentOwner(k)];
      result := Stored;
    }

    method MarkDirectPaymentNeedsReview(k: Key, paidAt: Option<nat>)
      requires Valid(State())
      modifies `intents
      ensures State() == PaymentCustody.Review(old(State()), k, paidAt)
      ensures Valid(State())
    {
      hide Valid;
      ReviewValid(State(), k, paidAt);
      if k in intents && intents[k].status == Pending {
        intents := intents[k := intents[k].(status := NeedsReview, paidAt := paidAt)];
      }
    }

    /** `reviewDirectPaymentClaim`: write, then answer from the row as it now is. */
    method ReviewDirectPaymentClaim(k: Key, paidAt: Option<nat>) returns (r: Resolution)
      requires Valid(State())
      modifies `intents
      ensures State() == PaymentCustody.Review(old(State()), k, paidAt) && r == ReviewAnswer(State(), k)
      ensures Valid(State())
    {
      hide Valid;
      ReviewValid(State(), k, paidAt);
      MarkDirectPaymentNeedsReview(k, paidAt);
      if k in intents && intents[k].status == Completed { return AlreadyCompleted; }
      if k in intents && intents[k].status == NeedsReview { return Refused(UnderReview); }
      r := Refused(ReviewUncertain);
    }

    method ResolveDirectPaymentClaim(read: Intent, k: Key, tx: Hash, proof: Proof, chain: Chain<nat>, started: nat) returns (r: Resolution)
      requires Valid(State())
      modifies `intents, `uses
      ensures (State(), r) == Resolve(old(State()), read, k, tx, proof, chain, started)
      ensures ClaimEnd(old(State()), State(), read, k, tx, proof, chain, started, r)
      ensures Valid(State())
    {
      hide Valid, ClaimEnd;
      ClaimEnds(State(), read, k, tx, proof, chain, started);
      ResolveValid(State(), read, k, tx, proof, chain, started);
      if read.status == Completed { return AlreadyCompleted; }
      if read.status == NeedsReview { return Refused(UnderReview); }
      if read.status == Pending && read.tx != Some(tx) { return Refused(OtherTransaction); }
      var retrying := read.status == Pending;
      var preflight := WindowErrorOf(read, read.created, started, retrying);
      if preflight.Some? { return Refused(BadWindow(preflight.value)); }
      if proof != Signed { return Refused(BadSignature(proof)); }
      if chain.Invalid? {
        if !retrying { return Refused(PaymentInvalid); }
        r := ReviewDirectPaymentClaim(k, chain.seen);
        return;
      }
      if chain.Unavailable? { return Refused(PaymentUnavailable); }
      if chain.Verified? && !retrying {
        var first := WindowErrorOf(read, chain.paidAt, started, false);
        if first.Some? { return Refused(PaymentOutsideWindow(first.value)); }
      }
      var attempt := Some(read);
      if !retrying {
        var stored := ReserveDirectPaymentAttempt(k, tx, started);
        if stored == AlreadyUsed { return Refused(HashTaken); }
        attempt := if k in intents then Some(intents[k]) else None;
      }
      if attempt.None? || attempt.value.tx != Some(tx) { return Refused(IntentChanged); }
      if attempt.value.status == NeedsReview { return Refused(UnderReview); }
      if attempt.value.status == Completed { return AlreadyCompleted; }
      if attempt.value.status != Pending { return Refused(NotPreserved); }
      if chain.Unfinal? { return Refused(AwaitingFinality); }
      var late := WindowErrorOf(read, chain.paidAt, started, true);
      if late.Some? {
        r := ReviewDirectPaymentClaim(k, Some(chain.paidAt));
        return;
      }
      r := Proven(chain.paidAt);
    }

    /** `new_purchase` and `new_sale_count` */
    method RecordSale(k: Key, p: Purchase)
      requires k.listing in listings
      modifies `purchases, `listings
      ensures State() == Sold(old(State()), k, p)
    {
      var l := listings[k.listing];
      purchases := purchases[k := p];
      listings := listings[k.listing := l.(sales := l.sales + 1)];
    }

    method RecordDirectPurchase(k: Key, price: nat, wallet: nat, tx: Hash, payer: nat, paidAt: nat) returns (result: DeliverResult)
      requires Valid(State())
      modifies `purchases, `listings, `intents
      ensures (State(), result) == PaymentCustody.Deliver(old(State()), k, price, wallet, tx, payer, paidAt)
      ensures Valid(State())
    {
      hide Valid;
      DeliverValid(State(), k, price, wallet, tx, payer, paidAt);
      if k.listing !in listings || k !in intents { return Changed; }
      var l, row := listings[k.listing], intents[k];
      if l.merchant == k.buyer || l.price != price || l.wallet != wallet || row.payer != payer || row.seller != l.wallet ||
         row.amount != l.price || row.status != Pending || row.tx != Some(tx) || paidAt < row.created || row.expires < paidAt ||
         !StillOwed(l, paidAt) {
        return Changed;
      }
      if k in purchases || tx !in uses || uses[tx] != IntentOwner(k) { return Conflicting; }
      RecordSale(k, Purchase(price, Some(tx), Claim));
      intents := intents[k := row.(status := Completed, paidAt := Some(paidAt))];
      result := Delivered;
    }

    method WithdrawListing(id: nat, merchant: nat)
      requires Valid(State())
      modifies `listings
      ensures State() == PaymentCustody.Withdraw(old(State()), id, merchant)
      ensures Valid(State())
    {
      hide Valid;
      WithdrawValid(State(), id, merchant);
      if id in listings && listings[id].merchant == merchant && !listings[id].removed && !listings[id].withdrawn {
        listings := listings[id := listings[id].(withdrawn := true, withdrawnAt := Some(now))];
      }
    }

    method RemoveListing(id: nat)
      requires Valid(State())
      modifies `listings
      ensures State() == PaymentCustody.Remove(old(State()), id)
      ensures Valid(State())
    {
      hide Valid;
      RemoveValid(State(), id);
      if id in listings && !listings[id].removed {
        listings := listings[id := listings[id].(removed := true, removedAt := Some(now), withdrawn := false)];
      }
    }

    method EditListing(id: nat, merchant: nat, to: Terms)
      requires Valid(State())
      modifies `listings
      ensures State() == PaymentCustody.Edit(old(State()), id, merchant, to)
      ensures Valid(State())
    {
      hide Valid;
      EditValid(State(), id, merchant, to);
      if id !in listings { return; }
      var l := listings[id];
      var sold := exists k :: k in purchases && k.listing == id;
      if l.merchant != merchant || l.removed || l.withdrawn || l.sales != 0 || sold { return; }
      if l.price > 0 {
        listings := listings[id := l.(terms := l.terms.(blurb := to.blurb))];
      } else {
        listings := listings[id := l.(terms := to)];
      }
    }

    /** `new_listing`, `completed_attempt` and `new_fee` */
    method CreateDirectListing(r: Request, tx: Hash, paidAt: int, terms: Terms, price: nat, wallet: nat) returns (id: Option<nat>)
      requires Valid(State())
      modifies `listings, `nextListing, `attempts, `fees, `nextFee
      ensures State() == PaymentCustody.ListDirect(old(State()), r, tx, paidAt, terms, price, wallet)
      ensures id == if State() == old(State()) then None else Some(old(nextListing))
      ensures Valid(State())
    {
      hide Valid;
      ListDirectValid(State(), r, tx, paidAt, terms, price, wallet);
      if r !in attempts { return None; }
      var a := attempts[r];
      if a.tx != tx || a.status != FeePending || paidAt < a.minimum || a.maximum < paidAt { return None; }
      listings := listings[nextListing := Listing(r.merchant, terms, price, wallet, 0, false, false, None, false, None)];
      attempts := attempts[r := a.(status := FeeCompleted(nextListing, paidAt))];
      fees := fees[nextFee := Fee(nextListing, tx, Direct(r))];
      id := Some(nextListing);
      nextListing := nextListing + 1;
      nextFee := nextFee + 1;
    }

    method ReserveFeeAttempt(r: Request, tx: Hash, payer: nat, started: int)
      requires Valid(State())
      modifies `attempts, `uses
      ensures State() == PaymentCustody.ReserveFee(old(State()), r, tx, payer, started)
      ensures Valid(State())
    {
      hide Valid;
      ReserveFeeValid(State(), r, tx, payer, started);
      if r in attempts || tx in uses { return; }
      attempts := attempts[r := FeeAttempt(tx, payer, started - HOUR, started, FeePending)];
      uses := uses[tx := FeeOwner(r)];
    }

    method ReviewListingFeePayment(r: Request) returns (answer: FeeResolution)
      requires Valid(State())
      modifies `attempts
      ensures State() == PaymentCustody.ReviewFee(old(State()), r) && answer == FeeReviewAnswer(State(), r)
      ensures Valid(State())
    {
      hide Valid;
      ReviewFeeValid(State(), r);
      if r in attempts && attempts[r].status == FeePending {
        attempts := attempts[r := attempts[r].(status := FeeReview)];
      }
      answer := FeeRefused(FeeReviewUncertain);
      if r in attempts {
        match attempts[r].status
        case FeeCompleted(listing, _) => answer := FeeDone(listing);
        case FeeReview => answer := FeeRefused(FeeUnderReview);
        case FeePending =>
      }
    }

    /** `resolveListingFeePayment` up to its chain call. */
    method BeginListingFeePayment(read: Option<FeeAttempt>, r: Request, tx: Hash, payer: nat, started: int) returns (step: FeeStep)
      requires Valid(State())
      modifies `attempts, `uses
      ensures (State(), step) == BeginFee(old(State()), read, r, tx, payer, started)
      ensures Valid(State())
    {
      hide Valid;
      BeginFeeValid(State(), read, r, tx, payer, started);
      if read.Some? {
        var attempt := read.value;
        if attempt.status.FeeCompleted? {
          if !AttemptMatches(attempt, tx, payer) { return Answered(FeeRefused(FeeUnderReview)); }
          return Answered(FeeDone(attempt.status.listing));
        }
        if attempt.status.FeeReview? { return Answered(FeeRefused(FeeUnderReview)); }
        if !AttemptMatches(attempt, tx, payer) { return Answered(FeeRefused(DifferentFee)); }
        if attempt.maximum - attempt.minimum == HOUR { return Checking(attempt.minimum, attempt.maximum); }
        var answer := ReviewListingFeePayment(r);
        return Answered(answer);
      }
      ReserveFeeAttempt(r, tx, payer, started);
      if r !in attempts || !AttemptMatches(attempts[r], tx, payer) { return Answered(FeeRefused(FeeHashTaken)); }
      if attempts[r].status.FeeCompleted? { return Answered(FeeDone(attempts[r].status.listing)); }
      if attempts[r].status.FeeReview? { return Answered(FeeRefused(FeeUnderReview)); }
      step := Checking(started - HOUR, started);
    }

    /** The rest, once the chain has answered. */
    method EndListingFeePayment(r: Request, minimum: int, maximum: int, chain: Chain<int>) returns (answer: FeeResolution)
      requires Valid(State())
      modifies `attempts
      ensures (State(), answer) == EndFee(old(State()), r, minimum, maximum, chain)
      ensures Valid(State())
    {
      hide Valid;
      EndFeeValid(State(), r, minimum, maximum, chain);
      if chain.Unavailable? { return FeeRefused(FeeUnavailable); }
      if chain.Unfinal? { return FeeRefused(FeeAwaitingFinality); }
      if chain.Invalid? || chain.paidAt < minimum || chain.paidAt > maximum {
        answer := ReviewListingFeePayment(r);
        return;
      }
      answer := FeeProven(chain.paidAt);
    }
  }
}
