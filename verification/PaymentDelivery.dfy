/** A stored payment is delivered: what is left to stand in its way. */
module PaymentDelivery {
  import opened Tables
  import opened PaymentCustody
  import opened PaymentLaws
  import opened PaymentRuns

  /** Every intent carries its listing's price and wallet, and no buyer is the seller. */
  ghost predicate TermsMatch(db: Custody)
  {
    forall k :: k in db.intents ==>
      k.listing in db.listings && db.listings[k.listing].merchant != k.buyer &&
      SameTerms(db.listings[k.listing], db.intents[k].amount, db.intents[k].seller)
  }

  /** No intent is made, and none changes its contract. */
  predicate ContractsKept(a: Custody, b: Custody)
  {
    b.intents.Keys == a.intents.Keys && forall k :: k in a.intents ==> SameContract(a.intents[k], b.intents[k])
  }

  lemma KeptMatch(a: Custody, b: Custody)
    requires TermsMatch(a) && ContractsKept(a, b) && GoodsOnward(a, b)
    ensures TermsMatch(b)
  {
    hide HasPurchases;
  }

  lemma OpenIntentMatch(db: Custody, k: Key, payer: nat, price: nat, wallet: nat, nonce: nat, started: nat)
    requires TermsMatch(db)
    ensures TermsMatch(OpenIntent(db, k, payer, price, wallet, nonce, started))
  {
  }

  lemma SameIntents(a: Custody, b: Custody)
    requires b.intents == a.intents
    ensures ContractsKept(a, b)
  {
  }

  lemma ReserveKeepsContracts(db: Custody, k: Key, tx: Hash, started: nat)
    ensures ContractsKept(db, Reserve(db, k, tx, started).0)
  {
  }

  lemma ReviewKeepsContracts(db: Custody, k: Key, paidAt: Option<nat>)
    ensures ContractsKept(db, Review(db, k, paidAt))
  {
  }

  lemma DeliverKeepsContracts(db: Custody, k: Key, price: nat, wallet: nat, tx: Hash, payer: nat, at: nat)
    ensures ContractsKept(db, Deliver(db, k, price, wallet, tx, payer, at).0)
  {
    hide StillOwed;
  }

  lemma ListKeepsIntents(db: Custody, r: Request, merchant: nat, tx: Hash, operation: nat, paid: int, terms: Terms, price: nat, wallet: nat)
    ensures ListDirect(db, r, tx, paid, terms, price, wallet).intents == db.intents
    ensures ListX402(db, merchant, tx, operation, terms, price, wallet).intents == db.intents
    ensures ListSeed(db, merchant, terms, price, wallet).intents == db.intents
  {
    hide TxCharged;
  }

  lemma FeeKeepsIntents(db: Custody, r: Request, tx: Hash, operation: nat, payer: nat, begun: int, d: nat)
    ensures ReserveFee(db, r, tx, payer, begun).intents == db.intents && ReviewFee(db, r).intents == db.intents
    ensures SettleX402(db, tx, operation).intents == db.intents && Tick(db, d).intents == db.intents
  {
  }

  lemma ShelfKeepsIntents(db: Custody, id: nat, merchant: nat, to: Terms)
    ensures Withdraw(db, id, merchant).intents == db.intents && Remove(db, id).intents == db.intents
    ensures Edit(db, id, merchant, to).intents == db.intents
  {
    hide HasPurchases;
  }

  lemma BuyKeepsIntents(db: Custody, k: Key, price: nat, wallet: nat, payment: Option<(Hash, nat)>, boundary: Option<nat>)
    ensures Buy(db, k, price, wallet, payment, boundary).intents == db.intents
  {
    hide StillOwed, TxSold;
  }

  /** Statements about claims keep every contract. */
  lemma ClaimStatements(db: Custody, e: Event)
    requires e.Reserved? || e.Reviewed? || e.DeliveryTried?
    ensures ContractsKept(db, Apply(db, e))
  {
    hide ContractsKept, Reserve, Review, Deliver;
    match e
    case Reserved(k, tx, started) => ReserveKeepsContracts(db, k, tx, started);
    case Reviewed(k, paidAt) => ReviewKeepsContracts(db, k, paidAt);
    case DeliveryTried(k, price, wallet, tx, payer, at) => DeliverKeepsContracts(db, k, price, wallet, tx, payer, at);
  }

  /** All others but a new intent touch no intent. */
  lemma OtherStatements(db: Custody, e: Event)
    requires !e.IntentOpened? && !e.Reserved? && !e.Reviewed? && !e.DeliveryTried?
    ensures Apply(db, e).intents == db.intents
  {
    hide Buy, SettleX402, Withdraw, Remove, Edit, ListSeed, ListDirect, ListX402, ReserveFee, ReviewFee, Tick;
    match e
    case Bought(k, price, wallet, payment, boundary) => BuyKeepsIntents(db, k, price, wallet, payment, boundary);
    case X402Settled(tx, operation) => FeeKeepsIntents(db, Request(0, 0), tx, operation, 0, 0, 0);
    case Withdrawn(id, merchant) => ShelfKeepsIntents(db, id, merchant, Terms("", "", ""));
    case Removed(id) => ShelfKeepsIntents(db, id, 0, Terms("", "", ""));
    case Edited(id, merchant, to) => ShelfKeepsIntents(db, id, merchant, to);
    case SeedListed(merchant, terms, price, wallet) => ListKeepsIntents(db, Request(0, 0), merchant, 0, 0, 0, terms, price, wallet);
    case DirectListed(r, tx, paid, terms, price, wallet) => ListKeepsIntents(db, r, 0, tx, 0, paid, terms, price, wallet);
    case X402Listed(merchant, tx, operation, terms, price, wallet) =>
      ListKeepsIntents(db, Request(0, 0), merchant, tx, operation, 0, terms, price, wallet);
    case FeeReserved(r, tx, payer, begun) => FeeKeepsIntents(db, r, tx, 0, payer, begun, 0);
    case FeeReviewed(r) => FeeKeepsIntents(db, r, 0, 0, 0, 0, 0);
    case Ticked(d) => FeeKeepsIntents(db, Request(0, 0), 0, 0, 0, 0, d);
  }

  lemma ApplyMatch(db: Custody, e: Event)
    requires Valid(db) && TermsMatch(db)
    ensures TermsMatch(Apply(db, e))
  {
    hide Valid, TermsMatch, MoneyOnward, GoodsOnward, ContractsKept, Apply;
    if e.IntentOpened? {
      OpenIntentApplied(db, e);
    } else {
      ApplyOnward(db, e);
      if e.Reserved? || e.Reviewed? || e.DeliveryTried? { ClaimStatements(db, e); }
      else { OtherStatements(db, e); SameIntents(db, Apply(db, e)); }
      KeptMatch(db, Apply(db, e));
    }
  }

  lemma OpenIntentApplied(db: Custody, e: Event)
    requires TermsMatch(db) && e.IntentOpened?
    ensures TermsMatch(Apply(db, e))
  {
    hide TermsMatch, OpenIntent;
    OpenIntentMatch(db, e.k, e.payer, e.price, e.wallet, e.nonce, e.started);
  }

  lemma {:induction false} RunMatch(db: Custody, es: seq<Event>)
    requires Valid(db) && TermsMatch(db)
    ensures TermsMatch(Run(db, es))
    decreases |es|
  {
    hide Valid, TermsMatch, Apply;
    if es != [] {
      ApplyMatch(db, es[0]);
      ApplyValid(db, es[0]);
      RunMatch(Apply(db, es[0]), es[1..]);
    }
  }

  /**
    A payment that was stored and lay inside its window is delivered by the claim's own terms, in any
    later state in which it is still pending, unless the buyer already has the goods by another rail or
    the listing had left the market before the payment: exactly then the delivery is refused.
   */
  lemma StoredPaymentDelivers(db: Custody, es: seq<Event>, k: Key, paidAt: nat)
    requires Valid(db) && TermsMatch(db) && k in Run(db, es).intents
    requires var i := Run(db, es).intents[k]; i.status == Pending && i.created <= paidAt <= i.expires
    ensures var late := Run(db, es);
            var i := late.intents[k];
            k.listing in late.listings && i.tx.Some? &&
            var (next, result) := Deliver(late, k, i.amount, i.seller, i.tx.value, i.payer, paidAt);
            (result == Delivered <==> k !in late.purchases && StillOwed(late.listings[k.listing], paidAt)) &&
            (result == Delivered ==>
               k in next.purchases && next.purchases[k] == Purchase(i.amount, i.tx, Claim) &&
               next.listings[k.listing].sales == late.listings[k.listing].sales + 1) &&
            (result != Delivered ==> next == late)
  {
    hide CountsOk, AttemptsOk, PurchasesOk, Onward, StillOwed;
    RunKeeps(db, es);
    RunMatch(db, es);
    assert IntentOk(Run(db, es), k, Run(db, es).intents[k]);
  }
}
