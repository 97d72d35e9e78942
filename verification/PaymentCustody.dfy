/**
  Listings, purchases, signed purchase intents, listing-fee attempts, and the table that gives
  every payment transaction one owner. Each function is one guarded statement.
 */
module PaymentCustody {
  import opened Tables

  type Hash = nat

  const TTL: nat := 10 * MINUTE
  const HOUR: nat := 60 * MINUTE

  datatype Terms = Terms(title: string, artifact: string, blurb: string)

  /** `seed` marks a listing the shopkeeper made without a fee. */
  datatype Listing = Listing(
    merchant: nat, terms: Terms, price: nat, wallet: nat, sales: nat, seed: bool,
    removed: bool, removedAt: Option<nat>, withdrawn: bool, withdrawnAt: Option<nat>)

  /** A buyer has one intent row and one purchase row a listing. */
  datatype Key = Key(listing: nat, buyer: nat)

  datatype Status = Unsubmitted | Pending | Completed | NeedsReview

  /** `claimStarted` is bookkeeping: when the request that stored the transaction began. */
  datatype Intent = Intent(
    payer: nat, seller: nat, amount: nat, nonce: nat, created: nat, expires: nat,
    status: Status, tx: Option<Hash>, claimStarted: Option<nat>, paidAt: Option<nat>)

  datatype Via = Claim | X402(operation: nat) | Free

  datatype Purchase = Purchase(amount: nat, tx: Option<Hash>, via: Via)

  /** One exact listing request of one merchant. */
  datatype Request = Request(merchant: nat, hash: Hash)

  datatype FeeStatus = FeePending | FeeCompleted(listing: nat, paidAt: int) | FeeReview

  datatype FeeAttempt = FeeAttempt(tx: Hash, payer: nat, minimum: int, maximum: int, status: FeeStatus)

  datatype Method = Direct(request: Request) | ByX402(operation: nat)

  datatype Fee = Fee(listing: nat, tx: Hash, method_: Method)

  /** A row of `payment_uses`. */
  datatype Owner = IntentOwner(key: Key) | FeeOwner(request: Request) | X402Owner(operation: nat)

  datatype Custody = Custody(
    now: nat, listings: map<nat, Listing>, intents: map<Key, Intent>, purchases: map<Key, Purchase>,
    uses: map<Hash, Owner>, attempts: map<Request, FeeAttempt>, fees: map<nat, Fee>, nextListing: nat, nextFee: nat)

  // ----- Intents -----

  predicate OnSale(l: Listing) { !l.removed && !l.withdrawn }

  predicate SameTerms(l: Listing, price: nat, wallet: nat) { l.price == price && l.wallet == wallet }

  /** `current_terms` */
  predicate CurrentTerms(db: Custody, k: Key, price: nat, wallet: nat)
  {
    k.listing in db.listings && db.listings[k.listing].merchant != k.buyer && OnSale(db.listings[k.listing]) &&
    SameTerms(db.listings[k.listing], price, wallet) && price > 0 && k !in db.purchases
  }

  predicate Renewable(i: Intent, started: nat) { i.status == Unsubmitted && i.expires <= started }

  /** `createDirectPurchaseIntent`: a new row, or the same row renewed after it expired. */
  function OpenIntent(db: Custody, k: Key, payer: nat, price: nat, wallet: nat, nonce: nat, started: nat): Custody
  {
    if CurrentTerms(db, k, price, wallet) && (k in db.intents ==> Renewable(db.intents[k], started))
    then db.(intents := db.intents[k := Intent(payer, wallet, price, nonce, started, started + TTL, Unsubmitted, None, None, None)])
    else db
  }

  datatype ReserveResult = Stored | Kept | AlreadyUsed

  predicate Storable(db: Custody, k: Key, started: nat)
  {
    k in db.intents && db.intents[k].status == Unsubmitted && db.intents[k].created <= started <= db.intents[k].expires
  }

  /** `reserveDirectPaymentAttempt`; the transaction's owner is recorded in the same statement. */
  function Reserve(db: Custody, k: Key, tx: Hash, started: nat): (Custody, ReserveResult)
  {
    if !Storable(db, k, started) then (db, Kept)
    else if tx in db.uses then (db, AlreadyUsed)
    else
      (db.(intents := db.intents[k := db.intents[k].(status := Pending, tx := Some(tx), claimStarted := Some(started))],
           uses := db.uses[tx := IntentOwner(k)]), Stored)
  }

  /** `markDirectPaymentNeedsReview` */
  function Review(db: Custody, k: Key, paidAt: Option<nat>): Custody
  {
    if k in db.intents && db.intents[k].status == Pending
    then db.(intents := db.intents[k := db.intents[k].(status := NeedsReview, paidAt := paidAt)]) else db
  }

  // ----- Purchases -----

  /** coalesce(least(removed_at, withdrawn_at), removed_at, withdrawn_at), where LEAST skips a null. */
  function TerminalAt(l: Listing): Option<nat>
  {
    if l.removedAt.Some? && l.withdrawnAt.Some? then Some(Least(l.removedAt.value, l.withdrawnAt.value))
    else if l.removedAt.Some? then l.removedAt
    else l.withdrawnAt
  }

  /** On sale, or paid before it stopped being. */
  predicate StillOwed(l: Listing, paidAt: nat)
  {
    OnSale(l) || (TerminalAt(l).Some? && paidAt <= TerminalAt(l).value)
  }

  /** `locked_claim` */
  predicate Deliverable(db: Custody, k: Key, price: nat, wallet: nat, tx: Hash, payer: nat, paidAt: nat)
  {
    k.listing in db.listings && k in db.intents &&
    var (l, i) := (db.listings[k.listing], db.intents[k]);
    l.merchant != k.buyer && SameTerms(l, price, wallet) && i.payer == payer && i.seller == l.wallet &&
    i.amount == l.price && i.status == Pending && i.tx == Some(tx) && i.created <= paidAt <= i.expires &&
    StillOwed(l, paidAt)
  }

  datatype DeliverResult = Delivered | Changed | Conflicting

  function Sold(db: Custody, k: Key, p: Purchase): Custody
    requires k.listing in db.listings
  {
    var l := db.listings[k.listing];
    db.(purchases := db.purchases[k := p], listings := db.listings[k.listing := l.(sales := l.sales + 1)])
  }

  /** The statement of `recordDirectPurchase`. */
  function Deliver(db: Custody, k: Key, price: nat, wallet: nat, tx: Hash, payer: nat, paidAt: nat): (Custody, DeliverResult)
  {
    if !Deliverable(db, k, price, wallet, tx, payer, paidAt) then (db, Changed)
    else if k in db.purchases || tx !in db.uses || db.uses[tx] != IntentOwner(k) then (db, Conflicting)
    else
      (Sold(db, k, Purchase(price, Some(tx), Claim)).(
         intents := db.intents[k := db.intents[k].(status := Completed, paidAt := Some(paidAt))]), Delivered)
  }

  /** `recordPurchase`: a free copy, or an x402 payment accepted at `boundary`. */
  function Buy(db: Custody, k: Key, price: nat, wallet: nat, payment: Option<(Hash, nat)>, boundary: Option<nat>): Custody
  {
    if k.listing !in db.listings || db.listings[k.listing].merchant == k.buyer ||
       !SameTerms(db.listings[k.listing], price, wallet) || k in db.purchases then db
    else if !(if boundary.Some? then StillOwed(db.listings[k.listing], boundary.value) else OnSale(db.listings[k.listing])) then db
    else match payment
      case None => if price == 0 then Sold(db, k, Purchase(0, None, Free)) else db
      case Some((tx, operation)) =>
        if tx in db.uses && db.uses[tx] == X402Owner(operation) && !TxSold(db, tx)
        then Sold(db, k, Purchase(price, Some(tx), X402(operation))) else db
  }

  /** purchases.tx_hash is unique. */
  predicate TxSold(db: Custody, tx: Hash)
  {
    exists k :: k in db.purchases && db.purchases[k].tx == Some(tx)
  }

  /** The x402 rail, as an oracle: one transaction an operation, reserved before it is used. */
  function SettleX402(db: Custody, tx: Hash, operation: nat): Custody
  {
    if tx in db.uses then db else db.(uses := db.uses[tx := X402Owner(operation)])
  }

  // ----- Listings -----

  /** The statement of the withdraw handler. */
  function Withdraw(db: Custody, id: nat, merchant: nat): Custody
  {
    if id in db.listings && db.listings[id].merchant == merchant && OnSale(db.listings[id])
    then db.(listings := db.listings[id := db.listings[id].(withdrawn := true, withdrawnAt := Some(db.now))]) else db
  }

  /** The statement of the maintainer's removal: it clears `withdrawn` and keeps `withdrawn_at`. */
  function Remove(db: Custody, id: nat): Custody
  {
    if id in db.listings && !db.listings[id].removed
    then db.(listings := db.listings[id := db.listings[id].(removed := true, removedAt := Some(db.now), withdrawn := false)])
    else db
  }

  predicate HasPurchases(db: Custody, id: nat) { exists k :: k in db.purchases && k.listing == id }

  /** The edit handler: title and artifact only of a free listing, nothing once sold. */
  function Edit(db: Custody, id: nat, merchant: nat, to: Terms): Custody
  {
    if id !in db.listings then db
    else
      var l := db.listings[id];
      if l.merchant != merchant || !OnSale(l) || l.sales != 0 || HasPurchases(db, id) then db
      else db.(listings := db.listings[id := l.(terms := if l.price > 0 then l.terms.(blurb := to.blurb) else to)])
  }

  function Listed(db: Custody, merchant: nat, terms: Terms, price: nat, wallet: nat, seed: bool): Custody
  {
    db.(listings := db.listings[db.nextListing := Listing(merchant, terms, price, wallet, 0, seed, false, None, false, None)],
        nextListing := db.nextListing + 1)
  }

  /** The shopkeeper's own listing. */
  function ListSeed(db: Custody, merchant: nat, terms: Terms, price: nat, wallet: nat): Custody
  {
    Listed(db, merchant, terms, price, wallet, true)
  }

  function Charged(db: Custody, fee: Fee): Custody
  {
    db.(fees := db.fees[db.nextFee := fee], nextFee := db.nextFee + 1)
  }

  /**
    The direct rail: the pending attempt, the listing and the fee row change together. A completed
    attempt is checked to be paid inside its window, so a payment outside it fails the whole statement.
   */
  function ListDirect(db: Custody, r: Request, tx: Hash, paidAt: int, terms: Terms, price: nat, wallet: nat): Custody
  {
    if r in db.attempts && db.attempts[r].tx == tx && db.attempts[r].status == FeePending &&
       db.attempts[r].minimum <= paidAt <= db.attempts[r].maximum
    then
      Charged(Listed(db, r.merchant, terms, price, wallet, false), Fee(db.nextListing, tx, Direct(r))).(
        attempts := db.attempts[r := db.attempts[r].(status := FeeCompleted(db.nextListing, paidAt))])
    else db
  }

  predicate TxCharged(db: Custody, tx: Hash)
  {
    exists f :: f in db.fees && db.fees[f].tx == tx
  }

  /** The x402 rail. */
  function ListX402(db: Custody, merchant: nat, tx: Hash, operation: nat, terms: Terms, price: nat, wallet: nat): Custody
  {
    if tx in db.uses && db.uses[tx] == X402Owner(operation) && !TxCharged(db, tx)
    then Charged(Listed(db, merchant, terms, price, wallet, false), Fee(db.nextListing, tx, ByX402(operation))) else db
  }

  // ----- Fee attempts -----

  /** `reserveAttempt`: ON CONFLICT DO NOTHING on the request and on the transaction. */
  function ReserveFee(db: Custody, r: Request, tx: Hash, payer: nat, started: int): Custody
  {
    if r in db.attempts || tx in db.uses then db
    else
      db.(attempts := db.attempts[r := FeeAttempt(tx, payer, started - HOUR, started, FeePending)],
          uses := db.uses[tx := FeeOwner(r)])
  }

  /** `reviewAttempt` */
  function ReviewFee(db: Custody, r: Request): Custody
  {
    if r in db.attempts && db.attempts[r].status == FeePending
    then db.(attempts := db.attempts[r := db.attempts[r].(status := FeeReview)]) else db
  }

  // ----- What every statement keeps -----

  predicate IntentOk(db: Custody, k: Key, i: Intent)
  {
    i.expires == i.created + TTL && (i.status == Unsubmitted <==> i.tx.None?) &&
    (i.tx.Some? ==>
       i.tx.value in db.uses && db.uses[i.tx.value] == IntentOwner(k) &&
       i.claimStarted.Some? && i.created <= i.claimStarted.value <= i.expires) &&
    (i.status == Completed ==>
       i.paidAt.Some? && i.created <= i.paidAt.value <= i.expires &&
       k in db.purchases && db.purchases[k] == Purchase(i.amount, i.tx, Claim))
  }

  ghost predicate IntentsOk(db: Custody) { forall k :: k in db.intents ==> IntentOk(db, k, db.intents[k]) }

  predicate PurchaseOk(db: Custody, k: Key, p: Purchase)
  {
    k.listing in db.listings &&
    match p.via
    case Claim => k in db.intents && db.intents[k].status == Completed
    case X402(operation) => p.tx.Some? && p.tx.value in db.uses && db.uses[p.tx.value] == X402Owner(operation)
    case Free => p.tx.None? && p.amount == 0
  }

  ghost predicate PurchasesOk(db: Custody) { forall k :: k in db.purchases ==> PurchaseOk(db, k, db.purchases[k]) }

  predicate AttemptOk(db: Custody, r: Request, a: FeeAttempt)
  {
    a.maximum == a.minimum + HOUR && a.tx in db.uses && db.uses[a.tx] == FeeOwner(r) &&
    (a.status.FeeCompleted? ==> a.minimum <= a.status.paidAt <= a.maximum && a.status.listing in db.listings)
  }

  ghost predicate AttemptsOk(db: Custody) { forall r :: r in db.attempts ==> AttemptOk(db, r, db.attempts[r]) }

  function Buyers(db: Custody, id: nat): set<Key> { set k | k in db.purchases && k.listing == id }

  function FeeRows(db: Custody, id: nat): set<nat> { set f | f in db.fees && db.fees[f].listing == id }

  ghost predicate SalesOk(db: Custody)
  {
    forall id :: id in db.listings ==> id < db.nextListing && db.listings[id].sales == |Buyers(db, id)|
  }

  /** A terminal state has its time, and the two terminal states exclude each other. */
  predicate TerminalOk(l: Listing)
  {
    (l.removed <==> l.removedAt.Some?) && (l.withdrawn ==> l.withdrawnAt.Some?) && !(l.removed && l.withdrawn) &&
    (OnSale(l) ==> l.withdrawnAt.None?)
  }

  ghost predicate TerminalsOk(db: Custody) { forall id :: id in db.listings ==> TerminalOk(db.listings[id]) }

  ghost predicate FeeRowsOk(db: Custody)
  {
    forall f :: f in db.fees ==>
      f < db.nextFee && db.fees[f].listing in db.listings &&
      match db.fees[f].method_
      case Direct(r) => r in db.attempts && db.attempts[r].status.FeeCompleted? &&
                        db.attempts[r].status.listing == db.fees[f].listing && db.attempts[r].tx == db.fees[f].tx
      case ByX402(operation) => db.fees[f].tx in db.uses && db.uses[db.fees[f].tx] == X402Owner(operation)
  }

  /** Every listing but the shopkeeper's own has exactly one fee row; those have none. */
  ghost predicate FeesPaid(db: Custody)
  {
    forall id :: id in db.listings ==> |FeeRows(db, id)| == if db.listings[id].seed then 0 else 1
  }

  ghost predicate MoneyOk(db: Custody) { IntentsOk(db) && PurchasesOk(db) && AttemptsOk(db) }

  ghost predicate CountsOk(db: Custody) { SalesOk(db) && TerminalsOk(db) && FeeRowsOk(db) && FeesPaid(db) }

  ghost predicate Valid(db: Custody) { MoneyOk(db) && CountsOk(db) }

  const EMPTY: Custody := Custody(0, map[], map[], map[], map[], map[], map[], 0, 0)

  lemma EmptyValid()
    ensures Valid(EMPTY)
  {
    assert forall id :: Buyers(EMPTY, id) == {} && FeeRows(EMPTY, id) == {};
  }
}
