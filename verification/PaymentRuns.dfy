/** What holds over every run of the payment and listing statements. */
module PaymentRuns {
  import opened Tables
  import opened PaymentCustody
  import opened PaymentLaws

  datatype Event =
    | IntentOpened(k: Key, payer: nat, price: nat, wallet: nat, nonce: nat, started: nat)
    | Reserved(k: Key, tx: Hash, started: nat)
    | Reviewed(k: Key, paidAt: Option<nat>)
    | DeliveryTried(k: Key, price: nat, wallet: nat, tx: Hash, payer: nat, at: nat)
    | Bought(k: Key, price: nat, wallet: nat, payment: Option<(Hash, nat)>, boundary: Option<nat>)
    | X402Settled(tx: Hash, operation: nat)
    | Withdrawn(id: nat, merchant: nat)
    | Removed(id: nat)
    | Edited(id: nat, merchant: nat, to: Terms)
    | SeedListed(merchant: nat, terms: Terms, price: nat, wallet: nat)
    | DirectListed(r: Request, tx: Hash, paid: int, terms: Terms, price: nat, wallet: nat)
    | X402Listed(merchant: nat, tx: Hash, operation: nat, terms: Terms, price: nat, wallet: nat)
    | FeeReserved(r: Request, tx: Hash, payer: nat, begun: int)
    | FeeReviewed(r: Request)
    | Ticked(elapsed: nat)

  function Apply(db: Custody, e: Event): Custody
  {
    match e
    case IntentOpened(k, payer, price, wallet, nonce, started) => OpenIntent(db, k, payer, price, wallet, nonce, started)
    case Reserved(k, tx, started) => Reserve(db, k, tx, started).0
    case Reviewed(k, paidAt) => Review(db, k, paidAt)
    case DeliveryTried(k, price, wallet, tx, payer, at) => Deliver(db, k, price, wallet, tx, payer, at).0
    case Bought(k, price, wallet, payment, boundary) => Buy(db, k, price, wallet, payment, boundary)
    case X402Settled(tx, operation) => SettleX402(db, tx, operation)
    case Withdrawn(id, merchant) => Withdraw(db, id, merchant)
    case Removed(id) => Remove(db, id)
    case Edited(id, merchant, to) => Edit(db, id, merchant, to)
    case SeedListed(merchant, terms, price, wallet) => ListSeed(db, merchant, terms, price, wallet)
    case DirectListed(r, tx, paid, terms, price, wallet) => ListDirect(db, r, tx, paid, terms, price, wallet)
    case X402Listed(merchant, tx, operation, terms, price, wallet) => ListX402(db, merchant, tx, operation, terms, price, wallet)
    case FeeReserved(r, tx, payer, begun) => ReserveFee(db, r, tx, payer, begun)
    case FeeReviewed(r) => ReviewFee(db, r)
    case Ticked(d) => Tick(db, d)
  }

  function Tick(db: Custody, d: nat): Custody { db.(now := db.now + d) }

  function Run(db: Custody, es: seq<Event>): Custody
    decreases |es|
  {
    if es == [] then db else Run(Apply(db, es[0]), es[1..])
  }

  lemma TickValid(db: Custody, d: nat)
    requires Valid(db)
    ensures Valid(Tick(db, d))
  {
    hide CountsOk;
    CountsFrame(db, Tick(db, d));
  }

  lemma ApplyValid(db: Custody, e: Event)
    requires Valid(db)
    ensures Valid(Apply(db, e))
  {
    hide Valid, OpenIntent, Reserve, Review, Deliver, Buy, SettleX402, Withdraw, Remove, Edit, ListSeed, ListDirect, ListX402,
      ReserveFee, ReviewFee, Tick;
    match e
    case IntentOpened(k, payer, price, wallet, nonce, started) => OpenIntentValid(db, k, payer, price, wallet, nonce, started);
    case Reserved(k, tx, started) => ReserveValid(db, k, tx, started);
    case Reviewed(k, paidAt) => ReviewValid(db, k, paidAt);
    case DeliveryTried(k, price, wallet, tx, payer, at) => DeliverValid(db, k, price, wallet, tx, payer, at);
    case Bought(k, price, wallet, payment, boundary) => BuyValid(db, k, price, wallet, payment, boundary);
    case X402Settled(tx, operation) => SettleX402Valid(db, tx, operation);
    case Withdrawn(id, merchant) => WithdrawValid(db, id, merchant);
    case Removed(id) => RemoveValid(db, id);
    case Edited(id, merchant, to) => EditValid(db, id, merchant, to);
    case SeedListed(merchant, terms, price, wallet) => ListSeedValid(db, merchant, terms, price, wallet);
    case DirectListed(r, tx, paid, terms, price, wallet) => ListDirectValid(db, r, tx, paid, terms, price, wallet);
    case X402Listed(merchant, tx, operation, terms, price, wallet) =>
      ListX402Valid(db, merchant, tx, operation, terms, price, wallet);
    case FeeReserved(r, tx, payer, begun) => ReserveFeeValid(db, r, tx, payer, begun);
    case FeeReviewed(r) => ReviewFeeValid(db, r);
    case Ticked(d) => TickValid(db, d);
  }

  // ----- What a row can become -----

  predicate SameContract(x: Intent, y: Intent)
  {
    y.payer == x.payer && y.seller == x.seller && y.amount == x.amount && y.nonce == x.nonce &&
    y.created == x.created && y.expires == x.expires
  }

  /** Unsubmitted to pending to one of two terminal states; a renewal only before, and only after expiry. */
  predicate IntentOnward(x: Intent, y: Intent)
  {
    match x.status
    case Unsubmitted => SameContract(x, y) || x.expires <= y.created <= y.expires
    case Pending =>
      SameContract(x, y) && y.tx == x.tx && y.claimStarted == x.claimStarted && y.status != Unsubmitted &&
      (y.status == Pending ==> y == x)
    case _ => y == x
  }

  predicate IntentsOnward(a: Custody, b: Custody)
  {
    forall k :: k in a.intents ==> k in b.intents && IntentOnward(a.intents[k], b.intents[k])
  }

  /** A fee attempt's terms are fixed, and a terminal one stays. */
  predicate AttemptOnward(x: FeeAttempt, y: FeeAttempt)
  {
    y == x.(status := y.status) && (x.status == FeePending || y == x)
  }

  predicate MoneyOnward(a: Custody, b: Custody)
  {
    IntentsOnward(a, b) &&
    (forall k :: k in a.purchases ==> k in b.purchases && b.purchases[k] == a.purchases[k]) &&
    (forall tx :: tx in a.uses ==> tx in b.uses && b.uses[tx] == a.uses[tx]) &&
    (forall r :: r in a.attempts ==> r in b.attempts && AttemptOnward(a.attempts[r], b.attempts[r]))
  }

  /** Price and wallet never change; title and artifact are fixed by a price or a purchase, all terms by a purchase. */
  predicate ListingOnward(x: Listing, y: Listing, sold: bool)
  {
    y.merchant == x.merchant && y.price == x.price && y.wallet == x.wallet && y.seed == x.seed && x.sales <= y.sales &&
    (x.price > 0 ==> y.terms.title == x.terms.title && y.terms.artifact == x.terms.artifact) &&
    (sold ==> y.terms == x.terms) &&
    (x.removedAt.Some? ==> y.removedAt == x.removedAt) && (x.withdrawnAt.Some? ==> y.withdrawnAt == x.withdrawnAt)
  }

  ghost predicate GoodsOnward(a: Custody, b: Custody)
  {
    a.now <= b.now &&
    (forall id :: id in a.listings ==>
       id in b.listings && ListingOnward(a.listings[id], b.listings[id], HasPurchases(a, id))) &&
    (forall f :: f in a.fees ==> f in b.fees && b.fees[f] == a.fees[f])
  }

  ghost predicate Onward(a: Custody, b: Custody) { MoneyOnward(a, b) && GoodsOnward(a, b) }

  lemma OnwardRefl(a: Custody)
    ensures Onward(a, a)
  {
  }

  lemma MoneyTrans(a: Custody, b: Custody, c: Custody)
    requires MoneyOnward(a, b) && MoneyOnward(b, c)
    ensures MoneyOnward(a, c)
  {
  }

  lemma SoldStays(a: Custody, b: Custody, id: nat)
    requires MoneyOnward(a, b) && HasPurchases(a, id)
    ensures HasPurchases(b, id)
  {
  }

  lemma GoodsTrans(a: Custody, b: Custody, c: Custody)
    requires MoneyOnward(a, b) && GoodsOnward(a, b) && GoodsOnward(b, c)
    ensures GoodsOnward(a, c)
  {
    forall id | id in a.listings ensures id in c.listings && ListingOnward(a.listings[id], c.listings[id], HasPurchases(a, id)) {
      if HasPurchases(a, id) { SoldStays(a, b, id); }
    }
  }

  lemma GoodsStill(a: Custody, b: Custody)
    requires b.listings == a.listings && b.fees == a.fees && a.now <= b.now
    ensures GoodsOnward(a, b)
  {
  }

  lemma MoneyStill(a: Custody, b: Custody)
    requires b.intents == a.intents && b.purchases == a.purchases && b.uses == a.uses && b.attempts == a.attempts
    ensures MoneyOnward(a, b)
  {
  }

  /** One intent row changes as it may, and owners stay. */
  lemma IntentMovesOnward(a: Custody, b: Custody, k: Key)
    requires k in b.intents && b == a.(intents := a.intents[k := b.intents[k]], uses := b.uses)
    requires forall tx :: tx in a.uses ==> tx in b.uses && b.uses[tx] == a.uses[tx]
    requires k in a.intents ==> IntentOnward(a.intents[k], b.intents[k])
    ensures Onward(a, b)
  {
    hide GoodsOnward;
    GoodsStill(a, b);
  }

  lemma OpenIntentOnward(db: Custody, k: Key, payer: nat, price: nat, wallet: nat, nonce: nat, started: nat)
    ensures Onward(db, OpenIntent(db, k, payer, price, wallet, nonce, started))
  {
    hide Onward, CurrentTerms;
    OnwardRefl(db);
    var next := OpenIntent(db, k, payer, price, wallet, nonce, started);
    if next != db { IntentMovesOnward(db, next, k); }
  }

  lemma ReserveOnward(db: Custody, k: Key, tx: Hash, started: nat)
    ensures Onward(db, Reserve(db, k, tx, started).0)
  {
    hide Onward;
    OnwardRefl(db);
    var (next, result) := Reserve(db, k, tx, started);
    if result == Stored { IntentMovesOnward(db, next, k); }
  }

  lemma ReviewOnward(db: Custody, k: Key, paidAt: Option<nat>)
    ensures Onward(db, Review(db, k, paidAt))
  {
    hide Onward;
    OnwardRefl(db);
    if k in db.intents && db.intents[k].status == Pending { IntentMovesOnward(db, Review(db, k, paidAt), k); }
  }

  lemma SoldOnward(db: Custody, k: Key, p: Purchase)
    requires k !in db.purchases && k.listing in db.listings
    ensures Onward(db, Sold(db, k, p))
  {
  }

  lemma DeliverOnward(db: Custody, k: Key, price: nat, wallet: nat, tx: Hash, payer: nat, paidAt: nat)
    ensures Onward(db, Deliver(db, k, price, wallet, tx, payer, paidAt).0)
  {
    hide GoodsOnward, StillOwed;
    var (next, result) := Deliver(db, k, price, wallet, tx, payer, paidAt);
    if result == Delivered {
      var sold := Sold(db, k, Purchase(price, Some(tx), Claim));
      SoldOnward(db, k, Purchase(price, Some(tx), Claim));
      SameGoods(db, sold, next);
    } else {
      OnwardRefl(db);
    }
  }

  lemma SameGoods(a: Custody, b: Custody, c: Custody)
    requires GoodsOnward(a, b) && c.listings == b.listings && c.fees == b.fees && c.now == b.now
    ensures GoodsOnward(a, c)
  {
  }

  lemma BuyOnward(db: Custody, k: Key, price: nat, wallet: nat, payment: Option<(Hash, nat)>, boundary: Option<nat>)
    ensures Onward(db, Buy(db, k, price, wallet, payment, boundary))
  {
    hide Onward, Sold, StillOwed, TxSold;
    OnwardRefl(db);
    if k.listing in db.listings && k !in db.purchases {
      SoldOnward(db, k, Purchase(0, None, Free));
      if payment.Some? { SoldOnward(db, k, Purchase(price, Some(payment.value.0), X402(payment.value.1))); }
    }
  }

  lemma SettleX402Onward(db: Custody, tx: Hash, operation: nat)
    ensures Onward(db, SettleX402(db, tx, operation))
  {
    hide GoodsOnward;
    GoodsStill(db, SettleX402(db, tx, operation));
  }

  lemma ReserveFeeOnward(db: Custody, r: Request, tx: Hash, payer: nat, begun: int)
    ensures Onward(db, ReserveFee(db, r, tx, payer, begun))
  {
    hide GoodsOnward;
    GoodsStill(db, ReserveFee(db, r, tx, payer, begun));
  }

  lemma ReviewFeeOnward(db: Custody, r: Request)
    ensures Onward(db, ReviewFee(db, r))
  {
    hide GoodsOnward;
    GoodsStill(db, ReviewFee(db, r));
  }

  lemma TickOnward(db: Custody, d: nat)
    ensures Onward(db, Tick(db, d))
  {
    hide GoodsOnward, MoneyOnward;
    GoodsStill(db, Tick(db, d));
    MoneyStill(db, Tick(db, d));
  }

  /** One listing row changes as it may. */
  lemma ListingMoves(a: Custody, b: Custody, id: nat)
    requires id in a.listings && id in b.listings && b == a.(listings := a.listings[id := b.listings[id]])
    requires ListingOnward(a.listings[id], b.listings[id], HasPurchases(a, id))
    ensures Onward(a, b)
  {
    hide MoneyOnward, HasPurchases;
    MoneyStill(a, b);
  }

  lemma WithdrawOnward(db: Custody, id: nat, merchant: nat)
    requires TerminalsOk(db)
    ensures Onward(db, Withdraw(db, id, merchant))
  {
    hide Onward, HasPurchases;
    OnwardRefl(db);
    var next := Withdraw(db, id, merchant);
    if next != db { ListingMoves(db, next, id); }
  }

  lemma RemoveOnward(db: Custody, id: nat)
    requires TerminalsOk(db)
    ensures Onward(db, Remove(db, id))
  {
    hide Onward, HasPurchases;
    OnwardRefl(db);
    var next := Remove(db, id);
    if next != db { ListingMoves(db, next, id); }
  }

  lemma EditOnward(db: Custody, id: nat, merchant: nat, to: Terms)
    ensures Onward(db, Edit(db, id, merchant, to))
  {
    hide Onward, HasPurchases;
    OnwardRefl(db);
    var next := Edit(db, id, merchant, to);
    if next != db { ListingMoves(db, next, id); }
  }

  lemma ListedOnward(db: Custody, merchant: nat, terms: Terms, price: nat, wallet: nat, seed: bool)
    requires SalesOk(db)
    ensures Onward(db, Listed(db, merchant, terms, price, wallet, seed))
  {
    hide MoneyOnward;
    MoneyStill(db, Listed(db, merchant, terms, price, wallet, seed));
  }

  lemma ChargedOnward(db: Custody, mid: Custody, fee: Fee)
    requires GoodsOnward(db, mid) && mid.fees == db.fees && mid.nextFee == db.nextFee && forall f :: f in db.fees ==> f < db.nextFee
    ensures GoodsOnward(db, Charged(mid, fee))
  {
  }

  lemma ListDirectOnward(db: Custody, r: Request, tx: Hash, paid: int, terms: Terms, price: nat, wallet: nat)
    requires Valid(db)
    ensures Onward(db, ListDirect(db, r, tx, paid, terms, price, wallet))
  {
    FeeSerials(db);
    hide Valid, GoodsOnward;
    var next := ListDirect(db, r, tx, paid, terms, price, wallet);
    var mid := Listed(db, r.merchant, terms, price, wallet, false);
    ListedOnward(db, r.merchant, terms, price, wallet, false);
    ChargedOnward(db, mid, Fee(db.nextListing, tx, Direct(r)));
    if next == db { OnwardRefl(db); } else { SameGoods(db, Charged(mid, Fee(db.nextListing, tx, Direct(r))), next); }
  }

  lemma ListX402Onward(db: Custody, merchant: nat, tx: Hash, operation: nat, terms: Terms, price: nat, wallet: nat)
    requires Valid(db)
    ensures Onward(db, ListX402(db, merchant, tx, operation, terms, price, wallet))
  {
    FeeSerials(db);
    hide Valid, GoodsOnward, TxCharged;
    var mid := Listed(db, merchant, terms, price, wallet, false);
    OnwardRefl(db);
    ListedOnward(db, merchant, terms, price, wallet, false);
    ChargedOnward(db, mid, Fee(db.nextListing, tx, ByX402(operation)));
  }

  lemma FeeSerials(db: Custody)
    requires Valid(db)
    ensures SalesOk(db) && TerminalsOk(db) && forall f :: f in db.fees ==> f < db.nextFee
  {
  }

  lemma ApplyOnward(db: Custody, e: Event)
    requires Valid(db)
    ensures Onward(db, Apply(db, e))
  {
    hide Valid, SalesOk, TerminalsOk, Onward, OpenIntent, Reserve, Review, Deliver, Buy, SettleX402, Withdraw, Remove, Edit, ListSeed,
      ListDirect, ListX402, ReserveFee, ReviewFee, Tick;
    FeeSerials(db);
    match e
    case IntentOpened(k, payer, price, wallet, nonce, started) => OpenIntentOnward(db, k, payer, price, wallet, nonce, started);
    case Reserved(k, tx, started) => ReserveOnward(db, k, tx, started);
    case Reviewed(k, paidAt) => ReviewOnward(db, k, paidAt);
    case DeliveryTried(k, price, wallet, tx, payer, at) => DeliverOnward(db, k, price, wallet, tx, payer, at);
    case Bought(k, price, wallet, payment, boundary) => BuyOnward(db, k, price, wallet, payment, boundary);
    case X402Settled(tx, operation) => SettleX402Onward(db, tx, operation);
    case Withdrawn(id, merchant) => WithdrawOnward(db, id, merchant);
    case Removed(id) => RemoveOnward(db, id);
    case Edited(id, merchant, to) => EditOnward(db, id, merchant, to);
    case SeedListed(merchant, terms, price, wallet) => SeedOnward(db, merchant, terms, price, wallet);
    case DirectListed(r, tx, paid, terms, price, wallet) => ListDirectOnward(db, r, tx, paid, terms, price, wallet);
    case X402Listed(merchant, tx, operation, terms, price, wallet) =>
      ListX402Onward(db, merchant, tx, operation, terms, price, wallet);
    case FeeReserved(r, tx, payer, begun) => ReserveFeeOnward(db, r, tx, payer, begun);
    case FeeReviewed(r) => ReviewFeeOnward(db, r);
    case Ticked(d) => TickOnward(db, d);
  }

  lemma SeedOnward(db: Custody, merchant: nat, terms: Terms, price: nat, wallet: nat)
    requires SalesOk(db)
    ensures Onward(db, ListSeed(db, merchant, terms, price, wallet))
  {
    ListedOnward(db, merchant, terms, price, wallet, true);
  }

  /** Every run keeps the tables valid, and moves the rows it starts from only onward. */
  lemma {:induction false} RunKeeps(db: Custody, es: seq<Event>)
    requires Valid(db)
    ensures Valid(Run(db, es)) && Onward(db, Run(db, es))
    decreases |es|
  {
    hide Valid, MoneyOnward, GoodsOnward, Apply;
    if es == [] {
      OnwardRefl(db);
    } else {
      var next := Apply(db, es[0]);
      ApplyValid(db, es[0]);
      ApplyOnward(db, es[0]);
      RunKeeps(next, es[1..]);
      MoneyTrans(db, next, Run(next, es[1..]));
      GoodsTrans(db, next, Run(next, es[1..]));
    }
  }
}
