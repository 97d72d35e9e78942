/** What every payment and listing statement keeps. */
module PaymentLaws {
  import opened Tables
  import opened PaymentCustody

  // ----- Intents -----

  /** The money tables change, and no listing or fee row does. */
  lemma CountsFrame(a: Custody, b: Custody)
    requires CountsOk(a) && b.listings == a.listings && b.purchases == a.purchases && b.fees == a.fees
    requires b.nextListing == a.nextListing && b.nextFee == a.nextFee
    requires forall tx :: tx in a.uses ==> tx in b.uses && b.uses[tx] == a.uses[tx]
    requires forall r :: r in a.attempts && a.attempts[r].status.FeeCompleted? ==> r in b.attempts && b.attempts[r] == a.attempts[r]
    ensures CountsOk(b)
  {
    assert forall id :: Buyers(b, id) == Buyers(a, id) && FeeRows(b, id) == FeeRows(a, id);
  }

  /** Intents and attempts change row by row, no completed one changes, and owners stay. */
  lemma MoneyFrame(a: Custody, b: Custody)
    requires MoneyOk(a) && b.purchases == a.purchases && b.listings == a.listings
    requires forall tx :: tx in a.uses ==> tx in b.uses && b.uses[tx] == a.uses[tx]
    requires forall k :: k in a.intents && a.intents[k].status == Completed ==> k in b.intents && b.intents[k] == a.intents[k]
    requires forall k :: k in b.intents ==> (k in a.intents && b.intents[k] == a.intents[k]) || IntentOk(b, k, b.intents[k])
    requires forall r :: r in b.attempts ==> (r in a.attempts && b.attempts[r] == a.attempts[r]) || AttemptOk(b, r, b.attempts[r])
    ensures MoneyOk(b)
  {
    assert IntentsOk(b) by { hide PurchasesOk, AttemptsOk; }
    assert PurchasesOk(b) by { hide IntentsOk, AttemptsOk; }
    assert AttemptsOk(b) by { hide IntentsOk, PurchasesOk; }
  }

  lemma IntentOf(db: Custody, k: Key)
    requires Valid(db) && k in db.intents
    ensures IntentOk(db, k, db.intents[k])
  {
    hide CountsOk, PurchasesOk, AttemptsOk;
  }

  lemma AttemptOf(db: Custody, r: Request)
    requires Valid(db) && r in db.attempts
    ensures AttemptOk(db, r, db.attempts[r])
  {
    hide CountsOk, PurchasesOk, IntentsOk;
  }

  /** One intent row changes, and perhaps a transaction gets its owner. */
  lemma IntentMoves(a: Custody, b: Custody, k: Key)
    requires Valid(a) && k in b.intents && b == a.(intents := a.intents[k := b.intents[k]], uses := b.uses)
    requires forall tx :: tx in a.uses ==> tx in b.uses && b.uses[tx] == a.uses[tx]
    requires IntentOk(b, k, b.intents[k]) && (k in a.intents ==> a.intents[k].status != Completed)
    ensures Valid(b)
  {
    hide MoneyOk, CountsOk, IntentOk, AttemptOk;
    MoneyFrame(a, b);
    CountsFrame(a, b);
  }

  /** One attempt row changes, and perhaps a transaction gets its owner. */
  lemma AttemptMoves(a: Custody, b: Custody, r: Request)
    requires Valid(a) && r in b.attempts && b == a.(attempts := a.attempts[r := b.attempts[r]], uses := b.uses)
    requires forall tx :: tx in a.uses ==> tx in b.uses && b.uses[tx] == a.uses[tx]
    requires AttemptOk(b, r, b.attempts[r]) && (r in a.attempts ==> !a.attempts[r].status.FeeCompleted?)
    ensures Valid(b)
  {
    hide MoneyOk, CountsOk, IntentOk, AttemptOk;
    MoneyFrame(a, b);
    CountsFrame(a, b);
  }

  lemma OpenIntentValid(db: Custody, k: Key, payer: nat, price: nat, wallet: nat, nonce: nat, started: nat)
    requires Valid(db)
    ensures Valid(OpenIntent(db, k, payer, price, wallet, nonce, started))
  {
    hide Valid, CurrentTerms;
    var next := OpenIntent(db, k, payer, price, wallet, nonce, started);
    if next != db { IntentMoves(db, next, k); }
  }

  lemma ReserveValid(db: Custody, k: Key, tx: Hash, started: nat)
    requires Valid(db)
    ensures Valid(Reserve(db, k, tx, started).0)
  {
    hide Valid;
    var (next, result) := Reserve(db, k, tx, started);
    if result == Stored {
      IntentOf(db, k);
      IntentMoves(db, next, k);
    }
  }

  lemma ReviewValid(db: Custody, k: Key, paidAt: Option<nat>)
    requires Valid(db)
    ensures Valid(Review(db, k, paidAt))
  {
    hide Valid;
    if k in db.intents && db.intents[k].status == Pending {
      IntentOf(db, k);
      IntentMoves(db, Review(db, k, paidAt), k);
    }
  }

  lemma SettleX402Valid(db: Custody, tx: Hash, operation: nat)
    requires Valid(db)
    ensures Valid(SettleX402(db, tx, operation))
  {
    hide MoneyOk, CountsOk, IntentOk, AttemptOk;
    MoneyFrame(db, SettleX402(db, tx, operation));
    CountsFrame(db, SettleX402(db, tx, operation));
  }

  lemma ReserveFeeValid(db: Custody, r: Request, tx: Hash, payer: nat, started: int)
    requires Valid(db)
    ensures Valid(ReserveFee(db, r, tx, payer, started))
  {
    hide Valid;
    var next := ReserveFee(db, r, tx, payer, started);
    if next != db { AttemptMoves(db, next, r); }
  }

  lemma ReviewFeeValid(db: Custody, r: Request)
    requires Valid(db)
    ensures Valid(ReviewFee(db, r))
  {
    hide Valid;
    if r in db.attempts && db.attempts[r].status == FeePending {
      AttemptOf(db, r);
      AttemptMoves(db, ReviewFee(db, r), r);
    }
  }

  // ----- Sales -----

  lemma SoldBuyers(db: Custody, next: Custody, k: Key, p: Purchase)
    requires k !in db.purchases && next.purchases == db.purchases[k := p]
    ensures |Buyers(next, k.listing)| == |Buyers(db, k.listing)| + 1
    ensures forall id :: id != k.listing ==> Buyers(next, id) == Buyers(db, id)
  {
    assert Buyers(next, k.listing) == Buyers(db, k.listing) + {k};
    forall id | id != k.listing ensures Buyers(next, id) == Buyers(db, id) { }
  }

  lemma SoldSales(db: Custody, k: Key, p: Purchase)
    requires SalesOk(db) && k !in db.purchases && k.listing in db.listings
    ensures SalesOk(Sold(db, k, p))
  {
    SoldBuyers(db, Sold(db, k, p), k, p);
    hide Buyers;
  }

  /** One more purchase and one more counted sale. */
  lemma SoldCounts(db: Custody, k: Key, p: Purchase)
    requires CountsOk(db) && k !in db.purchases && k.listing in db.listings
    ensures CountsOk(Sold(db, k, p))
  {
    SoldSales(db, k, p);
    SameFeeRows(db, Sold(db, k, p));
    hide SalesOk, FeeRows;
  }

  lemma SoldMoney(db: Custody, k: Key, p: Purchase)
    requires MoneyOk(db) && k !in db.purchases && k.listing in db.listings
    requires !p.via.Claim? && PurchaseOk(db, k, p)
    ensures MoneyOk(Sold(db, k, p))
  {
    assert k in db.intents ==> db.intents[k].status != Completed;
  }

  lemma BuyValid(db: Custody, k: Key, price: nat, wallet: nat, payment: Option<(Hash, nat)>, boundary: Option<nat>)
    requires Valid(db)
    ensures Valid(Buy(db, k, price, wallet, payment, boundary))
  {
    hide MoneyOk, CountsOk, Sold, StillOwed, TxSold;
    var next := Buy(db, k, price, wallet, payment, boundary);
    if next != db {
      var p := match payment case None => Purchase(0, None, Free) case Some((tx, o)) => Purchase(price, Some(tx), X402(o));
      SoldCounts(db, k, p);
      SoldMoney(db, k, p);
    }
  }

  /** A delivery completes the intent and records its purchase together. */
  lemma DeliverMoney(db: Custody, k: Key, price: nat, wallet: nat, tx: Hash, payer: nat, paidAt: nat)
    requires MoneyOk(db)
    ensures MoneyOk(Deliver(db, k, price, wallet, tx, payer, paidAt).0)
  {
    hide StillOwed;
  }

  lemma DeliverCounts(db: Custody, k: Key, price: nat, wallet: nat, tx: Hash, payer: nat, paidAt: nat)
    requires CountsOk(db)
    ensures CountsOk(Deliver(db, k, price, wallet, tx, payer, paidAt).0)
  {
    hide CountsOk, Sold, StillOwed;
    var (next, result) := Deliver(db, k, price, wallet, tx, payer, paidAt);
    if result == Delivered {
      SoldCounts(db, k, Purchase(price, Some(tx), Claim));
      CountsFrame(Sold(db, k, Purchase(price, Some(tx), Claim)), next);
    }
  }

  lemma DeliverValid(db: Custody, k: Key, price: nat, wallet: nat, tx: Hash, payer: nat, paidAt: nat)
    requires Valid(db)
    ensures Valid(Deliver(db, k, price, wallet, tx, payer, paidAt).0)
  {
    hide MoneyOk, CountsOk, Deliver;
    DeliverMoney(db, k, price, wallet, tx, payer, paidAt);
    DeliverCounts(db, k, price, wallet, tx, payer, paidAt);
  }

  // ----- Listings -----

  /** A listing row changes in nothing the money tables look at. */
  lemma ListingTouched(a: Custody, b: Custody, id: nat)
    requires Valid(a) && id in a.listings && id in b.listings && b == a.(listings := a.listings[id := b.listings[id]])
    requires b.listings[id].sales == a.listings[id].sales && b.listings[id].seed == a.listings[id].seed
    requires TerminalOk(b.listings[id])
    ensures Valid(b)
  {
    hide CountsOk, MoneyOk, TerminalOk;
    ListingTouchedMoney(a, b);
    ListingTouchedCounts(a, b, id);
  }

  lemma ListingTouchedMoney(a: Custody, b: Custody)
    requires MoneyOk(a) && b == a.(listings := b.listings) && b.listings.Keys == a.listings.Keys
    ensures MoneyOk(b)
  {
  }

  lemma ListingTouchedCounts(a: Custody, b: Custody, id: nat)
    requires CountsOk(a) && id in a.listings && id in b.listings && b == a.(listings := a.listings[id := b.listings[id]])
    requires b.listings[id].sales == a.listings[id].sales && b.listings[id].seed == a.listings[id].seed
    requires TerminalOk(b.listings[id])
    ensures CountsOk(b)
  {
    SameBuyers(a, b);
    SameFeeRows(a, b);
    hide Buyers, FeeRows, TerminalOk;
  }

  lemma SameFeeRows(a: Custody, b: Custody)
    requires b.fees == a.fees
    ensures forall id :: FeeRows(b, id) == FeeRows(a, id)
  {
  }

  lemma WithdrawValid(db: Custody, id: nat, merchant: nat)
    requires Valid(db)
    ensures Valid(Withdraw(db, id, merchant))
  {
    hide Valid, HasPurchases;
    var next := Withdraw(db, id, merchant);
    if id in db.listings && next != db {
      TerminalOf(db, id);
      ListingTouched(db, next, id);
    }
  }

  lemma RemoveValid(db: Custody, id: nat)
    requires Valid(db)
    ensures Valid(Remove(db, id))
  {
    hide Valid, HasPurchases;
    var next := Remove(db, id);
    if id in db.listings && next != db {
      TerminalOf(db, id);
      ListingTouched(db, next, id);
    }
  }

  lemma EditValid(db: Custody, id: nat, merchant: nat, to: Terms)
    requires Valid(db)
    ensures Valid(Edit(db, id, merchant, to))
  {
    hide Valid, HasPurchases;
    var next := Edit(db, id, merchant, to);
    if id in db.listings && next != db {
      TerminalOf(db, id);
      ListingTouched(db, next, id);
    }
  }

  lemma TerminalOf(db: Custody, id: nat)
    requires Valid(db) && id in db.listings
    ensures TerminalOk(db.listings[id])
  {
  }

  lemma ListedMoney(db: Custody, merchant: nat, terms: Terms, price: nat, wallet: nat, seed: bool)
    requires MoneyOk(db)
    ensures MoneyOk(Listed(db, merchant, terms, price, wallet, seed))
  {
  }

  /** The new listing has no buyer and no fee row yet. */
  lemma ListedCounts(db: Custody, merchant: nat, terms: Terms, price: nat, wallet: nat, seed: bool)
    requires Valid(db)
    ensures var next := Listed(db, merchant, terms, price, wallet, seed);
            SalesOk(next) && TerminalsOk(next) && FeeRowsOk(next) && FeeRows(next, db.nextListing) == {} &&
            forall id :: id in db.listings ==> |FeeRows(next, id)| == if db.listings[id].seed then 0 else 1
  {
    var next := Listed(db, merchant, terms, price, wallet, seed);
    NewListingBare(db);
    ListedSales(db, merchant, terms, price, wallet, seed);
    hide MoneyOk, SalesOk;
    assert forall id :: FeeRows(next, id) == FeeRows(db, id);
  }

  lemma NewListingBare(db: Custody)
    requires Valid(db)
    ensures Buyers(db, db.nextListing) == {} && FeeRows(db, db.nextListing) == {}
  {
    hide IntentsOk, AttemptsOk, TerminalsOk, FeesPaid;
  }

  lemma ListedSales(db: Custody, merchant: nat, terms: Terms, price: nat, wallet: nat, seed: bool)
    requires SalesOk(db) && Buyers(db, db.nextListing) == {}
    ensures SalesOk(Listed(db, merchant, terms, price, wallet, seed))
  {
    var next := Listed(db, merchant, terms, price, wallet, seed);
    SameBuyers(db, next);
    hide Buyers;
  }

  lemma ListSeedValid(db: Custody, merchant: nat, terms: Terms, price: nat, wallet: nat)
    requires Valid(db)
    ensures Valid(ListSeed(db, merchant, terms, price, wallet))
  {
    hide MoneyOk, SalesOk, TerminalsOk, FeeRowsOk;
    ListedMoney(db, merchant, terms, price, wallet, true);
    ListedCounts(db, merchant, terms, price, wallet, true);
  }

  /** The fee row of the new listing. */
  lemma ChargedFees(db: Custody, next: Custody, fee: Fee, id: nat)
    requires FeeRowsOk(db) && next.fees == db.fees[db.nextFee := fee] && fee.listing == id && FeeRows(db, id) == {}
    ensures FeeRows(next, id) == {db.nextFee}
    ensures forall n :: n != id ==> FeeRows(next, n) == FeeRows(db, n)
  {
    assert forall f :: f in db.fees && db.fees[f].listing == id ==> f in FeeRows(db, id);
    assert forall f :: f in next.fees ==> f == db.nextFee || (f in db.fees && next.fees[f] == db.fees[f]);
    forall n | n != id ensures FeeRows(next, n) == FeeRows(db, n) { }
  }

  /** A listing and its one fee row, put in together. */
  lemma PaidListingCounts(db: Custody, next: Custody, merchant: nat, terms: Terms, price: nat, wallet: nat, fee: Fee)
    requires Valid(db) && fee.listing == db.nextListing
    requires next == Charged(Listed(db, merchant, terms, price, wallet, false), fee).(attempts := next.attempts)
    requires FeeRowsOk(next)
    ensures CountsOk(next)
  {
    hide MoneyOk, FeeRows, Buyers;
    var mid := Listed(db, merchant, terms, price, wallet, false);
    ListedCounts(db, merchant, terms, price, wallet, false);
    ChargedFees(mid, next, fee, db.nextListing);
    assert forall id :: Buyers(next, id) == Buyers(mid, id) by { SameBuyers(mid, next); }
    assert |{db.nextFee}| == 1;
    hide FeeRowsOk;
    assert FeesPaid(next) && SalesOk(next) && TerminalsOk(next);
  }

  lemma SameBuyers(a: Custody, b: Custody)
    requires b.purchases == a.purchases
    ensures forall id :: Buyers(b, id) == Buyers(a, id)
  {
  }

  lemma ListDirectRows(db: Custody, r: Request, tx: Hash, paidAt: int, terms: Terms, price: nat, wallet: nat)
    requires Valid(db)
    ensures var next := ListDirect(db, r, tx, paidAt, terms, price, wallet); FeeRowsOk(next) && MoneyOk(next)
  {
    hide SalesOk, TerminalsOk, FeesPaid;
  }

  lemma ListDirectValid(db: Custody, r: Request, tx: Hash, paidAt: int, terms: Terms, price: nat, wallet: nat)
    requires Valid(db)
    ensures Valid(ListDirect(db, r, tx, paidAt, terms, price, wallet))
  {
    var next := ListDirect(db, r, tx, paidAt, terms, price, wallet);
    ListDirectRows(db, r, tx, paidAt, terms, price, wallet);
    hide Valid, MoneyOk, CountsOk, FeeRowsOk, Listed, Charged;
    if next != db {
      PaidListingCounts(db, next, r.merchant, terms, price, wallet, Fee(db.nextListing, tx, Direct(r)));
    }
    Assemble(next);
    Disassemble(db);
  }

  lemma Assemble(db: Custody)
    ensures MoneyOk(db) && CountsOk(db) ==> Valid(db)
  {
  }

  lemma Disassemble(db: Custody)
    ensures Valid(db) ==> MoneyOk(db) && CountsOk(db)
  {
  }

  lemma ListX402Rows(db: Custody, merchant: nat, tx: Hash, operation: nat, terms: Terms, price: nat, wallet: nat)
    requires Valid(db)
    ensures var next := ListX402(db, merchant, tx, operation, terms, price, wallet); FeeRowsOk(next) && MoneyOk(next)
  {
    hide SalesOk, TerminalsOk, FeesPaid, TxCharged;
  }

  lemma ListX402Valid(db: Custody, merchant: nat, tx: Hash, operation: nat, terms: Terms, price: nat, wallet: nat)
    requires Valid(db)
    ensures Valid(ListX402(db, merchant, tx, operation, terms, price, wallet))
  {
    var next := ListX402(db, merchant, tx, operation, terms, price, wallet);
    ListX402Rows(db, merchant, tx, operation, terms, price, wallet);
    hide Valid, MoneyOk, CountsOk, FeeRowsOk, Listed, Charged, TxCharged;
    if next != db {
      PaidListingCounts(db, next, merchant, terms, price, wallet, Fee(db.nextListing, tx, ByX402(operation)));
    }
    Assemble(next);
    Disassemble(db);
  }
}
