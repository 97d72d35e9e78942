/** The guarantees of payment custody, over every run. */
module PaymentTheorems {
  import opened Tables
  import opened PaymentCustody
  import opened PaymentLaws
  import opened PaymentRuns

  // ----- Intents -----

  /**
    A direct intent moves only from unsubmitted to pending to completed or needs-review; its
    transaction and terms are fixed once stored; and it is completed exactly when its purchase exists.
   */
  lemma IntentHistory(db: Custody, es: seq<Event>, k: Key)
    requires Valid(db) && k in db.intents
    ensures var late := Run(db, es);
            k in late.intents && IntentOnward(db.intents[k], late.intents[k]) &&
            (db.intents[k].tx.Some? ==> late.intents[k].tx == db.intents[k].tx && SameContract(db.intents[k], late.intents[k])) &&
            (late.intents[k].status == Completed <==> k in late.purchases && late.purchases[k].via == Claim)
  {
    hide CountsOk, AttemptsOk, GoodsOnward;
    RunKeeps(db, es);
  }

  /** The stored claim began, and a completed payment landed, inside the inclusive window. */
  lemma InsideTheWindow(db: Custody, es: seq<Event>, k: Key)
    requires Valid(db) && k in Run(db, es).intents
    ensures var i := Run(db, es).intents[k];
            (i.tx.Some? ==> i.claimStarted.Some? && i.created <= i.claimStarted.value <= i.expires) &&
            (i.status == Completed ==> i.paidAt.Some? && i.created <= i.paidAt.value <= i.expires)
  {
    hide CountsOk, AttemptsOk, PurchasesOk, Onward;
    RunKeeps(db, es);
  }

  // ----- A claim and a renewal of the same row -----

  /** The row now holds another contract than the one the claim was checked against. */
  predicate Renewed(checked: Intent, row: Intent) { !SameContract(checked, row) }

  /**
    A claim is checked against an intent, the row may be renewed meanwhile, and then the claim stores
    its transaction. It stores on a renewed row exactly when it began at the very instant at which the
    first contract expired and the second one began, and the row and the transaction are still free.
   */
  lemma StoresOnRenewedExactly(db: Custody, es: seq<Event>, k: Key, tx: Hash, started: nat)
    requires Valid(db) && k in db.intents && db.intents[k].status == Unsubmitted
    requires db.intents[k].created <= started <= db.intents[k].expires
    requires k in Run(db, es).intents && Renewed(db.intents[k], Run(db, es).intents[k])
    ensures var (late, checked) := (Run(db, es), db.intents[k]);
            Reserve(late, k, tx, started).1 == Stored <==>
              started == checked.expires == late.intents[k].created &&
              late.intents[k].status == Unsubmitted && tx !in late.uses
  {
    hide CountsOk, AttemptsOk, PurchasesOk, GoodsOnward;
    RunKeeps(db, es);
  }

  /** So a claim that began strictly before its deadline never stores on a renewed row. */
  lemma EarlyClaimNeverStoresOnRenewed(db: Custody, es: seq<Event>, k: Key, tx: Hash, started: nat)
    requires Valid(db) && k in db.intents && db.intents[k].status == Unsubmitted
    requires db.intents[k].created <= started < db.intents[k].expires
    ensures var late := Run(db, es);
            k in late.intents &&
            (Reserve(late, k, tx, started).1 == Stored ==>
               SameContract(db.intents[k], late.intents[k]) &&
               Reserve(late, k, tx, started).0.intents[k].tx == Some(tx))
  {
    hide CountsOk, AttemptsOk, PurchasesOk, GoodsOnward;
    RunKeeps(db, es);
  }

  const BUYER: Key := Key(0, 2)

  /** One listing, and one intent to buy it. */
  const OPENED: seq<Event> := [SeedListed(1, Terms("t", "a", "b"), 5, 8), IntentOpened(BUYER, 3, 5, 8, 0, 0)]

  /** A run in which a second payer renews the intent at the instant it expires, and the first payer's claim still stores. */
  lemma BoundaryClaimStoresOnRenewed()
    ensures var first := Run(EMPTY, OPENED);
            var late := Run(first, [IntentOpened(BUYER, 4, 5, 8, 1, TTL)]);
            Valid(first) && BUYER in first.intents && first.intents[BUYER].expires == TTL &&
            BUYER in late.intents && Renewed(first.intents[BUYER], late.intents[BUYER]) &&
            Reserve(late, BUYER, 9, TTL).1 == Stored
  {
    EmptyValid();
    RunKeeps(EMPTY, OPENED);
    hide Valid, Onward;
    var listed := Apply(EMPTY, OPENED[0]);
    assert Run(EMPTY, OPENED) == Run(listed, OPENED[1..]) && OPENED[1..] == [OPENED[1]];
    var first := Apply(listed, OPENED[1]);
    assert Run(listed, [OPENED[1]]) == Run(first, []);
    var renewal := IntentOpened(BUYER, 4, 5, 8, 1, TTL);
    assert Run(first, [renewal]) == Run(Apply(first, renewal), []);
  }

  // ----- One transaction, one action -----

  /** The transaction paid a completed direct claim. */
  predicate BacksClaim(db: Custody, tx: Hash, k: Key)
  {
    k in db.intents && db.intents[k].status == Completed && db.intents[k].tx == Some(tx)
  }

  /** The transaction paid a completed direct listing fee. */
  predicate BacksFee(db: Custody, tx: Hash, r: Request)
  {
    r in db.attempts && db.attempts[r].status.FeeCompleted? && db.attempts[r].tx == tx
  }

  /** Across direct fees and direct claims a transaction backs at most one completed action. */
  lemma OneActionATransaction(db: Custody, es: seq<Event>, tx: Hash)
    requires Valid(db)
    ensures var late := Run(db, es);
            (forall j, k :: BacksClaim(late, tx, j) && BacksClaim(late, tx, k) ==> j == k) &&
            (forall q, r :: BacksFee(late, tx, q) && BacksFee(late, tx, r) ==> q == r) &&
            (forall k, r :: !(BacksClaim(late, tx, k) && BacksFee(late, tx, r)))
  {
    hide CountsOk, PurchasesOk, Onward;
    RunKeeps(db, es);
  }

  /** One exact listing request creates at most one listing: a second completion changes nothing. */
  lemma OneListingARequest(db: Custody, es: seq<Event>, r: Request, tx: Hash, paid: int, terms: Terms, price: nat, wallet: nat,
                           tx': Hash, paid': int, terms': Terms, price': nat, wallet': nat)
    requires Valid(db) && ListDirect(db, r, tx, paid, terms, price, wallet) != db
    ensures var late := Run(ListDirect(db, r, tx, paid, terms, price, wallet), es);
            BacksFee(late, tx, r) && late.attempts[r].status == FeeCompleted(db.nextListing, paid) &&
            ListDirect(late, r, tx', paid', terms', price', wallet') == late
  {
    hide MoneyOk, CountsOk, GoodsOnward;
    var next := ListDirect(db, r, tx, paid, terms, price, wallet);
    ListDirectValid(db, r, tx, paid, terms, price, wallet);
    RunKeeps(next, es);
    assert next.attempts[r].status == FeeCompleted(db.nextListing, paid);
  }

  /** In every reachable state each listing that is not the shopkeeper's has exactly one fee row, which its rail accounts for. */
  lemma ExactlyOneFee(db: Custody, es: seq<Event>, id: nat)
    requires Valid(db) && id in Run(db, es).listings && !Run(db, es).listings[id].seed
    ensures var late := Run(db, es);
            |FeeRows(late, id)| == 1 &&
            forall f :: f in FeeRows(late, id) ==>
              match late.fees[f].method_
              case Direct(r) => BacksFee(late, late.fees[f].tx, r) && late.attempts[r].status.listing == id
              case ByX402(operation) => late.fees[f].tx in late.uses && late.uses[late.fees[f].tx] == X402Owner(operation)
  {
    hide MoneyOk, SalesOk, TerminalsOk, Onward;
    RunKeeps(db, es);
  }

  // ----- Listings -----

  /** Sales always equals the number of purchases. */
  lemma SalesCountPurchases(db: Custody, es: seq<Event>, id: nat)
    requires Valid(db) && id in Run(db, es).listings
    ensures Run(db, es).listings[id].sales == |Buyers(Run(db, es), id)|
  {
    hide MoneyOk, TerminalsOk, FeeRowsOk, FeesPaid, Onward;
    RunKeeps(db, es);
  }

  /** Price and wallet never change; a priced listing keeps title and artifact, and a sold one all its terms. */
  lemma TermsFrozen(db: Custody, es: seq<Event>, id: nat)
    requires Valid(db) && id in db.listings
    ensures var late := Run(db, es);
            id in late.listings &&
            var (x, y) := (db.listings[id], late.listings[id]);
            y.price == x.price && y.wallet == x.wallet &&
            (x.price > 0 || HasPurchases(db, id) ==> y.terms.title == x.terms.title && y.terms.artifact == x.terms.artifact) &&
            (HasPurchases(db, id) ==> y.terms == x.terms)
  {
    hide Valid, MoneyOnward;
    RunKeeps(db, es);
  }

  // ----- The handler's terminal-time test -----

  const MILLISECOND: nat := 1000
  const SECOND: nat := 1_000_000

  /** A timestamp as the handler's Date holds it. */
  function AsDate(t: nat): nat { t - t % MILLISECOND }

  /** The handler's test, on Dates: live, or paid no later than the earliest terminal time. */
  predicate HandlerAllows(l: Listing, paidAt: nat)
  {
    OnSale(l) ||
    if l.removedAt.Some? && l.withdrawnAt.Some? then paidAt <= Least(AsDate(l.removedAt.value), AsDate(l.withdrawnAt.value))
    else if l.removedAt.Some? then paidAt <= AsDate(l.removedAt.value)
    else l.withdrawnAt.Some? && paidAt <= AsDate(l.withdrawnAt.value)
  }

  lemma Floors(n: nat, q: nat, rest: nat)
    requires rest < 1000
    ensures n * 1000 <= q * 1000 <==> n * 1000 <= q * 1000 + rest
  {
  }

  lemma WholeSeconds(paidAt: nat, t: nat)
    requires paidAt % SECOND == 0
    ensures paidAt <= AsDate(t) <==> paidAt <= t
  {
    var p := paidAt / 1_000_000;
    assert paidAt == 1_000_000 * p;
    assert t == t / 1000 * 1000 + t % 1000;
    Floors(1000 * p, t / 1000, t % 1000);
  }

  /**
    In every reachable state the handler's test on millisecond Dates agrees with the SQL guard on
    microsecond timestamps, because block times are whole seconds.
   */
  lemma HandlerAgrees(db: Custody, es: seq<Event>, id: nat, paidAt: nat)
    requires Valid(db) && id in Run(db, es).listings && paidAt % SECOND == 0
    ensures HandlerAllows(Run(db, es).listings[id], paidAt) <==> StillOwed(Run(db, es).listings[id], paidAt)
  {
    hide Valid, Onward;
    var l := Run(db, es).listings[id];
    RunKeeps(db, es);
    TerminalOf(Run(db, es), id);
    if l.removedAt.Some? { WholeSeconds(paidAt, l.removedAt.value); }
    if l.withdrawnAt.Some? { WholeSeconds(paidAt, l.withdrawnAt.value); }
  }
}
