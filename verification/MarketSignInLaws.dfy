/** What the sign-in statements keep, and when an approval answers with one row. */
module MarketSignInLaws {
  import opened Tables
  import opened Market
  import opened MarketIdentity
  import opened MarketIdentityLaws
  import opened MarketSignIn
  import G = Grants

  // ----- Requests -----

  /** Completed requests stay as they are. */
  predicate KeepsCompleted(a: Market, b: Market)
  {
    forall s :: s in a.requests && a.requests[s].progress.Completed? ==> s in b.requests && b.requests[s] == a.requests[s]
  }

  predicate RequestTables(a: Market, b: Market)
  {
    b == a.(requests := b.requests, next := a.next.(request := b.next.request))
  }

  lemma RequestsOnly(a: Market, b: Market)
    requires Valid(a) && RequestTables(a, b) && RequestsOk(b) && KeepsCompleted(a, b)
    ensures Valid(b)
  {
    hide G.Valid, RequestsOk, IdentityOk, SignupsOk;
    IdentityFrame(a, b);
    SignupsFrame(a, b);
    assert CodesOk(b) by { hide PairingsOk, FamiliesOk; }
    assert PairingsOk(b) && FamiliesOk(b) by { hide CodesOk; }
  }

  lemma CloseExpiredRequestsOk(db: Market)
    requires RequestsOk(db)
    ensures var next := db.(requests := CloseExpiredRequests(db)); RequestsOk(next) && KeepsCompleted(db, next)
  {
    hide Eight;
  }

  lemma NotTaken(db: Market, session: Hash, csrf: Hash)
    ensures !RequestTaken(db, session, csrf) ==> session !in db.requests
  {
  }

  lemma CreateRequestRows(db: Market, session: Hash, csrf: Hash, grant: Grant)
    requires RequestsOk(db)
    ensures var next := CreateRequest(db, session, csrf, grant);
            RequestsOk(next) && KeepsCompleted(db, next) && RequestTables(db, next)
  {
    hide Eight, CloseExpiredRequests, RequestTaken;
    CloseExpiredRequestsOk(db);
    var mid := db.(requests := CloseExpiredRequests(db));
    assert !RequestTaken(db, session, csrf) ==> session !in db.requests by { NotTaken(db, session, csrf); }
  }

  lemma CreateRequestValid(db: Market, session: Hash, csrf: Hash, grant: Grant)
    requires Valid(db)
    ensures Valid(CreateRequest(db, session, csrf, grant))
  {
    hide IdentityOk, PairingsOk, CodesOk, FamiliesOk, RequestsOk, SignupsOk, KeepsCompleted, CreateRequest;
    CreateRequestRows(db, session, csrf, grant);
    RequestsOnly(db, CreateRequest(db, session, csrf, grant));
  }

  lemma ProgressedValid(db: Market, session: Hash, to: Progress)
    requires Valid(db) && session in db.requests && !db.requests[session].progress.Completed? && ProgressOk(db, to)
    ensures Valid(Progressed(db, session, to))
  {
    hide IdentityOk, PairingsOk, CodesOk, FamiliesOk, SignupsOk, Eight, G.Valid;
    RequestsOnly(db, Progressed(db, session, to));
  }

  lemma CancelRequestValid(db: Market, session: Hash, csrf: Hash)
    requires Valid(db)
    ensures Valid(CancelRequest(db, session, csrf))
  {
    hide Valid, Progressed;
    if ActiveRequest(db, session, csrf) { ProgressedValid(db, session, Closed); }
  }

  lemma StageNewValid(db: Market, session: Hash, csrf: Hash, handle: string, secret: Hash, codes: seq<Hash>)
    requires Valid(db)
    ensures Valid(StageNew(db, session, csrf, handle, secret, codes))
  {
    hide Valid, Progressed, Eight, HandleUsed;
    if Eight(codes) && OpenRequest(db, session, csrf) { ProgressedValid(db, session, Staged(handle, secret, codes)); }
  }

  // ----- Codes -----

  /** Authorization codes are added or spent, and nothing else changes. */
  lemma CodesOnly(a: Market, b: Market)
    requires Valid(a) && b == a.(codes := b.codes, next := a.next.(code := b.next.code)) && CodesOk(b)
    ensures Valid(b)
  {
    hide G.Valid, CodesOk, IdentityOk, SignupsOk;
    IdentityFrame(a, b);
    SignupsFrame(a, b);
    assert PairingsOk(b) && FamiliesOk(b) && RequestsOk(b);
  }

  lemma IssueValid(db: Market, session: Hash, m: nat)
    requires Valid(db) && session in db.requests && !db.requests[session].progress.Completed? && m in db.merchants
    ensures Valid(Issue(db, session, m))
  {
    hide IdentityOk, PairingsOk, FamiliesOk, RequestsOk, SignupsOk, G.Valid, Valid;
    var mid, next := Progressed(db, session, Completed(m)), Issue(db, session, m);
    ProgressedValid(db, session, Completed(m));
    assert CodesOk(next) by { CodesOf(mid); }
    CodesOnly(mid, next);
  }

  lemma CodesOf(db: Market)
    requires Valid(db)
    ensures CodesOk(db)
  {
  }

  lemma ApproveValid(db: Market, session: Hash, csrf: Hash, secret: Hash)
    requires Valid(db)
    ensures Valid(Approve(db, session, csrf, secret).0)
  {
    hide Valid, Issue;
    if OpenRequest(db, session, csrf) {
      forall m | m in Holders(db, secret) ensures Valid(Issue(db, session, m)) { IssueValid(db, session, m); }
    }
  }

  /**
    An approval answers with exactly one row, unless the request is open and at least two merchants
    hold the presented key: then it answers with none, and the caller sees an error.
   */
  lemma ApproveOneRow(db: Market, session: Hash, csrf: Hash, secret: Hash)
    ensures |Approve(db, session, csrf, secret).1.rows| == 1 <==>
            !(OpenRequest(db, session, csrf) && |Holders(db, secret)| >= 2)
    ensures |Approve(db, session, csrf, secret).1.rows| <= 1
  {
    hide Issue;
  }

  lemma ConfirmNewValid(db: Market, session: Hash, csrf: Hash, secret: Hash)
    requires Valid(db)
    ensures Valid(ConfirmNew(db, session, csrf, secret).0)
  {
    hide Valid, Join, Progressed, Issue, HandleUsed, Collides, Eight;
    if EligibleRequest(db, session, csrf, secret) {
      var p := db.requests[session].progress;
      if HandleUsed(db, p.handle) {
        ProgressedValid(db, session, Closed);
      } else if Eight(p.codes) && !Collides(db, p.codes) {
        JoinValid(db, p.handle, p.secret, p.codes);
        JoinKeeps(db, p.handle, p.secret, p.codes);
        IssueValid(Join(db, p.handle, p.secret, p.codes), session, db.next.merchant);
      }
    }
  }

  /** The new-merchant confirmation answers with exactly one of its five outcomes. */
  lemma ConfirmNewOneRow(db: Market, session: Hash, csrf: Hash, secret: Hash)
    requires Valid(db)
    ensures var reply := ConfirmNew(db, session, csrf, secret).1; reply.Rows? ==> |reply.rows| == 1
  {
    hide IdentityOk, PairingsOk, CodesOk, FamiliesOk, Join, Issue, Collides, HandleUsed;
  }

  // ----- Exchange -----

  /** The token tables move on, and every unrevoked family is under the present key. */
  lemma GrantsOnly(a: Market, b: Market)
    requires Valid(a) && b == a.(grants := b.grants) && G.Valid(b.grants) && FamiliesOk(b)
    ensures Valid(b)
  {
    hide G.Valid, FamiliesOk, IdentityOk, SignupsOk;
    IdentityFrame(a, b);
    SignupsFrame(a, b);
    assert PairingsOk(b) && CodesOk(b) && RequestsOk(b);
  }

  lemma SpendValid(db: Market, c: nat)
    requires Valid(db) && c in db.codes
    ensures Valid(db.(codes := db.codes[c := db.codes[c].(used := Some(db.Now()))]))
  {
    hide IdentityOk, PairingsOk, FamiliesOk, RequestsOk, SignupsOk, G.Valid;
    CodesOnly(db, db.(codes := db.codes[c := db.codes[c].(used := Some(db.Now()))]));
  }

  lemma OpenFamilyKeeps(db: Market, m: nat, client: string, resource: string, scope: string, epoch: nat)
    requires Valid(db) && m in db.merchants && db.merchants[m].keyChanges == epoch
    ensures Valid(db.(grants := G.OpenFamily(db.grants, m, client, resource, scope, epoch)))
  {
    hide IdentityOk, PairingsOk, CodesOk, RequestsOk, SignupsOk, G.Valid;
    G.OpenFamilyValid(db.grants, m, client, resource, scope, epoch);
    GrantsOnly(db, db.(grants := G.OpenFamily(db.grants, m, client, resource, scope, epoch)));
  }

  lemma ExchangeValid(db: Market, c: nat, client: string, redirect: string, resource: string)
    requires Valid(db)
    ensures Valid(Exchange(db, c, client, redirect, resource).0)
  {
    hide Valid, G.OpenFamily;
    if Exchangeable(db, c, client, redirect, resource) {
      SpendValid(db, c);
      CodesOf(db);
      OpenFamilyKeeps(db.(codes := db.codes[c := db.codes[c].(used := Some(db.Now()))]),
                      db.codes[c].merchant, client, resource, db.codes[c].grant.scope, db.codes[c].epoch);
    }
  }

  // ----- Pairing -----

  lemma PairingsOnly(a: Market, b: Market)
    requires Valid(a) && b == a.(pairings := b.pairings, reservations := b.reservations, next := a.next.(pairing := b.next.pairing))
    requires PairingsOk(b)
    ensures Valid(b)
  {
    hide G.Valid, PairingsOk, IdentityOk, SignupsOk;
    IdentityFrame(a, b);
    SignupsFrame(a, b);
    assert FamiliesOk(b) && CodesOk(b) && RequestsOk(b);
  }

  lemma CreatePairingValid(db: Market, m: nat)
    requires Valid(db)
    ensures Valid(CreatePairing(db, m))
  {
    hide IdentityOk, CodesOk, FamiliesOk, RequestsOk, SignupsOk, G.Valid;
    PairingsOnly(db, CreatePairing(db, m));
  }

  /** Only reservations change. */
  lemma ReservationsOnly(a: Market, b: Market)
    requires Valid(a) && b == a.(reservations := b.reservations)
    ensures Valid(b)
  {
    hide IdentityOk, GrantsOk, SignupsOk;
    IdentityFrame(a, b);
    GrantsFrame(a, b);
    SignupsFrame(a, b);
  }

  lemma ReserveValid(db: Market, session: Hash, csrf: Hash, p: nat)
    requires Valid(db)
    ensures Valid(Reserve(db, session, csrf, p)) && Valid(Take(db, session, csrf).0)
  {
    hide Valid, Reserved;
    ReservationsOnly(db, Reserve(db, session, csrf, p));
    ReservationsOnly(db, Take(db, session, csrf).0);
  }

  lemma SpendPairingValid(db: Market, p: nat)
    requires Valid(db)
    ensures Valid(SpendPairing(db, p).0)
  {
    hide IdentityOk, CodesOk, FamiliesOk, RequestsOk, SignupsOk, G.Valid;
    PairingsOnly(db, SpendPairing(db, p).0);
  }

  // ----- Retention -----

  /** No code that stays refers to a request that goes. */
  lemma PruneAllReferences(db: Market)
    requires CodesOk(db)
    ensures var next := PruneAll(db); forall c :: c in next.codes ==> next.codes[c].request in next.requests
  {
    hide RetiredCodes, G.Prune;
  }

  lemma PruneAllValid(db: Market)
    requires Valid(db)
    ensures Valid(PruneAll(db))
  {
    hide G.Valid, IdentityOk, SignupsOk, RetiredCodes, RetiredRequests;
    var next := PruneAll(db);
    G.PruneValid(db.grants);
    IdentityFrame(db, next);
    SignupsFrame(db, next);
    PruneAllReferences(db);
    assert PairingsOk(next) && RequestsOk(next) && FamiliesOk(next) by { hide CodesOk, G.RetiredFamilies, G.RetiredTokens; }
    assert CodesOk(next) by { hide PairingsOk, FamiliesOk, RequestsOk, G.Prune; }
  }

  lemma NowKept(db: Market)
    ensures G.Prune(db.grants).now == db.grants.now
  {
  }
}
