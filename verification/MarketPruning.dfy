/**
  Retention, over whole runs. Two states that agree on everything but rows past their time answer
  every statement alike, and pruning only removes such rows.
 */
module MarketPruning {
  import opened Tables
  import opened Market
  import opened MarketIdentity
  import opened MarketSignIn
  import opened MarketSignInLaws
  import opened MarketRuns
  import G = Grants
  import R = GrantRuns
  import T = TokenRoute

  function LiveCode(db: Market, c: nat): Option<AuthCode>
  {
    if c in db.codes && db.codes[c].expires > db.Now() then Some(db.codes[c]) else None
  }

  function LiveRequest(db: Market, s: Hash): Option<Request>
  {
    if s in db.requests && db.requests[s].expires > db.Now() then Some(db.requests[s]) else None
  }

  /** Every table but codes, requests and tokens. */
  predicate SameCore(a: Market, b: Market)
  {
    a.merchants == b.merchants && a.recovery == b.recovery && a.rotations == b.rotations && a.pairings == b.pairings &&
    a.reservations == b.reservations && a.signups == b.signups && a.next == b.next && a.Now() == b.Now()
  }

  ghost predicate SameLive(a: Market, b: Market)
  {
    (forall c :: LiveCode(a, c) == LiveCode(b, c)) && (forall s :: LiveRequest(a, s) == LiveRequest(b, s))
  }

  ghost predicate Sim(a: Market, b: Market) { SameCore(a, b) && SameLive(a, b) && T.Agree(a.grants, b.grants) }

  /** Only core tables moved, and in both states alike. */
  lemma CoreMoves(a: Market, b: Market, a': Market, b': Market)
    requires Sim(a, b) && SameCore(a', b')
    requires a'.codes == a.codes && a'.requests == a.requests && a'.grants == a.grants
    requires b'.codes == b.codes && b'.requests == b.requests && b'.grants == b.grants
    ensures Sim(a', b')
  {
    hide T.Agree;
    assert forall c :: LiveCode(a', c) == LiveCode(a, c) && LiveCode(b', c) == LiveCode(b, c);
    assert forall s :: LiveRequest(a', s) == LiveRequest(a, s) && LiveRequest(b', s) == LiveRequest(b, s);
  }

  lemma SameHandles(a: Market, b: Market, handle: string, codes: seq<Hash>, secret: Hash)
    requires SameCore(a, b)
    ensures HandleUsed(a, handle) == HandleUsed(b, handle) && Collides(a, codes) == Collides(b, codes)
    ensures Holders(a, secret) == Holders(b, secret)
  {
  }

  // ----- Identity -----

  lemma SimStageSignup(a: Market, b: Market, s: Hash, x: Hash, handle: string, k: Hash, codes: seq<Hash>)
    requires Sim(a, b)
    ensures Sim(StageSignup(a, s, x, handle, k, codes), StageSignup(b, s, x, handle, k, codes))
  {
    SameSignups(a, b, s, x, handle, k, codes);
    hide Sim, SignupsStaged;
    SimCore(a, b);
    CoreMoves(a, b, StageSignup(a, s, x, handle, k, codes), StageSignup(b, s, x, handle, k, codes));
  }

  lemma SimCore(a: Market, b: Market)
    requires Sim(a, b)
    ensures SameCore(a, b)
  {
  }

  lemma SameSignups(a: Market, b: Market, s: Hash, x: Hash, handle: string, k: Hash, codes: seq<Hash>)
    requires SameCore(a, b)
    ensures SignupsStaged(a, s, x, handle, k, codes) == SignupsStaged(b, s, x, handle, k, codes)
  {
    hide Eight, HandleUsed, Collides;
    SameHandles(a, b, handle, codes, k);
    assert CloseExpired(a) == CloseExpired(b);
  }

  lemma SimJoin(a: Market, b: Market, handle: string, secret: Hash, codes: seq<Hash>)
    requires Sim(a, b)
    ensures Sim(Join(a, handle, secret, codes), Join(b, handle, secret, codes))
  {
    hide Sim;
    SimCore(a, b);
    CoreMoves(a, b, Join(a, handle, secret, codes), Join(b, handle, secret, codes));
  }

  lemma SimFinish(a: Market, b: Market, s: Hash, to: Progress)
    requires Sim(a, b) && s in a.signups && s in b.signups
    ensures Sim(FinishSignup(a, s, to), FinishSignup(b, s, to))
  {
    hide Sim;
    SimCore(a, b);
    CoreMoves(a, b, FinishSignup(a, s, to), FinishSignup(b, s, to));
  }

  lemma SimConfirmSignup(a: Market, b: Market, s: Hash, x: Hash, k: Hash)
    requires Sim(a, b)
    ensures Sim(ConfirmSignup(a, s, x, k).0, ConfirmSignup(b, s, x, k).0)
    ensures Sim(CancelSignup(a, s, x), CancelSignup(b, s, x))
  {
    hide Sim, Join, FinishSignup, HandleUsed, Collides, Eight;
    SimCore(a, b);
    if s in a.signups && a.signups[s].progress.Staged? {
      var p := a.signups[s].progress;
      SameHandles(a, b, p.handle, p.codes, k);
      SimFinish(a, b, s, Closed);
      SimJoin(a, b, p.handle, p.secret, p.codes);
      SimFinish(Join(a, p.handle, p.secret, p.codes), Join(b, p.handle, p.secret, p.codes), s, Completed(a.next.merchant));
    }
  }

  lemma SimStageRotation(a: Market, b: Market, s: Hash, x: Hash, k: Hash, r: Hash, pick: nat)
    requires Sim(a, b)
    ensures Sim(StageRotation(a, s, x, k, r, pick).0, StageRotation(b, s, x, k, r, pick).0)
  {
    hide Sim, RotationsStaged;
    SimCore(a, b);
    SameRotations(a, b, s, x, k, r, pick);
    SimWith(a, b, a.recovery, RotationsStaged(a, s, x, k, r, pick));
  }

  lemma SimCancelRotation(a: Market, b: Market, s: Hash, x: Hash)
    requires Sim(a, b)
    ensures Sim(CancelRotation(a, s, x), CancelRotation(b, s, x))
  {
    hide Sim;
    SimCore(a, b);
    if s in a.rotations { SimWith(a, b, a.recovery, a.rotations[s := a.rotations[s].(state := Canceled(a.Now()))]); }
  }

  lemma SameRotations(a: Market, b: Market, s: Hash, x: Hash, k: Hash, r: Hash, pick: nat)
    requires SameCore(a, b)
    ensures RotationsStaged(a, s, x, k, r, pick) == RotationsStaged(b, s, x, k, r, pick)
  {
    assert Holders(a, k) == Holders(b, k) && ClearLapsed(a) == ClearLapsed(b);
  }

  /** A key change meets the same live codes, requests and families in both. */
  lemma SimChangeKey(a: Market, b: Market, m: nat, secret: Hash, reason: string)
    requires Sim(a, b) && m in a.merchants
    ensures Sim(ChangeKey(a, m, secret, reason), ChangeKey(b, m, secret, reason))
  {
    hide T.Agree, G.RevokeMerchant, DropPairings;
    var a', b' := ChangeKey(a, m, secret, reason), ChangeKey(b, m, secret, reason);
    RevokedNow(a.grants, m, reason);
    RevokedNow(b.grants, m, reason);
    forall c ensures LiveCode(a', c) == LiveCode(b', c) { assert LiveCode(a, c) == LiveCode(b, c); }
    forall s ensures LiveRequest(a', s) == LiveRequest(b', s) { assert LiveRequest(a, s) == LiveRequest(b, s); }
    AgreeRevoked(a.grants, b.grants, m, reason);
  }

  lemma RevokedNow(g: G.Db, m: nat, reason: string)
    ensures G.RevokeMerchant(g, m, reason).now == g.now
  {
  }

  lemma AgreeRevoked(a: G.Db, b: G.Db, m: nat, reason: string)
    requires T.Agree(a, b)
    ensures T.Agree(G.RevokeMerchant(a, m, reason), G.RevokeMerchant(b, m, reason))
  {
    hide T.Agree, G.Revoke;
    T.SameMerchant(a, b, m);
    T.AgreeRevoke(a, b, G.FamiliesOf(a, m), G.FamiliesOf(b, m), reason);
  }

  /** After a common step, recovery codes and rotations may be replaced in both alike. */
  lemma SimWith(a: Market, b: Market, recovery: map<Hash, RecoveryCode>, rotations: map<Hash, KeyRotation>)
    requires Sim(a, b)
    ensures Sim(a.(recovery := recovery, rotations := rotations), b.(recovery := recovery, rotations := rotations))
  {
    hide Sim;
    SimCore(a, b);
    CoreMoves(a, b, a.(recovery := recovery, rotations := rotations), b.(recovery := recovery, rotations := rotations));
  }

  lemma SimRotateKey(a: Market, b: Market, m: nat, secret: Hash, own: Hash, won: set<Hash>)
    requires Sim(a, b) && m in a.merchants
    ensures Sim(RotateKey(a, m, secret, own, won), RotateKey(b, m, secret, own, won))
  {
    hide Sim, ChangeKey, DropCodes;
    SimCore(a, b);
    SimChangeKey(a, b, m, secret, "merchant key rotation");
    assert SettleRotations(a, m, own, won) == SettleRotations(b, m, own, won);
    hide SettleRotations;
    SimWith(ChangeKey(a, m, secret, "merchant key rotation"), ChangeKey(b, m, secret, "merchant key rotation"),
            DropCodes(a.recovery, m, a.Now()), SettleRotations(a, m, own, won));
  }

  lemma SimConfirmRotation(a: Market, b: Market, s: Hash, x: Hash, r: Hash, won: set<Hash>)
    requires Sim(a, b)
    ensures Sim(ConfirmRotation(a, s, x, r, won).0, ConfirmRotation(b, s, x, r, won).0)
  {
    hide Sim, RotateKey, Limited;
    SimCore(a, b);
    assert ClearLapsed(a) == ClearLapsed(b);
    hide ClearLapsed;
    SimWith(a, b, a.recovery, ClearLapsed(a));
    if s in a.rotations {
      var m := a.rotations[s].merchant;
      SameLimit(a, b, m);
      SimWith(a, b, a.recovery, ClearLapsed(a)[s := a.rotations[s].(state := Canceled(a.Now()))]);
      if m in a.merchants { SimRotateKey(a, b, m, r, s, won); }
    }
  }

  lemma SameLimit(a: Market, b: Market, m: nat)
    requires SameCore(a, b)
    ensures Limited(a, m) == Limited(b, m)
  {
    assert ConfirmedSince(a, m, DayStart(a.Now())) == ConfirmedSince(b, m, DayStart(b.Now()));
  }

  lemma SimRegenerate(a: Market, b: Market, m: nat, codes: seq<Hash>)
    requires Sim(a, b) && m in a.merchants
    ensures Sim(Regenerate(a, m, codes), Regenerate(b, m, codes))
  {
    hide Sim, DropCodes, AddCodes, DropRotations;
    SimCore(a, b);
    CoreMoves(a, b, Regenerate(a, m, codes), Regenerate(b, m, codes));
  }

  lemma SimGenerate(a: Market, b: Market, k: Hash, codes: seq<Hash>)
    requires Sim(a, b)
    ensures Sim(Generate(a, k, codes), Generate(b, k, codes))
  {
    hide Sim, Regenerate, Collides, Eight;
    SimCore(a, b);
    SameHandles(a, b, "", codes, k);
    forall m | m in Holders(a, k) ensures Sim(Regenerate(a, m, codes), Regenerate(b, m, codes)) {
      SimRegenerate(a, b, m, codes);
    }
  }

  lemma SimRecovery(a: Market, b: Market, s: Hash, x: Hash, code: Hash, r: Hash, known: bool)
    requires Sim(a, b)
    ensures Sim(StageRecovery(a, s, x, code, r, known), StageRecovery(b, s, x, code, r, known))
    ensures Sim(CancelRecovery(a, s, x), CancelRecovery(b, s, x))
  {
    SimCore(a, b);
    SameStaged(a, b, s, x, code, r, known);
    SameCanceled(a, b, s, x);
    hide Sim, CodesStaged, StageRecovery, CancelRecovery;
    StageTouches(a, s, x, code, r, known);
    StageTouches(b, s, x, code, r, known);
    SimWith(a, b, CodesStaged(a, s, x, code, r, known), a.rotations);
    SimWith(a, b, CancelRecovery(a, s, x).recovery, a.rotations);
  }

  lemma StageTouches(db: Market, s: Hash, x: Hash, code: Hash, r: Hash, known: bool)
    ensures StageRecovery(db, s, x, code, r, known) == db.(recovery := CodesStaged(db, s, x, code, r, known), rotations := db.rotations)
    ensures CancelRecovery(db, s, x) == db.(recovery := CancelRecovery(db, s, x).recovery, rotations := db.rotations)
  {
    hide CodesStaged;
  }

  lemma SameStaged(a: Market, b: Market, s: Hash, x: Hash, code: Hash, r: Hash, known: bool)
    requires SameCore(a, b)
    ensures CodesStaged(a, s, x, code, r, known) == CodesStaged(b, s, x, code, r, known)
  {
    assert ClearStale(a, code) == ClearStale(b, code);
  }

  lemma SameCanceled(a: Market, b: Market, s: Hash, x: Hash)
    requires SameCore(a, b)
    ensures CancelRecovery(a, s, x).recovery == CancelRecovery(b, s, x).recovery
  {
  }

  lemma SimRecover(a: Market, b: Market, code: Hash, r: Hash)
    requires Sim(a, b) && code in a.recovery && a.recovery[code].merchant in a.merchants
    requires code in b.recovery && b.recovery[code].merchant in b.merchants
    ensures Sim(Recover(a, code, r), Recover(b, code, r))
  {
    hide Sim, ChangeKey, DropCodes, DropRotations;
    SimCore(a, b);
    var m := a.recovery[code].merchant;
    SimChangeKey(a, b, m, r, "merchant key recovery");
    SimWith(ChangeKey(a, m, r, "merchant key recovery"), ChangeKey(b, m, r, "merchant key recovery"),
            DropCodes(a.recovery[code := a.recovery[code].(used := Some(a.Now()), ceremony := None)], m, a.Now()),
            DropRotations(a.rotations, m, a.Now()));
  }

  lemma SimConfirmRecovery(a: Market, b: Market, s: Hash, x: Hash, r: Hash)
    requires Sim(a, b)
    ensures Sim(ConfirmRecovery(a, s, x, r).0, ConfirmRecovery(b, s, x, r).0)
  {
    hide Sim, Recover;
    SimCore(a, b);
    assert EligibleRecoveries(a, s, x, r) == EligibleRecoveries(b, s, x, r);
    forall code | code in EligibleRecoveries(a, s, x, r) ensures Sim(Recover(a, code, r), Recover(b, code, r)) {
      SimRecover(a, b, code, r);
    }
  }

  // ----- Sign-in -----

  lemma SimActive(a: Market, b: Market, s: Hash, x: Hash)
    requires Sim(a, b)
    ensures ActiveRequest(a, s, x) == ActiveRequest(b, s, x) && OpenRequest(a, s, x) == OpenRequest(b, s, x)
    ensures ActiveRequest(a, s, x) ==> a.requests[s] == b.requests[s]
  {
    hide T.Agree;
    assert LiveRequest(a, s) == LiveRequest(b, s);
  }

  lemma SimProgressed(a: Market, b: Market, s: Hash, to: Progress)
    requires Sim(a, b) && s in a.requests && s in b.requests && a.requests[s] == b.requests[s]
    ensures Sim(Progressed(a, s, to), Progressed(b, s, to))
  {
    hide T.Agree;
    var a', b' := Progressed(a, s, to), Progressed(b, s, to);
    forall c ensures LiveCode(a', c) == LiveCode(b', c) { assert LiveCode(a, c) == LiveCode(b, c); }
    forall r ensures LiveRequest(a', r) == LiveRequest(b', r) { assert LiveRequest(a, r) == LiveRequest(b, r); }
  }

  /** No expired request carries the session or the csrf hash. */
  predicate Unused(db: Market, s: Hash, x: Hash)
  {
    forall r :: r in db.requests && db.requests[r].expires <= db.Now() ==> r != s && db.requests[r].csrf != x
  }

  lemma SimTaken(a: Market, b: Market, s: Hash, x: Hash)
    requires Sim(a, b) && Unused(a, s, x) && RequestTaken(a, s, x)
    ensures RequestTaken(b, s, x)
  {
    hide T.Agree;
    if s in a.requests {
      assert LiveRequest(a, s) == LiveRequest(b, s);
    } else {
      var r :| r in a.requests && a.requests[r].csrf == x;
      assert LiveRequest(a, r) == LiveRequest(b, r);
    }
  }

  lemma SimSym(a: Market, b: Market)
    requires Sim(a, b)
    ensures Sim(b, a)
  {
    hide T.Agree;
    assert forall c :: LiveCode(a, c) == LiveCode(b, c);
    assert forall s :: LiveRequest(a, s) == LiveRequest(b, s);
    T.AgreeSym(a.grants, b.grants);
  }

  lemma SimAddRequest(a: Market, b: Market, s: Hash, r: Request)
    requires Sim(a, b)
    ensures var next := a.next.(request := a.next.request + 1);
            Sim(a.(requests := CloseExpiredRequests(a)[s := r], next := next),
                b.(requests := CloseExpiredRequests(b)[s := r], next := next))
  {
    hide T.Agree;
    var next := a.next.(request := a.next.request + 1);
    var a', b' := a.(requests := CloseExpiredRequests(a)[s := r], next := next), b.(requests := CloseExpiredRequests(b)[s := r], next := next);
    forall c ensures LiveCode(a', c) == LiveCode(b', c) { assert LiveCode(a, c) == LiveCode(b, c); }
    forall q ensures LiveRequest(a', q) == LiveRequest(b', q) { assert LiveRequest(a, q) == LiveRequest(b, q); }
  }

  lemma SimCreateRequest(a: Market, b: Market, s: Hash, x: Hash, grant: Grant)
    requires Sim(a, b) && Unused(a, s, x) && Unused(b, s, x)
    ensures Sim(CreateRequest(a, s, x, grant), CreateRequest(b, s, x, grant))
  {
    hide Sim, RequestTaken, CloseExpiredRequests, Unused;
    SimCore(a, b);
    SimSym(a, b);
    if RequestTaken(a, s, x) { SimTaken(a, b, s, x); }
    if RequestTaken(b, s, x) { SimTaken(b, a, s, x); }
    SimAddRequest(a, b, s, Request(a.next.request, x, grant, a.Now() + REQUEST_LIFE, Open));
  }

  lemma SimProgress(a: Market, b: Market, s: Hash, x: Hash, handle: string, k: Hash, codes: seq<Hash>)
    requires Sim(a, b)
    ensures Sim(CancelRequest(a, s, x), CancelRequest(b, s, x))
    ensures Sim(StageNew(a, s, x, handle, k, codes), StageNew(b, s, x, handle, k, codes))
  {
    hide Sim, Progressed, HandleUsed, Collides, Eight;
    SimCore(a, b);
    SimActive(a, b, s, x);
    SameHandles(a, b, handle, codes, k);
    if ActiveRequest(a, s, x) {
      SimProgressed(a, b, s, Closed);
      SimProgressed(a, b, s, Staged(handle, k, codes));
    }
  }

  lemma SimAddCode(a: Market, b: Market, code: AuthCode)
    requires Sim(a, b)
    ensures var next := a.next.(code := a.next.code + 1);
            Sim(a.(codes := a.codes[a.next.code := code], next := next), b.(codes := b.codes[b.next.code := code], next := next))
  {
    hide T.Agree;
    var next := a.next.(code := a.next.code + 1);
    var a', b' := a.(codes := a.codes[a.next.code := code], next := next), b.(codes := b.codes[b.next.code := code], next := next);
    forall c ensures LiveCode(a', c) == LiveCode(b', c) { assert LiveCode(a, c) == LiveCode(b, c); }
    forall s ensures LiveRequest(a', s) == LiveRequest(b', s) { assert LiveRequest(a, s) == LiveRequest(b, s); }
  }

  lemma SimIssue(a: Market, b: Market, s: Hash, m: nat)
    requires Sim(a, b) && s in a.requests && s in b.requests && a.requests[s] == b.requests[s] && m in a.merchants && m in b.merchants
    ensures Sim(Issue(a, s, m), Issue(b, s, m))
  {
    hide Sim, Progressed;
    SimCore(a, b);
    SimProgressed(a, b, s, Completed(m));
    ProgressedKeeps(a, s, Completed(m));
    ProgressedKeeps(b, s, Completed(m));
    SimAddCode(Progressed(a, s, Completed(m)), Progressed(b, s, Completed(m)),
               AuthCode(s, m, a.requests[s].grant, a.Now() + CODE_LIFE, None, a.merchants[m].keyChanges));
  }

  lemma ProgressedKeeps(db: Market, s: Hash, to: Progress)
    requires s in db.requests
    ensures var next := Progressed(db, s, to); next.codes == db.codes && next.next == db.next
  {
  }

  lemma SimApprove(a: Market, b: Market, s: Hash, x: Hash, k: Hash)
    requires Sim(a, b)
    ensures Sim(Approve(a, s, x, k).0, Approve(b, s, x, k).0) && Approve(a, s, x, k).1 == Approve(b, s, x, k).1
  {
    hide Sim, Issue;
    SimCore(a, b);
    SimActive(a, b, s, x);
    SameHandles(a, b, "", [], k);
    if OpenRequest(a, s, x) {
      forall m | m in Holders(a, k) ensures Sim(Issue(a, s, m), Issue(b, s, m)) { SimIssue(a, b, s, m); }
    }
  }

  lemma SimConfirmNew(a: Market, b: Market, s: Hash, x: Hash, k: Hash)
    requires Sim(a, b)
    ensures Sim(ConfirmNew(a, s, x, k).0, ConfirmNew(b, s, x, k).0) && ConfirmNew(a, s, x, k).1 == ConfirmNew(b, s, x, k).1
  {
    hide Sim, Issue, Join, Progressed, HandleUsed, Collides, Eight;
    SimCore(a, b);
    SimActive(a, b, s, x);
    if ActiveRequest(a, s, x) && a.requests[s].progress.Staged? {
      var p := a.requests[s].progress;
      SameHandles(a, b, p.handle, p.codes, k);
      SimProgressed(a, b, s, Closed);
      SimJoin(a, b, p.handle, p.secret, p.codes);
      JoinsIn(a, p.handle, p.secret, p.codes);
      JoinsIn(b, p.handle, p.secret, p.codes);
      SimIssue(Join(a, p.handle, p.secret, p.codes), Join(b, p.handle, p.secret, p.codes), s, a.next.merchant);
    }
  }

  lemma JoinsIn(db: Market, handle: string, secret: Hash, codes: seq<Hash>)
    ensures var next := Join(db, handle, secret, codes); next.requests == db.requests && db.next.merchant in next.merchants
  {
  }

  lemma SimExchangeable(a: Market, b: Market, c: nat, client: string, redirect: string, resource: string)
    requires Sim(a, b)
    ensures Exchangeable(a, c, client, redirect, resource) == Exchangeable(b, c, client, redirect, resource)
    ensures Exchangeable(a, c, client, redirect, resource) ==> a.codes[c] == b.codes[c]
  {
    hide T.Agree;
    assert LiveCode(a, c) == LiveCode(b, c);
  }

  lemma SimSpend(a: Market, b: Market, c: nat)
    requires Sim(a, b) && c in a.codes && c in b.codes && a.codes[c] == b.codes[c]
    ensures Sim(a.(codes := a.codes[c := a.codes[c].(used := Some(a.Now()))]), b.(codes := b.codes[c := b.codes[c].(used := Some(b.Now()))]))
  {
    hide T.Agree;
    var a', b' := a.(codes := a.codes[c := a.codes[c].(used := Some(a.Now()))]), b.(codes := b.codes[c := b.codes[c].(used := Some(b.Now()))]);
    forall d ensures LiveCode(a', d) == LiveCode(b', d) { assert LiveCode(a, d) == LiveCode(b, d); }
    forall s ensures LiveRequest(a', s) == LiveRequest(b', s) { assert LiveRequest(a, s) == LiveRequest(b, s); }
  }

  /** The token tables move on in both, and still agree. */
  lemma SimGrants(a: Market, b: Market, g: G.Db, h: G.Db)
    requires Sim(a, b) && T.Agree(g, h) && g.now == a.Now() && h.now == b.Now()
    ensures Sim(a.(grants := g), b.(grants := h))
  {
    hide T.Agree;
    var a', b' := a.(grants := g), b.(grants := h);
    forall d ensures LiveCode(a', d) == LiveCode(b', d) { assert LiveCode(a, d) == LiveCode(b, d); }
    forall s ensures LiveRequest(a', s) == LiveRequest(b', s) { assert LiveRequest(a, s) == LiveRequest(b, s); }
  }

  lemma GrantsAgree(a: Market, b: Market)
    requires Sim(a, b)
    ensures T.Agree(a.grants, b.grants)
  {
  }

  lemma RowsOf(db: Market)
    requires Valid(db)
    ensures G.Valid(db.grants) && G.RowsValid(db.grants)
  {
  }

  /** The code's row spent, and its family opened. */
  lemma SimOpen(a: Market, b: Market, c: nat, code: AuthCode, client: string, resource: string)
    requires Sim(a, b) && Valid(a) && Valid(b) && c in a.codes && c in b.codes && a.codes[c] == code == b.codes[c]
    ensures Sim(Opened(a, c, code, client, resource), Opened(b, c, code, client, resource))
  {
    RowsOf(a);
    RowsOf(b);
    hide Sim, Valid, T.Agree, G.OpenFamily, G.RowsValid, G.Valid;
    GrantsAgree(a, b);
    SimSpend(a, b, c);
    T.AgreeOpen(a.grants, b.grants, code.merchant, client, resource, code.grant.scope, code.epoch);
    OpenedNow(a.grants, code.merchant, client, resource, code.grant.scope, code.epoch);
    OpenedNow(b.grants, code.merchant, client, resource, code.grant.scope, code.epoch);
    SimGrants(a.(codes := a.codes[c := code.(used := Some(a.Now()))]), b.(codes := b.codes[c := code.(used := Some(b.Now()))]),
              G.OpenFamily(a.grants, code.merchant, client, resource, code.grant.scope, code.epoch),
              G.OpenFamily(b.grants, code.merchant, client, resource, code.grant.scope, code.epoch));
  }

  function Opened(db: Market, c: nat, code: AuthCode, client: string, resource: string): Market
  {
    db.(codes := db.codes[c := code.(used := Some(db.Now()))],
        grants := G.OpenFamily(db.grants, code.merchant, client, resource, code.grant.scope, code.epoch))
  }

  lemma ExchangeOpens(db: Market, c: nat, client: string, redirect: string, resource: string)
    ensures Exchange(db, c, client, redirect, resource) ==
      if Exchangeable(db, c, client, redirect, resource)
      then (Opened(db, c, db.codes[c], client, resource), Some(db.grants.nextFamily)) else (db, None)
  {
    hide G.OpenFamily;
  }

  lemma SimExchange(a: Market, b: Market, c: nat, client: string, redirect: string, resource: string)
    requires Sim(a, b) && Valid(a) && Valid(b)
    ensures Sim(Exchange(a, c, client, redirect, resource).0, Exchange(b, c, client, redirect, resource).0)
    ensures Exchange(a, c, client, redirect, resource).1 == Exchange(b, c, client, redirect, resource).1
  {
    ExchangeOpens(a, c, client, redirect, resource);
    ExchangeOpens(b, c, client, redirect, resource);
    hide Sim, Valid, T.Agree, Exchange, Opened, Exchangeable;
    SimExchangeable(a, b, c, client, redirect, resource);
    GrantsAgree(a, b);
    T.AgreeCounters(a.grants, b.grants);
    if Exchangeable(a, c, client, redirect, resource) {
      CodePresent(a, c, client, redirect, resource);
      CodePresent(b, c, client, redirect, resource);
      SimOpen(a, b, c, a.codes[c], client, resource);
    }
  }

  lemma CodePresent(db: Market, c: nat, client: string, redirect: string, resource: string)
    requires Exchangeable(db, c, client, redirect, resource)
    ensures c in db.codes
  {
  }

  lemma OpenedNow(g: G.Db, m: nat, client: string, resource: string, scope: string, epoch: nat)
    ensures G.OpenFamily(g, m, client, resource, scope, epoch).now == g.now
  {
  }

  /** After a common step, pairings, reservations and their serial may be replaced in both alike. */
  lemma SimPairings(a: Market, b: Market, pairings: map<nat, Pairing>, reservations: map<Hash, Reservation>, next: Serials)
    requires Sim(a, b)
    ensures Sim(a.(pairings := pairings, reservations := reservations, next := next),
                b.(pairings := pairings, reservations := reservations, next := next))
  {
    hide Sim;
    SimCore(a, b);
    CoreMoves(a, b, a.(pairings := pairings, reservations := reservations, next := next),
              b.(pairings := pairings, reservations := reservations, next := next));
  }

  lemma SimCreatePairing(a: Market, b: Market, m: nat)
    requires Sim(a, b)
    ensures Sim(CreatePairing(a, m), CreatePairing(b, m))
  {
    hide Sim;
    SimCore(a, b);
    var after := CreatePairing(a, m);
    assert CreatePairing(b, m).pairings == after.pairings;
    SimPairings(a, b, after.pairings, a.reservations, after.next);
  }

  lemma SimSpendPairing(a: Market, b: Market, p: nat)
    requires Sim(a, b)
    ensures Sim(SpendPairing(a, p).0, SpendPairing(b, p).0)
  {
    hide Sim;
    SimCore(a, b);
    SimPairings(a, b, SpendPairing(a, p).0.pairings, a.reservations, a.next);
  }

  lemma SimReserve(a: Market, b: Market, s: Hash, x: Hash, p: nat)
    requires Sim(a, b)
    ensures Sim(Reserve(a, s, x, p), Reserve(b, s, x, p))
  {
    hide Sim;
    SimCore(a, b);
    assert ReservationsLeft(a) == ReservationsLeft(b);
    assert Reserved(a, s, x, p) == Reserved(b, s, x, p);
    hide Reserved;
    SimPairings(a, b, a.pairings, Reserved(a, s, x, p), a.next);
  }

  lemma SimTake(a: Market, b: Market, s: Hash, x: Hash)
    requires Sim(a, b)
    ensures Sim(Take(a, s, x).0, Take(b, s, x).0)
  {
    hide Sim;
    SimCore(a, b);
    SimPairings(a, b, a.pairings, Take(a, s, x).0.reservations, a.next);
  }

  lemma SimTokens(a: Market, b: Market, e: R.Event)
    requires Sim(a, b) && Valid(a) && Valid(b) && (e.Refreshed? || e.Revoked?)
    ensures Sim(OnGrants(a, R.Apply(a.grants, e)), OnGrants(b, R.Apply(b.grants, e)))
  {
    RowsOf(a);
    RowsOf(b);
    hide Sim, Valid, T.Agree, G.RowsValid, G.Valid, R.Apply;
    GrantsAgree(a, b);
    T.AgreeApply(a.grants, b.grants, e);
    SameClock(a.grants, e);
    SameClock(b.grants, e);
    SimGrants(a, b, R.Apply(a.grants, e), R.Apply(b.grants, e));
  }

  lemma SameClock(g: G.Db, e: R.Event)
    requires e.Refreshed? || e.Revoked?
    ensures R.Apply(g, e).now == g.now
  {
  }

  lemma SimTick(a: Market, b: Market, d: nat)
    requires Sim(a, b)
    ensures Sim(OnGrants(a, R.Apply(a.grants, R.Ticked(d))), OnGrants(b, R.Apply(b.grants, R.Ticked(d))))
  {
    var a', b' := OnGrants(a, R.Apply(a.grants, R.Ticked(d))), OnGrants(b, R.Apply(b.grants, R.Ticked(d)));
    T.AgreeTick(a.grants, b.grants, d);
    hide T.Agree;
    forall c ensures LiveCode(a', c) == LiveCode(b', c) { assert LiveCode(a, c) == LiveCode(b, c); }
    forall s ensures LiveRequest(a', s) == LiveRequest(b', s) { assert LiveRequest(a, s) == LiveRequest(b, s); }
  }

  /** Pruning removes only rows past their time. */
  lemma PruneSim(db: Market)
    requires Valid(db)
    ensures Sim(db, PruneAll(db))
  {
    RowsOf(db);
    T.PruneAgrees(db.grants);
    NowKept(db);
    RetiredAreOld(db);
    hide Valid, T.Agree, G.Prune, RetiredCodes, RetiredRequests;
    var next := PruneAll(db);
    forall c ensures LiveCode(db, c) == LiveCode(next, c) { }
    forall s ensures LiveRequest(db, s) == LiveRequest(next, s) { }
  }

  lemma RetiredAreOld(db: Market)
    ensures forall c :: c in RetiredCodes(db) ==> c in db.codes && db.codes[c].expires <= db.Now()
    ensures forall s :: s in RetiredRequests(db) ==> s in db.requests && db.requests[s].expires <= db.Now()
  {
  }

  lemma SimTrans(a: Market, b: Market, c: Market)
    requires Sim(a, b) && Sim(b, c)
    ensures Sim(a, c)
  {
    hide T.Agree;
    T.AgreeTrans(a.grants, b.grants, c.grants);
    forall d ensures LiveCode(a, d) == LiveCode(c, d) { assert LiveCode(a, d) == LiveCode(b, d); }
    forall s ensures LiveRequest(a, s) == LiveRequest(c, s) { assert LiveRequest(a, s) == LiveRequest(b, s); }
  }

  lemma SimPrune(a: Market, b: Market)
    requires Sim(a, b) && Valid(a) && Valid(b)
    ensures Sim(PruneAll(a), PruneAll(b))
  {
    hide Sim, Valid, PruneAll;
    PruneSim(a);
    PruneSim(b);
    SimSym(a, PruneAll(a));
    SimTrans(PruneAll(a), a, b);
    SimTrans(PruneAll(a), b, PruneAll(b));
  }

  // ----- Whole runs -----

  /** A request is created under a session and a csrf hash that no expired request carries: both are random. */
  predicate FreshFor(db: Market, e: SignInStep) { e.RequestCreated? ==> Unused(db, e.session, e.csrf) }

  lemma SimIdentityStep(a: Market, b: Market, e: IdentityStep)
    requires Sim(a, b)
    ensures Sim(ApplyIdentity(a, e), ApplyIdentity(b, e))
  {
    hide Sim, StageSignup, ConfirmSignup, CancelSignup, StageRotation, ConfirmRotation, CancelRotation, Generate, StageRecovery,
      ConfirmRecovery, CancelRecovery;
    match e
    case SignupStaged(s, x, handle, k, codes) => SimStageSignup(a, b, s, x, handle, k, codes);
    case SignupConfirmed(s, x, k) => SimConfirmSignup(a, b, s, x, k);
    case SignupCanceled(s, x) => SimConfirmSignup(a, b, s, x, 0);
    case RotationStaged(s, x, k, r, pick) => SimStageRotation(a, b, s, x, k, r, pick);
    case RotationConfirmed(s, x, r, won) => SimConfirmRotation(a, b, s, x, r, won);
    case RotationCanceled(s, x) => SimCancelRotation(a, b, s, x);
    case CodesGenerated(k, codes) => SimGenerate(a, b, k, codes);
    case RecoveryStaged(s, x, code, r, known) => SimRecovery(a, b, s, x, code, r, known);
    case RecoveryConfirmed(s, x, r) => SimConfirmRecovery(a, b, s, x, r);
    case RecoveryCanceled(s, x) => SimRecovery(a, b, s, x, 0, 0, false);
  }

  predicate RequestStep(e: SignInStep)
  {
    e.RequestCreated? || e.RequestCanceled? || e.MerchantApproved? || e.NewStaged? || e.NewConfirmed? || e.CodeExchanged?
  }

  lemma SimRequestStep(a: Market, b: Market, e: SignInStep)
    requires RequestStep(e) && Sim(a, b) && Valid(a) && Valid(b) && FreshFor(a, e) && FreshFor(b, e)
    ensures Sim(ApplySignIn(a, e), ApplySignIn(b, e))
  {
    hide Sim, Valid, Unused, CreateRequest, CancelRequest, Approve, StageNew, ConfirmNew, Exchange;
    match e
    case RequestCreated(s, x, grant) => SimCreateRequest(a, b, s, x, grant);
    case RequestCanceled(s, x) => SimProgress(a, b, s, x, "", 0, []);
    case MerchantApproved(s, x, k) => SimApprove(a, b, s, x, k);
    case NewStaged(s, x, handle, k, codes) => SimProgress(a, b, s, x, handle, k, codes);
    case NewConfirmed(s, x, k) => SimConfirmNew(a, b, s, x, k);
    case CodeExchanged(c, client, redirect, resource) => SimExchange(a, b, c, client, redirect, resource);
  }

  lemma SimOtherStep(a: Market, b: Market, e: SignInStep)
    requires !RequestStep(e) && Sim(a, b) && Valid(a) && Valid(b)
    ensures Sim(ApplySignIn(a, e), ApplySignIn(b, e))
  {
    hide Sim, Valid, CreatePairing, Reserve, Take, SpendPairing, PruneAll, OnGrants, R.Apply;
    match e
    case PairingCreated(m) => SimCreatePairing(a, b, m);
    case PairingReserved(s, x, p) => SimReserve(a, b, s, x, p);
    case PairingTaken(s, x) => SimTake(a, b, s, x);
    case PairingSpent(p) => SimSpendPairing(a, b, p);
    case TokenRefreshed(h, client, resource) => SimTokens(a, b, R.Refreshed(h, client, resource));
    case TokenRevoked(h, client) => SimTokens(a, b, R.Revoked(h, client));
    case Pruned => SimPrune(a, b);
    case Ticked(d) => SimTick(a, b, d);
  }

  lemma SimSignInStep(a: Market, b: Market, e: SignInStep)
    requires Sim(a, b) && Valid(a) && Valid(b) && FreshFor(a, e) && FreshFor(b, e)
    ensures Sim(ApplySignIn(a, e), ApplySignIn(b, e))
  {
    hide Sim, Valid, FreshFor, ApplySignIn;
    if RequestStep(e) { SimRequestStep(a, b, e); } else { SimOtherStep(a, b, e); }
  }

  /** Along the run of `db`, every new request is fresh. */
  ghost predicate AlwaysFresh(db: Market, es: seq<Event>)
    decreases |es|
  {
    es != [] ==> (es[0].OnSignIn? ==> FreshFor(db, es[0].s)) && AlwaysFresh(Apply(db, es[0]), es[1..])
  }

  lemma {:induction false} RunSim(a: Market, b: Market, es: seq<Event>)
    requires Sim(a, b) && Valid(a) && Valid(b) && AlwaysFresh(a, es) && AlwaysFresh(b, es)
    ensures Sim(Run(a, es), Run(b, es)) && Valid(Run(a, es)) && Valid(Run(b, es))
    decreases |es|
  {
    hide Sim, Valid, FreshFor, ApplyIdentity, ApplySignIn;
    if es != [] {
      ApplyValid(a, es[0]);
      ApplyValid(b, es[0]);
      if es[0].OnIdentity? { SimIdentityStep(a, b, es[0].i); } else { SimSignInStep(a, b, es[0].s); }
      RunSim(Apply(a, es[0]), Apply(b, es[0]), es[1..]);
    }
  }

  /**
    Whatever runs after a pruning, it is never noticed: every later exchange, resolution, rotation,
    approval and new-merchant confirmation answers as it would have without the pruning.
   */
  lemma PruningUnseen(db: Market, es: seq<Event>)
    requires Valid(db) && AlwaysFresh(db, es) && AlwaysFresh(PruneAll(db), es)
    ensures var (kept, pruned) := (Run(db, es), Run(PruneAll(db), es));
      (forall c, client, redirect, resource ::
         Exchange(kept, c, client, redirect, resource).1 == Exchange(pruned, c, client, redirect, resource).1) &&
      (forall h, r, s :: G.Resolve(kept.grants, h, r, s) == G.Resolve(pruned.grants, h, r, s)) &&
      (forall h, c, r :: G.Rotatable(kept.grants, h, c, r) == G.Rotatable(pruned.grants, h, c, r)) &&
      (forall s, x, k :: Approve(kept, s, x, k).1 == Approve(pruned, s, x, k).1) &&
      (forall s, x, k :: ConfirmNew(kept, s, x, k).1 == ConfirmNew(pruned, s, x, k).1)
  {
    hide Valid, Sim, AlwaysFresh, Exchange, G.Resolve, G.Rotatable, Approve, ConfirmNew, PruneAll, Run;
    PruneSim(db);
    PruneAllValid(db);
    RunSim(db, PruneAll(db), es);
    SameAnswers(Run(db, es), Run(PruneAll(db), es));
  }

  lemma SameAnswers(a: Market, b: Market)
    requires Sim(a, b) && Valid(a) && Valid(b)
    ensures forall c, client, redirect, resource ::
      Exchange(a, c, client, redirect, resource).1 == Exchange(b, c, client, redirect, resource).1
    ensures forall h, r, s :: G.Resolve(a.grants, h, r, s) == G.Resolve(b.grants, h, r, s)
    ensures forall h, c, r :: G.Rotatable(a.grants, h, c, r) == G.Rotatable(b.grants, h, c, r)
    ensures forall s, x, k :: Approve(a, s, x, k).1 == Approve(b, s, x, k).1
    ensures forall s, x, k :: ConfirmNew(a, s, x, k).1 == ConfirmNew(b, s, x, k).1
  {
    Lifetimes(a);
    Lifetimes(b);
    GrantsAgree(a, b);
    hide Valid, Sim, T.Agree, Exchange, G.Resolve, G.Rotatable, Approve, ConfirmNew, G.LifetimesValid, G.RowsValid;
    forall c, client, redirect, resource
      ensures Exchange(a, c, client, redirect, resource).1 == Exchange(b, c, client, redirect, resource).1
    {
      SimExchange(a, b, c, client, redirect, resource);
    }
    forall h, r, s ensures G.Resolve(a.grants, h, r, s) == G.Resolve(b.grants, h, r, s) {
      T.AgreeObserve(a.grants, b.grants, h, "", r, s);
    }
    forall h, c, r ensures G.Rotatable(a.grants, h, c, r) == G.Rotatable(b.grants, h, c, r) {
      T.AgreeObserve(a.grants, b.grants, h, c, r, "");
    }
    forall s, x, k ensures Approve(a, s, x, k).1 == Approve(b, s, x, k).1 { SimApprove(a, b, s, x, k); }
    forall s, x, k ensures ConfirmNew(a, s, x, k).1 == ConfirmNew(b, s, x, k).1 { SimConfirmNew(a, b, s, x, k); }
  }

  lemma Lifetimes(db: Market)
    requires Valid(db)
    ensures G.RowsValid(db.grants) && G.LifetimesValid(db.grants)
  {
  }
}
