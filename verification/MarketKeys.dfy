/**
  Fresh keys. Every merchant key is made from random bytes when it is staged, so it was never
  carried or staged before; then a key proves one merchant, until that merchant changes it.
 */
module MarketKeys {
  import opened Tables
  import opened Market
  import opened MarketIdentity
  import opened MarketIdentityLaws
  import opened MarketSignIn
  import opened MarketSignInLaws
  import opened MarketOnward
  import opened MarketRuns
  import opened MarketLiveness
  import G = Grants
  import R = GrantRuns

  // ----- Where keys stand -----

  /** The places that hold a key: a merchant, or a ceremony that may give its key to one. */
  datatype Slot =
    | OfMerchant(m: nat)
    | OfSignup(session: Hash)
    | OfRequest(session: Hash)
    | OfRotation(session: Hash)
    | OfRecovery(code: Hash)

  function StagedKey(p: Progress): Option<Hash> { if p.Staged? then Some(p.secret) else None }

  function KeyAt(db: Market, s: Slot): Option<Hash>
  {
    match s
    case OfMerchant(m) => if m in db.merchants then Some(db.merchants[m].secret) else None
    case OfSignup(x) => if x in db.signups then StagedKey(db.signups[x].progress) else None
    case OfRequest(x) => if x in db.requests then StagedKey(db.requests[x].progress) else None
    case OfRotation(x) =>
      if x in db.rotations && db.rotations[x].state.Pending? then Some(db.rotations[x].state.replacement) else None
    case OfRecovery(c) =>
      if c in db.recovery && db.recovery[c].ceremony.Some? then Some(db.recovery[c].ceremony.value.replacement) else None
  }

  /** No two places hold one key, and every key was seen. */
  ghost predicate KeysDistinct(db: Market, seen: set<Hash>)
  {
    (forall s, t :: KeyAt(db, s).Some? && KeyAt(db, s) == KeyAt(db, t) ==> s == t) &&
    (forall s :: KeyAt(db, s).Some? ==> KeyAt(db, s).value in seen)
  }

  lemma EmptyKeys()
    ensures KeysDistinct(EMPTY, {})
  {
  }

  // ----- What a statement does with keys -----

  /** No place gets another key than it had, and no merchant changes its key. */
  ghost predicate Drops(a: Market, b: Market)
  {
    (forall s :: KeyAt(b, s).Some? ==> KeyAt(b, s) == KeyAt(a, s)) && SameKeys(a, b)
  }

  /** One ceremony gets a new key. */
  ghost predicate Adds(a: Market, b: Market, to: Slot, k: Hash)
  {
    !to.OfMerchant? && KeyAt(b, to) == Some(k) &&
    (forall s :: s != to && KeyAt(b, s).Some? ==> KeyAt(b, s) == KeyAt(a, s)) && SameKeys(a, b)
  }

  /** One merchant gets the key of a ceremony, which gives it up. */
  ghost predicate Moves(a: Market, b: Market, from: Slot, m: nat)
  {
    !from.OfMerchant? && KeyAt(a, from).Some? && KeyAt(b, from).None? && KeyAt(b, OfMerchant(m)) == KeyAt(a, from) &&
    (forall s :: s != OfMerchant(m) && KeyAt(b, s).Some? ==> KeyAt(b, s) == KeyAt(a, s)) &&
    (forall n :: n in a.merchants && n != m ==> n in b.merchants && b.merchants[n].keyChanges == a.merchants[n].keyChanges)
  }

  ghost predicate KeyStep(a: Market, b: Market, k: Option<Hash>)
  {
    Drops(a, b) || (exists from, m :: Moves(a, b, from, m)) || (k.Some? && exists to :: Adds(a, b, to, k.value))
  }

  lemma DropsStep(a: Market, b: Market, k: Option<Hash>)
    requires Drops(a, b)
    ensures KeyStep(a, b, k)
  {
  }

  lemma MovesStep(a: Market, b: Market, from: Slot, m: nat, k: Option<Hash>)
    requires Moves(a, b, from, m)
    ensures KeyStep(a, b, k)
  {
  }

  lemma AddsStep(a: Market, b: Market, to: Slot, k: Hash)
    requires Adds(a, b, to, k)
    ensures KeyStep(a, b, Some(k))
  {
  }

  lemma DropsRefl(db: Market)
    ensures Drops(db, db)
  {
  }

  // ----- Registration -----

  lemma CloseExpiredDrops(db: Market)
    ensures Drops(db, db.(signups := CloseExpired(db)))
  {
  }

  lemma StageSignupKeys(db: Market, session: Hash, csrf: Hash, handle: string, secret: Hash, codes: seq<Hash>)
    ensures KeyStep(db, StageSignup(db, session, csrf, handle, secret, codes), Some(secret))
  {
    hide KeyStep, Drops, Adds, Moves, HandleUsed, SignupTaken, CodePending, Eight, CloseExpired;
    var next := StageSignup(db, session, csrf, handle, secret, codes);
    CloseExpiredDrops(db);
    DropsRefl(db);
    if Drops(db, next) {
      DropsStep(db, next, Some(secret));
    } else {
      SignupAdds(db, session, Signup(csrf, db.Now() + CEREMONY, Staged(handle, secret, codes)));
      AddsStep(db, next, OfSignup(session), secret);
    }
  }

  lemma SignupAdds(db: Market, session: Hash, row: Signup)
    requires row.progress.Staged?
    ensures Adds(db, db.(signups := CloseExpired(db)[session := row]), OfSignup(session), row.progress.secret)
  {
  }

  lemma FinishSignupDrops(db: Market, session: Hash, to: Progress)
    requires session in db.signups && !to.Staged?
    ensures Drops(db, FinishSignup(db, session, to))
  {
  }

  lemma JoinedFromSignup(db: Market, session: Hash)
    requires MerchantsOk(db) && session in db.signups && db.signups[session].progress.Staged?
    ensures var p := db.signups[session].progress;
            Moves(db, FinishSignup(Join(db, p.handle, p.secret, p.codes), session, Completed(db.next.merchant)),
                  OfSignup(session), db.next.merchant)
  {
  }

  lemma ConfirmSignupKeys(db: Market, session: Hash, csrf: Hash, secret: Hash)
    requires MerchantsOk(db)
    ensures KeyStep(db, ConfirmSignup(db, session, csrf, secret).0, None)
  {
    hide KeyStep, Drops, Moves, HandleUsed, Collides, Eight, Join, FinishSignup, MerchantsOk;
    var next := ConfirmSignup(db, session, csrf, secret).0;
    DropsRefl(db);
    if EligibleSignup(db, session, csrf, secret) {
      FinishSignupDrops(db, session, Closed);
      JoinedFromSignup(db, session);
      if next != db && next != FinishSignup(db, session, Closed) {
        MovesStep(db, next, OfSignup(session), db.next.merchant, None);
        return;
      }
    }
    DropsStep(db, next, None);
  }

  lemma CancelSignupKeys(db: Market, session: Hash, csrf: Hash)
    ensures KeyStep(db, CancelSignup(db, session, csrf), None)
  {
    hide KeyStep, Drops, FinishSignup;
    DropsRefl(db);
    if ActiveSignup(db, session, csrf) { FinishSignupDrops(db, session, Closed); }
    DropsStep(db, CancelSignup(db, session, csrf), None);
  }

  // ----- Rotation -----

  lemma ClearLapsedDrops(db: Market)
    ensures Drops(db, db.(rotations := ClearLapsed(db)))
    ensures forall s :: s in db.rotations ==>
      Drops(db, db.(rotations := ClearLapsed(db)[s := db.rotations[s].(state := Canceled(db.Now()))]))
  {
  }

  lemma StageRotationKeys(db: Market, session: Hash, csrf: Hash, secret: Hash, replacement: Hash, pick: nat)
    ensures KeyStep(db, StageRotation(db, session, csrf, secret, replacement, pick).0, Some(replacement))
  {
    hide KeyStep, Drops, Adds, RotationTaken, ClearLapsed, Holders;
    var next := StageRotation(db, session, csrf, secret, replacement, pick).0;
    ClearLapsedDrops(db);
    if Stages(db, session, csrf, secret, replacement, pick) {
      StagesFor(db, session, csrf, secret, replacement, pick);
      var row := KeyRotation(pick, db.merchants[pick].generation, csrf, db.Now() + CEREMONY, Pending(secret, replacement));
      RotationAdds(db, session, row);
      AddsStep(db, next, OfRotation(session), replacement);
    } else {
      DropsStep(db, next, Some(replacement));
    }
  }

  lemma StagesFor(db: Market, session: Hash, csrf: Hash, secret: Hash, replacement: Hash, pick: nat)
    requires Stages(db, session, csrf, secret, replacement, pick)
    ensures pick in db.merchants
  {
  }

  lemma RotationAdds(db: Market, session: Hash, row: KeyRotation)
    requires row.state.Pending?
    ensures Adds(db, db.(rotations := ClearLapsed(db)[session := row]), OfRotation(session), row.state.replacement)
  {
  }

  lemma RotateKeyMoves(db: Market, session: Hash, won: set<Hash>)
    requires session in db.rotations && db.rotations[session].state.Pending? && db.rotations[session].merchant in db.merchants
    ensures Moves(db, RotateKey(db, db.rotations[session].merchant, db.rotations[session].state.replacement, session, won),
                  OfRotation(session), db.rotations[session].merchant)
  {
    hide DropPairings, SpendCodes, G.RevokeMerchant;
  }

  lemma ConfirmRotationKeys(db: Market, session: Hash, csrf: Hash, replacement: Hash, won: set<Hash>)
    ensures KeyStep(db, ConfirmRotation(db, session, csrf, replacement, won).0, None)
  {
    hide KeyStep, Drops, Moves, Limited, RotateKey, ClearLapsed;
    var next := ConfirmRotation(db, session, csrf, replacement, won).0;
    ClearLapsedDrops(db);
    if EligibleRotation(db, session, csrf, replacement) && !Limited(db, db.rotations[session].merchant) {
      RotateKeyMoves(db, session, won);
      MovesStep(db, next, OfRotation(session), db.rotations[session].merchant, None);
    } else {
      DropsStep(db, next, None);
    }
  }

  lemma CancelRotationKeys(db: Market, session: Hash, csrf: Hash)
    ensures KeyStep(db, CancelRotation(db, session, csrf), None)
  {
    assert Drops(db, CancelRotation(db, session, csrf));
  }

  // ----- Recovery -----

  lemma RegenerateDrops(db: Market, m: nat, codes: seq<Hash>)
    requires m in db.merchants
    ensures Drops(db, Regenerate(db, m, codes))
  {
  }

  lemma GenerateKeys(db: Market, secret: Hash, codes: seq<Hash>)
    ensures KeyStep(db, Generate(db, secret, codes), None)
  {
    hide KeyStep, Drops, Regenerate, Eight, Collides;
    DropsRefl(db);
    forall m | m in Holders(db, secret) ensures Drops(db, Regenerate(db, m, codes)) { RegenerateDrops(db, m, codes); }
    DropsStep(db, Generate(db, secret, codes), None);
  }

  lemma ClearStaleDrops(db: Market, presented: Hash)
    ensures Drops(db, db.(recovery := ClearStale(db, presented)))
  {
  }

  lemma RecoveryAdds(db: Market, code: Hash, c: Ceremony)
    requires code in db.recovery
    ensures Adds(db, db.(recovery := ClearStale(db, code)[code := db.recovery[code].(ceremony := Some(c))]), OfRecovery(code), c.replacement)
  {
  }

  lemma StageRecoveryKeys(db: Market, session: Hash, csrf: Hash, code: Hash, replacement: Hash, known: bool)
    ensures KeyStep(db, StageRecovery(db, session, csrf, code, replacement, known), Some(replacement))
  {
    hide KeyStep, Drops, Adds, SessionTaken, ClearStale;
    var next := StageRecovery(db, session, csrf, code, replacement, known);
    ClearStaleDrops(db, code);
    DropsRefl(db);
    if Drops(db, next) {
      DropsStep(db, next, Some(replacement));
    } else {
      RecoveryAdds(db, code, Ceremony(session, csrf, replacement, db.Now() + CEREMONY));
      AddsStep(db, next, OfRecovery(code), replacement);
    }
  }

  lemma RecoverMoves(db: Market, code: Hash)
    requires code in db.recovery && db.recovery[code].ceremony.Some? && db.recovery[code].merchant in db.merchants
    ensures Moves(db, Recover(db, code, db.recovery[code].ceremony.value.replacement), OfRecovery(code), db.recovery[code].merchant)
  {
    hide DropPairings, SpendCodes, G.RevokeMerchant;
  }

  lemma ConfirmRecoveryKeys(db: Market, session: Hash, csrf: Hash, replacement: Hash)
    ensures KeyStep(db, ConfirmRecovery(db, session, csrf, replacement).0, None)
  {
    hide KeyStep, Drops, Moves, Recover;
    DropsRefl(db);
    DropsStep(db, db, None);
    forall code | code in EligibleRecoveries(db, session, csrf, replacement)
      ensures KeyStep(db, Recover(db, code, replacement), None)
    {
      RecoverMoves(db, code);
      MovesStep(db, Recover(db, code, replacement), OfRecovery(code), db.recovery[code].merchant, None);
    }
  }

  lemma CancelRecoveryKeys(db: Market, session: Hash, csrf: Hash)
    ensures KeyStep(db, CancelRecovery(db, session, csrf), None)
  {
    assert Drops(db, CancelRecovery(db, session, csrf));
  }

  // ----- Sign-in -----

  /** Merchants and identity ceremonies stay, and a request may only give its key up. */
  lemma RequestsDrop(a: Market, b: Market)
    requires b.merchants == a.merchants && b.signups == a.signups && b.rotations == a.rotations && b.recovery == a.recovery
    requires forall s :: s in b.requests && b.requests[s].progress.Staged? ==> s in a.requests && b.requests[s].progress == a.requests[s].progress
    ensures KeyStep(a, b, None)
  {
    assert Drops(a, b);
  }

  lemma StageNewKeys(db: Market, session: Hash, csrf: Hash, handle: string, secret: Hash, codes: seq<Hash>)
    ensures KeyStep(db, StageNew(db, session, csrf, handle, secret, codes), Some(secret))
  {
    hide KeyStep, Drops, Adds, HandleUsed, Eight, Progressed;
    var next := StageNew(db, session, csrf, handle, secret, codes);
    DropsRefl(db);
    if next == db {
      DropsStep(db, next, Some(secret));
    } else {
      RequestAdds(db, session, Staged(handle, secret, codes));
      AddsStep(db, next, OfRequest(session), secret);
    }
  }

  lemma RequestAdds(db: Market, session: Hash, p: Progress)
    requires session in db.requests && p.Staged?
    ensures Adds(db, Progressed(db, session, p), OfRequest(session), p.secret)
  {
  }

  lemma JoinedFromRequest(db: Market, session: Hash)
    requires MerchantsOk(db) && session in db.requests && db.requests[session].progress.Staged?
    ensures var p := db.requests[session].progress;
            var joined := Join(db, p.handle, p.secret, p.codes);
            session in joined.requests && db.next.merchant in joined.merchants &&
            Moves(db, Issue(joined, session, db.next.merchant), OfRequest(session), db.next.merchant)
  {
    var p := db.requests[session].progress;
    JoinedKeys(db, p.handle, p.secret, p.codes);
    var joined := Join(db, p.handle, p.secret, p.codes);
    hide Join, MerchantsOk;
    var next := Issue(joined, session, db.next.merchant);
    assert next.merchants == joined.merchants && next.recovery == joined.recovery;
  }

  /** A new merchant carries the given key, and no other place changes. */
  lemma JoinedKeys(db: Market, handle: string, secret: Hash, codes: seq<Hash>)
    requires MerchantsOk(db)
    ensures var joined := Join(db, handle, secret, codes);
            db.next.merchant !in db.merchants && KeyAt(joined, OfMerchant(db.next.merchant)) == Some(secret) &&
            joined.signups == db.signups && joined.requests == db.requests && joined.rotations == db.rotations &&
            (forall s :: s != OfMerchant(db.next.merchant) && KeyAt(joined, s).Some? ==> KeyAt(joined, s) == KeyAt(db, s)) &&
            SameKeys(db, joined)
  {
  }

  lemma ConfirmNewKeys(db: Market, session: Hash, csrf: Hash, secret: Hash)
    requires MerchantsOk(db)
    ensures KeyStep(db, ConfirmNew(db, session, csrf, secret).0, None)
  {
    hide KeyStep, Drops, Moves, HandleUsed, Collides, Eight, Join, Progressed, Issue, MerchantsOk;
    var next := ConfirmNew(db, session, csrf, secret).0;
    DropsRefl(db);
    DropsStep(db, db, None);
    if EligibleRequest(db, session, csrf, secret) {
      ProgressedDrops(db, session, Closed);
      JoinedFromRequest(db, session);
      if next != db && next != Progressed(db, session, Closed) {
        MovesStep(db, next, OfRequest(session), db.next.merchant, None);
      }
    }
  }

  lemma ProgressedDrops(db: Market, session: Hash, to: Progress)
    requires session in db.requests && !to.Staged?
    ensures KeyStep(db, Progressed(db, session, to), None)
  {
    RequestsDrop(db, Progressed(db, session, to));
  }

  /** No table that holds keys changes. */
  lemma KeysStill(a: Market, b: Market)
    requires b.merchants == a.merchants && b.signups == a.signups && b.rotations == a.rotations && b.recovery == a.recovery
    requires b.requests == a.requests
    ensures KeyStep(a, b, None)
  {
    assert Drops(a, b);
  }

  lemma CreateRequestKeys(db: Market, session: Hash, csrf: Hash, grant: Grant)
    ensures KeyStep(db, CreateRequest(db, session, csrf, grant), None)
  {
    hide KeyStep, RequestTaken, CloseExpiredRequests;
    var next := CreateRequest(db, session, csrf, grant);
    ClosedRequests(db);
    RequestsDrop(db, next);
  }

  lemma ClosedRequests(db: Market)
    ensures forall s :: s in CloseExpiredRequests(db) && CloseExpiredRequests(db)[s].progress.Staged? ==>
      s in db.requests && CloseExpiredRequests(db)[s].progress == db.requests[s].progress
  {
  }

  lemma CancelRequestKeys(db: Market, session: Hash, csrf: Hash)
    ensures KeyStep(db, CancelRequest(db, session, csrf), None)
  {
    hide KeyStep, Progressed;
    KeysStill(db, db);
    if ActiveRequest(db, session, csrf) { ProgressedDrops(db, session, Closed); }
  }

  lemma ApproveKeys(db: Market, session: Hash, csrf: Hash, secret: Hash)
    ensures KeyStep(db, Approve(db, session, csrf, secret).0, None)
  {
    hide KeyStep;
    RequestsDrop(db, Approve(db, session, csrf, secret).0);
  }

  lemma PruneKeys(db: Market)
    ensures KeyStep(db, PruneAll(db), None)
  {
    hide KeyStep, RetiredRequests, RetiredCodes, G.Prune;
    RequestsDrop(db, PruneAll(db));
  }

  lemma CreatePairingKeys(db: Market, m: nat)
    ensures KeyStep(db, CreatePairing(db, m), None)
  {
    hide KeyStep;
    KeysStill(db, CreatePairing(db, m));
  }

  lemma ReserveKeys(db: Market, session: Hash, csrf: Hash, p: nat)
    ensures KeyStep(db, Reserve(db, session, csrf, p), None)
  {
    hide KeyStep, Reserved;
    KeysStill(db, Reserve(db, session, csrf, p));
  }

  lemma TakeKeys(db: Market, session: Hash, csrf: Hash)
    ensures KeyStep(db, Take(db, session, csrf).0, None)
  {
    hide KeyStep;
    KeysStill(db, Take(db, session, csrf).0);
  }

  lemma SpendPairingKeys(db: Market, p: nat)
    ensures KeyStep(db, SpendPairing(db, p).0, None)
  {
    hide KeyStep, Redeemable;
    KeysStill(db, SpendPairing(db, p).0);
  }

  lemma ExchangeKeys(db: Market, c: nat, client: string, redirect: string, resource: string)
    ensures KeyStep(db, Exchange(db, c, client, redirect, resource).0, None)
  {
    hide KeyStep, Exchangeable, G.OpenFamily;
    KeysStill(db, Exchange(db, c, client, redirect, resource).0);
  }

  lemma TokenKeys(db: Market, g: G.Db)
    ensures KeyStep(db, OnGrants(db, g), None)
  {
    hide KeyStep;
    KeysStill(db, OnGrants(db, g));
  }

  // ----- Any statement -----

  /** The key that a statement brings, made just before it. */
  function NewKey(e: Event): Option<Hash>
  {
    match e
    case OnIdentity(SignupStaged(_, _, _, k, _)) => Some(k)
    case OnIdentity(RotationStaged(_, _, _, k, _)) => Some(k)
    case OnIdentity(RecoveryStaged(_, _, _, k, _)) => Some(k)
    case OnSignIn(NewStaged(_, _, _, k, _)) => Some(k)
    case _ => None
  }

  function Keys(es: seq<Event>): set<Hash>
    decreases |es|
  {
    if es == [] then {} else (if NewKey(es[0]).Some? then {NewKey(es[0]).value} else {}) + Keys(es[1..])
  }

  /** Along a run every new key is one that was never seen before. */
  predicate FreshRun(seen: set<Hash>, es: seq<Event>)
    decreases |es|
  {
    es != [] ==>
      (NewKey(es[0]).Some? ==> NewKey(es[0]).value !in seen) && FreshRun(seen + Keys([es[0]]), es[1..])
  }

  lemma IdentityKeys(db: Market, e: IdentityStep)
    requires MerchantsOk(db)
    ensures KeyStep(db, ApplyIdentity(db, e), NewKey(OnIdentity(e)))
  {
    hide KeyStep, MerchantsOk, StageSignup, ConfirmSignup, CancelSignup, StageRotation, ConfirmRotation, CancelRotation, Generate,
      StageRecovery, ConfirmRecovery, CancelRecovery;
    match e
    case SignupStaged(s, x, handle, k, codes) => StageSignupKeys(db, s, x, handle, k, codes);
    case SignupConfirmed(s, x, k) => ConfirmSignupKeys(db, s, x, k);
    case SignupCanceled(s, x) => CancelSignupKeys(db, s, x);
    case RotationStaged(s, x, k, next, pick) => StageRotationKeys(db, s, x, k, next, pick);
    case RotationConfirmed(s, x, next, won) => ConfirmRotationKeys(db, s, x, next, won);
    case RotationCanceled(s, x) => CancelRotationKeys(db, s, x);
    case CodesGenerated(k, codes) => GenerateKeys(db, k, codes);
    case RecoveryStaged(s, x, code, next, known) => StageRecoveryKeys(db, s, x, code, next, known);
    case RecoveryConfirmed(s, x, next) => ConfirmRecoveryKeys(db, s, x, next);
    case RecoveryCanceled(s, x) => CancelRecoveryKeys(db, s, x);
  }

  lemma SignInKeys(db: Market, e: SignInStep)
    requires MerchantsOk(db)
    ensures KeyStep(db, ApplySignIn(db, e), NewKey(OnSignIn(e)))
  {
    hide KeyStep, MerchantsOk, CreateRequest, CancelRequest, Approve, StageNew, ConfirmNew, Exchange, CreatePairing, Reserve, Take,
      SpendPairing, PruneAll, OnGrants, R.Apply;
    match e
    case RequestCreated(s, x, grant) => CreateRequestKeys(db, s, x, grant);
    case RequestCanceled(s, x) => CancelRequestKeys(db, s, x);
    case MerchantApproved(s, x, k) => ApproveKeys(db, s, x, k);
    case NewStaged(s, x, handle, k, codes) => StageNewKeys(db, s, x, handle, k, codes);
    case NewConfirmed(s, x, k) => ConfirmNewKeys(db, s, x, k);
    case CodeExchanged(c, client, redirect, resource) => ExchangeKeys(db, c, client, redirect, resource);
    case PairingCreated(m) => CreatePairingKeys(db, m);
    case PairingReserved(s, x, p) => ReserveKeys(db, s, x, p);
    case PairingTaken(s, x) => TakeKeys(db, s, x);
    case PairingSpent(p) => SpendPairingKeys(db, p);
    case TokenRefreshed(h, client, resource) => TokenKeys(db, R.Apply(db.grants, R.Refreshed(h, client, resource)));
    case TokenRevoked(h, client) => TokenKeys(db, R.Apply(db.grants, R.Revoked(h, client)));
    case Pruned => PruneKeys(db);
    case Ticked(d) => TokenKeys(db, R.Apply(db.grants, R.Ticked(d)));
  }

  lemma ApplyKeys(db: Market, e: Event)
    requires MerchantsOk(db)
    ensures KeyStep(db, Apply(db, e), NewKey(e))
  {
    hide KeyStep, MerchantsOk, ApplyIdentity, ApplySignIn, NewKey;
    match e
    case OnIdentity(i) => IdentityKeys(db, i);
    case OnSignIn(s) => SignInKeys(db, s);
  }

  // ----- What fresh keys give -----

  lemma StepDistinct(a: Market, b: Market, seen: set<Hash>, k: Option<Hash>)
    requires KeysDistinct(a, seen) && KeyStep(a, b, k) && (k.Some? ==> k.value !in seen)
    ensures KeysDistinct(b, seen + if k.Some? then {k.value} else {})
  {
    hide KeyAt, SameKeys;
  }

  /** `k` is the key of `m` since its `n`-th change, or nobody's. */
  ghost predicate Follows(db: Market, m: nat, k: Hash, n: nat)
  {
    forall s :: KeyAt(db, s) == Some(k) ==> s == OfMerchant(m) && m in db.merchants && db.merchants[m].keyChanges == n
  }

  lemma StepFollows(a: Market, b: Market, added: Option<Hash>, m: nat, k: Hash, n: nat)
    requires Follows(a, m, k, n) && KeyStep(a, b, added) && added != Some(k)
    ensures Follows(b, m, k, n)
  {
    forall s | KeyAt(b, s) == Some(k) ensures s == OfMerchant(m) && m in b.merchants && b.merchants[m].keyChanges == n {
      assert s.OfMerchant? ==> s.m in b.merchants;
      hide KeyAt;
    }
  }

  lemma OneKey(e: Event)
    ensures Keys([e]) == if NewKey(e).Some? then {NewKey(e).value} else {}
  {
    assert [e][1..] == [];
    hide NewKey;
  }

  lemma {:induction false} FreshConcat(seen: set<Hash>, es: seq<Event>, es': seq<Event>)
    requires FreshRun(seen, es + es')
    ensures FreshRun(seen, es) && FreshRun(seen + Keys(es), es')
    decreases |es|
  {
    hide NewKey;
    if es == [] {
      assert es + es' == es' && seen + Keys(es) == seen;
    } else {
      assert (es + es')[0] == es[0] && (es + es')[1..] == es[1..] + es';
      FreshConcat(seen + Keys([es[0]]), es[1..], es');
      OneKey(es[0]);
      assert seen + Keys(es) == seen + Keys([es[0]]) + Keys(es[1..]);
    }
  }

  lemma {:induction false} RunDistinct(db: Market, es: seq<Event>, seen: set<Hash>)
    requires Valid(db) && KeysDistinct(db, seen) && FreshRun(seen, es)
    ensures KeysDistinct(Run(db, es), seen + Keys(es))
    decreases |es|
  {
    hide Valid, KeysDistinct, Apply, NewKey, KeyStep;
    if es == [] {
      assert seen + Keys(es) == seen;
    } else {
      var next := Apply(db, es[0]);
      MerchantsOf(db);
      ApplyValid(db, es[0]);
      ApplyKeys(db, es[0]);
      OneKey(es[0]);
      StepDistinct(db, next, seen, NewKey(es[0]));
      RunDistinct(next, es[1..], seen + Keys([es[0]]));
      assert seen + Keys(es) == seen + Keys([es[0]]) + Keys(es[1..]);
    }
  }

  lemma {:induction false} RunFollows(db: Market, es: seq<Event>, seen: set<Hash>, m: nat, k: Hash, n: nat)
    requires Valid(db) && FreshRun(seen, es) && k in seen && Follows(db, m, k, n)
    ensures Follows(Run(db, es), m, k, n)
    decreases |es|
  {
    hide Valid, Follows, Apply, NewKey, KeyStep;
    if es != [] {
      var next := Apply(db, es[0]);
      MerchantsOf(db);
      ApplyValid(db, es[0]);
      ApplyKeys(db, es[0]);
      StepFollows(db, next, NewKey(es[0]), m, k, n);
      RunFollows(next, es[1..], seen + Keys([es[0]]), m, k, n);
    }
  }

  /** With fresh keys, a key proves at most one merchant in every reachable state. */
  lemma OneHolder(db: Market, es: seq<Event>, seen: set<Hash>, k: Hash)
    requires Valid(db) && KeysDistinct(db, seen) && FreshRun(seen, es)
    ensures |Holders(Run(db, es), k)| <= 1
  {
    RunDistinct(db, es, seen);
    HoldersAtMostOne(Run(db, es), seen + Keys(es), k);
  }

  lemma HoldersAtMostOne(db: Market, seen: set<Hash>, k: Hash)
    requires KeysDistinct(db, seen)
    ensures |Holders(db, k)| <= 1
  {
    var holders := Holders(db, k);
    if holders != {} {
      var m :| m in holders;
      assert forall n :: n in holders ==> KeyAt(db, OfMerchant(n)) == Some(k);
      assert holders == {m};
    }
  }

  /**
    A merchant's key proves that merchant and no other until the merchant changes it, and proves
    nobody ever after.
   */
  lemma KeyProvesUntilChanged(db: Market, es: seq<Event>, seen: set<Hash>, m: nat, k: Hash)
    requires Valid(db) && KeysDistinct(db, seen) && FreshRun(seen, es) && m in Holders(db, k)
    ensures Holders(Run(db, es), k) == if KeyChanged(db, Run(db, es), m) then {} else {m}
  {
    var late := Run(db, es);
    HeldFollows(db, seen, m, k);
    hide KeysDistinct, Follows, Holders;
    RunFollows(db, es, seen, m, k, db.merchants[m].keyChanges);
    RunKeeps(db, es);
    hide Run, Valid, FreshRun, Onward;
    MerchantKept(db, late, m) by { assert m in db.merchants; }
    FollowsHolders(late, m, k, db.merchants[m].keyChanges);
  }

  lemma HeldFollows(db: Market, seen: set<Hash>, m: nat, k: Hash)
    requires KeysDistinct(db, seen) && m in Holders(db, k)
    ensures m in db.merchants && db.merchants[m].secret == k && k in seen && Follows(db, m, k, db.merchants[m].keyChanges)
  {
    assert KeyAt(db, OfMerchant(m)) == Some(k);
  }

  lemma FollowsHolders(db: Market, m: nat, k: Hash, n: nat)
    requires Follows(db, m, k, n) && m in db.merchants && (db.merchants[m].keyChanges == n ==> db.merchants[m].secret == k)
    ensures Holders(db, k) == if db.merchants[m].keyChanges == n then {m} else {}
  {
    assert forall n :: n in Holders(db, k) ==> KeyAt(db, OfMerchant(n)) == Some(k);
  }

  lemma MerchantKept(a: Market, b: Market, m: nat)
    requires Onward(a, b) && m in a.merchants
    ensures m in b.merchants && a.merchants[m].keyChanges <= b.merchants[m].keyChanges
    ensures a.merchants[m].keyChanges == b.merchants[m].keyChanges ==> b.merchants[m].secret == a.merchants[m].secret
  {
    hide RotationsOnward, RecoveryOnward, GrantsOnward;
  }

  /**
    In every run from the empty tables whose keys are fresh: at any moment a key proves at most one
    merchant, and whom it proves then it proves later, until that merchant changes it.
   */
  lemma FreshFromEmpty(es: seq<Event>, more: seq<Event>, m: nat, k: Hash)
    requires FreshRun({}, es + more)
    ensures var (now, late) := (Run(EMPTY, es), Run(EMPTY, es + more));
            |Holders(now, k)| <= 1 && |Holders(late, k)| <= 1 &&
            (m in Holders(now, k) ==> Holders(late, k) == if KeyChanged(now, late, m) then {} else {m})
  {
    EmptyValid();
    EmptyKeys();
    FreshConcat({}, es, more);
    RunKeeps(EMPTY, es);
    RunConcat(EMPTY, es, more);
    hide Valid, KeysDistinct, FreshRun, Run, Onward, KeyChanged, Holders;
    OneHolder(EMPTY, es, {}, k);
    OneHolder(EMPTY, es + more, {}, k);
    RunDistinct(EMPTY, es, {});
    if m in Holders(Run(EMPTY, es), k) { KeyProvesUntilChanged(Run(EMPTY, es), more, {} + Keys(es), m, k); }
  }

  /** So in a run with fresh keys every approval has its one outcome: the holder's, or a refusal. */
  lemma ApprovalAnswers(db: Market, es: seq<Event>, seen: set<Hash>, session: Hash, csrf: Hash, k: Hash)
    requires Valid(db) && KeysDistinct(db, seen) && FreshRun(seen, es)
    ensures var late := Run(db, es);
            var (open, reply) := (OpenRequest(late, session, csrf), Approve(late, session, csrf, k).1);
            |reply.rows| == 1 &&
            (Holders(late, k) == {} ==> reply == Rows([if open then Rejected else Unavailable])) &&
            (forall m :: m in Holders(late, k) ==> reply == Rows([if open then Approved(m) else Unavailable]))
  {
    OneHolder(db, es, seen, k);
    hide Run, Valid, KeysDistinct, FreshRun;
    HolderAnswers(Run(db, es), session, csrf, k);
  }

  lemma HolderAnswers(db: Market, session: Hash, csrf: Hash, k: Hash)
    requires |Holders(db, k)| <= 1
    ensures var (open, reply) := (OpenRequest(db, session, csrf), Approve(db, session, csrf, k).1);
            |reply.rows| == 1 &&
            (Holders(db, k) == {} ==> reply == Rows([if open then Rejected else Unavailable])) &&
            (forall m :: m in Holders(db, k) ==> reply == Rows([if open then Approved(m) else Unavailable]))
  {
    hide Issue;
    var open, rows := OpenRequest(db, session, csrf), Approve(db, session, csrf, k).1.rows;
    if Holders(db, k) == {} {
      assert rows == [if open then Rejected else Unavailable];
    } else {
      forall m | m in Holders(db, k) ensures Approve(db, session, csrf, k).1 == Rows([if open then Approved(m) else Unavailable]) {
        SingletonOf(Holders(db, k), m);
        assert rows == [if open then Approved(m) else Unavailable];
      }
    }
  }

  lemma SingletonOf(s: set<nat>, m: nat)
    requires |s| <= 1 && m in s
    ensures s == {m}
  {
    SubsetSize({m}, s);
    forall n | n in s ensures n == m { if n != m { SubsetSize({m, n}, s); } }
  }

  /** And every generation of recovery codes under a merchant's key replaces that merchant's whole set. */
  lemma GenerationAnswers(db: Market, es: seq<Event>, seen: set<Hash>, k: Hash, hashes: seq<Hash>, m: nat)
    requires Valid(db) && KeysDistinct(db, seen) && FreshRun(seen, es)
    requires m in Holders(Run(db, es), k) && Eight(hashes) && !Collides(Run(db, es), hashes)
    ensures var (late, next) := (Run(db, es), Generate(Run(db, es), k, hashes));
            LiveCodes(next, m) == ToSet(hashes) && m in next.merchants &&
            next.merchants[m].generation == late.merchants[m].generation + 1 && next.merchants[m].secret == k
  {
    OneHolder(db, es, seen, k);
    RunKeeps(db, es);
    hide Run, Valid, KeysDistinct, FreshRun, Generate, LiveCodes, Eight, Collides;
    SingletonOf(Holders(Run(db, es), k), m);
    GeneratedSet(Run(db, es), k, hashes, m);
  }
}
