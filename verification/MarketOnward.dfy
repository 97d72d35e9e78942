/** What a row can become: how each statement may move the rows that were there before it. */
module MarketOnward {
  import opened Tables
  import opened Market
  import opened MarketIdentity
  import opened MarketSignIn
  import G = Grants
  import R = GrantRuns

  /** A key changes only with `keyChanges`, and then the generation advances as well. */
  predicate MerchantsOnward(a: Market, b: Market)
  {
    forall m :: m in a.merchants ==>
      m in b.merchants &&
      var (x, y) := (a.merchants[m], b.merchants[m]);
      y.handle == x.handle && x.generation <= y.generation && x.keyChanges <= y.keyChanges &&
      (x.keyChanges < y.keyChanges ==> x.generation < y.generation) &&
      (x.keyChanges == y.keyChanges ==> x.secret == y.secret)
  }

  /** A rotation row is never moved to another merchant or generation, and a settled one stays settled. */
  predicate RotationsOnward(a: Market, b: Market)
  {
    forall s :: s in a.rotations ==>
      s in b.rotations &&
      b.rotations[s] == a.rotations[s].(state := b.rotations[s].state) &&
      (b.rotations[s].state.Pending? || !a.rotations[s].state.Pending? ==> b.rotations[s] == a.rotations[s])
  }

  predicate RecoveryOnward(a: Market, b: Market)
  {
    forall c :: c in a.recovery ==>
      c in b.recovery &&
      b.recovery[c].merchant == a.recovery[c].merchant && b.recovery[c].generation == a.recovery[c].generation &&
      (Live(b.recovery[c]) ==> Live(a.recovery[c]))
  }

  predicate CodesOnward(a: Market, b: Market)
  {
    a.next.code <= b.next.code &&
    forall c :: c in b.codes && c < a.next.code ==>
      c in a.codes && b.codes[c] == a.codes[c].(used := b.codes[c].used) &&
      (b.codes[c].used.None? ==> a.codes[c].used.None?)
  }

  predicate PairingsOnward(a: Market, b: Market)
  {
    a.next.pairing <= b.next.pairing &&
    forall p :: p in b.pairings && p < a.next.pairing ==>
      p in a.pairings &&
      b.pairings[p] == a.pairings[p].(used := b.pairings[p].used, invalidated := b.pairings[p].invalidated) &&
      (b.pairings[p].used.None? ==> a.pairings[p].used.None?) &&
      (b.pairings[p].invalidated.None? ==> a.pairings[p].invalidated.None?)
  }

  predicate FamiliesOnward(a: Market, b: Market)
  {
    a.grants.nextFamily <= b.grants.nextFamily &&
    forall f :: f in b.grants.families && f < a.grants.nextFamily ==>
      f in a.grants.families && b.grants.families[f] == a.grants.families[f].(revoked := b.grants.families[f].revoked) &&
      (b.grants.families[f].revoked.None? ==> a.grants.families[f].revoked.None?)
  }

  predicate TokensOnward(a: Market, b: Market)
  {
    a.grants.nextToken <= b.grants.nextToken &&
    forall t :: t in b.grants.tokens && t < a.grants.nextToken ==>
      t in a.grants.tokens && b.grants.tokens[t].family == a.grants.tokens[t].family
  }

  predicate CredentialsOnward(a: Market, b: Market)
  {
    MerchantsOnward(a, b) && RotationsOnward(a, b) && RecoveryOnward(a, b)
  }

  predicate GrantsOnward(a: Market, b: Market)
  {
    a.Now() <= b.Now() && CodesOnward(a, b) && PairingsOnward(a, b) && FamiliesOnward(a, b) && TokensOnward(a, b)
  }

  predicate Onward(a: Market, b: Market) { CredentialsOnward(a, b) && GrantsOnward(a, b) }

  lemma OnwardRefl(a: Market)
    ensures Onward(a, a)
  {
  }

  lemma CredentialsTrans(a: Market, b: Market, c: Market)
    requires CredentialsOnward(a, b) && CredentialsOnward(b, c)
    ensures CredentialsOnward(a, c)
  {
  }

  lemma GrantsTrans(a: Market, b: Market, c: Market)
    requires GrantsOnward(a, b) && GrantsOnward(b, c)
    ensures GrantsOnward(a, c)
  {
  }

  lemma OnwardTrans(a: Market, b: Market, c: Market)
    requires Onward(a, b) && Onward(b, c)
    ensures Onward(a, c)
  {
    hide CredentialsOnward, GrantsOnward;
    CredentialsTrans(a, b, c);
    GrantsTrans(a, b, c);
  }

  // ----- Frames -----

  lemma CredentialsStill(a: Market, b: Market)
    requires b.merchants == a.merchants && b.rotations == a.rotations && b.recovery == a.recovery
    ensures CredentialsOnward(a, b)
  {
  }

  lemma GrantsStill(a: Market, b: Market)
    requires b.codes == a.codes && b.pairings == a.pairings && b.grants == a.grants
    requires b.next.code == a.next.code && b.next.pairing == a.next.pairing
    ensures GrantsOnward(a, b)
  {
  }

  lemma Still(a: Market, b: Market)
    requires b.merchants == a.merchants && b.rotations == a.rotations && b.recovery == a.recovery
    requires b.codes == a.codes && b.pairings == a.pairings && b.grants == a.grants
    requires b.next.code == a.next.code && b.next.pairing == a.next.pairing
    ensures Onward(a, b)
  {
    hide CredentialsOnward, GrantsOnward;
    CredentialsStill(a, b);
    GrantsStill(a, b);
  }

  lemma CredentialsMove(a: Market, b: Market)
    requires b.codes == a.codes && b.pairings == a.pairings && b.grants == a.grants
    requires b.next.code == a.next.code && b.next.pairing == a.next.pairing && CredentialsOnward(a, b)
    ensures Onward(a, b)
  {
    hide CredentialsOnward, GrantsOnward;
    GrantsStill(a, b);
  }

  lemma GrantsMove(a: Market, b: Market)
    requires b.merchants == a.merchants && b.rotations == a.rotations && b.recovery == a.recovery && GrantsOnward(a, b)
    ensures Onward(a, b)
  {
    hide CredentialsOnward, GrantsOnward;
    CredentialsStill(a, b);
  }

  // ----- Registration -----

  lemma StageSignupOnward(db: Market, session: Hash, csrf: Hash, handle: string, secret: Hash, codes: seq<Hash>)
    ensures Onward(db, StageSignup(db, session, csrf, handle, secret, codes))
  {
    hide Onward, SignupsStaged;
    Still(db, StageSignup(db, session, csrf, handle, secret, codes));
  }

  lemma CancelSignupOnward(db: Market, session: Hash, csrf: Hash)
    ensures Onward(db, CancelSignup(db, session, csrf))
  {
    hide Onward, FinishSignup;
    OnwardRefl(db);
    if ActiveSignup(db, session, csrf) { FinishOnward(db, session, Closed); }
  }

  lemma JoinOnward(db: Market, handle: string, secret: Hash, codes: seq<Hash>)
    requires MerchantsOk(db) && !Collides(db, codes)
    ensures Onward(db, Join(db, handle, secret, codes))
  {
    var next := Join(db, handle, secret, codes);
    GrantsStill(db, next);
    assert forall c :: c in db.recovery ==> next.recovery[c] == db.recovery[c];
  }

  lemma FinishOnward(db: Market, session: Hash, to: Progress)
    requires session in db.signups
    ensures Onward(db, FinishSignup(db, session, to))
  {
    hide Onward;
    Still(db, FinishSignup(db, session, to));
  }

  lemma ConfirmSignupOnward(db: Market, session: Hash, csrf: Hash, secret: Hash)
    requires MerchantsOk(db)
    ensures Onward(db, ConfirmSignup(db, session, csrf, secret).0)
  {
    hide MerchantsOk, Onward, Collides, HandleUsed, Eight, FinishSignup;
    OnwardRefl(db);
    if EligibleSignup(db, session, csrf, secret) {
      var p := db.signups[session].progress;
      FinishOnward(db, session, Closed);
      if !HandleUsed(db, p.handle) && !Collides(db, p.codes) {
        var joined := Join(db, p.handle, p.secret, p.codes);
        JoinOnward(db, p.handle, p.secret, p.codes);
        FinishOnward(joined, session, Completed(db.next.merchant));
        OnwardTrans(db, joined, FinishSignup(joined, session, Completed(db.next.merchant)));
      }
    }
  }

  // ----- Key changes -----

  lemma ChangeKeyOnward(db: Market, m: nat, secret: Hash, reason: string)
    requires m in db.merchants
    ensures GrantsOnward(db, ChangeKey(db, m, secret, reason)) && MerchantsOnward(db, ChangeKey(db, m, secret, reason))
  {
  }

  lemma DropCodesOnward(a: Market, b: Market, m: nat)
    requires b.recovery == DropCodes(a.recovery, m, a.Now())
    ensures RecoveryOnward(a, b)
  {
  }

  /** A key change whose ceremonies settle as they may. */
  lemma KeyChangeOnward(db: Market, m: nat, secret: Hash, reason: string, next: Market)
    requires m in db.merchants && RotationsOnward(db, next) && RecoveryOnward(db, next)
    requires next == ChangeKey(db, m, secret, reason).(rotations := next.rotations, recovery := next.recovery)
    ensures Onward(db, next)
  {
    hide RotationsOnward, RecoveryOnward, CodesOnward, PairingsOnward, FamiliesOnward, TokensOnward, MerchantsOnward;
    ChangeKeyOnward(db, m, secret, reason);
    var changed := ChangeKey(db, m, secret, reason);
    hide ChangeKey;
    SameGrantRows(db, changed, next);
  }

  lemma SameGrantRows(a: Market, b: Market, c: Market)
    requires GrantsOnward(a, b) && MerchantsOnward(a, b)
    requires c.codes == b.codes && c.pairings == b.pairings && c.grants == b.grants && c.next == b.next && c.merchants == b.merchants
    ensures GrantsOnward(a, c) && MerchantsOnward(a, c)
  {
  }

  lemma SettleOnward(a: Market, b: Market, m: nat, own: Hash, won: set<Hash>)
    requires own in a.rotations && a.rotations[own].state.Pending? && b.rotations == SettleRotations(a, m, own, won)
    ensures RotationsOnward(a, b)
  {
  }

  lemma DropRotationsOnward(a: Market, b: Market, m: nat)
    requires b.rotations == DropRotations(a.rotations, m, a.Now())
    ensures RotationsOnward(a, b)
  {
  }

  lemma RotateKeyOnward(db: Market, m: nat, secret: Hash, own: Hash, won: set<Hash>)
    requires m in db.merchants && own in db.rotations && db.rotations[own].state.Pending?
    ensures Onward(db, RotateKey(db, m, secret, own, won))
  {
    hide Onward, RotationsOnward, RecoveryOnward, SettleRotations, DropCodes, ChangeKey;
    var next := RotateKey(db, m, secret, own, won);
    SettleOnward(db, next, m, own, won);
    DropCodesOnward(db, next, m);
    KeyChangeOnward(db, m, secret, "merchant key rotation", next);
  }

  lemma ClearLapsedOnward(db: Market, session: Hash)
    ensures Onward(db, db.(rotations := ClearLapsed(db)))
    ensures session in db.rotations && db.rotations[session].state.Pending? ==>
      Onward(db, db.(rotations := ClearLapsed(db)[session := db.rotations[session].(state := Canceled(db.Now()))]))
  {
    hide Onward;
    var cleared := db.(rotations := ClearLapsed(db));
    assert RotationsOnward(db, cleared);
    CredentialsMove(db, cleared);
    if session in db.rotations && db.rotations[session].state.Pending? {
      var canceled := cleared.(rotations := cleared.rotations[session := db.rotations[session].(state := Canceled(db.Now()))]);
      assert RotationsOnward(db, canceled);
      CredentialsMove(db, canceled);
    }
  }

  lemma NotTaken(db: Market, session: Hash, csrf: Hash)
    ensures !RotationTaken(db, session, csrf) ==> session !in db.rotations
  {
  }

  lemma StageRotationOnward(db: Market, session: Hash, csrf: Hash, secret: Hash, replacement: Hash, pick: nat)
    ensures Onward(db, StageRotation(db, session, csrf, secret, replacement, pick).0)
  {
    hide Onward, RotationTaken, Holders;
    NotTaken(db, session, csrf);
    var next := db.(rotations := RotationsStaged(db, session, csrf, secret, replacement, pick));
    assert forall s :: s in db.rotations ==> s in next.rotations && next.rotations[s] == ClearLapsed(db)[s];
    hide RotationsStaged;
    RotationsMove(db, next);
  }

  lemma RotationsMove(a: Market, b: Market)
    requires b == a.(rotations := b.rotations) && RotationsOnward(a, b)
    ensures Onward(a, b)
  {
    hide Onward, RotationsOnward;
    assert MerchantsOnward(a, b) && RecoveryOnward(a, b);
    CredentialsMove(a, b);
  }

  lemma ConfirmRotationOnward(db: Market, session: Hash, csrf: Hash, replacement: Hash, won: set<Hash>)
    ensures Onward(db, ConfirmRotation(db, session, csrf, replacement, won).0)
  {
    hide Onward, Limited, ClearLapsed, RotateKey;
    ClearLapsedOnward(db, session);
    if EligibleRotation(db, session, csrf, replacement) {
      RotateKeyOnward(db, db.rotations[session].merchant, replacement, session, won);
    }
  }

  lemma CancelRotationOnward(db: Market, session: Hash, csrf: Hash)
    ensures Onward(db, CancelRotation(db, session, csrf))
  {
    hide Onward;
    var next := CancelRotation(db, session, csrf);
    assert RotationsOnward(db, next);
    CredentialsMove(db, next);
  }

  // ----- Recovery -----

  lemma RegenerateOnward(db: Market, m: nat, codes: seq<Hash>)
    requires m in db.merchants && !Collides(db, codes)
    ensures Onward(db, Regenerate(db, m, codes))
  {
    hide Onward;
    var next := Regenerate(db, m, codes);
    assert RotationsOnward(db, next);
    CredentialsMove(db, next);
  }

  lemma GenerateOnward(db: Market, secret: Hash, codes: seq<Hash>)
    ensures Onward(db, Generate(db, secret, codes))
  {
    hide Onward, Regenerate, Collides, Eight;
    OnwardRefl(db);
    if !Collides(db, codes) {
      forall m | m in Holders(db, secret) ensures Onward(db, Regenerate(db, m, codes)) { RegenerateOnward(db, m, codes); }
    }
  }

  lemma UsedCodeOnward(a: Market, b: Market, code: Hash, m: nat)
    requires code in a.recovery
    requires b.recovery == DropCodes(a.recovery[code := a.recovery[code].(used := Some(a.Now()), ceremony := None)], m, a.Now())
    ensures RecoveryOnward(a, b)
  {
  }

  lemma RecoverOnward(db: Market, code: Hash, replacement: Hash)
    requires code in db.recovery && db.recovery[code].merchant in db.merchants
    ensures Onward(db, Recover(db, code, replacement))
  {
    hide Onward, RotationsOnward, RecoveryOnward, DropRotations, DropCodes, ChangeKey;
    var next, m := Recover(db, code, replacement), db.recovery[code].merchant;
    DropRotationsOnward(db, next, m);
    UsedCodeOnward(db, next, code, m);
    KeyChangeOnward(db, m, replacement, "merchant key recovery", next);
  }

  lemma ConfirmRecoveryOnward(db: Market, session: Hash, csrf: Hash, replacement: Hash)
    ensures Onward(db, ConfirmRecovery(db, session, csrf, replacement).0)
  {
    hide Onward, Recover;
    OnwardRefl(db);
    forall code | code in EligibleRecoveries(db, session, csrf, replacement)
      ensures Onward(db, Recover(db, code, replacement))
    {
      RecoverOnward(db, code, replacement);
    }
  }

  /** Each row keeps everything but its ceremony. */
  lemma CeremoniesMove(a: Market, b: Market)
    requires b == a.(recovery := b.recovery) && b.recovery.Keys == a.recovery.Keys
    requires forall c :: c in a.recovery ==> b.recovery[c] == a.recovery[c].(ceremony := b.recovery[c].ceremony)
    ensures Onward(a, b)
  {
    hide Onward;
    assert MerchantsOnward(a, b) && RecoveryOnward(a, b) && RotationsOnward(a, b);
    CredentialsMove(a, b);
  }

  lemma StageRecoveryOnward(db: Market, session: Hash, csrf: Hash, code: Hash, replacement: Hash, known: bool)
    ensures Onward(db, StageRecovery(db, session, csrf, code, replacement, known))
  {
    hide Onward, SessionTaken;
    var rows := CodesStaged(db, session, csrf, code, replacement, known);
    assert rows.Keys == db.recovery.Keys &&
           forall c :: c in db.recovery ==> rows[c] == db.recovery[c].(ceremony := rows[c].ceremony);
    hide CodesStaged;
    CeremoniesMove(db, StageRecovery(db, session, csrf, code, replacement, known));
  }

  lemma CancelRecoveryOnward(db: Market, session: Hash, csrf: Hash)
    ensures Onward(db, CancelRecovery(db, session, csrf))
  {
    hide Onward;
    CeremoniesMove(db, CancelRecovery(db, session, csrf));
  }

  // ----- Sign-in -----

  lemma CreateRequestTouches(db: Market, session: Hash, csrf: Hash, grant: Grant)
    ensures var next := CreateRequest(db, session, csrf, grant);
            next == db.(requests := next.requests, next := db.next.(request := next.next.request))
  {
    hide RequestTaken, CloseExpiredRequests;
  }

  lemma CreateRequestOnward(db: Market, session: Hash, csrf: Hash, grant: Grant)
    ensures Onward(db, CreateRequest(db, session, csrf, grant))
  {
    hide Onward, CreateRequest;
    CreateRequestTouches(db, session, csrf, grant);
    Still(db, CreateRequest(db, session, csrf, grant));
  }

  lemma ProgressOnward(db: Market, session: Hash, csrf: Hash, handle: string, secret: Hash, codes: seq<Hash>)
    ensures Onward(db, CancelRequest(db, session, csrf)) && Onward(db, StageNew(db, session, csrf, handle, secret, codes))
  {
    hide Onward, Progressed, HandleUsed, Eight;
    OnwardRefl(db);
    if ActiveRequest(db, session, csrf) {
      ProgressedOnward(db, session, Closed);
      ProgressedOnward(db, session, Staged(handle, secret, codes));
    }
  }

  lemma IssueOnward(db: Market, session: Hash, m: nat)
    requires session in db.requests && m in db.merchants
    ensures Onward(db, Issue(db, session, m))
  {
    hide Onward;
    assert GrantsOnward(db, Issue(db, session, m));
    GrantsMove(db, Issue(db, session, m));
  }

  lemma ApproveOnward(db: Market, session: Hash, csrf: Hash, secret: Hash)
    ensures Onward(db, Approve(db, session, csrf, secret).0)
  {
    hide Onward, Issue;
    OnwardRefl(db);
    if OpenRequest(db, session, csrf) {
      forall m | m in Holders(db, secret) ensures Onward(db, Issue(db, session, m)) { IssueOnward(db, session, m); }
    }
  }

  lemma ProgressedOnward(db: Market, session: Hash, to: Progress)
    requires session in db.requests
    ensures Onward(db, Progressed(db, session, to))
  {
    hide Onward;
    Still(db, Progressed(db, session, to));
  }

  lemma ConfirmNewOnward(db: Market, session: Hash, csrf: Hash, secret: Hash)
    requires MerchantsOk(db)
    ensures Onward(db, ConfirmNew(db, session, csrf, secret).0)
  {
    hide MerchantsOk, Onward, Collides, HandleUsed, Eight, Progressed, Issue;
    OnwardRefl(db);
    if EligibleRequest(db, session, csrf, secret) {
      var p := db.requests[session].progress;
      ProgressedOnward(db, session, Closed);
      if !HandleUsed(db, p.handle) && !Collides(db, p.codes) {
        var joined := Join(db, p.handle, p.secret, p.codes);
        JoinOnward(db, p.handle, p.secret, p.codes);
        IssueOnward(joined, session, db.next.merchant);
        OnwardTrans(db, joined, Issue(joined, session, db.next.merchant));
      }
    }
  }

  lemma ExchangeOnward(db: Market, c: nat, client: string, redirect: string, resource: string)
    ensures Onward(db, Exchange(db, c, client, redirect, resource).0)
  {
    hide Onward;
    var next := Exchange(db, c, client, redirect, resource).0;
    assert GrantsOnward(db, next);
    GrantsMove(db, next);
  }

  lemma CreatePairingOnward(db: Market, m: nat)
    ensures Onward(db, CreatePairing(db, m))
  {
    hide Onward;
    assert GrantsOnward(db, CreatePairing(db, m));
    GrantsMove(db, CreatePairing(db, m));
  }

  lemma ReserveOnward(db: Market, session: Hash, csrf: Hash, p: nat)
    ensures Onward(db, Reserve(db, session, csrf, p)) && Onward(db, Take(db, session, csrf).0)
  {
    hide Onward, Reserved;
    Still(db, Reserve(db, session, csrf, p));
    Still(db, Take(db, session, csrf).0);
  }

  lemma SpendPairingOnward(db: Market, p: nat)
    ensures Onward(db, SpendPairing(db, p).0)
  {
    hide Onward;
    assert GrantsOnward(db, SpendPairing(db, p).0);
    GrantsMove(db, SpendPairing(db, p).0);
  }

  // ----- Tokens and retention -----

  lemma RevokeRowsOnward(db: Market, gone: set<nat>, reason: string)
    ensures Onward(db, OnGrants(db, G.Revoke(db.grants, gone, reason)))
  {
    hide Onward;
    var next := OnGrants(db, G.Revoke(db.grants, gone, reason));
    assert GrantsOnward(db, next);
    GrantsMove(db, next);
  }

  lemma RotationOnward(db: Market, h: nat)
    requires G.Joined(db.grants, h)
    ensures Onward(db, OnGrants(db, G.Rotation(db.grants, h)))
  {
    hide Onward;
    var next := OnGrants(db, G.Rotation(db.grants, h));
    assert GrantsOnward(db, next);
    GrantsMove(db, next);
  }

  lemma TokensMoveOnward(db: Market, h: nat, client: string, resource: string)
    ensures Onward(db, OnGrants(db, R.Apply(db.grants, R.Refreshed(h, client, resource))))
    ensures Onward(db, OnGrants(db, R.Apply(db.grants, R.Revoked(h, client))))
  {
    hide Onward, G.Revoke, G.Rotation;
    OnwardRefl(db);
    if G.Joined(db.grants, h) {
      RotationOnward(db, h);
      RevokeRowsOnward(db, {db.grants.tokens[h].family}, "refresh token reuse");
      RevokeRowsOnward(db, {db.grants.tokens[h].family}, "client revocation");
    }
  }

  lemma TickOnward(db: Market, d: nat)
    ensures Onward(db, OnGrants(db, R.Apply(db.grants, R.Ticked(d))))
  {
    hide Onward;
    var next := OnGrants(db, R.Apply(db.grants, R.Ticked(d)));
    assert GrantsOnward(db, next);
    GrantsMove(db, next);
  }

  lemma PruneOnward(db: Market)
    ensures Onward(db, PruneAll(db))
  {
    hide Onward, RetiredCodes, RetiredRequests, G.RetiredTokens, G.RetiredFamilies;
    assert GrantsOnward(db, PruneAll(db));
    GrantsMove(db, PruneAll(db));
  }
}
