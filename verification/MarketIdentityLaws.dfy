/** What the identity statements keep, and the one outcome row of each confirmation. */
module MarketIdentityLaws {
  import opened Tables
  import opened Market
  import opened MarketIdentity
  import G = Grants

  // ----- Frames -----

  /** Merchants are kept, perhaps with a new generation, and no key changes. */
  predicate SameKeys(a: Market, b: Market)
  {
    forall m :: m in a.merchants ==>
      m in b.merchants && b.merchants[m].keyChanges == a.merchants[m].keyChanges
  }

  predicate SameGrants(a: Market, b: Market)
  {
    SameKeys(a, b) && b.pairings == a.pairings && b.codes == a.codes && b.requests == a.requests &&
    b.grants == a.grants && b.next.pairing == a.next.pairing && b.next.code == a.next.code && b.next.request == a.next.request
  }

  lemma GrantsFrame(a: Market, b: Market)
    requires GrantsOk(a) && SameGrants(a, b)
    ensures GrantsOk(b)
  {
    hide G.Valid;
    assert PairingsOk(b);
    assert CodesOk(b);
    assert FamiliesOk(b);
    assert RequestsOk(b);
  }

  lemma SignupsFrame(a: Market, b: Market)
    requires SignupsOk(a) && SameKeys(a, b) && b.signups == a.signups
    ensures SignupsOk(b)
  {
  }

  predicate SameIdentity(a: Market, b: Market)
  {
    b.merchants == a.merchants && b.recovery == a.recovery && b.rotations == a.rotations && b.next.merchant == a.next.merchant
  }

  lemma IdentityFrame(a: Market, b: Market)
    requires IdentityOk(a) && SameIdentity(a, b)
    ensures IdentityOk(b)
  {
    assert forall m :: LiveCodes(b, m) == LiveCodes(a, m);
  }

  // ----- Code sets -----

  lemma DropThenAdd(a: Market, b: Market, m: nat, hashes: set<Hash>, generation: nat)
    requires b.recovery == AddCodes(DropCodes(a.recovery, m, a.Now()), hashes, m, generation)
    requires forall h :: h in hashes ==> h !in a.recovery
    ensures LiveCodes(b, m) == hashes
    ensures forall n :: n != m ==> LiveCodes(b, n) == LiveCodes(a, n)
  {
  }

  lemma DropAll(a: Market, b: Market, m: nat)
    requires b.recovery == DropCodes(a.recovery, m, a.Now())
    ensures LiveCodes(b, m) == {}
    ensures forall n :: n != m ==> LiveCodes(b, n) == LiveCodes(a, n)
  {
  }

  lemma AddToNew(a: Market, b: Market, hashes: set<Hash>)
    requires IdentityOk(a)
    requires b.recovery == AddCodes(a.recovery, hashes, a.next.merchant, 1)
    requires forall h :: h in hashes ==> h !in a.recovery
    ensures LiveCodes(b, a.next.merchant) == hashes
    ensures forall n :: n != a.next.merchant ==> LiveCodes(b, n) == LiveCodes(a, n)
  {
    hide SessionsOk, SetsOk, RotationsOk;
    forall n | n != a.next.merchant ensures LiveCodes(b, n) == LiveCodes(a, n) { }
  }

  // ----- A merchant joins -----

  lemma JoinSets(db: Market, handle: string, secret: Hash, codes: seq<Hash>)
    requires IdentityOk(db) && Eight(codes) && !Collides(db, codes)
    ensures SetsOk(Join(db, handle, secret, codes))
  {
    var next := Join(db, handle, secret, codes);
    AddToNew(db, next, ToSet(codes));
  }

  lemma JoinRows(db: Market, handle: string, secret: Hash, codes: seq<Hash>)
    requires IdentityOk(db) && !HandleUsed(db, handle)
    ensures var next := Join(db, handle, secret, codes); MerchantsOk(next) && RotationsOk(next)
  {
    hide RecoveryOk, SessionsOk, SetsOk;
  }

  lemma JoinIdentity(db: Market, handle: string, secret: Hash, codes: seq<Hash>)
    requires IdentityOk(db) && Eight(codes) && !Collides(db, codes) && !HandleUsed(db, handle)
    ensures IdentityOk(Join(db, handle, secret, codes))
  {
    hide SetsOk, RotationsOk, HandleUsed;
    JoinRows(db, handle, secret, codes);
    JoinSets(db, handle, secret, codes);
  }

  // ----- Registration -----

  lemma CloseExpiredOk(db: Market)
    requires SignupsOk(db)
    ensures SignupsOk(db.(signups := CloseExpired(db)))
  {
    hide Eight;
  }

  lemma StageSignupRows(db: Market, session: Hash, csrf: Hash, handle: string, secret: Hash, codes: seq<Hash>)
    requires SignupsOk(db)
    ensures var next := StageSignup(db, session, csrf, handle, secret, codes);
            SignupsOk(next) && next == db.(signups := next.signups)
  {
    hide Eight, CodePending, HandleUsed, SignupTaken, CloseExpired;
    CloseExpiredOk(db);
  }

  lemma StageSignupValid(db: Market, session: Hash, csrf: Hash, handle: string, secret: Hash, codes: seq<Hash>)
    requires Valid(db)
    ensures Valid(StageSignup(db, session, csrf, handle, secret, codes))
  {
    hide IdentityOk, GrantsOk, SignupsOk, StageSignup;
    var next := StageSignup(db, session, csrf, handle, secret, codes);
    StageSignupRows(db, session, csrf, handle, secret, codes);
    IdentityFrame(db, next);
    GrantsFrame(db, next);
  }

  lemma FinishValid(db: Market, session: Hash, to: Progress)
    requires Valid(db) && session in db.signups && to != Open && ProgressOk(db, to)
    ensures Valid(FinishSignup(db, session, to))
  {
    hide IdentityOk, GrantsOk, Eight;
    var next := FinishSignup(db, session, to);
    IdentityFrame(db, next);
    GrantsFrame(db, next);
  }

  lemma CancelSignupValid(db: Market, session: Hash, csrf: Hash)
    requires Valid(db)
    ensures Valid(CancelSignup(db, session, csrf))
  {
    hide Valid, FinishSignup;
    if ActiveSignup(db, session, csrf) { FinishValid(db, session, Closed); }
  }

  lemma JoinValid(db: Market, handle: string, secret: Hash, codes: seq<Hash>)
    requires Valid(db) && Eight(codes) && !Collides(db, codes) && !HandleUsed(db, handle)
    ensures Valid(Join(db, handle, secret, codes))
  {
    hide IdentityOk, GrantsOk, Collides, HandleUsed, Eight, SignupsOk;
    var next := Join(db, handle, secret, codes);
    MerchantSerials(db);
    JoinIdentity(db, handle, secret, codes);
    GrantsFrame(db, next);
    SignupsFrame(db, next);
  }

  lemma ConfirmSignupValid(db: Market, session: Hash, csrf: Hash, secret: Hash)
    requires Valid(db)
    ensures Valid(ConfirmSignup(db, session, csrf, secret).0)
  {
    hide Valid, Join, FinishSignup, HandleUsed, Collides, Eight;
    if EligibleSignup(db, session, csrf, secret) {
      var p := db.signups[session].progress;
      if HandleUsed(db, p.handle) {
        FinishValid(db, session, Closed);
      } else if Eight(p.codes) && !Collides(db, p.codes) {
        JoinValid(db, p.handle, p.secret, p.codes);
        JoinKeeps(db, p.handle, p.secret, p.codes);
        FinishValid(Join(db, p.handle, p.secret, p.codes), session, Completed(db.next.merchant));
      }
    }
  }

  lemma JoinKeeps(db: Market, handle: string, secret: Hash, codes: seq<Hash>)
    ensures var next := Join(db, handle, secret, codes);
            next.signups == db.signups && next.requests == db.requests && db.next.merchant in next.merchants
  {
  }

  lemma MerchantSerials(db: Market)
    requires IdentityOk(db)
    ensures forall m :: m in db.merchants ==> m < db.next.merchant
  {
  }

  /** Registration answers with exactly one row, so "produced no outcome" cannot be reached. */
  lemma ConfirmSignupOneRow(db: Market, session: Hash, csrf: Hash, secret: Hash)
    requires Valid(db)
    ensures var reply := ConfirmSignup(db, session, csrf, secret).1; reply.Rows? ==> |reply.rows| == 1
  {
    hide IdentityOk, GrantsOk, Join, FinishSignup, Collides, HandleUsed;
  }

  // ----- A key change ends what was granted under the old key -----

  lemma ChangeKeyPairings(db: Market, m: nat, secret: Hash, reason: string)
    requires PairingsOk(db) && m in db.merchants
    ensures PairingsOk(ChangeKey(db, m, secret, reason))
  {
    hide G.RevokeMerchant;
  }

  lemma ChangeKeyCodes(db: Market, m: nat, secret: Hash, reason: string)
    requires CodesOk(db) && m in db.merchants
    ensures CodesOk(ChangeKey(db, m, secret, reason))
  {
    hide G.RevokeMerchant;
  }

  lemma ChangeKeyFamilies(db: Market, m: nat, secret: Hash, reason: string)
    requires FamiliesOk(db) && m in db.merchants
    ensures FamiliesOk(ChangeKey(db, m, secret, reason))
  {
  }

  lemma ChangeKeyRequests(db: Market, m: nat, secret: Hash, reason: string)
    requires RequestsOk(db) && m in db.merchants
    ensures RequestsOk(ChangeKey(db, m, secret, reason))
  {
    hide G.RevokeMerchant;
  }

  lemma ChangeKeyGrants(db: Market, m: nat, secret: Hash, reason: string)
    requires GrantsOk(db) && m in db.merchants
    ensures GrantsOk(ChangeKey(db, m, secret, reason))
  {
    hide PairingsOk, CodesOk, FamiliesOk, RequestsOk, G.Valid;
    ChangeKeyPairings(db, m, secret, reason);
    ChangeKeyCodes(db, m, secret, reason);
    ChangeKeyFamilies(db, m, secret, reason);
    ChangeKeyRequests(db, m, secret, reason);
    G.RevokeValid(db.grants, G.FamiliesOf(db.grants, m), reason);
  }

  // ----- Rotation -----

  /** Rotation rows may settle without touching anything else. */
  lemma RotationsOnly(a: Market, b: Market)
    requires Valid(a) && b == a.(rotations := b.rotations) && RotationsOk(b)
    ensures Valid(b)
  {
    hide GrantsOk, SignupsOk, RotationsOk;
    GrantsFrame(a, b);
    SignupsFrame(a, b);
    assert forall m :: LiveCodes(b, m) == LiveCodes(a, m);
  }

  lemma ClearLapsedOk(db: Market)
    requires RotationsOk(db)
    ensures RotationsOk(db.(rotations := ClearLapsed(db)))
  {
  }

  lemma StageRotationRows(db: Market, session: Hash, csrf: Hash, secret: Hash, replacement: Hash, pick: nat)
    requires RotationsOk(db)
    ensures RotationsOk(StageRotation(db, session, csrf, secret, replacement, pick).0)
  {
    hide RotationTaken, ClearLapsed;
    ClearLapsedOk(db);
  }

  lemma StageRotationValid(db: Market, session: Hash, csrf: Hash, secret: Hash, replacement: Hash, pick: nat)
    requires Valid(db)
    ensures Valid(StageRotation(db, session, csrf, secret, replacement, pick).0)
  {
    hide GrantsOk, SignupsOk, MerchantsOk, RotationsOk, RecoveryOk, SessionsOk, SetsOk, RotationTaken, ClearLapsed, Holders;
    StageRotationRows(db, session, csrf, secret, replacement, pick);
    RotationsOnly(db, StageRotation(db, session, csrf, secret, replacement, pick).0);
  }

  lemma CancelRotationValid(db: Market, session: Hash, csrf: Hash)
    requires Valid(db)
    ensures Valid(CancelRotation(db, session, csrf))
  {
    hide GrantsOk, SignupsOk, MerchantsOk, RecoveryOk, SessionsOk, SetsOk;
    RotationsOnly(db, CancelRotation(db, session, csrf));
  }

  /** Staging, confirming and recovering each answer with exactly one row. */
  lemma StageRotationOneRow(db: Market, session: Hash, csrf: Hash, secret: Hash, replacement: Hash, pick: nat)
    ensures |StageRotation(db, session, csrf, secret, replacement, pick).1.rows| == 1
  {
  }

  lemma ConfirmRotationOneRow(db: Market, session: Hash, csrf: Hash, replacement: Hash, won: set<Hash>)
    ensures |ConfirmRotation(db, session, csrf, replacement, won).1.rows| == 1
  {
  }

  /** A pending rotation is never turned away because the key or the generation moved under it. */
  lemma ActiveIsAvailable(db: Market, session: Hash, csrf: Hash)
    requires Valid(db)
    ensures ActiveRotation(db, session, csrf) ==> AvailableRotation(db, session, csrf)
  {
    hide GrantsOk, SignupsOk, MerchantsOk, RecoveryOk, SessionsOk, SetsOk;
  }

  // ----- One merchant's credentials move to a new generation -----

  predicate MerchantMoved(a: Market, b: Market, m: nat)
  {
    m in a.merchants && b.merchants.Keys == a.merchants.Keys && b.next.merchant == a.next.merchant &&
    b.merchants[m].handle == a.merchants[m].handle && b.merchants[m].generation == a.merchants[m].generation + 1 &&
    forall n :: n in a.merchants && n != m ==> b.merchants[n] == a.merchants[n]
  }

  predicate RotationMoved(before: KeyRotation, after: KeyRotation, m: nat)
  {
    after.merchant == before.merchant && after.generation == before.generation &&
    (after.state.Pending? ==> after == before && before.merchant != m)
  }

  predicate RotationsMoved(a: Market, b: Market, m: nat)
  {
    b.rotations.Keys == a.rotations.Keys &&
    forall s :: s in a.rotations ==> RotationMoved(a.rotations[s], b.rotations[s], m)
  }

  predicate CodeMoved(before: RecoveryCode, after: RecoveryCode, m: nat)
  {
    after.merchant == before.merchant && after.generation == before.generation &&
    (if before.merchant == m && Live(before) then !Live(after) && after.ceremony.None? else after == before)
  }

  predicate CodesMoved(a: Market, b: Market, m: nat)
    requires m in a.merchants
  {
    (forall c :: c in a.recovery ==> c in b.recovery && CodeMoved(a.recovery[c], b.recovery[c], m)) &&
    forall c :: c in b.recovery && c !in a.recovery ==>
      b.recovery[c] == RecoveryCode(m, a.merchants[m].generation + 1, None, None, None)
  }

  predicate Moved(a: Market, b: Market, m: nat)
  {
    m in a.merchants && MerchantMoved(a, b, m) && RotationsMoved(a, b, m) && CodesMoved(a, b, m) &&
    (LiveCodes(b, m) == {} || |LiveCodes(b, m)| == CODE_SET)
  }

  lemma MovedMerchants(a: Market, b: Market, m: nat)
    requires MerchantsOk(a) && MerchantMoved(a, b, m)
    ensures MerchantsOk(b)
  {
  }

  lemma MovedRotations(a: Market, b: Market, m: nat)
    requires RotationsOk(a) && MerchantMoved(a, b, m) && RotationsMoved(a, b, m)
    ensures RotationsOk(b)
  {
  }

  lemma MovedRecovery(a: Market, b: Market, m: nat)
    requires RecoveryOk(a) && MerchantMoved(a, b, m) && CodesMoved(a, b, m)
    ensures RecoveryOk(b)
  {
  }

  lemma MovedSessions(a: Market, b: Market, m: nat)
    requires RecoveryOk(a) && SessionsOk(a) && m in a.merchants && CodesMoved(a, b, m)
    ensures SessionsOk(b)
  {
    assert forall c :: c in b.recovery && b.recovery[c].ceremony.Some? ==> c in a.recovery && b.recovery[c] == a.recovery[c];
  }

  lemma MovedSets(a: Market, b: Market, m: nat)
    requires SetsOk(a) && Moved(a, b, m)
    ensures SetsOk(b)
  {
    forall n | n in b.merchants && n != m ensures LiveCodes(b, n) == LiveCodes(a, n) { }
  }

  lemma MovedIdentity(a: Market, b: Market, m: nat)
    requires IdentityOk(a) && Moved(a, b, m)
    ensures IdentityOk(b)
  {
    hide MerchantsOk, RotationsOk, RecoveryOk, SessionsOk, SetsOk, MerchantMoved, RotationsMoved;
    MovedMerchants(a, b, m);
    MovedRotations(a, b, m);
    MovedRecovery(a, b, m);
    MovedSessions(a, b, m);
    MovedSets(a, b, m);
  }

  lemma ChangeKeyValid(db: Market, m: nat, secret: Hash, reason: string, next: Market)
    requires Valid(db) && m in db.merchants && Moved(db, next, m)
    requires next == ChangeKey(db, m, secret, reason).(rotations := next.rotations, recovery := next.recovery)
    ensures Valid(next)
  {
    hide IdentityOk, GrantsOk, Moved, ChangeKey;
    MovedIdentity(db, next, m);
    ChangeKeyGrants(db, m, secret, reason);
    ChangeKeySignups(db, m, secret, reason);
    GrantsFrame(ChangeKey(db, m, secret, reason), next);
  }

  lemma ChangeKeySignups(db: Market, m: nat, secret: Hash, reason: string)
    requires SignupsOk(db) && m in db.merchants
    ensures SignupsOk(ChangeKey(db, m, secret, reason))
  {
    hide G.RevokeMerchant, Eight;
  }

  lemma RotateKeyValid(db: Market, m: nat, secret: Hash, own: Hash, won: set<Hash>)
    requires Valid(db) && m in db.merchants && own in db.rotations && db.rotations[own].merchant == m
    ensures Valid(RotateKey(db, m, secret, own, won))
  {
    hide Valid, G.RevokeMerchant;
    var next := RotateKey(db, m, secret, own, won);
    assert Moved(db, next, m) by { DropAll(db, next, m); }
    hide Moved, SettleRotations, DropCodes, ChangeKey;
    ChangeKeyValid(db, m, secret, "merchant key rotation", next);
  }

  lemma ConfirmRotationValid(db: Market, session: Hash, csrf: Hash, replacement: Hash, won: set<Hash>)
    requires Valid(db)
    ensures Valid(ConfirmRotation(db, session, csrf, replacement, won).0)
  {
    hide Valid, Limited, RotateKey, ClearLapsed;
    LapsedCleared(db, session);
    if EligibleRotation(db, session, csrf, replacement) {
      RotateKeyValid(db, db.rotations[session].merchant, replacement, session, won);
    }
  }

  lemma LapsedCleared(db: Market, session: Hash)
    requires Valid(db)
    ensures Valid(db.(rotations := ClearLapsed(db)))
    ensures session in db.rotations ==>
      Valid(db.(rotations := ClearLapsed(db)[session := db.rotations[session].(state := Canceled(db.Now()))]))
  {
    hide GrantsOk, SignupsOk, MerchantsOk, RecoveryOk, SessionsOk, SetsOk;
    RotationsOnly(db, db.(rotations := ClearLapsed(db)));
    if session in db.rotations {
      RotationsOnly(db, db.(rotations := ClearLapsed(db)[session := db.rotations[session].(state := Canceled(db.Now()))]));
    }
  }

  // ----- Recovery -----

  /** Ceremonies may be opened and dropped without touching anything else. */
  lemma RecoveryOnly(a: Market, b: Market)
    requires Valid(a) && b == a.(recovery := b.recovery) && RecoveryOk(b) && SessionsOk(b)
    requires forall m :: LiveCodes(b, m) == LiveCodes(a, m)
    ensures Valid(b)
  {
    hide G.Valid, RecoveryOk, SessionsOk, LiveCodes;
    GrantsFrame(a, b);
  }

  /** Each row keeps everything but its ceremony. */
  predicate CeremoniesOnly(a: Market, b: Market)
  {
    b == a.(recovery := b.recovery) && b.recovery.Keys == a.recovery.Keys &&
    forall c :: c in a.recovery ==> b.recovery[c] == a.recovery[c].(ceremony := b.recovery[c].ceremony)
  }

  lemma CeremoniesOnlyValid(a: Market, b: Market)
    requires Valid(a) && CeremoniesOnly(a, b) && SessionsOk(b)
    requires forall c :: c in b.recovery && b.recovery[c].ceremony.Some? ==> Live(b.recovery[c])
    ensures Valid(b)
  {
    hide GrantsOk, SignupsOk, MerchantsOk, RotationsOk, SessionsOk, SetsOk;
    forall m ensures LiveCodes(b, m) == LiveCodes(a, m) { }
    RecoveryOnly(a, b);
  }

  lemma ClearStaleValid(db: Market, presented: Hash)
    requires Valid(db)
    ensures Valid(db.(recovery := ClearStale(db, presented)))
  {
    hide GrantsOk, SignupsOk, MerchantsOk, RotationsOk, SetsOk;
    CeremoniesOnlyValid(db, db.(recovery := ClearStale(db, presented)));
  }

  lemma StageRecoverySessions(db: Market, session: Hash, csrf: Hash, code: Hash, replacement: Hash)
    requires SessionsOk(db) && Stageable(db, session, csrf, code) && !SessionTaken(db, session, csrf, code)
    ensures var next := StageRecovery(db, session, csrf, code, replacement, false);
            CeremoniesOnly(db, next) && SessionsOk(next)
  {
    var next := StageRecovery(db, session, csrf, code, replacement, false);
    forall c, d | c in next.recovery && d in next.recovery && SameSession(next.recovery[c], next.recovery[d]) ensures c == d {
      assert c != code ==> next.recovery[c] == db.recovery[c];
      assert d != code ==> next.recovery[d] == db.recovery[d];
    }
  }

  lemma StageRecoveryValid(db: Market, session: Hash, csrf: Hash, code: Hash, replacement: Hash, known: bool)
    requires Valid(db)
    ensures Valid(StageRecovery(db, session, csrf, code, replacement, known))
  {
    hide GrantsOk, SignupsOk, MerchantsOk, RotationsOk, SetsOk, SessionsOk, SessionTaken;
    ClearStaleValid(db, code);
    if Stageable(db, session, csrf, code) && !known && !SessionTaken(db, session, csrf, code) {
      StageRecoverySessions(db, session, csrf, code, replacement);
      CeremoniesOnlyValid(db, StageRecovery(db, session, csrf, code, replacement, known));
    }
  }

  lemma CancelRecoveryValid(db: Market, session: Hash, csrf: Hash)
    requires Valid(db)
    ensures Valid(CancelRecovery(db, session, csrf))
  {
    hide GrantsOk, SignupsOk, MerchantsOk, RotationsOk, SetsOk;
    CeremoniesOnlyValid(db, CancelRecovery(db, session, csrf));
  }

  lemma RegenerateMoves(db: Market, m: nat, codes: seq<Hash>)
    requires m in db.merchants && Eight(codes) && !Collides(db, codes)
    ensures Moved(db, Regenerate(db, m, codes), m)
  {
    var next := Regenerate(db, m, codes);
    DropThenAdd(db, next, m, ToSet(codes), db.merchants[m].generation + 1);
  }

  lemma RegenerateValid(db: Market, m: nat, codes: seq<Hash>)
    requires Valid(db) && m in db.merchants && Eight(codes) && !Collides(db, codes)
    ensures Valid(Regenerate(db, m, codes))
  {
    hide IdentityOk, GrantsOk, SignupsOk, Moved, Collides, Eight;
    var next := Regenerate(db, m, codes);
    RegenerateMoves(db, m, codes);
    MovedIdentity(db, next, m);
    hide DropCodes, AddCodes, DropRotations;
    GrantsFrame(db, next);
    SignupsFrame(db, next);
  }

  lemma GenerateValid(db: Market, secret: Hash, codes: seq<Hash>)
    requires Valid(db)
    ensures Valid(Generate(db, secret, codes))
  {
    hide Valid, Regenerate, Collides, Eight;
    if Eight(codes) && |Holders(db, secret)| == 1 && !Collides(db, codes) {
      forall m | m in Holders(db, secret) ensures Valid(Regenerate(db, m, codes)) {
        RegenerateValid(db, m, codes);
      }
    }
  }

  lemma RecoverValid(db: Market, code: Hash, replacement: Hash)
    requires Valid(db) && code in db.recovery && Live(db.recovery[code]) && db.recovery[code].merchant in db.merchants
    ensures Valid(Recover(db, code, replacement))
  {
    hide Valid, G.RevokeMerchant;
    var next, m := Recover(db, code, replacement), db.recovery[code].merchant;
    assert Moved(db, next, m);
    hide Moved, DropRotations, DropCodes, ChangeKey;
    ChangeKeyValid(db, m, replacement, "merchant key recovery", next);
  }

  lemma ConfirmRecoveryValid(db: Market, session: Hash, csrf: Hash, replacement: Hash)
    requires Valid(db)
    ensures Valid(ConfirmRecovery(db, session, csrf, replacement).0)
  {
    hide Valid, Recover;
    forall code | code in EligibleRecoveries(db, session, csrf, replacement) ensures Valid(Recover(db, code, replacement)) {
      RecoverValid(db, code, replacement);
    }
  }

  lemma ConfirmRecoveryOneRow(db: Market, session: Hash, csrf: Hash, replacement: Hash)
    requires Valid(db)
    ensures |ConfirmRecovery(db, session, csrf, replacement).1.rows| == 1
  {
    hide GrantsOk, SignupsOk, MerchantsOk, RotationsOk, SetsOk, Recover;
    var eligible := EligibleRecoveries(db, session, csrf, replacement);
    if eligible != {} {
      var code :| code in eligible;
      assert forall c :: c in eligible ==> SameSession(db.recovery[c], db.recovery[code]);
      assert eligible == {code};
    }
  }

  /** A staged recovery is never turned away because the generation moved under it. */
  lemma ActiveRecoveryIsAvailable(db: Market, session: Hash, csrf: Hash)
    requires Valid(db)
    ensures ActiveRecoveries(db, session, csrf) == AvailableRecoveries(db, session, csrf)
  {
    hide GrantsOk, SignupsOk, MerchantsOk, RotationsOk, SetsOk, SessionsOk;
  }
}
