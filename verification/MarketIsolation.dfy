/** What a statement that acts for one merchant does to the rows of every other merchant: nothing. */
module MarketIsolation {
  import opened Tables
  import opened Market
  import opened MarketIdentity
  import opened MarketSignIn
  import opened MarketSignInLaws
  import opened MarketRuns
  import opened MarketLiveness
  import G = Grants
  import R = GrantRuns

  // ----- The rows of one merchant -----

  predicate MerchantKept(a: map<nat, Merchant>, b: map<nat, Merchant>, n: nat)
  {
    (n in a <==> n in b) && (n in a ==> b[n] == a[n])
  }

  /** A ceremony that ran out may be cleared from its code. */
  predicate SameCode(x: RecoveryCode, y: RecoveryCode, now: nat)
  {
    y == x || (x.ceremony.Some? && x.ceremony.value.expires <= now && y == x.(ceremony := None))
  }

  predicate RecoveryKept(a: map<Hash, RecoveryCode>, b: map<Hash, RecoveryCode>, now: nat, n: nat)
  {
    (forall c :: c in a && a[c].merchant == n ==> c in b && SameCode(a[c], b[c], now)) &&
    forall c :: c in b && b[c].merchant == n ==> c in a && a[c].merchant == n
  }

  /** A staged rotation that ran out may be canceled. */
  predicate SameRotation(x: KeyRotation, y: KeyRotation, now: nat)
  {
    y == x || (x.state.Pending? && x.expires <= now && y == x.(state := Canceled(now)))
  }

  predicate RotationsKept(a: map<Hash, KeyRotation>, b: map<Hash, KeyRotation>, now: nat, n: nat)
  {
    (forall s :: s in a && a[s].merchant == n ==> s in b && SameRotation(a[s], b[s], now)) &&
    forall s :: s in b && b[s].merchant == n ==> s in a && a[s].merchant == n
  }

  /** An expired pairing code may go. */
  predicate PairingsKept(a: map<nat, Pairing>, b: map<nat, Pairing>, now: nat, n: nat)
  {
    (forall p :: p in a && a[p].merchant == n ==> if p in b then b[p] == a[p] else a[p].expires <= now) &&
    forall p :: p in b && b[p].merchant == n ==> p in a && a[p].merchant == n
  }

  predicate LongGone(expires: nat, now: nat) { expires + 30 * 24 * 60 * MINUTE <= now }

  /** An authorization code may go thirty days after it expired. */
  predicate CodesKept(a: map<nat, AuthCode>, b: map<nat, AuthCode>, now: nat, n: nat)
  {
    (forall c :: c in a && a[c].merchant == n ==> if c in b then b[c] == a[c] else LongGone(a[c].expires, now)) &&
    forall c :: c in b && b[c].merchant == n ==> c in a && a[c].merchant == n
  }

  /** The token is the merchant's, through its family. */
  predicate TokenOf(g: G.Db, t: nat, n: nat)
  {
    t in g.tokens && g.tokens[t].family in g.families && g.families[g.tokens[t].family].merchant == n
  }

  /** A family and its tokens may go thirty days after it expired. */
  ghost predicate GrantsKept(a: G.Db, b: G.Db, n: nat)
  {
    b.now == a.now &&
    (forall f :: f in a.families && a.families[f].merchant == n ==>
       if f in b.families then b.families[f] == a.families[f] else LongGone(a.families[f].expires, a.now)) &&
    (forall f :: f in b.families && b.families[f].merchant == n ==> f in a.families && a.families[f].merchant == n) &&
    (forall t :: TokenOf(a, t, n) ==>
       if t in b.tokens then b.tokens[t] == a.tokens[t] && TokenOf(b, t, n)
       else LongGone(a.families[a.tokens[t].family].expires, a.now)) &&
    forall t :: TokenOf(b, t, n) ==> TokenOf(a, t, n)
  }

  /** All that merchant `n` holds is as it was, but for what had run out by then. */
  ghost predicate Kept(a: Market, b: Market, n: nat)
  {
    MerchantKept(a.merchants, b.merchants, n) && RecoveryKept(a.recovery, b.recovery, a.Now(), n) &&
    RotationsKept(a.rotations, b.rotations, a.Now(), n) && PairingsKept(a.pairings, b.pairings, a.Now(), n) &&
    CodesKept(a.codes, b.codes, a.Now(), n) && GrantsKept(a.grants, b.grants, n)
  }

  lemma RecoverySame(a: map<Hash, RecoveryCode>, now: nat, n: nat)
    ensures RecoveryKept(a, a, now, n)
  {
  }

  lemma GrantsSame(a: G.Db, n: nat)
    ensures GrantsKept(a, a, n)
  {
  }

  lemma RotationsSame(a: map<Hash, KeyRotation>, now: nat, n: nat)
    ensures RotationsKept(a, a, now, n)
  {
  }

  lemma CodesSame(a: Market, n: nat)
    ensures PairingsKept(a.pairings, a.pairings, a.Now(), n) && CodesKept(a.codes, a.codes, a.Now(), n)
  {
  }

  lemma AllSame(a: Market, n: nat)
    ensures Kept(a, a, n)
  {
    hide RecoveryKept, RotationsKept, PairingsKept, CodesKept, GrantsKept;
    RecoverySame(a.recovery, a.Now(), n);
    RotationsSame(a.rotations, a.Now(), n);
    CodesSame(a, n);
    GrantsSame(a.grants, n);
  }

  // ----- A key change -----

  lemma RevokeMerchantKeeps(g: G.Db, m: nat, reason: string, n: nat)
    requires n != m
    ensures GrantsKept(g, G.RevokeMerchant(g, m, reason), n)
  {
  }

  lemma DropPairingsKeeps(pairings: map<nat, Pairing>, m: nat, now: nat, n: nat)
    requires n != m
    ensures PairingsKept(pairings, DropPairings(pairings, m, now), now, n)
  {
  }

  lemma SpendCodesKeeps(codes: map<nat, AuthCode>, m: nat, now: nat, n: nat)
    requires n != m
    ensures CodesKept(codes, SpendCodes(codes, m, now), now, n)
  {
  }

  lemma DropCodesKeeps(recovery: map<Hash, RecoveryCode>, m: nat, now: nat, n: nat)
    requires n != m
    ensures RecoveryKept(recovery, DropCodes(recovery, m, now), now, n)
  {
  }

  lemma SettleKeeps(db: Market, m: nat, own: Hash, won: set<Hash>, n: nat)
    requires n != m && own in db.rotations && db.rotations[own].merchant == m
    ensures RotationsKept(db.rotations, SettleRotations(db, m, own, won), db.Now(), n)
  {
  }

  lemma DropRotationsKeeps(rotations: map<Hash, KeyRotation>, m: nat, now: nat, n: nat)
    requires n != m
    ensures RotationsKept(rotations, DropRotations(rotations, m, now), now, n)
  {
  }

  lemma ChangeKeyKeeps(db: Market, m: nat, secret: Hash, reason: string, n: nat)
    requires m in db.merchants && n != m
    ensures var next := ChangeKey(db, m, secret, reason);
            MerchantKept(db.merchants, next.merchants, n) && PairingsKept(db.pairings, next.pairings, db.Now(), n) &&
            CodesKept(db.codes, next.codes, db.Now(), n) && GrantsKept(db.grants, next.grants, n)
  {
    hide G.RevokeMerchant, DropPairings, SpendCodes, PairingsKept, CodesKept, GrantsKept;
    RevokeMerchantKeeps(db.grants, m, reason, n);
    DropPairingsKeeps(db.pairings, m, db.Now(), n);
    SpendCodesKeeps(db.codes, m, db.Now(), n);
  }

  lemma RotateKeyKeeps(db: Market, m: nat, secret: Hash, own: Hash, won: set<Hash>, n: nat)
    requires m in db.merchants && n != m && own in db.rotations && db.rotations[own].merchant == m
    ensures Kept(db, RotateKey(db, m, secret, own, won), n)
  {
    hide ChangeKey, DropCodes, SettleRotations, MerchantKept, RecoveryKept, RotationsKept, PairingsKept, CodesKept, GrantsKept;
    ChangeKeyKeeps(db, m, secret, "merchant key rotation", n);
    SettleKeeps(db, m, own, won, n);
    DropCodesKeeps(db.recovery, m, db.Now(), n);
  }

  lemma UsedKeeps(recovery: map<Hash, RecoveryCode>, code: Hash, row: RecoveryCode, now: nat, n: nat)
    requires code in recovery && recovery[code].merchant == row.merchant != n
    ensures RecoveryKept(recovery, DropCodes(recovery[code := row], row.merchant, now), now, n)
  {
  }

  lemma RecoverKeeps(db: Market, code: Hash, replacement: Hash, n: nat)
    requires code in db.recovery && db.recovery[code].merchant in db.merchants && n != db.recovery[code].merchant
    ensures Kept(db, Recover(db, code, replacement), n)
  {
    hide ChangeKey, DropCodes, DropRotations, MerchantKept, RecoveryKept, RotationsKept, PairingsKept, CodesKept, GrantsKept;
    var m := db.recovery[code].merchant;
    ChangeKeyKeeps(db, m, replacement, "merchant key recovery", n);
    UsedKeeps(db.recovery, code, db.recovery[code].(used := Some(db.Now()), ceremony := None), db.Now(), n);
    DropRotationsKeeps(db.rotations, m, db.Now(), n);
  }

  lemma RegenerateKeeps(db: Market, m: nat, codes: seq<Hash>, n: nat)
    requires m in db.merchants && n != m && !Collides(db, codes)
    ensures Kept(db, Regenerate(db, m, codes), n)
  {
    hide DropRotations, RotationsKept, PairingsKept, CodesKept, GrantsKept, Collides, RecoveryKept, AddCodes, DropCodes;
    DropRotationsKeeps(db.rotations, m, db.Now(), n);
    CodesSame(db, n);
    GrantsSame(db.grants, n);
    NoCollision(db, codes);
    DropAddKeeps(db.recovery, ToSet(codes), m, db.merchants[m].generation + 1, db.Now(), n);
  }

  lemma DropAddKeeps(recovery: map<Hash, RecoveryCode>, hashes: set<Hash>, m: nat, generation: nat, now: nat, n: nat)
    requires n != m && forall h :: h in hashes ==> h !in recovery
    ensures RecoveryKept(recovery, AddCodes(DropCodes(recovery, m, now), hashes, m, generation), now, n)
  {
  }

  // ----- Confirmations -----

  lemma ClearLapsedKeeps(db: Market, n: nat)
    ensures RotationsKept(db.rotations, ClearLapsed(db), db.Now(), n)
  {
  }

  lemma LapsedKeep(db: Market, rotations: map<Hash, KeyRotation>, n: nat)
    requires RotationsKept(db.rotations, rotations, db.Now(), n)
    ensures Kept(db, db.(rotations := rotations), n)
  {
    hide RecoveryKept, RotationsKept, PairingsKept, CodesKept, GrantsKept;
    RecoverySame(db.recovery, db.Now(), n);
    CodesSame(db, n);
    GrantsSame(db.grants, n);
  }

  lemma OwnRowKeeps(db: Market, session: Hash, row: KeyRotation, n: nat)
    requires row.merchant != n && (session in db.rotations ==> db.rotations[session].merchant != n)
    ensures RotationsKept(db.rotations, ClearLapsed(db)[session := row], db.Now(), n)
    ensures RotationsKept(db.rotations, db.rotations[session := row], db.Now(), n)
  {
  }

  lemma ConfirmRotationKeeps(db: Market, session: Hash, csrf: Hash, replacement: Hash, won: set<Hash>, n: nat)
    requires session in db.rotations ==> db.rotations[session].merchant != n
    ensures Kept(db, ConfirmRotation(db, session, csrf, replacement, won).0, n)
  {
    hide Kept, RotationsKept, Limited, RotateKey, ClearLapsed;
    ClearLapsedKeeps(db, n);
    LapsedKeep(db, ClearLapsed(db), n);
    if EligibleRotation(db, session, csrf, replacement) {
      var row := db.rotations[session];
      RotateKeyKeeps(db, row.merchant, replacement, session, won, n);
      OwnRowKeeps(db, session, row.(state := Canceled(db.Now())), n);
      LapsedKeep(db, ClearLapsed(db)[session := row.(state := Canceled(db.Now()))], n);
    }
  }

  /** The session names a code of `n`. */
  predicate SessionOf(db: Market, session: Hash, n: nat)
  {
    exists c :: c in db.recovery && db.recovery[c].merchant == n && db.recovery[c].ceremony.Some? &&
      db.recovery[c].ceremony.value.session == session
  }

  lemma ConfirmRecoveryKeeps(db: Market, session: Hash, csrf: Hash, replacement: Hash, n: nat)
    requires !SessionOf(db, session, n)
    ensures Kept(db, ConfirmRecovery(db, session, csrf, replacement).0, n)
  {
    hide Kept, Recover;
    AllSame(db, n);
    forall code | code in EligibleRecoveries(db, session, csrf, replacement) ensures Kept(db, Recover(db, code, replacement), n) {
      RecoverKeeps(db, code, replacement, n);
    }
  }

  /** Every token of `n` resolves, rotates and is classified as before. */
  ghost predicate TokensWork(a: G.Db, b: G.Db, n: nat)
  {
    forall t :: TokenOf(a, t, n) ==> t in b.tokens && TokenWorks(a, b, t)
  }

  ghost predicate TokenWorks(a: G.Db, b: G.Db, t: nat)
  {
    (forall r, s :: G.Resolve(b, t, r, s) == G.Resolve(a, t, r, s)) &&
    forall c, r :: G.Rotate(b, t, c, r).1 == G.Rotate(a, t, c, r).1 && G.Classify(b, t, c, r) == G.Classify(a, t, c, r)
  }

  lemma KeptTokenWorks(a: G.Db, b: G.Db, t: nat, n: nat)
    requires GrantsKept(a, b, n) && TokenOf(a, t, n) && t in b.tokens
    ensures TokenWorks(a, b, t)
  {
    hide G.Rotation, G.Revoke;
  }

  /** No row of any table comes or goes, and nothing but credentials and grants is touched. */
  predicate NoRowMoves(a: Market, b: Market)
  {
    b.merchants.Keys == a.merchants.Keys && b.recovery.Keys == a.recovery.Keys && b.rotations.Keys == a.rotations.Keys &&
    b.pairings.Keys == a.pairings.Keys && b.codes.Keys == a.codes.Keys && b.grants.families.Keys == a.grants.families.Keys &&
    b.grants.tokens.Keys == a.grants.tokens.Keys && b.reservations == a.reservations && b.signups == a.signups &&
    b.requests == a.requests && b.next == a.next
  }

  /** A key change of `m` gives it the new key, and leaves every other merchant all it has. */
  ghost predicate Spares(a: Market, b: Market, m: nat, secret: Hash)
  {
    m in a.merchants && m in b.merchants && b.merchants[m].handle == a.merchants[m].handle && b.merchants[m].secret == secret &&
    NoRowMoves(a, b) &&
    (forall n :: n != m ==> Kept(a, b, n) && TokensWork(a.grants, b.grants, n)) &&
    forall c :: c in a.recovery && a.recovery[c].merchant != m ==> b.recovery[c] == a.recovery[c]
  }

  lemma GrantKeys(g: G.Db, m: nat, reason: string)
    ensures var next := G.RevokeMerchant(g, m, reason);
            next.families.Keys == g.families.Keys && next.tokens.Keys == g.tokens.Keys
  {
    hide G.FamiliesOf;
  }

  lemma ChangeKeyRows(db: Market, m: nat, secret: Hash, reason: string)
    requires m in db.merchants
    ensures var next := ChangeKey(db, m, secret, reason);
            next == db.(merchants := next.merchants, pairings := next.pairings, codes := next.codes, grants := next.grants) &&
            next.merchants.Keys == db.merchants.Keys && next.pairings.Keys == db.pairings.Keys &&
            next.codes.Keys == db.codes.Keys && next.grants.families.Keys == db.grants.families.Keys &&
            next.grants.tokens.Keys == db.grants.tokens.Keys && next.merchants[m].handle == db.merchants[m].handle &&
            next.merchants[m].secret == secret
  {
    hide G.RevokeMerchant;
    GrantKeys(db.grants, m, reason);
  }

  lemma DropCodesRows(recovery: map<Hash, RecoveryCode>, m: nat, now: nat)
    ensures var next := DropCodes(recovery, m, now);
            next.Keys == recovery.Keys && forall c :: c in recovery && recovery[c].merchant != m ==> next[c] == recovery[c]
  {
  }

  lemma OthersSpared(a: Market, b: Market, m: nat, secret: Hash)
    requires m in a.merchants && m in b.merchants && b.merchants[m].handle == a.merchants[m].handle
    requires b.merchants[m].secret == secret
    requires NoRowMoves(a, b) && forall n :: n != m ==> Kept(a, b, n)
    requires forall c :: c in a.recovery && a.recovery[c].merchant != m ==> b.recovery[c] == a.recovery[c]
    ensures Spares(a, b, m, secret)
  {
    hide TokenWorks, GrantsKept;
    forall n, t | n != m && TokenOf(a.grants, t, n) ensures t in b.grants.tokens && TokenWorks(a.grants, b.grants, t) {
      assert Kept(a, b, n);
      KeptTokenWorks(a.grants, b.grants, t, n);
    }
  }

  lemma RotateKeySpares(db: Market, m: nat, secret: Hash, own: Hash, won: set<Hash>)
    requires m in db.merchants && own in db.rotations && db.rotations[own].merchant == m
    ensures Spares(db, RotateKey(db, m, secret, own, won), m, secret)
  {
    hide Kept, Spares, ChangeKey, DropCodes;
    var next := RotateKey(db, m, secret, own, won);
    ChangeKeyRows(db, m, secret, "merchant key rotation");
    DropCodesRows(db.recovery, m, db.Now());
    forall n | n != m ensures Kept(db, next, n) { RotateKeyKeeps(db, m, secret, own, won, n); }
    OthersSpared(db, next, m, secret);
  }

  lemma RecoverSpares(db: Market, code: Hash, replacement: Hash)
    requires code in db.recovery && db.recovery[code].merchant in db.merchants
    ensures Spares(db, Recover(db, code, replacement), db.recovery[code].merchant, replacement)
  {
    hide Kept, Spares, ChangeKey, DropCodes;
    var m, next := db.recovery[code].merchant, Recover(db, code, replacement);
    ChangeKeyRows(db, m, replacement, "merchant key recovery");
    DropCodesRows(db.recovery[code := db.recovery[code].(used := Some(db.Now()), ceremony := None)], m, db.Now());
    forall n | n != m ensures Kept(db, next, n) { RecoverKeeps(db, code, replacement, n); }
    OthersSpared(db, next, m, replacement);
  }

  /**
    When a rotation answers rotated, every other merchant keeps its row, recovery codes, pairing codes,
    authorization codes, families and tokens, and each of its tokens works as before; of its staged
    rotations only those that had run out are canceled.
   */
  lemma RotationSparesOthers(db: Market, session: Hash, csrf: Hash, replacement: Hash, won: set<Hash>, m: nat)
    requires ConfirmRotation(db, session, csrf, replacement, won).1 == Rows([Approved(m)])
    ensures Spares(db, ConfirmRotation(db, session, csrf, replacement, won).0, m, replacement)
  {
    hide Spares, Limited, RotateKey, ClearLapsed;
    assert ConfirmRotation(db, session, csrf, replacement, won).1.rows[0] == Approved(m);
    RotateKeySpares(db, m, replacement, session, won);
  }

  /** The same when a recovery answers recovered. */
  lemma RecoverySparesOthers(db: Market, session: Hash, csrf: Hash, replacement: Hash, m: nat)
    requires ConfirmRecovery(db, session, csrf, replacement).1 == Rows([Approved(m)])
    ensures Spares(db, ConfirmRecovery(db, session, csrf, replacement).0, m, replacement)
  {
    hide Spares, Recover;
    assert ConfirmRecovery(db, session, csrf, replacement).1.rows[0] == Approved(m);
    forall code | code in EligibleRecoveries(db, session, csrf, replacement)
      ensures Spares(db, Recover(db, code, replacement), db.recovery[code].merchant, replacement)
    {
      RecoverSpares(db, code, replacement);
    }
  }

  // ----- Every statement -----

  lemma SameTables(a: Market, b: Market, n: nat)
    requires b == a.(reservations := b.reservations, signups := b.signups, requests := b.requests, next := b.next)
    ensures Kept(a, b, n)
  {
    hide RecoveryKept, RotationsKept, PairingsKept, CodesKept, GrantsKept;
    RecoverySame(a.recovery, a.Now(), n);
    RotationsSame(a.rotations, a.Now(), n);
    CodesSame(a, n);
    GrantsSame(a.grants, n);
  }

  lemma JoinKeeps(db: Market, handle: string, secret: Hash, codes: seq<Hash>, n: nat)
    requires n != db.next.merchant && !Collides(db, codes)
    ensures Kept(db, Join(db, handle, secret, codes), n)
  {
    hide RotationsKept, PairingsKept, CodesKept, GrantsKept, Collides, RecoveryKept, AddCodes;
    RotationsSame(db.rotations, db.Now(), n);
    CodesSame(db, n);
    GrantsSame(db.grants, n);
    NoCollision(db, codes);
    AddKeeps(db.recovery, ToSet(codes), db.next.merchant, 1, db.Now(), n);
  }

  lemma AddKeeps(recovery: map<Hash, RecoveryCode>, hashes: set<Hash>, m: nat, generation: nat, now: nat, n: nat)
    requires n != m && forall h :: h in hashes ==> h !in recovery
    ensures RecoveryKept(recovery, AddCodes(recovery, hashes, m, generation), now, n)
  {
  }

  lemma IssueKeeps(db: Market, session: Hash, m: nat, n: nat)
    requires session in db.requests && m in db.merchants && n != m && db.next.code !in db.codes
    ensures Kept(db, Issue(db, session, m), n)
  {
    hide RecoveryKept, RotationsKept, PairingsKept, GrantsKept;
    RecoverySame(db.recovery, db.Now(), n);
    RotationsSame(db.rotations, db.Now(), n);
    CodesSame(db, n);
    GrantsSame(db.grants, n);
  }

  lemma NewCode(db: Market)
    requires Valid(db)
    ensures db.next.code !in db.codes && db.grants.nextFamily !in db.grants.families && db.next.pairing !in db.pairings
    ensures db.grants.nextToken !in db.grants.tokens && db.grants.nextToken + 1 !in db.grants.tokens
    ensures G.RowsValid(db.grants)
  {
    hide IdentityOk, SignupsOk, FamiliesOk, RequestsOk, EpochOk, G.LifetimesValid, G.RevocationsValid, G.LinksValid, G.PathsValid;
  }

  lemma ApproveKeeps(db: Market, session: Hash, csrf: Hash, secret: Hash, n: nat)
    requires Valid(db) && (n in db.merchants ==> db.merchants[n].secret != secret)
    ensures Kept(db, Approve(db, session, csrf, secret).0, n)
  {
    hide Valid, Kept, Issue;
    NewCode(db);
    AllSame(db, n);
    if session in db.requests {
      forall m | m in Holders(db, secret) ensures Kept(db, Issue(db, session, m), n) { IssueKeeps(db, session, m, n); }
    }
  }

  lemma KeptTwice(a: Market, b: Market, c: Market, n: nat)
    requires Kept(a, b, n) && b.codes == a.codes && b.Now() == a.Now()
    requires c == b.(codes := c.codes, requests := c.requests, next := c.next) && CodesKept(b.codes, c.codes, b.Now(), n)
    ensures Kept(a, c, n)
  {
    hide RecoveryKept, RotationsKept, PairingsKept, GrantsKept, CodesKept;
  }

  lemma ConfirmNewKeeps(db: Market, session: Hash, csrf: Hash, secret: Hash, n: nat)
    requires Valid(db) && n != db.next.merchant
    ensures Kept(db, ConfirmNew(db, session, csrf, secret).0, n)
  {
    hide Valid, Kept, Join, Issue, HandleUsed, Collides, Eight;
    NewCode(db);
    AllSame(db, n);
    if EligibleRequest(db, session, csrf, secret) {
      var p := db.requests[session].progress;
      SameTables(db, Progressed(db, session, Closed), n);
      if !Collides(db, p.codes) { JoinIssueKeeps(db, session, p.handle, p.secret, p.codes, n); }
    }
  }

  lemma JoinIssueKeeps(db: Market, session: Hash, handle: string, secret: Hash, codes: seq<Hash>, n: nat)
    requires db.next.code !in db.codes && n != db.next.merchant && !Collides(db, codes) && session in db.requests
    ensures db.next.merchant in Join(db, handle, secret, codes).merchants
    ensures Kept(db, Issue(Join(db, handle, secret, codes), session, db.next.merchant), n)
  {
    var joined := Join(db, handle, secret, codes);
    JoinKeeps(db, handle, secret, codes, n);
    IssueKeeps(joined, session, db.next.merchant, n);
    KeptTwice(db, joined, Issue(joined, session, db.next.merchant), n) by { hide RecoveryKept; }
  }

  lemma ConfirmSignupKeeps(db: Market, session: Hash, csrf: Hash, secret: Hash, n: nat)
    requires n != db.next.merchant
    ensures Kept(db, ConfirmSignup(db, session, csrf, secret).0, n)
  {
    hide Kept, Join, HandleUsed, Collides, Eight;
    AllSame(db, n);
    if EligibleSignup(db, session, csrf, secret) {
      var p := db.signups[session].progress;
      SameTables(db, FinishSignup(db, session, Closed), n);
      if !Collides(db, p.codes) {
        var joined := Join(db, p.handle, p.secret, p.codes);
        JoinKeeps(db, p.handle, p.secret, p.codes, n);
        FinishKeeps(db, joined, session, Completed(db.next.merchant), n);
      }
    }
  }

  lemma FinishKeeps(a: Market, b: Market, session: Hash, to: Progress, n: nat)
    requires Kept(a, b, n) && session in b.signups
    ensures Kept(a, FinishSignup(b, session, to), n)
  {
    hide RecoveryKept, RotationsKept, PairingsKept, GrantsKept, CodesKept;
  }

  lemma StageRotationKeeps(db: Market, session: Hash, csrf: Hash, secret: Hash, replacement: Hash, pick: nat, n: nat)
    requires n != pick
    ensures Kept(db, StageRotation(db, session, csrf, secret, replacement, pick).0, n)
  {
    hide Kept, RotationsKept, ClearLapsed, Holders;
    var staged := RotationsStaged(db, session, csrf, secret, replacement, pick);
    ClearLapsedKeeps(db, n);
    if Stages(db, session, csrf, secret, replacement, pick) {
      assert pick in db.merchants by { PickHolds(db, secret, pick); }
      var row := KeyRotation(pick, db.merchants[pick].generation, csrf, db.Now() + CEREMONY, Pending(secret, replacement));
      OwnRowKeeps(db, session, row, n);
    }
    LapsedKeep(db, staged, n);
  }

  lemma PickHolds(db: Market, secret: Hash, pick: nat)
    requires pick in Holders(db, secret)
    ensures pick in db.merchants
  {
  }

  lemma CancelRotationKeeps(db: Market, session: Hash, csrf: Hash, n: nat)
    requires session in db.rotations ==> db.rotations[session].merchant != n
    ensures Kept(db, CancelRotation(db, session, csrf), n)
  {
    hide Kept, RotationsKept, ClearLapsed;
    AllSame(db, n);
    if session in db.rotations {
      var row := db.rotations[session].(state := Canceled(db.Now()));
      OwnRowKeeps(db, session, row, n);
      LapsedKeep(db, db.rotations[session := row], n);
    }
  }

  lemma GenerateKeeps(db: Market, secret: Hash, codes: seq<Hash>, n: nat)
    requires n in db.merchants ==> db.merchants[n].secret != secret
    ensures Kept(db, Generate(db, secret, codes), n)
  {
    hide Kept, Regenerate, Eight, Collides;
    AllSame(db, n);
    if !Collides(db, codes) {
      forall m | m in Holders(db, secret) ensures Kept(db, Regenerate(db, m, codes), n) { RegenerateKeeps(db, m, codes, n); }
    }
  }

  lemma CodesMoved(db: Market, recovery: map<Hash, RecoveryCode>, n: nat)
    requires RecoveryKept(db.recovery, recovery, db.Now(), n)
    ensures Kept(db, db.(recovery := recovery), n)
  {
    hide RecoveryKept, RotationsKept, PairingsKept, CodesKept, GrantsKept;
    RotationsSame(db.rotations, db.Now(), n);
    CodesSame(db, n);
    GrantsSame(db.grants, n);
  }

  lemma StageRecoveryKeeps(db: Market, session: Hash, csrf: Hash, code: Hash, replacement: Hash, known: bool, n: nat)
    requires code in db.recovery ==> db.recovery[code].merchant != n
    ensures Kept(db, StageRecovery(db, session, csrf, code, replacement, known), n)
  {
    hide Kept, SessionTaken;
    CodesMoved(db, CodesStaged(db, session, csrf, code, replacement, known), n);
  }

  lemma CancelRecoveryKeeps(db: Market, session: Hash, csrf: Hash, n: nat)
    requires !SessionOf(db, session, n)
    ensures Kept(db, CancelRecovery(db, session, csrf), n)
  {
    hide Kept;
    CodesMoved(db, CancelRecovery(db, session, csrf).recovery, n);
  }

  lemma PairingsMoved(db: Market, pairings: map<nat, Pairing>, next: Serials, n: nat)
    requires PairingsKept(db.pairings, pairings, db.Now(), n)
    ensures Kept(db, db.(pairings := pairings, next := next), n)
  {
    hide RecoveryKept, RotationsKept, PairingsKept, CodesKept, GrantsKept;
    RotationsSame(db.rotations, db.Now(), n);
    RecoverySame(db.recovery, db.Now(), n);
    CodesSame(db, n);
    GrantsSame(db.grants, n);
  }

  lemma PairingRowsKeep(db: Market, p: nat, row: Pairing, n: nat)
    requires row.merchant != n && (p in db.pairings ==> db.pairings[p].merchant != n)
    ensures PairingsKept(db.pairings, PairingsLeft(db)[p := row], db.Now(), n)
    ensures PairingsKept(db.pairings, db.pairings[p := row], db.Now(), n)
  {
  }

  lemma CreatePairingKeeps(db: Market, m: nat, n: nat)
    requires db.next.pairing !in db.pairings && n != m
    ensures Kept(db, CreatePairing(db, m), n)
  {
    hide Kept, PairingsKept, PairingsLeft;
    AllSame(db, n);
    if m in db.merchants {
      var next := CreatePairing(db, m);
      PairingRowsKeep(db, db.next.pairing, Pairing(m, db.Now() + PAIRING_LIFE, None, None, db.merchants[m].keyChanges), n);
      PairingsMoved(db, next.pairings, next.next, n);
    }
  }

  lemma SpendPairingKeeps(db: Market, p: nat, n: nat)
    requires p in db.pairings ==> db.pairings[p].merchant != n
    ensures Kept(db, SpendPairing(db, p).0, n)
  {
    hide Kept, PairingsKept, PairingsLeft;
    AllSame(db, n);
    if p in db.pairings {
      var row := db.pairings[p].(used := Some(db.Now()));
      PairingRowsKeep(db, p, row, n);
      PairingsMoved(db, db.pairings[p := row], db.next, n);
    }
  }

  lemma GrantsMoved(db: Market, codes: map<nat, AuthCode>, requests: map<Hash, Request>, grants: G.Db, n: nat)
    requires CodesKept(db.codes, codes, db.Now(), n) && GrantsKept(db.grants, grants, n)
    ensures Kept(db, db.(codes := codes, requests := requests, grants := grants), n)
  {
    hide RecoveryKept, RotationsKept, PairingsKept, CodesKept, GrantsKept;
    RotationsSame(db.rotations, db.Now(), n);
    RecoverySame(db.recovery, db.Now(), n);
    CodesSame(db, n);
  }

  lemma OpenFamilyKeeps(g: G.Db, m: nat, client: string, resource: string, scope: string, epoch: nat, n: nat)
    requires n != m && G.RowsValid(g) && g.nextFamily !in g.families && g.nextToken !in g.tokens && g.nextToken + 1 !in g.tokens
    ensures GrantsKept(g, G.OpenFamily(g, m, client, resource, scope, epoch), n)
  {
  }

  lemma ExchangeKeeps(db: Market, c: nat, client: string, redirect: string, resource: string, n: nat)
    requires Valid(db) && (c in db.codes ==> db.codes[c].merchant != n)
    ensures Kept(db, Exchange(db, c, client, redirect, resource).0, n)
  {
    hide Valid, Kept, G.OpenFamily, GrantsKept;
    NewCode(db);
    AllSame(db, n);
    if Exchangeable(db, c, client, redirect, resource) {
      var code, next := db.codes[c], Exchange(db, c, client, redirect, resource).0;
      OpenFamilyKeeps(db.grants, code.merchant, client, resource, code.grant.scope, code.epoch, n);
      GrantsMoved(db, next.codes, db.requests, next.grants, n);
    }
  }

  lemma RevokeKeeps(g: G.Db, f: nat, reason: string, n: nat)
    requires f in g.families && g.families[f].merchant != n
    ensures GrantsKept(g, G.Revoke(g, {f}, reason), n)
  {
  }

  lemma RotationKeeps(g: G.Db, h: nat, n: nat)
    requires G.Joined(g, h) && !TokenOf(g, h, n) && g.nextToken !in g.tokens && g.nextToken + 1 !in g.tokens
    ensures GrantsKept(g, G.Rotation(g, h), n)
  {
  }

  lemma TokenStepKeeps(g: G.Db, h: nat, client: string, resource: string, n: nat)
    requires !TokenOf(g, h, n) && g.nextToken !in g.tokens && g.nextToken + 1 !in g.tokens
    ensures GrantsKept(g, R.Apply(g, R.Refreshed(h, client, resource)), n)
    ensures GrantsKept(g, R.Apply(g, R.Revoked(h, client)), n)
  {
    hide GrantsKept, G.Rotation, G.Revoke;
    GrantsSame(g, n);
    if G.Joined(g, h) {
      RotationKeeps(g, h, n);
      RevokeKeeps(g, g.tokens[h].family, "refresh token reuse", n);
      RevokeKeeps(g, g.tokens[h].family, "client revocation", n);
    }
  }

  lemma PruneKeeps(g: G.Db, n: nat)
    requires G.RowsValid(g)
    ensures GrantsKept(g, G.Prune(g), n)
  {
    var gone, empty := G.RetiredTokens(g), G.RetiredFamilies(g);
    assert forall t :: t in gone ==> G.Retired(g, g.tokens[t].family);
    assert forall f :: f in empty ==> G.Retired(g, f) && forall t :: t in g.tokens && g.tokens[t].family == f ==> t in gone;
    hide G.RetiredTokens, G.RetiredFamilies;
  }

  lemma PruneAllKeeps(db: Market, n: nat)
    requires G.RowsValid(db.grants)
    ensures Kept(db, PruneAll(db), n)
  {
    hide Kept, G.Prune, GrantsKept, RetiredRequests;
    PruneKeeps(db.grants, n);
    var next := PruneAll(db);
    GrantsMoved(db, next.codes, next.requests, next.grants, n);
  }

  /** The statement acts for merchant `n`: it presents the merchant's key, session, code or token. */
  predicate ActsFor(db: Market, e: Event, n: nat)
  {
    match e
    case OnIdentity(SignupConfirmed(_, _, _)) => n == db.next.merchant
    case OnIdentity(RotationStaged(_, _, _, _, pick)) => n == pick
    case OnIdentity(RotationConfirmed(s, _, _, _)) => s in db.rotations && db.rotations[s].merchant == n
    case OnIdentity(RotationCanceled(s, _)) => s in db.rotations && db.rotations[s].merchant == n
    case OnIdentity(CodesGenerated(k, _)) => n in db.merchants && db.merchants[n].secret == k
    case OnIdentity(RecoveryStaged(_, _, code, _, _)) => code in db.recovery && db.recovery[code].merchant == n
    case OnIdentity(RecoveryConfirmed(s, _, _)) => SessionOf(db, s, n)
    case OnIdentity(RecoveryCanceled(s, _)) => SessionOf(db, s, n)
    case OnSignIn(MerchantApproved(_, _, k)) => n in db.merchants && db.merchants[n].secret == k
    case OnSignIn(NewConfirmed(_, _, _)) => n == db.next.merchant
    case OnSignIn(CodeExchanged(c, _, _, _)) => c in db.codes && db.codes[c].merchant == n
    case OnSignIn(PairingCreated(m)) => n == m
    case OnSignIn(PairingSpent(p)) => p in db.pairings && db.pairings[p].merchant == n
    case OnSignIn(TokenRefreshed(h, _, _)) => TokenOf(db.grants, h, n)
    case OnSignIn(TokenRevoked(h, _)) => TokenOf(db.grants, h, n)
    case _ => false
  }

  lemma IdentityKeeps(db: Market, e: IdentityStep, n: nat)
    requires Valid(db) && !ActsFor(db, OnIdentity(e), n)
    ensures Kept(db, ApplyIdentity(db, e), n)
  {
    hide Valid, Kept, SessionOf, StageRotation, ConfirmRotation, CancelRotation, Generate, StageRecovery, ConfirmRecovery,
      CancelRecovery, ConfirmSignup, SignupsStaged, ActiveSignup;
    match e
    case SignupStaged(s, x, handle, k, codes) => SameTables(db, StageSignup(db, s, x, handle, k, codes), n);
    case SignupConfirmed(s, x, k) => ConfirmSignupKeeps(db, s, x, k, n);
    case SignupCanceled(s, x) => AllSame(db, n); SameTables(db, CancelSignup(db, s, x), n);
    case RotationStaged(s, x, k, next, pick) => StageRotationKeeps(db, s, x, k, next, pick, n);
    case RotationConfirmed(s, x, next, won) => ConfirmRotationKeeps(db, s, x, next, won, n);
    case RotationCanceled(s, x) => CancelRotationKeeps(db, s, x, n);
    case CodesGenerated(k, codes) => GenerateKeeps(db, k, codes, n);
    case RecoveryStaged(s, x, code, next, known) => StageRecoveryKeeps(db, s, x, code, next, known, n);
    case RecoveryConfirmed(s, x, next) => ConfirmRecoveryKeeps(db, s, x, next, n);
    case RecoveryCanceled(s, x) => CancelRecoveryKeeps(db, s, x, n);
  }

  lemma SignInKeeps(db: Market, e: SignInStep, n: nat)
    requires Valid(db) && !e.Ticked? && !ActsFor(db, OnSignIn(e), n)
    ensures Kept(db, ApplySignIn(db, e), n)
  {
    hide Valid, Kept, TokenOf, CreateRequest, CancelRequest, Approve, StageNew, ConfirmNew, Exchange, CreatePairing, Reserve, Take,
      SpendPairing, PruneAll, R.Apply, GrantsKept, CodesKept, PairingsKept, G.RowsValid;
    NewCode(db);
    match e
    case RequestCreated(s, x, grant) => RequestStepKeeps(db, s, x, grant, "", 0, [], n);
    case RequestCanceled(s, x) => RequestStepKeeps(db, s, x, Grant("", "", "", ""), "", 0, [], n);
    case MerchantApproved(s, x, k) => ApproveKeeps(db, s, x, k, n);
    case NewStaged(s, x, handle, k, codes) => RequestStepKeeps(db, s, x, Grant("", "", "", ""), handle, k, codes, n);
    case NewConfirmed(s, x, k) => ConfirmNewKeeps(db, s, x, k, n);
    case CodeExchanged(c, client, redirect, resource) => ExchangeKeeps(db, c, client, redirect, resource, n);
    case PairingCreated(m) => CreatePairingKeeps(db, m, n);
    case PairingReserved(s, x, p) => ReserveKeeps(db, s, x, p, n);
    case PairingTaken(s, x) => ReserveKeeps(db, s, x, 0, n);
    case PairingSpent(p) => SpendPairingKeeps(db, p, n);
    case TokenRefreshed(h, client, resource) => TokenKeeps(db, h, client, resource, n);
    case TokenRevoked(h, client) => TokenKeeps(db, h, client, "", n);
    case Pruned => PruneAllKeeps(db, n);
  }

  lemma TokenKeeps(db: Market, h: nat, client: string, resource: string, n: nat)
    requires !TokenOf(db.grants, h, n) && db.grants.nextToken !in db.grants.tokens && db.grants.nextToken + 1 !in db.grants.tokens
    ensures Kept(db, OnGrants(db, R.Apply(db.grants, R.Refreshed(h, client, resource))), n)
    ensures Kept(db, OnGrants(db, R.Apply(db.grants, R.Revoked(h, client))), n)
  {
    hide Kept, GrantsKept, R.Apply, CodesKept, PairingsKept;
    TokenStepKeeps(db.grants, h, client, resource, n);
    CodesSame(db, n);
    GrantsMoved(db, db.codes, db.requests, R.Apply(db.grants, R.Refreshed(h, client, resource)), n);
    GrantsMoved(db, db.codes, db.requests, R.Apply(db.grants, R.Revoked(h, client)), n);
  }

  lemma RequestStepKeeps(db: Market, s: Hash, x: Hash, grant: Grant, handle: string, k: Hash, codes: seq<Hash>, n: nat)
    ensures Kept(db, CreateRequest(db, s, x, grant), n) && Kept(db, CancelRequest(db, s, x), n)
    ensures Kept(db, StageNew(db, s, x, handle, k, codes), n)
  {
    hide Kept, RequestTaken, CloseExpiredRequests, HandleUsed, Eight;
    AllSame(db, n);
    SameTables(db, CreateRequest(db, s, x, grant), n);
    SameTables(db, CancelRequest(db, s, x), n);
    SameTables(db, StageNew(db, s, x, handle, k, codes), n);
  }

  lemma ReserveKeeps(db: Market, s: Hash, x: Hash, p: nat, n: nat)
    ensures Kept(db, Reserve(db, s, x, p), n) && Kept(db, Take(db, s, x).0, n)
  {
    hide Kept, Reserved;
    SameTables(db, Reserve(db, s, x, p), n);
    SameTables(db, Take(db, s, x).0, n);
  }

  /**
    No statement but one that presents a merchant's own key, session, code or token touches what the
    merchant holds: its row, its recovery codes and staged rotations, its pairing and authorization codes,
    its families and tokens are as before, except for what had run out. Only the clock works on all.
   */
  lemma OthersKeepTheirs(db: Market, e: Event, n: nat)
    requires Valid(db) && !(e.OnSignIn? && e.s.Ticked?) && !ActsFor(db, e, n)
    ensures Kept(db, Apply(db, e), n)
  {
    hide Valid, Kept, ActsFor, ApplyIdentity, ApplySignIn;
    match e
    case OnIdentity(i) => IdentityKeeps(db, i, n);
    case OnSignIn(s) => SignInKeeps(db, s, n);
  }
}
