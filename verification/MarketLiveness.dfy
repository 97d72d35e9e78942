/** What a caller may count on: staged ceremonies confirm in time, and approved grants work. */
module MarketLiveness {
  import opened Tables
  import opened Market
  import opened MarketIdentity
  import opened MarketIdentityLaws
  import opened MarketSignIn
  import opened MarketSignInLaws
  import opened MarketRuns
  import G = Grants

  /** The clock moves on, and nothing else. */
  function Later(db: Market, wait: nat): Market { OnGrants(db, G.Tick(db.grants, wait)) }

  // ----- Ceremonies -----

  /**
    A staged rotation confirms for its merchant with the staged key within fifteen minutes, unless the
    day's five are used up, and not after; another key is rejected.
   */
  lemma StagedRotationConfirms(db: Market, session: Hash, csrf: Hash, secret: Hash, replacement: Hash, m: nat, wait: nat,
                               key: Hash, won: set<Hash>)
    requires Valid(db) && StageRotation(db, session, csrf, secret, replacement, m).1 == Rows([Approved(m)])
    ensures var late := Later(StageRotation(db, session, csrf, secret, replacement, m).0, wait);
            ConfirmRotation(late, session, csrf, key, won).1 == Rows([
              if wait >= 15 * MINUTE then Unavailable
              else if key != replacement then Rejected
              else if Limited(late, m) then RateLimited
              else Approved(m)])
  {
    hide GrantsOk, SignupsOk, MerchantsOk, RotationsOk, RecoveryOk, SessionsOk, SetsOk, Limited, ClearLapsed, RotateKey, RotationTaken;
    assert StageRotation(db, session, csrf, secret, replacement, m).1.rows[0] == Approved(m);
    var staged := StageRotation(db, session, csrf, secret, replacement, m).0;
    StagedRow(db, session, csrf, secret, replacement, m);
    hide StageRotation;
    var late := Later(staged, wait);
    var rows := ConfirmRotation(late, session, csrf, key, won).1.rows;
    assert rows == [if wait >= 15 * MINUTE then Unavailable else if key != replacement then Rejected
                    else if Limited(late, m) then RateLimited else Approved(m)];
  }

  lemma StagedRow(db: Market, session: Hash, csrf: Hash, secret: Hash, replacement: Hash, m: nat)
    requires Stages(db, session, csrf, secret, replacement, m)
    ensures var next := StageRotation(db, session, csrf, secret, replacement, m).0;
            m in next.merchants && next.merchants[m].secret == secret && session in next.rotations && next.Now() == db.Now() &&
            next.rotations[session] ==
              KeyRotation(m, next.merchants[m].generation, csrf, db.Now() + CEREMONY, Pending(secret, replacement))
  {
    hide ClearLapsed, RotationTaken;
  }

  /** A recovery staged on a live code confirms in time with the staged key, and not after. */
  lemma StagedRecoveryConfirms(db: Market, session: Hash, csrf: Hash, code: Hash, replacement: Hash, wait: nat, key: Hash)
    requires Valid(db) && Stageable(db, session, csrf, code) && !SessionTaken(db, session, csrf, code)
    ensures var late := Later(StageRecovery(db, session, csrf, code, replacement, false), wait);
            ConfirmRecovery(late, session, csrf, key).1 == Rows([
              if wait >= 15 * MINUTE then Unavailable
              else if key != replacement then Rejected
              else Approved(db.recovery[code].merchant)])
  {
    var staged := StageRecovery(db, session, csrf, code, replacement, false);
    StageRecoveryValid(db, session, csrf, code, replacement, false);
    StagedCode(db, session, csrf, code, replacement);
    OneCarrier(staged, session, csrf, code);
    var late := Later(staged, wait);
    hide Valid, StageRecovery, ConfirmRecovery, SessionTaken;
    assert late.recovery == staged.recovery && late.merchants == staged.merchants && late.Now() == db.Now() + wait;
    CarrierAnswers(late, session, csrf, code, key);
  }

  /** The only code that carries the session decides the answer. */
  lemma CarrierAnswers(db: Market, session: Hash, csrf: Hash, code: Hash, key: Hash)
    requires code in db.recovery && Live(db.recovery[code]) && db.recovery[code].merchant in db.merchants
    requires db.recovery[code].generation == db.merchants[db.recovery[code].merchant].generation
    requires db.recovery[code].ceremony.Some? && db.recovery[code].ceremony.value.session == session &&
      db.recovery[code].ceremony.value.csrf == csrf
    requires forall c :: c in db.recovery && c != code && db.recovery[c].ceremony.Some? ==>
      db.recovery[c].ceremony.value.session != session
    ensures var runs := CeremonyRuns(db, db.recovery[code].ceremony.value);
            ConfirmRecovery(db, session, csrf, key).1 == Rows([
              if !runs then Unavailable
              else if key != db.recovery[code].ceremony.value.replacement then Rejected
              else Approved(db.recovery[code].merchant)])
  {
    hide Recover;
    var runs, good := CeremonyRuns(db, db.recovery[code].ceremony.value), key == db.recovery[code].ceremony.value.replacement;
    assert ActiveRecoveries(db, session, csrf) == AvailableRecoveries(db, session, csrf) == if runs then {code} else {};
    assert EligibleRecoveries(db, session, csrf, key) == if runs && good then {code} else {};
    var rows := ConfirmRecovery(db, session, csrf, key).1.rows;
    assert rows == [if !runs then Unavailable else if !good then Rejected else Approved(db.recovery[code].merchant)];
  }

  lemma StagedCode(db: Market, session: Hash, csrf: Hash, code: Hash, replacement: Hash)
    requires Stageable(db, session, csrf, code) && !SessionTaken(db, session, csrf, code)
    ensures var next := StageRecovery(db, session, csrf, code, replacement, false);
            code in next.recovery && next.merchants == db.merchants && next.Now() == db.Now() &&
            next.recovery[code] ==
              db.recovery[code].(ceremony := Some(Ceremony(session, csrf, replacement, db.Now() + CEREMONY)))
  {
  }

  /** No other code carries the session. */
  lemma OneCarrier(db: Market, session: Hash, csrf: Hash, code: Hash)
    requires Valid(db) && code in db.recovery && db.recovery[code].ceremony.Some?
    requires db.recovery[code].ceremony.value.session == session
    ensures forall c :: c in db.recovery && c != code && db.recovery[c].ceremony.Some? ==>
      db.recovery[c].ceremony.value.session != session
  {
    hide GrantsOk, SignupsOk, MerchantsOk, RotationsOk, RecoveryOk, SetsOk;
    assert forall c :: c in db.recovery && SameSession(db.recovery[c], db.recovery[code]) ==> c == code;
  }

  /** A new set of recovery codes replaces the old one whole. */
  lemma GeneratedSet(db: Market, secret: Hash, hashes: seq<Hash>, m: nat)
    requires Valid(db) && Holders(db, secret) == {m} && Eight(hashes) && !Collides(db, hashes)
    ensures var next := Generate(db, secret, hashes);
            LiveCodes(next, m) == ToSet(hashes) && |LiveCodes(next, m)| == 8 &&
            m in next.merchants && next.merchants[m].secret == secret &&
            next.merchants[m].generation == db.merchants[m].generation + 1
  {
    hide Valid, Collides;
    assert m in Holders(db, secret);
    assert Generate(db, secret, hashes) == Regenerate(db, m, hashes);
    hide Generate;
    DropThenAdd(db, Regenerate(db, m, hashes), m, ToSet(hashes), db.merchants[m].generation + 1) by { NoCollision(db, hashes); }
  }

  lemma NoCollision(db: Market, hashes: seq<Hash>)
    requires !Collides(db, hashes)
    ensures forall h :: h in ToSet(hashes) ==> h !in db.recovery
  {
  }

  /** A confirmed registration makes the staged merchant, under the presented key, with exactly the staged codes. */
  lemma ConfirmedSignupJoins(db: Market, session: Hash, csrf: Hash, secret: Hash)
    requires Valid(db) && EligibleSignup(db, session, csrf, secret)
    requires var p := db.signups[session].progress; !HandleUsed(db, p.handle) && !Collides(db, p.codes)
    ensures var (next, reply) := ConfirmSignup(db, session, csrf, secret);
            var (m, p) := (db.next.merchant, db.signups[session].progress);
            reply == Rows([Approved(m)]) && m !in db.merchants && m in next.merchants &&
            next.merchants[m] == Merchant(p.handle, secret, 1, 0) &&
            LiveCodes(next, m) == ToSet(p.codes) && |LiveCodes(next, m)| == 8
  {
    var p := db.signups[session].progress;
    JoinedSet(db, p.handle, p.secret, p.codes);
    hide IdentityOk, GrantsOk, HandleUsed, Collides, AddCodes;
    var joined, next := Join(db, p.handle, p.secret, p.codes), ConfirmSignup(db, session, csrf, secret).0;
    assert next.recovery == joined.recovery;
    MerchantSerials(db);
    assert LiveCodes(next, db.next.merchant) == LiveCodes(joined, db.next.merchant) by { SameLiveCodes(next, joined, db.next.merchant); }
  }

  lemma SameLiveCodes(a: Market, b: Market, m: nat)
    requires a.recovery == b.recovery
    ensures LiveCodes(a, m) == LiveCodes(b, m)
  {
  }

  lemma JoinedSet(db: Market, handle: string, secret: Hash, codes: seq<Hash>)
    requires Valid(db) && !Collides(db, codes)
    ensures LiveCodes(Join(db, handle, secret, codes), db.next.merchant) == ToSet(codes)
  {
    hide GrantsOk, SignupsOk;
    AddToNew(db, Join(db, handle, secret, codes), ToSet(codes)) by { NoCollision(db, codes); }
  }

  // ----- Grants -----

  /**
    An approved code is good for exactly five minutes, and once: exchanged in time by the client it was
    issued to, it opens a family whose access token speaks for the merchant and whose refresh token rotates.
   */
  lemma ApprovedGrantWorks(db: Market, session: Hash, csrf: Hash, secret: Hash, m: nat, wait: nat)
    requires Valid(db) && Approve(db, session, csrf, secret).1 == Rows([Approved(m)])
    ensures session in db.requests &&
            var grant := db.requests[session].grant;
            var late := Later(Approve(db, session, csrf, secret).0, wait);
            var (next, family) := Exchange(late, db.next.code, grant.client, grant.redirect, grant.resource);
            (family.Some? <==> wait < 5 * MINUTE) &&
            (family.Some? ==>
               G.Resolve(next.grants, late.grants.nextToken, grant.resource, grant.scope) == Some(m) &&
               G.Rotatable(next.grants, late.grants.nextToken + 1, grant.client, grant.resource))
  {
    hide Valid, Approve, Issue, G.OpenFamily, G.Resolve, G.Rotatable;
    ApproveIssues(db, session, csrf, secret, m);
    IssuedCode(db, session, m);
    var grant := db.requests[session].grant;
    var late := Later(Issue(db, session, m), wait);
    OpenedTokens(late.grants, m, grant.client, grant.resource, grant.scope, db.merchants[m].keyChanges);
  }

  lemma ApproveIssues(db: Market, session: Hash, csrf: Hash, secret: Hash, m: nat)
    requires Approve(db, session, csrf, secret).1 == Rows([Approved(m)])
    ensures session in db.requests && m in db.merchants && Approve(db, session, csrf, secret).0 == Issue(db, session, m)
  {
    hide Issue;
    assert Approve(db, session, csrf, secret).1.rows[0] == Approved(m);
  }

  lemma IssuedCode(db: Market, session: Hash, m: nat)
    requires session in db.requests && m in db.merchants
    ensures var next := Issue(db, session, m);
            next.merchants == db.merchants && next.grants == db.grants && db.next.code in next.codes &&
            next.codes[db.next.code] ==
              AuthCode(session, m, db.requests[session].grant, db.Now() + CODE_LIFE, None, db.merchants[m].keyChanges)
  {
  }

  lemma OpenedTokens(g: G.Db, m: nat, client: string, resource: string, scope: string, epoch: nat)
    ensures var next := G.OpenFamily(g, m, client, resource, scope, epoch);
            G.Resolve(next, g.nextToken, resource, scope) == Some(m) && G.Rotatable(next, g.nextToken + 1, client, resource)
  {
  }

  /** A pairing code is good for exactly ten minutes while the key stands, and then hands out that key. */
  lemma PairingCodeWorks(db: Market, m: nat, wait: nat)
    requires m in db.merchants
    ensures var late := Later(CreatePairing(db, m), wait);
            var (spent, merchant) := SpendPairing(late, db.next.pairing);
            merchant == (if wait < 10 * MINUTE then Some(m) else None) && ReadKey(spent, m) == Some(db.merchants[m].secret)
  {
  }
}
