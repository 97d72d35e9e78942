/**
  Token families and tokens: the tables a code exchange opens, a refresh rotates and a key
  change revokes. A token's hash is modelled by its serial number: distinct random tokens have
  distinct hashes, and a number no row carries is an unknown token.
 */
module Grants {
  import opened Tables

  const ACCESS_PASS: nat := 10 * MINUTE
  const REFRESH_PASS: nat := 30 * DAY

  datatype Kind = Access | Refresh

  datatype Revocation = Revocation(at: nat, reason: string)

  /** `epoch` is bookkeeping: how many times the merchant's key had changed when it approved. */
  datatype Family = Family(
    merchant: nat, client: string, resource: string, scope: string,
    expires: nat, revoked: Option<Revocation>, epoch: nat)

  datatype Token = Token(
    kind: Kind, family: nat, from: Option<nat>, created: nat, expires: nat,
    used: Option<nat>, revoked: Option<nat>)

  datatype Db = Db(
    now: nat, families: map<nat, Family>, tokens: map<nat, Token>, nextFamily: nat, nextToken: nat)

  // ----- Statements -----

  /** `exchangeAuthorizationCode`, from `new_family` on. */
  function OpenFamily(db: Db, merchant: nat, client: string, resource: string, scope: string, epoch: nat): Db
  {
    var f, t := db.nextFamily, db.nextToken;
    db.(families := db.families[f := Family(merchant, client, resource, scope, db.now + REFRESH_PASS, None, epoch)],
        tokens := db.tokens[t := Token(Access, f, None, db.now, db.now + ACCESS_PASS, None, None)]
                           [t + 1 := Token(Refresh, f, None, db.now, db.now + REFRESH_PASS, None, None)],
        nextFamily := f + 1, nextToken := t + 2)
  }

  /** The token's row joined with its family. */
  predicate Joined(db: Db, h: nat) { h in db.tokens && db.tokens[h].family in db.families }

  function FamilyOf(db: Db, h: nat): Family
    requires Joined(db, h)
  {
    db.families[db.tokens[h].family]
  }

  predicate Matches(db: Db, h: nat, client: string, resource: string)
  {
    Joined(db, h) && db.tokens[h].kind == Refresh &&
    FamilyOf(db, h).client == client && FamilyOf(db, h).resource == resource
  }

  /** The guard of `consumed_refresh`. */
  predicate Rotatable(db: Db, h: nat, client: string, resource: string)
  {
    Matches(db, h, client, resource) && db.tokens[h].used.None? && db.tokens[h].revoked.None? &&
    db.tokens[h].expires > db.now && FamilyOf(db, h).revoked.None? &&
    FamilyOf(db, h).expires >= db.now + ACCESS_PASS
  }

  /** Revoke some families and all their tokens; what was revoked before keeps its first record. */
  function Revoke(db: Db, gone: set<nat>, reason: string): Db
  {
    db.(families := map f | f in db.families ::
          if f in gone then db.families[f].(revoked := Coalesce(db.families[f].revoked, Revocation(db.now, reason)))
          else db.families[f],
        tokens := map t | t in db.tokens ::
          if db.tokens[t].family in gone then db.tokens[t].(revoked := Coalesce(db.tokens[t].revoked, db.now))
          else db.tokens[t])
  }

  predicate Replayed(db: Db, h: nat, client: string, resource: string)
  {
    Matches(db, h, client, resource) && db.tokens[h].used.Some?
  }

  /** `revokeReusedRefreshToken` */
  function RevokeReused(db: Db, h: nat, client: string, resource: string): Db
  {
    if Replayed(db, h, client, resource) then Revoke(db, {db.tokens[h].family}, "refresh token reuse") else db
  }

  datatype RotateResult = Rotated | Reused | Invalid

  /** The consumed token with its two successors. */
  function Rotation(db: Db, h: nat): Db
    requires Joined(db, h)
  {
    var t, f := db.nextToken, FamilyOf(db, h);
    var id := db.tokens[h].family;
    db.(tokens := db.tokens[h := db.tokens[h].(used := Some(db.now))]
                           [t := Token(Access, id, None, db.now, Least(db.now + ACCESS_PASS, f.expires), None, None)]
                           [t + 1 := Token(Refresh, id, Some(h), db.now, f.expires, None, None)],
        nextToken := t + 2)
  }

  /** `rotateRefreshToken` */
  function Rotate(db: Db, h: nat, client: string, resource: string): (Db, RotateResult)
  {
    if Rotatable(db, h, client, resource) then (Rotation(db, h), Rotated)
    else (RevokeReused(db, h, client, resource), if Replayed(db, h, client, resource) then Reused else Invalid)
  }

  /** `revokeTokenFamilyByToken` */
  function RevokeByToken(db: Db, h: nat, client: string): Db
  {
    if Joined(db, h) && FamilyOf(db, h).client == client
    then Revoke(db, {db.tokens[h].family}, "client revocation") else db
  }

  function FamiliesOf(db: Db, merchant: nat): set<nat>
  {
    set f | f in db.families && db.families[f].merchant == merchant
  }

  /** The grant half of a key change. */
  function RevokeMerchant(db: Db, merchant: nat, reason: string): Db
  {
    Revoke(db, FamiliesOf(db, merchant), reason)
  }

  /** `resolveOAuthAccessToken`: the merchant an access token speaks for. */
  function Resolve(db: Db, h: nat, resource: string, scope: string): Option<nat>
  {
    if Joined(db, h) && db.tokens[h].kind == Access && db.tokens[h].used.None? && db.tokens[h].revoked.None? &&
       db.tokens[h].expires > db.now && FamilyOf(db, h).resource == resource && FamilyOf(db, h).scope == scope &&
       FamilyOf(db, h).revoked.None? && FamilyOf(db, h).expires > db.now
    then Some(FamilyOf(db, h).merchant) else None
  }

  datatype Subject = Active | Replay | Junk

  /** `resolveRefreshRateLimitSubject` */
  function Classify(db: Db, h: nat, client: string, resource: string): Subject
  {
    if !Matches(db, h, client, resource) then Junk
    else
      var t, f := db.tokens[h], FamilyOf(db, h);
      if t.used.Some? && t.revoked.None? && t.expires > db.now && f.revoked.None? && f.expires > db.now then Replay
      else if t.used.None? && t.revoked.None? && t.expires > db.now && f.revoked.None? &&
              f.expires >= db.now + ACCESS_PASS then Active
      else Junk
  }

  // ----- Retention -----

  predicate Retired(db: Db, f: nat)
  {
    f in db.families && db.families[f].expires + RETENTION <= db.now
  }

  function RetiredCandidates(db: Db): set<nat>
  {
    set t | t in db.tokens && Retired(db, db.tokens[t].family)
  }

  function Newer(rows: set<nat>, t: nat): set<nat> { set u | u in rows && u > t }

  /** ORDER BY id DESC LIMIT 50: a row is taken when fewer than fifty rows are newer. */
  function RetiredTokens(db: Db): set<nat>
  {
    set t | t in RetiredCandidates(db) && |Newer(RetiredCandidates(db), t)| < PRUNE_LIMIT
  }

  function RetiredFamilyRows(db: Db): set<nat>
  {
    set f | f in db.families && Retired(db, f) &&
            forall t :: t in db.tokens && db.tokens[t].family == f ==> t in RetiredTokens(db)
  }

  predicate Before(db: Db, f: nat, g: nat)
    requires f in db.families && g in db.families
  {
    db.families[f].expires < db.families[g].expires || (db.families[f].expires == db.families[g].expires && f < g)
  }

  /** ORDER BY expires_at, id LIMIT 50. */
  function RetiredFamilies(db: Db): set<nat>
  {
    var rows := RetiredFamilyRows(db);
    set f | f in rows && |set g | g in rows && g in db.families && Before(db, g, f)| < PRUNE_LIMIT
  }

  /** The token and family half of the pruning in `consumeOAuthRateLimit`. */
  function Prune(db: Db): Db
  {
    db.(tokens := db.tokens - RetiredTokens(db), families := db.families - RetiredFamilies(db))
  }

  function Tick(db: Db, elapsed: nat): Db { db.(now := db.now + elapsed) }

  // ----- What every statement keeps -----

  ghost predicate RowsValid(db: Db)
  {
    (forall f :: f in db.families ==> f < db.nextFamily) &&
    (forall t :: t in db.tokens ==> t < db.nextToken && db.tokens[t].family in db.families)
  }

  /** No token outlives its family, and an access token lasts its ten minutes. */
  ghost predicate LifetimesValid(db: Db)
    requires RowsValid(db)
  {
    forall t :: t in db.tokens ==>
      var tok := db.tokens[t];
      tok.expires <= FamilyOf(db, t).expires &&
      (tok.kind == Refresh ==> tok.expires == FamilyOf(db, t).expires) &&
      (tok.kind == Access ==> tok.expires == tok.created + ACCESS_PASS && tok.from.None? && tok.used.None?)
  }

  ghost predicate RevocationsValid(db: Db)
    requires RowsValid(db)
  {
    forall t :: t in db.tokens ==> (db.tokens[t].revoked.Some? <==> FamilyOf(db, t).revoked.Some?)
  }

  predicate IsRefresh(db: Db, t: nat) { t in db.tokens && db.tokens[t].kind == Refresh }

  /** Links point back to an older, used refresh token of the same family. */
  ghost predicate LinksValid(db: Db)
  {
    forall t :: t in db.tokens && db.tokens[t].from.Some? ==>
      var p := db.tokens[t].from.value;
      IsRefresh(db, t) && IsRefresh(db, p) && p < t && db.tokens[p].family == db.tokens[t].family && db.tokens[p].used.Some?
  }

  /** One root and one unused token a family, one successor a token. */
  ghost predicate PathsValid(db: Db)
  {
    forall t, u :: IsRefresh(db, t) && IsRefresh(db, u) && db.tokens[t].family == db.tokens[u].family && t != u ==>
      db.tokens[t].from != db.tokens[u].from && (db.tokens[t].used.Some? || db.tokens[u].used.Some?)
  }

  ghost predicate Valid(db: Db)
  {
    RowsValid(db) && LifetimesValid(db) && RevocationsValid(db) && LinksValid(db) && PathsValid(db)
  }

  lemma OpenFamilyRows(db: Db, merchant: nat, client: string, resource: string, scope: string, epoch: nat)
    requires Valid(db)
    ensures var next := OpenFamily(db, merchant, client, resource, scope, epoch);
            RowsValid(next) && LifetimesValid(next) && RevocationsValid(next)
  {
    hide LinksValid, PathsValid;
  }

  lemma OpenFamilyLinks(db: Db, merchant: nat, client: string, resource: string, scope: string, epoch: nat)
    requires Valid(db)
    ensures var next := OpenFamily(db, merchant, client, resource, scope, epoch); LinksValid(next) && PathsValid(next)
  {
    hide LifetimesValid, RevocationsValid, LinksValid, PathsValid;
    var next := OpenFamily(db, merchant, client, resource, scope, epoch);
    assert forall t :: t in db.tokens ==> next.tokens[t] == db.tokens[t] && t < db.nextToken;
    assert forall t: nat :: IsRefresh(next, t) <==> t == db.nextToken + 1 || IsRefresh(db, t);
    NewRootLinks(db, next);
    NewRootPaths(db, next);
  }

  /** One refresh token without a link is new, in a family that is new, and no other changes. */
  predicate NewRoot(db: Db, next: Db)
  {
    (forall t :: t in db.tokens ==> t in next.tokens && next.tokens[t] == db.tokens[t] && t < db.nextToken) &&
    (forall t :: t in next.tokens && t !in db.tokens ==> next.tokens[t].from.None? && next.tokens[t].family == db.nextFamily) &&
    (forall t :: t in next.tokens && IsRefresh(next, t) ==> t == db.nextToken + 1 || IsRefresh(db, t))
  }

  lemma NewRootLinks(db: Db, next: Db)
    requires LinksValid(db) && NewRoot(db, next)
    ensures LinksValid(next)
  {
  }

  lemma NewRootPaths(db: Db, next: Db)
    requires RowsValid(db) && PathsValid(db) && NewRoot(db, next) && db.nextToken !in db.tokens && db.nextToken + 1 !in db.tokens
    ensures PathsValid(next)
  {
  }

  lemma OpenFamilyValid(db: Db, merchant: nat, client: string, resource: string, scope: string, epoch: nat)
    requires Valid(db)
    ensures Valid(OpenFamily(db, merchant, client, resource, scope, epoch))
  {
    hide RowsValid, LifetimesValid, RevocationsValid, LinksValid, PathsValid, OpenFamily;
    OpenFamilyRows(db, merchant, client, resource, scope, epoch);
    OpenFamilyLinks(db, merchant, client, resource, scope, epoch);
  }

  lemma RevokeRows(db: Db, gone: set<nat>, reason: string)
    requires Valid(db)
    ensures var next := Revoke(db, gone, reason); RowsValid(next) && LifetimesValid(next) && RevocationsValid(next)
  {
    hide LinksValid, PathsValid;
  }

  lemma RevokeValid(db: Db, gone: set<nat>, reason: string)
    requires Valid(db)
    ensures Valid(Revoke(db, gone, reason))
  {
    hide LifetimesValid, RevocationsValid;
    RevokeRows(db, gone, reason);
  }

  lemma RotationRows(db: Db, h: nat, client: string, resource: string)
    requires Valid(db) && Rotatable(db, h, client, resource)
    ensures var next := Rotation(db, h); RowsValid(next) && LifetimesValid(next) && RevocationsValid(next)
  {
    hide LinksValid, PathsValid;
  }

  lemma RotationLinks(db: Db, h: nat, client: string, resource: string)
    requires Valid(db) && Rotatable(db, h, client, resource)
    ensures LinksValid(Rotation(db, h))
  {
    hide LifetimesValid, RevocationsValid, PathsValid;
    var next := Rotation(db, h);
    assert h < db.nextToken && next.tokens[h] == db.tokens[h].(used := Some(db.now));
    forall t | t in next.tokens && next.tokens[t].from.Some?
      ensures var p := next.tokens[t].from.value;
              IsRefresh(next, t) && IsRefresh(next, p) && p < t && next.tokens[p].family == next.tokens[t].family &&
              next.tokens[p].used.Some?
    {
      if t < db.nextToken {
        var p := db.tokens[t].from.value;
        assert p in db.tokens && p < t;
      }
    }
  }

  lemma RotationPaths(db: Db, h: nat, client: string, resource: string)
    requires Valid(db) && Rotatable(db, h, client, resource)
    ensures PathsValid(Rotation(db, h))
  {
    hide LifetimesValid, RevocationsValid;
    var next := Rotation(db, h);
    forall t: nat, u: nat | IsRefresh(next, t) && IsRefresh(next, u) && next.tokens[t].family == next.tokens[u].family && t < u
      ensures next.tokens[t].from != next.tokens[u].from && (next.tokens[t].used.Some? || next.tokens[u].used.Some?)
    {
      assert IsRefresh(db, t);
      if u == db.nextToken + 1 {
        RotationOthers(db, h, client, resource, t);
      } else {
        assert IsRefresh(db, u) && next.tokens[u].from == db.tokens[u].from && next.tokens[t].from == db.tokens[t].from;
      }
    }
  }

  /** Before a rotation, every other refresh token of the family is used and none continues `h`. */
  lemma RotationOthers(db: Db, h: nat, client: string, resource: string, t: nat)
    requires Valid(db) && Rotatable(db, h, client, resource)
    requires IsRefresh(db, t) && db.tokens[t].family == db.tokens[h].family
    ensures t != h ==> db.tokens[t].used.Some?
    ensures db.tokens[t].from != Some(h)
  {
    hide LifetimesValid, RevocationsValid;
  }

  lemma RotationValid(db: Db, h: nat, client: string, resource: string)
    requires Valid(db) && Rotatable(db, h, client, resource)
    ensures Valid(Rotation(db, h))
  {
    hide RowsValid, LifetimesValid, RevocationsValid, LinksValid, PathsValid, Rotation;
    RotationRows(db, h, client, resource);
    RotationLinks(db, h, client, resource);
    RotationPaths(db, h, client, resource);
  }

  /** Newest first: what links to a pruned token is pruned with it. */
  lemma PruneClosed(db: Db, t: nat)
    requires RowsValid(db) && LinksValid(db)
    requires t in db.tokens && t !in RetiredTokens(db) && db.tokens[t].from.Some?
    ensures db.tokens[t].from.value !in RetiredTokens(db)
  {
    var p := db.tokens[t].from.value;
    var rows := RetiredCandidates(db);
    assert Newer(rows, t) <= Newer(rows, p);
    SubsetSize(Newer(rows, t), Newer(rows, p));
  }

  /** No pruned row is referenced by a row that stays. */
  lemma PruneReferences(db: Db)
    requires Valid(db)
    ensures var next := Prune(db);
            forall t :: t in next.tokens ==>
              next.tokens[t].family in next.families &&
              (next.tokens[t].from.Some? ==> next.tokens[t].from.value in next.tokens)
  {
    hide RetiredTokens, LifetimesValid, RevocationsValid, PathsValid;
    var next := Prune(db);
    forall t | t in next.tokens && next.tokens[t].from.Some? ensures next.tokens[t].from.value in next.tokens {
      PruneClosed(db, t);
    }
  }

  lemma PruneValid(db: Db)
    requires Valid(db)
    ensures Valid(Prune(db))
  {
    hide RetiredTokens, RetiredFamilies;
    PruneReferences(db);
  }
}
