/** Whom a grant serves and for how long, and what each token statement leaves alone: laws on the rows themselves. */
module GrantBounds {
  import opened Tables
  import opened Grants
  import opened GrantRuns
  import opened TokenRoute

  // ----- One statement -----

  /** The presented string is a refresh token of exactly this client and this resource. */
  predicate RefreshOf(db: Db, h: nat, client: string, resource: string)
  {
    h in db.tokens && db.tokens[h].kind == Refresh && db.tokens[h].family in db.families &&
    var f := db.families[db.tokens[h].family];
    f.client == client && f.resource == resource
  }

  /** Neither the token nor its family is revoked, and both last beyond now. */
  predicate Unspoilt(db: Db, h: nat)
  {
    h in db.tokens && db.tokens[h].family in db.families &&
    var (t, f) := (db.tokens[h], db.families[db.tokens[h].family]);
    t.revoked.None? && f.revoked.None? && t.expires > db.now && f.expires > db.now
  }

  /**
    A refresh rotates exactly for an unused token in good order, presented by its own client for its own
    resource while the family has ten minutes left; a used one of that client and resource is a replay;
    everything else is invalid and changes nothing.
   */
  predicate RotationMeans(a: Db, h: nat, client: string, resource: string, b: Db, result: RotateResult)
  {
    var own := RefreshOf(a, h, client, resource);
    (result == Rotated <==>
       own && Unspoilt(a, h) && a.tokens[h].used == None && a.now + 10 * MINUTE <= a.families[a.tokens[h].family].expires) &&
    (result == Reused <==> own && a.tokens[h].used != None) && (result == Invalid ==> b == a)
  }

  lemma RotatesExactly(db: Db, h: nat, client: string, resource: string)
    ensures var (next, result) := Rotate(db, h, client, resource);
            RotationMeans(db, h, client, resource, next, result)
  {
  }

  /** The classification draws the same lines, but calls a replay junk when nothing is left to revoke. */
  predicate ClassMeans(db: Db, h: nat, client: string, resource: string, s: Subject)
  {
    var good := RefreshOf(db, h, client, resource) && Unspoilt(db, h);
    (s == Active <==> good && db.tokens[h].used == None && db.now + 10 * MINUTE <= db.families[db.tokens[h].family].expires) &&
    (s == Replay <==> good && db.tokens[h].used != None)
  }

  lemma ClassifiesExactly(db: Db, h: nat, client: string, resource: string)
    ensures ClassMeans(db, h, client, resource, Classify(db, h, client, resource))
  {
  }

  /** Presented by another client or for another resource, a token does nothing. */
  lemma AnotherClientNothing(db: Db, h: nat, client: string, resource: string)
    requires !RefreshOf(db, h, client, resource)
    ensures Rotate(db, h, client, resource) == (db, Invalid) && RevokeReused(db, h, client, resource) == db
    ensures Classify(db, h, client, resource) == Junk
  {
  }

  /** An access token speaks for its merchant exactly for its own resource and scope, in good order. */
  lemma ResolvesExactly(db: Db, h: nat, resource: string, scope: string, m: nat)
    ensures Resolve(db, h, resource, scope) == Some(m) <==>
      Unspoilt(db, h) && db.tokens[h].kind == Access && db.tokens[h].used == None &&
      var f := db.families[db.tokens[h].family];
      f.merchant == m && f.resource == resource && f.scope == scope
  {
  }

  /** Every row that is not of family `id` is as it was, and no row comes or goes. */
  ghost predicate OnlyFamily(a: Db, b: Db, id: nat)
  {
    b.now == a.now && b.nextFamily == a.nextFamily && b.nextToken == a.nextToken &&
    b.families.Keys == a.families.Keys && b.tokens.Keys == a.tokens.Keys &&
    (forall f :: f in a.families && f != id ==> b.families[f] == a.families[f]) &&
    (forall t :: t in a.tokens && a.tokens[t].family != id ==> b.tokens[t] == a.tokens[t])
  }

  /** A family and all its tokens are revoked; what was revoked before keeps its time and reason. */
  ghost predicate FamilyRevoked(a: Db, b: Db, id: nat, reason: string)
  {
    id in a.families && id in b.families &&
    b.families[id] == a.families[id].(revoked := b.families[id].revoked) &&
    b.families[id].revoked == (if a.families[id].revoked.Some? then a.families[id].revoked else Some(Revocation(a.now, reason))) &&
    forall t :: t in a.tokens && a.tokens[t].family == id ==>
      t in b.tokens && b.tokens[t] == a.tokens[t].(revoked := b.tokens[t].revoked) &&
      b.tokens[t].revoked == (if a.tokens[t].revoked.Some? then a.tokens[t].revoked else Some(a.now))
  }

  lemma RevokesOne(db: Db, id: nat, reason: string)
    requires id in db.families
    ensures OnlyFamily(db, Revoke(db, {id}, reason), id) && FamilyRevoked(db, Revoke(db, {id}, reason), id, reason)
  {
  }

  /** A replay and a client's revocation cost the presented token's family, and no other row. */
  lemma RevokesItsFamily(db: Db, h: nat, client: string, resource: string)
    ensures var next := RevokeByToken(db, h, client);
            if h in db.tokens && db.tokens[h].family in db.families && db.families[db.tokens[h].family].client == client
            then OnlyFamily(db, next, db.tokens[h].family) && FamilyRevoked(db, next, db.tokens[h].family, "client revocation")
            else next == db
    ensures var (next, result) := Rotate(db, h, client, resource);
            result == Reused ==>
              h in db.tokens && next == RevokeReused(db, h, client, resource) &&
              OnlyFamily(db, next, db.tokens[h].family) && FamilyRevoked(db, next, db.tokens[h].family, "refresh token reuse")
  {
    hide Revoke, OnlyFamily, FamilyRevoked;
    if Joined(db, h) {
      RevokesOne(db, db.tokens[h].family, "client revocation");
      RevokesOne(db, db.tokens[h].family, "refresh token reuse");
    }
  }

  /**
    A rotation uses the token up and adds two: an access token that resolves for the same merchant,
    resource and scope, and a refresh token, linked to the used one, that rotates next. Nothing else moves.
   */
  lemma RotationIssues(db: Db, h: nat, client: string, resource: string)
    requires Valid(db) && Rotate(db, h, client, resource).1 == Rotated
    ensures var next := Rotate(db, h, client, resource).0;
            h in db.tokens && db.tokens[h].family in db.families &&
            var f := db.families[db.tokens[h].family];
            next.families == db.families && next.now == db.now && next.nextToken == db.nextToken + 2 &&
            next.tokens.Keys == db.tokens.Keys + {db.nextToken, db.nextToken + 1} &&
            (forall t :: t in db.tokens && t != h ==> next.tokens[t] == db.tokens[t]) &&
            next.tokens[h] == db.tokens[h].(used := Some(db.now)) &&
            Resolve(next, db.nextToken, resource, f.scope) == Some(f.merchant) &&
            next.tokens[db.nextToken].expires == db.now + 10 * MINUTE &&
            next.tokens[db.nextToken + 1].from == Some(h) && next.tokens[db.nextToken + 1].expires == f.expires &&
            Classify(next, db.nextToken + 1, client, resource) == Active
  {
    hide PathsValid, LinksValid, RevocationsValid, LifetimesValid;
    assert h < db.nextToken;
  }

  // ----- Retention -----

  /** The tokens whose families expired thirty days ago. */
  function OldTokens(db: Db): set<nat>
  {
    set t | t in db.tokens && db.tokens[t].family in db.families &&
            db.families[db.tokens[t].family].expires + 30 * 24 * 60 * MINUTE <= db.now
  }

  /** The families that expired thirty days ago and have no token left in `tokens`. */
  function OldFamilies(db: Db, tokens: map<nat, Token>): set<nat>
  {
    set f | f in db.families && db.families[f].expires + 30 * 24 * 60 * MINUTE <= db.now &&
            forall t :: t in tokens ==> tokens[t].family != f
  }

  /** Expiry, then number. */
  predicate Sooner(db: Db, f: nat, g: nat)
  {
    f in db.families && g in db.families &&
    (db.families[f].expires < db.families[g].expires || (db.families[f].expires == db.families[g].expires && f < g))
  }

  /**
    One pruning takes fifty of the tokens whose families expired thirty days ago, or all there are,
    newest first, then as many of the families it leaves without tokens, the longest expired first. What
    stays is unchanged.
   */
  lemma PruneTakesFifty(db: Db)
    requires Valid(db)
    ensures var next := Prune(db);
            var (tokens, families) := (db.tokens.Keys - next.tokens.Keys, db.families.Keys - next.families.Keys);
            next == db.(tokens := next.tokens, families := next.families) &&
            next.tokens == db.tokens - tokens && next.families == db.families - families &&
            tokens <= OldTokens(db) && |tokens| == Least(|OldTokens(db)|, 50) &&
            (forall x, y :: x in tokens && y in OldTokens(db) - tokens ==> x > y) &&
            families <= OldFamilies(db, next.tokens) && |families| == Least(|OldFamilies(db, next.tokens)|, 50) &&
            (forall x, y :: x in families && y in OldFamilies(db, next.tokens) - families ==> Sooner(db, x, y))
  {
    hide Valid;
    TokensTaken(db);
    FamiliesTaken(db);
    hide RetiredTokens, RetiredFamilies, OldTokens, OldFamilies;
    var next := Prune(db);
    assert db.tokens.Keys - next.tokens.Keys == RetiredTokens(db) && db.families.Keys - next.families.Keys == RetiredFamilies(db);
  }

  lemma TokensTaken(db: Db)
    ensures var tokens := RetiredTokens(db);
            tokens <= OldTokens(db) <= db.tokens.Keys && |tokens| == Least(|OldTokens(db)|, 50) &&
            forall x, y :: x in tokens && y in OldTokens(db) - tokens ==> x > y
  {
    var newer := (u: nat, t: nat) => u > t;
    var rows, tokens := OldTokens(db), RetiredTokens(db);
    assert rows == RetiredCandidates(db);
    forall t ensures Newer(rows, t) == Ahead(rows, newer, t) { }
    assert tokens == FirstFew(rows, newer, 50);
    FirstFewCount(rows, newer, 50);
    forall x, y | x in tokens && y in rows - tokens ensures x > y { FirstFewLead(rows, newer, 50, x, y); }
  }

  lemma SoonerSorts(db: Db, rows: set<nat>)
    requires rows <= db.families.Keys
    ensures Sorts(rows, (f, g) => Sooner(db, f, g))
  {
  }

  lemma OldFamilyRows(db: Db)
    ensures RetiredFamilyRows(db) == OldFamilies(db, db.tokens - RetiredTokens(db))
  {
    hide RetiredTokens;
    var left := db.tokens - RetiredTokens(db);
    assert forall t :: t in left <==> t in db.tokens && t !in RetiredTokens(db);
    assert forall t :: t in left ==> left[t] == db.tokens[t];
    assert forall t :: t in db.tokens ==> t in left || t in RetiredTokens(db);
    forall f ensures f in RetiredFamilyRows(db) <==> f in OldFamilies(db, left) { }
  }

  lemma FewFamilies(db: Db)
    ensures RetiredFamilies(db) == FirstFew(RetiredFamilyRows(db), (f, g) => Sooner(db, f, g), 50)
  {
    var rows := RetiredFamilyRows(db);
    var before := (f, g) => Sooner(db, f, g);
    forall f | f in rows ensures Ahead(rows, before, f) == set g | g in rows && g in db.families && Before(db, g, f) {
      hide RetiredFamilyRows;
    }
    hide RetiredFamilyRows;
  }

  lemma FamiliesTaken(db: Db)
    ensures var families := RetiredFamilies(db);
            var rows := OldFamilies(db, db.tokens - RetiredTokens(db));
            families <= rows <= db.families.Keys && |families| == Least(|rows|, 50) &&
            forall x, y :: x in families && y in rows - families ==> Sooner(db, x, y)
  {
    OldFamilyRows(db);
    FewFamilies(db);
    var before := (f, g) => Sooner(db, f, g);
    var rows, families := RetiredFamilyRows(db), RetiredFamilies(db);
    assert rows <= db.families.Keys;
    hide RetiredFamilyRows, RetiredFamilies, OldFamilies, Sooner;
    SoonerSorts(db, rows);
    hide Sorts;
    FirstFewCount(rows, before, 50);
    forall x, y | x in families && y in rows - families ensures Sooner(db, x, y) { FirstFewLead(rows, before, 50, x, y); }
  }

  // ----- The life of a grant -----

  /** The family of this exchange, as it was opened. */
  predicate Opened(db: Db, f: nat, m: nat, client: string, resource: string, scope: string, end: nat)
  {
    f in db.families && db.families[f].merchant == m && db.families[f].client == client &&
    db.families[f].resource == resource && db.families[f].scope == scope && db.families[f].expires == end
  }

  /**
    What one token of the family can do. An access token speaks for the merchant, for this resource and
    scope, until ten minutes after its issue; a refresh token rotates for this client and resource while ten
    minutes of the family are left, and once used it is a replay; nobody else's presentation does anything.
   */
  ghost predicate Serves(db: Db, h: nat, m: nat, client: string, resource: string, scope: string, end: nat)
    requires h in db.tokens
  {
    var t := db.tokens[h];
    (forall n, r, s :: Resolve(db, h, r, s) == Some(n) <==>
       n == m && r == resource && s == scope && t.kind == Access && t.revoked.None? && db.now < t.created + 10 * MINUTE) &&
    (forall c, r :: Rotate(db, h, c, r).1 == Rotated <==>
       c == client && r == resource && t.kind == Refresh && t.used.None? && t.revoked.None? && db.now + 10 * MINUTE <= end) &&
    (forall c, r :: Rotate(db, h, c, r).1 == Reused <==> c == client && r == resource && t.kind == Refresh && t.used.Some?) &&
    (forall c, r :: c != client || r != resource ==> Rotate(db, h, c, r).0 == db) &&
    (forall c :: c != client ==> RevokeByToken(db, h, c) == db)
  }

  lemma OpenedServes(db: Db, h: nat, m: nat, client: string, resource: string, scope: string, end: nat)
    requires Valid(db) && h in db.tokens && Opened(db, db.tokens[h].family, m, client, resource, scope, end)
    ensures Serves(db, h, m, client, resource, scope, end)
  {
    hide PathsValid, LinksValid, Revoke, Rotation;
  }

  /** Whatever runs after an exchange, this is exactly what the tokens of its family can do, within thirty days of it. */
  lemma GrantServes(db: Db, m: nat, client: string, resource: string, scope: string, epoch: nat, es: seq<Event>)
    requires Valid(db)
    ensures var late := Run(OpenFamily(db, m, client, resource, scope, epoch), es);
            forall h :: h in late.tokens && late.tokens[h].family == db.nextFamily ==>
              Serves(late, h, m, client, resource, scope, db.now + 30 * 24 * 60 * MINUTE)
  {
    var first, f, end := OpenFamily(db, m, client, resource, scope, epoch), db.nextFamily, db.now + 30 * 24 * 60 * MINUTE;
    assert Opened(first, f, m, client, resource, scope, end);
    OpenFamilyValid(db, m, client, resource, scope, epoch);
    var late := Run(first, es);
    RunLater(first, es);
    hide OpenFamily, Run;
    forall h | h in late.tokens && late.tokens[h].family == f ensures Serves(late, h, m, client, resource, scope, end) {
      StaysOpened(first, late, f, m, client, resource, scope, end, h);
      OpenedServes(late, h, m, client, resource, scope, end);
    }
  }

  lemma StaysOpened(a: Db, b: Db, f: nat, m: nat, client: string, resource: string, scope: string, end: nat, h: nat)
    requires Later(a, b) && Valid(b) && Opened(a, f, m, client, resource, scope, end)
    requires h in b.tokens && b.tokens[h].family == f
    ensures Opened(b, f, m, client, resource, scope, end)
  {
    hide LifetimesValid, RevocationsValid, PathsValid, LinksValid;
    assert FamilyLater(a, b, f);
  }
}
