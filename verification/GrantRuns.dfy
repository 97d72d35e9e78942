/** What holds over every run of the token statements. */
module GrantRuns {
  import opened Tables
  import opened Grants

  datatype Event =
    | Exchanged(merchant: nat, client: string, resource: string, scope: string, epoch: nat)
    | Refreshed(h: nat, client: string, resource: string)
    | Revoked(h: nat, client: string)
    | KeyChanged(merchant: nat, reason: string)
    | Pruned
    | Ticked(elapsed: nat)

  function Apply(db: Db, e: Event): Db
  {
    match e
    case Exchanged(m, c, r, s, epoch) => OpenFamily(db, m, c, r, s, epoch)
    case Refreshed(h, c, r) => Rotate(db, h, c, r).0
    case Revoked(h, c) => RevokeByToken(db, h, c)
    case KeyChanged(m, reason) => RevokeMerchant(db, m, reason)
    case Pruned => Prune(db)
    case Ticked(d) => Tick(db, d)
  }

  function Run(db: Db, es: seq<Event>): Db
    decreases |es|
  {
    if es == [] then db else Run(Apply(db, es[0]), es[1..])
  }

  const EMPTY: Db := Db(0, map[], map[], 0, 0)

  lemma ApplyValid(db: Db, e: Event)
    requires Valid(db)
    ensures Valid(Apply(db, e))
  {
    hide RowsValid, LifetimesValid, RevocationsValid, LinksValid, PathsValid, Rotation, OpenFamily, Revoke, Prune, Rotatable;
    match e
    case Exchanged(m, c, r, s, epoch) => OpenFamilyValid(db, m, c, r, s, epoch);
    case Refreshed(h, c, r) =>
      if Rotatable(db, h, c, r) { RotationValid(db, h, c, r); }
      else if Replayed(db, h, c, r) { RevokeValid(db, {db.tokens[h].family}, "refresh token reuse"); }
    case Revoked(h, c) =>
      if Joined(db, h) { RevokeValid(db, {db.tokens[h].family}, "client revocation"); }
    case KeyChanged(m, reason) => RevokeValid(db, FamiliesOf(db, m), reason);
    case Pruned => PruneValid(db);
    case Ticked(d) => TickValid(db, d);
  }

  lemma TickValid(db: Db, d: nat)
    requires Valid(db)
    ensures Valid(Tick(db, d))
  {
    assert RowsValid(Tick(db, d));
  }

  /** Every run keeps the shape of the tables. */
  lemma {:induction false} RunValid(db: Db, es: seq<Event>)
    requires Valid(db)
    ensures Valid(Run(db, es))
    decreases |es|
  {
    hide Valid;
    if es != [] {
      ApplyValid(db, es[0]);
      RunValid(Apply(db, es[0]), es[1..]);
    }
  }

  // ----- One use a token -----

  /** The token was issued and is used up or pruned. */
  predicate Spent(db: Db, h: nat) { h < db.nextToken && (h in db.tokens ==> db.tokens[h].used.Some?) }

  lemma ApplySpent(db: Db, e: Event, h: nat)
    requires Spent(db, h)
    ensures Spent(Apply(db, e), h)
  {
  }

  lemma {:induction false} RunSpent(db: Db, es: seq<Event>, h: nat)
    requires Spent(db, h)
    ensures Spent(Run(db, es), h)
    decreases |es|
  {
    hide Spent;
    if es != [] {
      ApplySpent(db, es[0], h);
      RunSpent(Apply(db, es[0]), es[1..], h);
    }
  }

  /** A refresh token rotates at most once in any run. */
  lemma RotatesOnce(db: Db, h: nat, client: string, resource: string, es: seq<Event>, client': string, resource': string)
    requires Valid(db) && Rotate(db, h, client, resource).1 == Rotated
    ensures Rotate(Run(Rotate(db, h, client, resource).0, es), h, client', resource').1 != Rotated
  {
    var after := Rotate(db, h, client, resource).0;
    assert Spent(after, h);
    RunSpent(after, es, h);
  }

  /** The family was opened and is revoked or pruned. */
  predicate Dead(db: Db, f: nat) { f < db.nextFamily && (f in db.families ==> db.families[f].revoked.Some?) }

  lemma ApplyDead(db: Db, e: Event, f: nat)
    requires Dead(db, f)
    ensures Dead(Apply(db, e), f)
  {
  }

  lemma {:induction false} RunDead(db: Db, es: seq<Event>, f: nat)
    requires Dead(db, f)
    ensures Dead(Run(db, es), f)
    decreases |es|
  {
    hide Dead, Apply;
    if es != [] {
      ApplyDead(db, es[0], f);
      RunDead(Apply(db, es[0]), es[1..], f);
    }
  }

  /** Nothing of a dead family resolves or rotates. */
  ghost predicate Silent(db: Db, f: nat)
  {
    forall t :: t in db.tokens && db.tokens[t].family == f ==>
      (forall r, s :: Resolve(db, t, r, s) == None) && (forall c, r :: !Rotatable(db, t, c, r))
  }

  /**
    Replaying a spent refresh token kills its family for good: in every later state none of its
    tokens, old or newer, resolves or rotates.
   */
  lemma ReplayKills(db: Db, h: nat, client: string, resource: string, es: seq<Event>)
    requires Valid(db) && Rotate(db, h, client, resource).1 == Reused
    ensures h in db.tokens && Silent(Run(Rotate(db, h, client, resource).0, es), db.tokens[h].family)
  {
    hide PathsValid, LinksValid, LifetimesValid, RevocationsValid;
    var after := Rotate(db, h, client, resource).0;
    assert Dead(after, db.tokens[h].family);
    RunDead(after, es, db.tokens[h].family);
  }

  // ----- One path a family -----

  function RefreshTokens(db: Db, f: nat): set<nat>
  {
    set t | t in db.tokens && IsRefresh(db, t) && db.tokens[t].family == f
  }

  function LinkAt(path: seq<nat>, i: nat): Option<nat>
    requires i < |path|
  {
    if i == 0 then None else Some(path[i - 1])
  }

  ghost predicate IsPath(db: Db, members: set<nat>, path: seq<nat>)
  {
    (forall t :: t in members <==> t in path) &&
    (forall i :: 0 <= i < |path| ==> path[i] in db.tokens) &&
    (forall i :: 0 <= i < |path| ==> db.tokens[path[i]].from == LinkAt(path, i))
  }

  lemma {:induction false} Largest(s: set<nat>) returns (m: nat)
    requires s != {}
    ensures m in s && forall t :: t in s ==> t <= m
    decreases |s|
  {
    var x :| x in s;
    var rest := s - {x};
    m := x;
    if rest != {} {
      var k := Largest(rest);
      m := if k > x then k else x;
      assert forall t :: t in s ==> t == x || t in rest;
    } else {
      assert forall t :: t in s ==> t == x || t in rest;
    }
  }

  /** Refresh tokens of one family that keep every token they link to. */
  ghost predicate Closed(db: Db, f: nat, members: set<nat>)
  {
    forall t :: t in members ==>
      IsRefresh(db, t) && db.tokens[t].family == f && (db.tokens[t].from.Some? ==> db.tokens[t].from.value in members)
  }

  lemma {:induction false} PathOf(db: Db, f: nat, members: set<nat>) returns (path: seq<nat>)
    requires LinksValid(db) && PathsValid(db) && Closed(db, f, members)
    ensures IsPath(db, members, path)
    decreases |members|
  {
    hide PathsValid, IsPath;
    if members == {} {
      path := [];
      EmptyPath(db);
    } else {
      var m := Largest(members);
      var rest := members - {m};
      forall t | t in rest && db.tokens[t].from.Some? ensures db.tokens[t].from.value in rest {
        assert db.tokens[t].from.value < t;
      }
      var before := PathOf(db, f, rest);
      assert rest + {m} == members;
      LinkOfLargest(db, f, m, rest, before);
      path := before + [m];
      PathExtend(db, m, rest, before);
    }
  }

  lemma EmptyPath(db: Db)
    ensures IsPath(db, {}, [])
  {
  }

  lemma PathExtend(db: Db, m: nat, rest: set<nat>, before: seq<nat>)
    requires m in db.tokens && IsPath(db, rest, before)
    requires db.tokens[m].from == if before == [] then None else Some(before[|before| - 1])
    ensures IsPath(db, rest + {m}, before + [m])
  {
    var path := before + [m];
    forall i | 0 <= i < |path| ensures path[i] in db.tokens && db.tokens[path[i]].from == LinkAt(path, i) {
      if i < |before| {
        assert path[i] == before[i] && db.tokens[before[i]].from == LinkAt(before, i);
      }
    }
  }

  lemma LinkDown(db: Db, f: nat, m: nat, rest: set<nat>)
    requires LinksValid(db) && Closed(db, f, rest + {m})
    ensures db.tokens[m].from.Some? ==> db.tokens[m].from.value in rest
  {
    assert m in rest + {m};
    assert IsRefresh(db, m);
  }

  lemma LinkOfLargest(db: Db, f: nat, m: nat, rest: set<nat>, before: seq<nat>)
    requires LinksValid(db) && PathsValid(db) && Closed(db, f, rest + {m}) && m !in rest
    requires IsPath(db, rest, before)
    ensures db.tokens[m].from == if before == [] then None else Some(before[|before| - 1])
  {
    hide PathsValid, LinksValid, IsPath;
    LinkDown(db, f, m, rest);
    if db.tokens[m].from.None? {
      if before != [] { NotTheLinkAt(db, f, m, rest, before, 0); }
    } else {
      InPath(db, rest, before, db.tokens[m].from.value);
      var j :| 0 <= j < |before| && before[j] == db.tokens[m].from.value;
      if j < |before| - 1 { NotTheLinkAt(db, f, m, rest, before, j + 1); }
    }
  }

  lemma InPath(db: Db, members: set<nat>, path: seq<nat>, t: nat)
    requires IsPath(db, members, path) && t in members
    ensures exists j :: 0 <= j < |path| && path[j] == t
  {
  }

  /** A link that the path already uses is not the link of a token outside it. */
  lemma NotTheLinkAt(db: Db, f: nat, m: nat, rest: set<nat>, path: seq<nat>, i: nat)
    requires PathsValid(db) && Closed(db, f, rest + {m}) && m !in rest && IsPath(db, rest, path) && i < |path|
    ensures m in db.tokens && db.tokens[m].from != LinkAt(path, i)
  {
    hide PathsValid;
    assert path[i] in rest && path[i] in rest + {m} && m in rest + {m};
    Distinct(db, f, m, path[i]);
  }

  lemma Distinct(db: Db, f: nat, t: nat, u: nat)
    requires PathsValid(db) && t != u
    requires IsRefresh(db, t) && IsRefresh(db, u) && db.tokens[t].family == f == db.tokens[u].family
    ensures db.tokens[t].from != db.tokens[u].from
  {
  }

  /** The refresh tokens of a family form one chain of rotations; only its end may be unused. */
  lemma FamilyIsPath(db: Db, f: nat) returns (path: seq<nat>)
    requires Valid(db)
    ensures IsPath(db, RefreshTokens(db, f), path)
    ensures forall i :: 0 <= i < |path| - 1 ==> path[i] < path[i + 1] && db.tokens[path[i]].used.Some?
  {
    hide LifetimesValid, RevocationsValid;
    path := PathOf(db, f, RefreshTokens(db, f));
    forall i | 0 <= i < |path| - 1 ensures path[i] < path[i + 1] && db.tokens[path[i]].used.Some? {
      assert db.tokens[path[i + 1]].from == LinkAt(path, i + 1);
    }
  }

  /** LEAST never shortens an access token: it is issued for the full ten minutes. */
  lemma FullTenMinutes(db: Db, h: nat, client: string, resource: string)
    requires Valid(db) && Rotatable(db, h, client, resource)
    ensures var after := Rotation(db, h);
            after.tokens[db.nextToken].expires == db.now + ACCESS_PASS &&
            forall r, s :: FamilyOf(db, h).resource == r && FamilyOf(db, h).scope == s ==>
              Resolve(after, db.nextToken, r, s) == Some(FamilyOf(db, h).merchant)
  {
    hide PathsValid, LinksValid, LifetimesValid, RevocationsValid;
  }
}
