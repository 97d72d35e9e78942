/**
  The refresh half of `POST /oauth/token`: classify, admit, rotate. The classifier only reads,
  and the theorem is that putting it in front of the rotation cannot be observed.
 */
module TokenRoute {
  import opened Tables
  import opened Grants
  import opened GrantRuns

  /** What a rate limit said, or that its store failed. */
  datatype Admission = Admitted | Denied | Failed

  datatype Answer = Issued(access: nat, refresh: nat) | Rejected | Throttled | Unavailable

  function Refusal(a: Admission): Answer
  {
    match a case Admitted => Rejected case Denied => Throttled case Failed => Unavailable
  }

  function RotateAndAnswer(db: Db, h: nat, client: string, resource: string): (Db, Answer)
  {
    var (next, r) := Rotate(db, h, client, resource);
    (next, if r == Rotated then Issued(db.nextToken, db.nextToken + 1) else Rejected)
  }

  /**
    The rest of the route once the token is classified: junk never reaches the store, and a replay
    always does. `subject` may be out of date, since the handler waits between its calls.
   */
  function Route(db: Db, subject: Subject, h: nat, client: string, resource: string, connection: Admission, junk: Admission): (Db, Answer)
  {
    match subject
    case Junk => (db, Refusal(junk))
    case Active => if connection == Admitted then RotateAndAnswer(db, h, client, resource) else (db, Refusal(connection))
    case Replay => RotateAndAnswer(db, h, client, resource)
  }

  /** The reference: the same connection allowance, and every other request is rotated. */
  function Always(db: Db, subject: Subject, h: nat, client: string, resource: string, connection: Admission): (Db, Answer)
  {
    if subject == Active && connection != Admitted then (db, Refusal(connection))
    else RotateAndAnswer(db, h, client, resource)
  }

  // ----- The view that later requests can observe -----

  function LiveFamily(db: Db, f: nat): Option<Family>
  {
    if f in db.families && db.families[f].expires > db.now then Some(db.families[f]) else None
  }

  function LiveToken(db: Db, t: nat): Option<Token>
  {
    if t in db.tokens && LiveFamily(db, db.tokens[t].family).Some? then Some(db.tokens[t]) else None
  }

  /** Two states that agree on every unexpired family and on all its tokens. */
  ghost predicate Agree(a: Db, b: Db)
  {
    a.now == b.now && a.nextFamily == b.nextFamily && a.nextToken == b.nextToken &&
    (forall f :: LiveFamily(a, f) == LiveFamily(b, f)) && (forall t :: LiveToken(a, t) == LiveToken(b, t))
  }

  lemma AgreeTrans(a: Db, b: Db, c: Db)
    requires Agree(a, b) && Agree(b, c)
    ensures Agree(a, c)
  {
  }

  /** Agreeing states answer every question alike. */
  lemma AgreeObserve(a: Db, b: Db, h: nat, client: string, resource: string, scope: string)
    requires Agree(a, b) && RowsValid(a) && RowsValid(b) && LifetimesValid(a) && LifetimesValid(b)
    ensures Resolve(a, h, resource, scope) == Resolve(b, h, resource, scope)
    ensures Rotatable(a, h, client, resource) == Rotatable(b, h, client, resource)
    ensures Classify(a, h, client, resource) == Classify(b, h, client, resource)
  {
    assert LiveToken(a, h) == LiveToken(b, h);
    if h in a.tokens { assert LiveFamily(a, a.tokens[h].family) == LiveFamily(b, a.tokens[h].family); }
    if h in b.tokens { assert LiveFamily(a, b.tokens[h].family) == LiveFamily(b, b.tokens[h].family); }
  }

  lemma AgreeRotation(a: Db, b: Db, h: nat, client: string, resource: string)
    requires Agree(a, b) && Valid(a) && Valid(b) && Rotatable(a, h, client, resource) && Rotatable(b, h, client, resource)
    ensures Agree(Rotation(a, h), Rotation(b, h))
  {
    hide LifetimesValid, RevocationsValid, LinksValid, PathsValid;
    var f := a.tokens[h].family;
    assert LiveToken(a, h) == LiveToken(b, h) && LiveFamily(a, f) == LiveFamily(b, f);
    var a', b' := Rotation(a, h), Rotation(b, h);
    forall g ensures LiveFamily(a', g) == LiveFamily(b', g) { assert LiveFamily(a, g) == LiveFamily(b, g); }
    forall t ensures LiveToken(a', t) == LiveToken(b', t) { assert LiveToken(a, t) == LiveToken(b, t); }
  }

  /** Revoking sets of families that contain the same unexpired ones. */
  lemma AgreeRevoke(a: Db, b: Db, x: set<nat>, y: set<nat>, reason: string)
    requires Agree(a, b)
    requires forall f :: LiveFamily(a, f).Some? ==> (f in x <==> f in y)
    ensures Agree(Revoke(a, x, reason), Revoke(b, y, reason))
  {
    var a', b' := Revoke(a, x, reason), Revoke(b, y, reason);
    forall f ensures LiveFamily(a', f) == LiveFamily(b', f) { assert LiveFamily(a, f) == LiveFamily(b, f); }
    forall t ensures LiveToken(a', t) == LiveToken(b', t) {
      assert LiveToken(a, t) == LiveToken(b, t);
      if t in a.tokens { assert LiveFamily(a, a.tokens[t].family) == LiveFamily(b, a.tokens[t].family); }
      if t in b.tokens { assert LiveFamily(a, b.tokens[t].family) == LiveFamily(b, b.tokens[t].family); }
    }
  }

  lemma RevokeNothing(a: Db, reason: string)
    ensures Revoke(a, {}, reason) == a
  {
  }

  /** The families a reuse check revokes. */
  function ReuseSet(db: Db, h: nat, client: string, resource: string): set<nat>
  {
    if Replayed(db, h, client, resource) then {db.tokens[h].family} else {}
  }

  function TokenSet(db: Db, h: nat, client: string): set<nat>
  {
    if Joined(db, h) && FamilyOf(db, h).client == client then {db.tokens[h].family} else {}
  }

  lemma ReuseIsRevoke(db: Db, h: nat, client: string, resource: string)
    ensures RevokeReused(db, h, client, resource) == Revoke(db, ReuseSet(db, h, client, resource), "refresh token reuse")
    ensures RevokeByToken(db, h, client) == Revoke(db, TokenSet(db, h, client), "client revocation")
  {
    RevokeNothing(db, "refresh token reuse");
    RevokeNothing(db, "client revocation");
  }

  lemma AgreeRotate(a: Db, b: Db, h: nat, client: string, resource: string)
    requires Agree(a, b) && Valid(a) && Valid(b)
    ensures Agree(Rotate(a, h, client, resource).0, Rotate(b, h, client, resource).0)
    ensures RotateAndAnswer(a, h, client, resource).1 == RotateAndAnswer(b, h, client, resource).1
  {
    hide LifetimesValid, RevocationsValid, LinksValid, PathsValid, Revoke, Rotation, Rotatable, RevokeReused, Agree;
    AgreeObserve(a, b, h, client, resource, "");
    if Rotatable(a, h, client, resource) {
      AgreeRotation(a, b, h, client, resource);
    } else {
      ReuseIsRevoke(a, h, client, resource);
      ReuseIsRevoke(b, h, client, resource);
      SameReuse(a, b, h, client, resource);
      AgreeRevoke(a, b, ReuseSet(a, h, client, resource), ReuseSet(b, h, client, resource), "refresh token reuse");
    }
    AgreeCounters(a, b);
  }

  lemma AgreeCounters(a: Db, b: Db)
    requires Agree(a, b)
    ensures a.now == b.now && a.nextToken == b.nextToken && a.nextFamily == b.nextFamily
  {
  }

  lemma SameReuse(a: Db, b: Db, h: nat, client: string, resource: string)
    requires Agree(a, b) && RowsValid(a) && RowsValid(b)
    ensures forall f :: LiveFamily(a, f).Some? ==>
      (f in ReuseSet(a, h, client, resource) <==> f in ReuseSet(b, h, client, resource)) &&
      (f in TokenSet(a, h, client) <==> f in TokenSet(b, h, client))
  {
    assert LiveToken(a, h) == LiveToken(b, h);
    if h in a.tokens { assert LiveFamily(a, a.tokens[h].family) == LiveFamily(b, a.tokens[h].family); }
    if h in b.tokens { assert LiveFamily(a, b.tokens[h].family) == LiveFamily(b, b.tokens[h].family); }
  }

  // ----- Junk is inert -----

  /** Rotating a junk token could only touch families that are already dead. */
  lemma JunkIsInert(db: Db, h: nat, client: string, resource: string)
    requires Valid(db) && Classify(db, h, client, resource) == Junk
    ensures Agree(db, Rotate(db, h, client, resource).0)
    ensures Rotate(db, h, client, resource).1 != Rotated
  {
    hide LinksValid, PathsValid;
    if Replayed(db, h, client, resource) {
      var f := db.tokens[h].family;
      var next := Revoke(db, {f}, "refresh token reuse");
      forall g ensures LiveFamily(db, g) == LiveFamily(next, g) { }
      forall t ensures LiveToken(db, t) == LiveToken(next, t) { }
    }
  }

  /** The last step of a request: the route and the reference agree on state, and on what they issue. */
  lemma RouteStep(a: Db, b: Db, subject: Subject, h: nat, client: string, resource: string, connection: Admission, junk: Admission)
    requires Agree(a, b) && Valid(a) && Valid(b)
    requires subject == Junk ==> Classify(a, h, client, resource) == Junk
    ensures Agree(Route(a, subject, h, client, resource, connection, junk).0, Always(b, subject, h, client, resource, connection).0)
    ensures SameIssue(Some(Route(a, subject, h, client, resource, connection, junk).1),
                      Some(Always(b, subject, h, client, resource, connection).1))
  {
    hide LifetimesValid, RevocationsValid, LinksValid, PathsValid, Agree, Classify, Rotate;
    AgreeObserve(a, b, h, client, resource, "");
    AgreeRotate(a, b, h, client, resource);
    if subject == Junk {
      JunkIsInert(b, h, client, resource);
      AgreeTrans(a, b, Rotate(b, h, client, resource).0);
    }
  }

  // ----- A stale classification -----

  predicate Known(db: Db, h: nat) { h < db.nextToken }

  lemma KnownStep(db: Db, e: Event)
    ensures db.nextToken <= Apply(db, e).nextToken
  {
  }

  /** A known token that is junk stays junk. */
  lemma JunkStep(db: Db, e: Event, h: nat, client: string, resource: string)
    requires Valid(db) && Known(db, h) && Classify(db, h, client, resource) == Junk
    ensures Known(Apply(db, e), h) && Classify(Apply(db, e), h, client, resource) == Junk
  {
    RowsOf(db);
    KnownStep(db, e);
    hide Valid, Classify, Rotation, Revoke, OpenFamily, Prune;
    match e
    case Exchanged(m, c, r, s, epoch) => JunkOpen(db, m, c, r, s, epoch, h, client, resource);
    case Refreshed(g, c, r) =>
      if Rotatable(db, g, c, r) { JunkRotation(db, g, c, r, h, client, resource); }
      else if Replayed(db, g, c, r) { JunkRevoke(db, {db.tokens[g].family}, "refresh token reuse", h, client, resource); }
    case Revoked(g, c) =>
      if Joined(db, g) { JunkRevoke(db, {db.tokens[g].family}, "client revocation", h, client, resource); }
    case KeyChanged(m, reason) => JunkRevoke(db, FamiliesOf(db, m), reason, h, client, resource);
    case Pruned => JunkPrune(db, h, client, resource);
    case Ticked(d) => JunkTick(db, d, h, client, resource);
  }

  lemma JunkOpen(db: Db, m: nat, c: string, r: string, s: string, epoch: nat, h: nat, client: string, resource: string)
    requires RowsValid(db) && Known(db, h) && Classify(db, h, client, resource) == Junk
    ensures Classify(OpenFamily(db, m, c, r, s, epoch), h, client, resource) == Junk
  {
    assert h in db.tokens ==> db.tokens[h].family < db.nextFamily;
  }

  lemma JunkRotation(db: Db, g: nat, c: string, r: string, h: nat, client: string, resource: string)
    requires RowsValid(db) && Rotatable(db, g, c, r) && Known(db, h) && Classify(db, h, client, resource) == Junk
    ensures Classify(Rotation(db, g), h, client, resource) == Junk
  {
  }

  lemma JunkRevoke(db: Db, gone: set<nat>, reason: string, h: nat, client: string, resource: string)
    requires Classify(db, h, client, resource) == Junk
    ensures Classify(Revoke(db, gone, reason), h, client, resource) == Junk
  {
  }

  lemma JunkPrune(db: Db, h: nat, client: string, resource: string)
    requires Classify(db, h, client, resource) == Junk
    ensures Classify(Prune(db), h, client, resource) == Junk
  {
    hide RetiredTokens, RetiredFamilies;
  }

  lemma JunkTick(db: Db, d: nat, h: nat, client: string, resource: string)
    requires Classify(db, h, client, resource) == Junk
    ensures Classify(Tick(db, d), h, client, resource) == Junk
  {
  }

  /** A request classified before other requests ran still does no harm to skip. */
  lemma {:induction false} JunkForever(db: Db, es: seq<Event>, h: nat, client: string, resource: string)
    requires Valid(db) && Known(db, h) && Classify(db, h, client, resource) == Junk
    ensures Classify(Run(db, es), h, client, resource) == Junk
    ensures Agree(Run(db, es), Rotate(Run(db, es), h, client, resource).0)
    decreases |es|
  {
    hide Valid, Classify, Apply, Agree, Rotate;
    if es == [] {
      JunkIsInert(db, h, client, resource);
    } else {
      ApplyValid(db, es[0]);
      JunkStep(db, es[0], h, client, resource);
      JunkForever(Apply(db, es[0]), es[1..], h, client, resource);
    }
  }

  /** A family keeps its terms and its revocation, and goes only when it is thirty days expired. */
  predicate FamilyLater(a: Db, b: Db, f: nat)
    requires f in a.families
  {
    if f in b.families then
      b.families[f] == a.families[f].(revoked := b.families[f].revoked) &&
      (a.families[f].revoked.Some? ==> b.families[f].revoked.Some?)
    else a.families[f].expires + RETENTION <= b.now
  }

  /** A token keeps its terms, its use and its revocation, and goes only with its family's time. */
  predicate TokenLater(a: Db, b: Db, t: nat)
    requires Joined(a, t)
  {
    if t in b.tokens then
      b.tokens[t] == a.tokens[t].(used := b.tokens[t].used, revoked := b.tokens[t].revoked) &&
      (a.tokens[t].used.Some? ==> b.tokens[t].used.Some?) && (a.tokens[t].revoked.Some? ==> b.tokens[t].revoked.Some?)
    else FamilyOf(a, t).expires + RETENTION <= b.now
  }

  predicate CountersLater(a: Db, b: Db)
  {
    a.now <= b.now && a.nextToken <= b.nextToken && a.nextFamily <= b.nextFamily &&
    (forall f :: f in b.families && f < a.nextFamily ==> f in a.families) &&
    (forall t :: t in b.tokens && t < a.nextToken ==> t in a.tokens)
  }

  /** How a run moves the rows that were there. */
  ghost predicate Later(a: Db, b: Db)
  {
    CountersLater(a, b) &&
    (forall f :: f in a.families ==> FamilyLater(a, b, f)) && (forall t :: Joined(a, t) ==> TokenLater(a, b, t))
  }

  lemma RevokeLater(db: Db, gone: set<nat>, reason: string)
    ensures Later(db, Revoke(db, gone, reason))
  {
  }

  lemma PruneLater(db: Db)
    ensures Later(db, Prune(db))
  {
    PruneTakesRetired(db);
    hide RetiredTokens, RetiredFamilies;
  }

  lemma RotationLater(db: Db, h: nat)
    requires RowsValid(db) && Joined(db, h)
    ensures Later(db, Rotation(db, h))
  {
  }

  lemma OpenLater(db: Db, m: nat, c: string, r: string, s: string, epoch: nat)
    requires RowsValid(db)
    ensures Later(db, OpenFamily(db, m, c, r, s, epoch))
  {
  }

  lemma LaterRefl(db: Db)
    ensures Later(db, db)
  {
  }

  lemma LaterTrans(a: Db, b: Db, c: Db)
    requires RowsValid(a) && RowsValid(b) && Later(a, b) && Later(b, c)
    ensures Later(a, c)
  {
    hide Later;
    LaterParts(a, b);
    LaterParts(b, c);
    assert CountersLater(a, c);
    forall f | f in a.families ensures FamilyLater(a, c, f) { FamilyTrans(a, b, c, f); }
    forall t | Joined(a, t) ensures TokenLater(a, c, t) { TokenTrans(a, b, c, t); }
    LaterWhole(a, c);
  }

  lemma LaterParts(a: Db, b: Db)
    requires Later(a, b)
    ensures CountersLater(a, b)
    ensures forall f :: f in a.families ==> FamilyLater(a, b, f)
    ensures forall t :: Joined(a, t) ==> TokenLater(a, b, t)
  {
  }

  lemma LaterWhole(a: Db, b: Db)
    requires CountersLater(a, b)
    requires forall f :: f in a.families ==> FamilyLater(a, b, f)
    requires forall t :: Joined(a, t) ==> TokenLater(a, b, t)
    ensures Later(a, b)
  {
  }

  lemma FamilyTrans(a: Db, b: Db, c: Db, f: nat)
    requires RowsValid(a) && CountersLater(a, b) && CountersLater(b, c) && f in a.families
    requires FamilyLater(a, b, f) && (f in b.families ==> FamilyLater(b, c, f))
    ensures FamilyLater(a, c, f)
  {
  }

  lemma TokenTrans(a: Db, b: Db, c: Db, t: nat)
    requires RowsValid(a) && RowsValid(b) && CountersLater(a, b) && CountersLater(b, c) && Joined(a, t)
    requires FamilyLater(a, b, a.tokens[t].family)
    requires TokenLater(a, b, t) && (Joined(b, t) ==> TokenLater(b, c, t))
    ensures TokenLater(a, c, t)
  {
    hide LifetimesValid, RevocationsValid;
  }

  lemma ApplyLater(db: Db, e: Event)
    requires Valid(db)
    ensures Later(db, Apply(db, e))
  {
    RowsOf(db);
    hide Valid, Later, Rotatable, Replayed, Rotation, Revoke, Prune, OpenFamily;
    LaterRefl(db);
    match e
    case Exchanged(m, c, r, s, epoch) => OpenLater(db, m, c, r, s, epoch);
    case Refreshed(h, c, r) =>
      if Joined(db, h) { RotationLater(db, h); RevokeLater(db, {db.tokens[h].family}, "refresh token reuse"); }
      Unmatched(db, h, c, r);
    case Revoked(h, c) =>
      if Joined(db, h) { RevokeLater(db, {db.tokens[h].family}, "client revocation"); }
    case KeyChanged(m, reason) => RevokeLater(db, FamiliesOf(db, m), reason);
    case Pruned => PruneLater(db);
    case Ticked(d) => assert Later(db, Tick(db, d)) by { TickLater(db, d); }
  }

  lemma Unmatched(db: Db, h: nat, client: string, resource: string)
    ensures Rotatable(db, h, client, resource) || Replayed(db, h, client, resource) ==> Joined(db, h)
  {
  }

  lemma TickLater(db: Db, d: nat)
    ensures Later(db, Tick(db, d))
  {
  }

  lemma {:induction false} RunLater(db: Db, es: seq<Event>)
    requires Valid(db)
    ensures Valid(Run(db, es)) && Later(db, Run(db, es))
    decreases |es|
  {
    hide Valid, Later, Apply;
    RowsOf(db);
    if es == [] {
      LaterRefl(db);
    } else {
      var next := Apply(db, es[0]);
      ApplyValid(db, es[0]);
      ApplyLater(db, es[0]);
      RunLater(next, es[1..]);
      RowsOf(next);
      LaterTrans(db, next, Run(next, es[1..]));
    }
  }

  /**
    What a classification still means when the route acts on it, whatever ran in between. An admitted
    active token is rotated, exactly if it was not used, its family not revoked and ten minutes are
    left; if it was used, the family is dead afterwards. A replay leaves its family dead or thirty days
    expired, whatever the junk limit says or throws. Junk changes nothing. A limit that denies is answered
    as throttled, and one whose store fails as unavailable.
   */
  lemma RouteVerdicts(db: Db, es: seq<Event>, h: nat, client: string, resource: string, connection: Admission, junk: Admission)
    requires Valid(db)
    ensures var (late, subject) := (Run(db, es), Classify(db, h, client, resource));
            var (next, answer) := Route(late, subject, h, client, resource, connection, junk);
            match subject
            case Active =>
              Joined(db, h) &&
              var (f, expires) := (db.tokens[h].family, FamilyOf(db, h).expires);
              (match connection
               case Admitted =>
                 answer == (if !Spent(late, h) && !Dead(late, f) && late.now + 10 * MINUTE <= expires
                            then Issued(late.nextToken, late.nextToken + 1) else Rejected) &&
                 (Spent(late, h) ==> Dead(next, f) || expires + 30 * DAY <= late.now)
               case Denied => next == late && answer == Throttled
               case Failed => next == late && answer == Unavailable)
            case Replay =>
              Joined(db, h) && answer == Rejected &&
              (Dead(next, db.tokens[h].family) || FamilyOf(db, h).expires + 30 * DAY <= late.now)
            case Junk =>
              next == late &&
              (match junk
               case Admitted => answer == Rejected
               case Denied => answer == Throttled
               case Failed => answer == Unavailable)
  {
    hide Valid, Classify, Run, Route, RotateAndAnswer, Spent, Dead, Later, RowsValid, LifetimesValid;
    var late, subject := Run(db, es), Classify(db, h, client, resource);
    RunLater(db, es);
    RowsOf(db);
    RowsOf(late);
    RouteTakes(late, subject, h, client, resource, connection, junk);
    if subject != Junk { Classified(db, h, client, resource); }
    if subject == Active { ActiveLater(db, late, h, client, resource); }
    if subject == Replay { ReplayLater(db, late, h, client, resource); }
  }

  lemma Classified(db: Db, h: nat, client: string, resource: string)
    requires Classify(db, h, client, resource) != Junk
    ensures Joined(db, h)
  {
  }

  lemma RouteTakes(db: Db, subject: Subject, h: nat, client: string, resource: string, connection: Admission, junk: Admission)
    ensures Route(db, subject, h, client, resource, connection, junk) ==
            if subject == Replay || (subject == Active && connection == Admitted) then RotateAndAnswer(db, h, client, resource)
            else (db, match if subject == Junk then junk else connection
                      case Admitted => Rejected
                      case Denied => Throttled
                      case Failed => Unavailable)
  {
    hide RotateAndAnswer;
  }

  lemma ActiveLater(db: Db, late: Db, h: nat, client: string, resource: string)
    requires RowsValid(db) && RowsValid(late) && LifetimesValid(db) && LifetimesValid(late) && Later(db, late)
    requires Classify(db, h, client, resource) == Active && Valid(late)
    ensures var (next, answer) := RotateAndAnswer(late, h, client, resource);
            var (f, expires) := (db.tokens[h].family, FamilyOf(db, h).expires);
            answer == (if !Spent(late, h) && !Dead(late, f) && late.now + ACCESS_PASS <= expires
                       then Issued(late.nextToken, late.nextToken + 1) else Rejected) &&
            (Spent(late, h) ==> Dead(next, f) || expires + RETENTION <= late.now)
  {
    hide LinksValid, PathsValid;
  }

  lemma ReplayLater(db: Db, late: Db, h: nat, client: string, resource: string)
    requires RowsValid(db) && RowsValid(late) && Later(db, late)
    requires Classify(db, h, client, resource) == Replay
    ensures var (next, answer) := RotateAndAnswer(late, h, client, resource);
            answer == Rejected && (Dead(next, db.tokens[h].family) || FamilyOf(db, h).expires + RETENTION <= late.now)
  {
  }

  /**
    `rotateRefreshToken` looks for a replay in a second statement, when its first found nothing to
    consume. Whatever runs in between, that is the whole rotation at the later moment.
   */
  lemma LateReuseCheck(db: Db, es: seq<Event>, h: nat, client: string, resource: string)
    requires Valid(db) && Known(db, h) && !Rotatable(db, h, client, resource)
    ensures var late := Run(db, es);
            Rotate(late, h, client, resource) ==
              (RevokeReused(late, h, client, resource), if Replayed(late, h, client, resource) then Reused else Invalid)
  {
    RunLater(db, es);
    RowsOf(db);
    hide Run, Valid, RevokeReused, Replayed;
    StaysUnrotatable(db, Run(db, es), h, client, resource);
  }

  lemma StaysUnrotatable(db: Db, late: Db, h: nat, client: string, resource: string)
    requires RowsValid(db) && Later(db, late) && Known(db, h) && !Rotatable(db, h, client, resource)
    ensures !Rotatable(late, h, client, resource)
  {
    assert h in late.tokens ==> h in db.tokens && TokenLater(db, late, h);
    assert h in db.tokens ==> FamilyLater(db, late, db.tokens[h].family);
  }

  // ----- Whole runs -----

  /**
    A request in flight: its token was classified, and it has not been answered. `None` is a string
    that was no token when it was presented; tokens are random, so it never becomes one.
   */
  datatype Flight = Flight(token: Option<nat>, client: string, resource: string, subject: Subject)

  function Presents(db: Db, h: nat, client: string, resource: string): Flight
  {
    if Known(db, h) then Flight(Some(h), client, resource, Classify(db, h, client, resource))
    else Flight(None, client, resource, Junk)
  }

  function Concludes(direct: bool, db: Db, f: Flight, connection: Admission, junk: Admission): (Db, Answer)
  {
    if f.token.None? then (db, if direct then Rejected else Refusal(junk))
    else if direct then Always(db, f.subject, f.token.value, f.client, f.resource, connection)
    else Route(db, f.subject, f.token.value, f.client, f.resource, connection, junk)
  }

  datatype Server = Server(db: Db, flights: map<nat, Flight>)

  /** The two halves of a refresh request, and any other statement. */
  datatype Request =
    | Presented(q: nat, h: nat, client: string, resource: string)
    | Concluded(q: nat, connection: Admission, junk: Admission)
    | Other(e: Event)

  function Serve(direct: bool, s: Server, r: Request): (Server, Option<Answer>)
  {
    match r
    case Presented(q, h, c, res) => (s.(flights := s.flights[q := Presents(s.db, h, c, res)]), None)
    case Concluded(q, connection, junk) =>
      if q !in s.flights then (s, None)
      else
        var (next, a) := Concludes(direct, s.db, s.flights[q], connection, junk);
        (Server(next, s.flights - {q}), Some(a))
    case Other(e) => (s.(db := Apply(s.db, e)), None)
  }

  function ServeAll(direct: bool, s: Server, rs: seq<Request>): (Server, seq<Option<Answer>>)
    decreases |rs|
  {
    if rs == [] then (s, [])
    else
      var (next, a) := Serve(direct, s, rs[0]);
      var (last, more) := ServeAll(direct, next, rs[1..]);
      (last, [a] + more)
  }

  lemma AgreeSym(a: Db, b: Db)
    requires Agree(a, b)
    ensures Agree(b, a)
  {
  }

  lemma AgreeOpen(a: Db, b: Db, m: nat, c: string, r: string, s: string, epoch: nat)
    requires Agree(a, b) && RowsValid(a) && RowsValid(b)
    ensures Agree(OpenFamily(a, m, c, r, s, epoch), OpenFamily(b, m, c, r, s, epoch))
  {
    var a', b' := OpenFamily(a, m, c, r, s, epoch), OpenFamily(b, m, c, r, s, epoch);
    forall g ensures LiveFamily(a', g) == LiveFamily(b', g) { assert LiveFamily(a, g) == LiveFamily(b, g); }
    forall t ensures LiveToken(a', t) == LiveToken(b', t) { assert LiveToken(a, t) == LiveToken(b, t); }
  }

  lemma AgreeTick(a: Db, b: Db, d: nat)
    requires Agree(a, b)
    ensures Agree(Tick(a, d), Tick(b, d))
  {
    var a', b' := Tick(a, d), Tick(b, d);
    forall g ensures LiveFamily(a', g) == LiveFamily(b', g) { assert LiveFamily(a, g) == LiveFamily(b, g); }
    forall t ensures LiveToken(a', t) == LiveToken(b', t) {
      assert LiveToken(a, t) == LiveToken(b, t);
      if t in a.tokens { assert LiveFamily(a, a.tokens[t].family) == LiveFamily(b, a.tokens[t].family); }
      if t in b.tokens { assert LiveFamily(a, b.tokens[t].family) == LiveFamily(b, b.tokens[t].family); }
    }
  }

  /** Pruning is never observed: only rows of families dead for thirty days go. */
  lemma PruneAgrees(db: Db)
    requires RowsValid(db)
    ensures Agree(db, Prune(db))
  {
    var next := Prune(db);
    PruneTakesRetired(db);
    hide RetiredTokens, RetiredFamilies;
    forall g ensures LiveFamily(db, g) == LiveFamily(next, g) { }
    forall t ensures LiveToken(db, t) == LiveToken(next, t) { }
  }

  lemma PruneTakesRetired(db: Db)
    ensures forall t :: t in RetiredTokens(db) ==> t in db.tokens && Retired(db, db.tokens[t].family)
    ensures forall f :: f in RetiredFamilies(db) ==> Retired(db, f)
  {
  }

  /** Every statement, run on two states that agree, leaves them agreeing. */
  lemma AgreeApply(a: Db, b: Db, e: Event)
    requires Agree(a, b) && Valid(a) && Valid(b)
    ensures Agree(Apply(a, e), Apply(b, e))
  {
    hide LifetimesValid, RevocationsValid, LinksValid, PathsValid, Rotate, RevokeByToken, Revoke, Prune, OpenFamily, Agree;
    match e
    case Exchanged(m, c, r, s, epoch) => AgreeOpen(a, b, m, c, r, s, epoch);
    case Refreshed(h, c, r) => AgreeRotate(a, b, h, c, r);
    case Revoked(h, c) =>
      ReuseIsRevoke(a, h, c, "");
      ReuseIsRevoke(b, h, c, "");
      SameReuse(a, b, h, c, "");
      AgreeRevoke(a, b, TokenSet(a, h, c), TokenSet(b, h, c), "client revocation");
    case KeyChanged(m, reason) =>
      SameMerchant(a, b, m);
      AgreeRevoke(a, b, FamiliesOf(a, m), FamiliesOf(b, m), reason);
    case Pruned =>
      PruneAgrees(a);
      PruneAgrees(b);
      AgreeSym(a, Prune(a));
      AgreeTrans(Prune(a), a, b);
      AgreeTrans(Prune(a), b, Prune(b));
    case Ticked(d) => AgreeTick(a, b, d);
  }

  lemma SameMerchant(a: Db, b: Db, m: nat)
    requires Agree(a, b)
    ensures forall f :: LiveFamily(a, f).Some? ==> (f in FamiliesOf(a, m) <==> f in FamiliesOf(b, m))
  {
    forall f | LiveFamily(a, f).Some? ensures f in FamiliesOf(a, m) <==> f in FamiliesOf(b, m) {
      assert LiveFamily(a, f) == LiveFamily(b, f);
    }
  }

  /** A junk classification in flight is still right. */
  ghost predicate FlightOk(db: Db, f: Flight)
  {
    f.token.Some? ==>
      Known(db, f.token.value) && (f.subject == Junk ==> Classify(db, f.token.value, f.client, f.resource) == Junk)
  }

  ghost predicate ServerOk(s: Server)
  {
    Valid(s.db) && forall q :: q in s.flights ==> FlightOk(s.db, s.flights[q])
  }

  lemma FlightStep(db: Db, e: Event, f: Flight)
    requires Valid(db) && FlightOk(db, f)
    ensures FlightOk(Apply(db, e), f)
  {
    hide Valid, Classify;
    KnownStep(db, e);
    if f.token.Some? && f.subject == Junk { JunkStep(db, e, f.token.value, f.client, f.resource); }
  }

  /** Every step of the server changes the tables as one statement does, or not at all. */
  lemma ConcludesApplies(direct: bool, db: Db, f: Flight, connection: Admission, junk: Admission)
    ensures var next := Concludes(direct, db, f, connection, junk).0;
            next == db || (f.token.Some? && next == Apply(db, Refreshed(f.token.value, f.client, f.resource)))
  {
    hide Apply, Rotate;
    if f.token.Some? { RotateIsApply(db, f.token.value, f.client, f.resource); }
  }

  lemma ServeOk(direct: bool, s: Server, r: Request)
    requires ServerOk(s)
    ensures ServerOk(Serve(direct, s, r).0)
  {
    hide Valid, Apply, FlightOk, Concludes;
    match r
    case Presented(q, h, c, res) => assert FlightOk(s.db, Presents(s.db, h, c, res)) by { PresentsOk(s.db, h, c, res); }
    case Concluded(q, connection, junk) =>
      if q in s.flights {
        var f := s.flights[q];
        ConcludesApplies(direct, s.db, f, connection, junk);
        if f.token.Some? { StatementOk(s, Refreshed(f.token.value, f.client, f.resource)); }
      }
    case Other(e) => StatementOk(s, e);
  }

  lemma PresentsOk(db: Db, h: nat, client: string, resource: string)
    ensures FlightOk(db, Presents(db, h, client, resource))
  {
  }

  lemma StatementOk(s: Server, e: Event)
    requires ServerOk(s)
    ensures ServerOk(s.(db := Apply(s.db, e)))
  {
    hide Valid, Apply, FlightOk;
    ApplyValid(s.db, e);
    forall q | q in s.flights ensures FlightOk(Apply(s.db, e), s.flights[q]) { FlightStep(s.db, e, s.flights[q]); }
  }

  lemma RotateIsApply(db: Db, h: nat, client: string, resource: string)
    ensures Apply(db, Refreshed(h, client, resource)) == Rotate(db, h, client, resource).0
  {
  }

  /** Equal answers, or two that issue nothing. */
  predicate SameIssue(x: Option<Answer>, y: Option<Answer>)
  {
    x == y || (x.Some? && y.Some? && !x.value.Issued? && !y.value.Issued?)
  }

  /** Two servers with the same requests in flight over tables that agree. */
  ghost predicate Alike(a: Server, b: Server)
  {
    Agree(a.db, b.db) && a.flights == b.flights && ServerOk(a) && ServerOk(b)
  }

  lemma PresentsAgree(a: Db, b: Db, h: nat, client: string, resource: string)
    requires Agree(a, b) && Valid(a) && Valid(b)
    ensures Presents(a, h, client, resource) == Presents(b, h, client, resource)
  {
    RowsOf(a);
    RowsOf(b);
    AgreeCounters(a, b);
    hide Valid, Agree, Classify;
    AgreeObserve(a, b, h, client, resource, "");
  }

  lemma ServeStep(a: Server, b: Server, r: Request)
    requires Alike(a, b)
    ensures Alike(Serve(false, a, r).0, Serve(true, b, r).0)
    ensures SameIssue(Serve(false, a, r).1, Serve(true, b, r).1)
  {
    ServeOk(false, a, r);
    ServeOk(true, b, r);
    hide Valid, Apply, Agree, Route, Always, Classify;
    match r
    case Presented(q, h, c, res) => PresentsAgree(a.db, b.db, h, c, res);
    case Concluded(q, connection, junk) =>
      if q in a.flights {
        var f := a.flights[q];
        assert FlightOk(a.db, f);
        if f.token.Some? { RouteStep(a.db, b.db, f.subject, f.token.value, f.client, f.resource, connection, junk); }
      }
    case Other(e) => AgreeApply(a.db, b.db, e);
  }

  /**
    Over any run of refresh requests in flight together, mixed with any other statements, classifying
    first is the same as always rotating: the same tokens are issued to the same requests, and the
    final states cannot be told apart. Anything may run between a classification and its rotation.
   */
  lemma {:induction false} RouteEquivalence(a: Server, b: Server, rs: seq<Request>)
    requires Alike(a, b)
    ensures Alike(ServeAll(false, a, rs).0, ServeAll(true, b, rs).0)
    ensures var xs, ys := ServeAll(false, a, rs).1, ServeAll(true, b, rs).1;
            |xs| == |ys| == |rs| && forall i :: 0 <= i < |rs| ==> SameIssue(xs[i], ys[i])
    decreases |rs|
  {
    hide Alike, Serve, SameIssue;
    if rs != [] {
      ServeStep(a, b, rs[0]);
      RouteEquivalence(Serve(false, a, rs[0]).0, Serve(true, b, rs[0]).0, rs[1..]);
    }
  }

  // ----- Pruning -----

  /** Whatever requests are in flight and whatever runs after it, a pruning changes no later question, rotation or answer. */
  lemma PruneUnseen(s: Server, rs: seq<Request>, h: nat, client: string, resource: string, scope: string)
    requires ServerOk(s)
    ensures var pruned := s.(db := Prune(s.db));
            ServeAll(false, s, rs).1 == ServeAll(false, pruned, rs).1 &&
            var (x, y) := (ServeAll(false, s, rs).0, ServeAll(false, pruned, rs).0);
            x.flights == y.flights &&
            Resolve(x.db, h, resource, scope) == Resolve(y.db, h, resource, scope) &&
            Classify(x.db, h, client, resource) == Classify(y.db, h, client, resource) &&
            (Rotate(x.db, h, client, resource).1 == Rotated <==> Rotate(y.db, h, client, resource).1 == Rotated)
  {
    var pruned := s.(db := Prune(s.db));
    PruneAgrees(s.db) by { RowsOf(s.db); }
    assert Prune(s.db) == Apply(s.db, Pruned);
    StatementOk(s, Pruned);
    hide ServerOk, Agree, Resolve, Classify, Prune, Rotate, Rotatable, RevokeReused, Serve;
    AgreeRun(s, pruned, rs);
    var x, y := ServeAll(false, s, rs).0, ServeAll(false, pruned, rs).0;
    RowsOf(x.db) by { ServerValid(x); }
    RowsOf(y.db) by { ServerValid(y); }
    AgreeObserve(x.db, y.db, h, client, resource, scope);
    RotatedIff(x.db, h, client, resource);
    RotatedIff(y.db, h, client, resource);
  }

  lemma ServerValid(s: Server)
    requires ServerOk(s)
    ensures Valid(s.db)
  {
  }

  lemma RowsOf(db: Db)
    requires Valid(db)
    ensures RowsValid(db) && LifetimesValid(db)
  {
  }

  lemma RotatedIff(db: Db, h: nat, client: string, resource: string)
    ensures Rotate(db, h, client, resource).1 == Rotated <==> Rotatable(db, h, client, resource)
  {
  }

  lemma RouteAgree(a: Db, b: Db, subject: Subject, h: nat, client: string, resource: string, connection: Admission, junk: Admission)
    requires Agree(a, b) && Valid(a) && Valid(b)
    ensures var (x, y) := (Route(a, subject, h, client, resource, connection, junk), Route(b, subject, h, client, resource, connection, junk));
            x.1 == y.1 && Agree(x.0, y.0)
  {
    hide Valid, Agree, Rotate;
    AgreeRotate(a, b, h, client, resource);
  }

  lemma {:induction false} AgreeRun(a: Server, b: Server, rs: seq<Request>)
    requires Alike(a, b)
    ensures Alike(ServeAll(false, a, rs).0, ServeAll(false, b, rs).0)
    ensures ServeAll(false, a, rs).1 == ServeAll(false, b, rs).1
    decreases |rs|
  {
    hide Alike, Serve;
    if rs != [] {
      SameServe(a, b, rs[0]);
      AgreeRun(Serve(false, a, rs[0]).0, Serve(false, b, rs[0]).0, rs[1..]);
    }
  }

  lemma SameServe(a: Server, b: Server, r: Request)
    requires Alike(a, b)
    ensures Alike(Serve(false, a, r).0, Serve(false, b, r).0)
    ensures Serve(false, a, r).1 == Serve(false, b, r).1
  {
    ServeOk(false, a, r);
    ServeOk(false, b, r);
    hide Valid, Agree, Apply, Route, Classify;
    match r
    case Presented(q, h, c, res) => PresentsAgree(a.db, b.db, h, c, res);
    case Concluded(q, connection, junk) =>
      if q in a.flights && a.flights[q].token.Some? {
        var f := a.flights[q];
        RouteAgree(a.db, b.db, f.subject, f.token.value, f.client, f.resource, connection, junk);
      }
    case Other(e) => AgreeApply(a.db, b.db, e);
  }

  /**
    The one result pruning does change, which the route answers alike: the store says `Invalid`
    instead of `Reused` exactly for a used refresh token that the pruning removed.
   */
  lemma PruneRelabels(db: Db, h: nat, client: string, resource: string)
    requires Valid(db)
    ensures var (kept, pruned) := (Rotate(db, h, client, resource).1, Rotate(Prune(db), h, client, resource).1);
            (kept != pruned <==> Replayed(db, h, client, resource) && h in RetiredTokens(db)) &&
            (kept != pruned ==> kept == Reused && pruned == Invalid)
  {
    hide Valid, RetiredTokens, RetiredFamilies, Rotatable;
    RowsOf(db);
    PruneValid(db);
    RowsOf(Prune(db));
    PruneAgrees(db);
    AgreeObserve(db, Prune(db), h, client, resource, "");
    PruneKeepsReplay(db, h, client, resource);
    ReplayIsNotRotatable(db, h, client, resource);
  }

  lemma ReplayIsNotRotatable(db: Db, h: nat, client: string, resource: string)
    ensures Replayed(db, h, client, resource) ==> !Rotatable(db, h, client, resource)
  {
  }

  lemma PruneKeepsReplay(db: Db, h: nat, client: string, resource: string)
    requires Valid(db)
    ensures Replayed(Prune(db), h, client, resource) <==> Replayed(db, h, client, resource) && h !in RetiredTokens(db)
  {
    hide RetiredTokens, RetiredFamilies;
    PruneReferences(db);
  }

  /** In a small table every token of a retired family is pruned. */
  lemma SmallTablesEmpty(db: Db, h: nat)
    requires h in db.tokens && Retired(db, db.tokens[h].family) && |db.tokens| <= PRUNE_LIMIT
    ensures h in RetiredTokens(db)
  {
    var rows := RetiredCandidates(db);
    var others := db.tokens.Keys - {h};
    assert Newer(rows, h) <= others;
    SubsetSize(Newer(rows, h), others);
  }

  /** One family, its first refresh token rotated, long after it expired. */
  const STALE: Db :=
    Db(2 * REFRESH_PASS, map[0 := Family(0, "c", "r", "s", REFRESH_PASS, None, 0)],
       map[0 := Token(Access, 0, None, 0, ACCESS_PASS, None, None),
           1 := Token(Kind.Refresh, 0, None, 0, REFRESH_PASS, Some(0), None),
           2 := Token(Access, 0, None, 0, ACCESS_PASS, None, None),
           3 := Token(Kind.Refresh, 0, Some(1), 0, REFRESH_PASS, None, None)], 1, 4)

  const STALE_RUN: seq<Event> := [Exchanged(0, "c", "r", "s", 0), Refreshed(1, "c", "r"), Ticked(2 * REFRESH_PASS)]

  lemma StaleReached()
    ensures Run(EMPTY, STALE_RUN) == STALE
  {
    var one := Apply(EMPTY, STALE_RUN[0]);
    var two := Apply(one, STALE_RUN[1]);
    assert Run(EMPTY, STALE_RUN) == Run(one, STALE_RUN[1..]);
    assert Run(one, STALE_RUN[1..]) == Run(two, STALE_RUN[1..][1..]);
    assert STALE_RUN[1..][1..] == [STALE_RUN[2]];
    assert Run(two, [STALE_RUN[2]]) == Apply(two, STALE_RUN[2]);
  }

  lemma PruneRelabelsExample()
    ensures Valid(STALE) && Rotate(STALE, 1, "c", "r").1 == Reused && Rotate(Prune(STALE), 1, "c", "r").1 == Invalid
  {
    hide Run, Valid, Prune, RetiredTokens;
    StaleReached();
    assert Valid(EMPTY) by { EmptyValid(); }
    RunValid(EMPTY, STALE_RUN);
    assert |STALE.tokens| == 4;
    SmallTablesEmpty(STALE, 1);
    PruneRelabels(STALE, 1, "c", "r");
    PruneKeepsReplay(STALE, 1, "c", "r");
    ReplayIsNotRotatable(STALE, 1, "c", "r");
  }

  lemma EmptyValid()
    ensures Valid(EMPTY)
  {
  }
}
