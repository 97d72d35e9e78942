/**
  Refresh rotation and family revocation under READ COMMITTED. Neither takes the merchant's lock: a
  statement chooses its rows from the tables as they were when it began, waits for the token rows it
  changes, and checks those rows again, but no other, before it changes them.
 */
module RefreshRaces {

  /** `guarded` keeps the test for an unused token in the statement that uses it, as the source does. */
  datatype Config = Config(guarded: bool)

  /** A refresh token and the token it was rotated from. */
  datatype Token = Token(family: nat, from: Source, used: bool, revoked: bool)

  datatype Source = Root | From(token: nat)

  /** A statement that has begun: what it found then. */
  datatype Work = Rotating(h: nat) | Revoking(f: nat, seen: set<nat>)

  datatype State = State(families: map<nat, bool>, tokens: map<nat, Token>, works: map<nat, Work>, next: nat)

  datatype Step =
    | Open(f: nat)
    | BeginRotation(p: nat, h: nat)
    | EndRotation(p: nat)
    | BeginRevocation(p: nat, f: nat)
    | EndRevocation(p: nat)
    | Abort(p: nat)

  function TokensOf(s: State, f: nat): set<nat> { set t | t in s.tokens && s.tokens[t].family == f }

  predicate Revoked(s: State, f: nat) { f in s.families && s.families[f] }

  /** The row's own part of the guard of `consumed_refresh`. */
  predicate Fresh(s: State, h: nat) { h in s.tokens && !s.tokens[h].used && !s.tokens[h].revoked }

  /** A token that a statement beginning now would rotate. */
  predicate Works(s: State, h: nat) { Fresh(s, h) && !Revoked(s, s.tokens[h].family) }

  predicate Enabled(s: State, step: Step)
  {
    match step
    case Open(f) => f !in s.families
    case BeginRotation(p, h) => p !in s.works && Works(s, h)
    case EndRotation(p) => p in s.works && s.works[p].Rotating?
    case BeginRevocation(p, f) => p !in s.works && f in s.families
    case EndRevocation(p) => p in s.works && s.works[p].Revoking?
    case Abort(p) => p in s.works
  }

  function Opened(s: State, f: nat): State
  {
    s.(families := s.families[f := false], tokens := s.tokens[s.next := Token(f, Root, false, false)], next := s.next + 1)
  }

  function Rotated(s: State, h: nat): State
    requires h in s.tokens
  {
    s.(tokens := s.tokens[h := s.tokens[h].(used := true)][s.next := Token(s.tokens[h].family, From(h), false, false)],
       next := s.next + 1)
  }

  /** `revoked` and `revoked_tokens`: the family, and of its tokens those that the statement saw. */
  function Gone(s: State, f: nat, seen: set<nat>): State
  {
    s.(families := s.families[f := true],
       tokens := map t | t in s.tokens :: if t in seen then s.tokens[t].(revoked := true) else s.tokens[t])
  }

  function Done(s: State, p: nat): State { s.(works := s.works - {p}) }

  function Next(cfg: Config, s: State, step: Step): State
    requires Enabled(s, step)
  {
    match step
    case Open(f) => Opened(s, f)
    case BeginRotation(p, h) => s.(works := s.works[p := Rotating(h)])
    case EndRotation(p) =>
      var h := s.works[p].h;
      if h in s.tokens && (cfg.guarded ==> Fresh(s, h)) then Done(Rotated(s, h), p) else Done(s, p)
    case BeginRevocation(p, f) => s.(works := s.works[p := Revoking(f, TokensOf(s, f))])
    case EndRevocation(p) => Done(Gone(s, s.works[p].f, s.works[p].seen), p)
    case Abort(p) => Done(s, p)
  }

  ghost predicate Runs(cfg: Config, s: State, steps: seq<Step>, last: State)
    decreases |steps|
  {
    if steps == [] then s == last
    else Enabled(s, steps[0]) && Runs(cfg, Next(cfg, s, steps[0]), steps[1..], last)
  }

  // ----- Every token rotates once, and a family has one unused token -----

  ghost predicate RowsOk(s: State)
  {
    (forall t :: t in s.tokens ==> t < s.next && s.tokens[t].family in s.families) &&
    (forall p :: p in s.works && s.works[p].Revoking? ==>
       s.works[p].f in s.families && forall t :: t in s.works[p].seen ==> t in s.tokens && s.tokens[t].family == s.works[p].f)
  }

  /** A token has at most one successor, and only if it was used. */
  ghost predicate OneSuccessor(s: State)
  {
    (forall t :: t in s.tokens && s.tokens[t].from.From? ==>
       var h := s.tokens[t].from.token; h in s.tokens && s.tokens[h].used && s.tokens[h].family == s.tokens[t].family) &&
    (forall t, u :: t in s.tokens && u in s.tokens && s.tokens[t].from.From? && s.tokens[t].from == s.tokens[u].from ==> t == u)
  }

  ghost predicate OneUnused(s: State)
  {
    forall t, u :: t in s.tokens && u in s.tokens && s.tokens[t].family == s.tokens[u].family ==>
      t == u || s.tokens[t].used || s.tokens[u].used
  }

  ghost predicate Inv(s: State) { RowsOk(s) && OneSuccessor(s) && OneUnused(s) }

  const SOURCE: Config := Config(true)

  lemma RotatedOk(s: State, h: nat)
    requires Inv(s) && Fresh(s, h)
    ensures Inv(Rotated(s, h))
  {
    hide OneSuccessor, OneUnused;
    RotatedSuccessor(s, h);
    RotatedUnused(s, h);
  }

  lemma RotatedSuccessor(s: State, h: nat)
    requires RowsOk(s) && OneSuccessor(s) && Fresh(s, h)
    ensures OneSuccessor(Rotated(s, h))
  {
    var next := Rotated(s, h);
    assert forall t :: t in s.tokens ==> next.tokens[t] == s.tokens[t].(used := next.tokens[t].used);
  }

  lemma RotatedUnused(s: State, h: nat)
    requires RowsOk(s) && OneUnused(s) && Fresh(s, h)
    ensures OneUnused(Rotated(s, h))
  {
    var next := Rotated(s, h);
    assert forall t :: t in s.tokens ==> next.tokens[t] == s.tokens[t].(used := next.tokens[t].used);
  }

  lemma OpenedOk(s: State, f: nat)
    requires Inv(s) && f !in s.families
    ensures Inv(Opened(s, f))
  {
  }

  lemma GoneOk(s: State, f: nat, seen: set<nat>)
    requires Inv(s) && f in s.families
    ensures Inv(Gone(s, f, seen))
  {
  }

  lemma WorksOnly(s: State, works: map<nat, Work>)
    requires Inv(s)
    requires forall p :: p in works && works[p].Revoking? ==>
      works[p].f in s.families && forall t :: t in works[p].seen ==> t in s.tokens && s.tokens[t].family == works[p].f
    ensures Inv(s.(works := works))
  {
  }

  lemma StepOk(s: State, step: Step)
    requires Inv(s) && Enabled(s, step)
    ensures Inv(Next(SOURCE, s, step))
  {
    hide OneSuccessor, OneUnused, Opened, Rotated, Gone;
    match step
    case Open(f) => OpenedOk(s, f);
    case BeginRotation(p, h) => WorksOnly(s, s.works[p := Rotating(h)]);
    case EndRotation(p) =>
      if Fresh(s, s.works[p].h) { RotatedOk(s, s.works[p].h); DoneOk(Rotated(s, s.works[p].h), p); }
      DoneOk(s, p);
    case BeginRevocation(p, f) => WorksOnly(s, s.works[p := Revoking(f, TokensOf(s, f))]);
    case EndRevocation(p) =>
      GoneOk(s, s.works[p].f, s.works[p].seen);
      DoneOk(Gone(s, s.works[p].f, s.works[p].seen), p);
    case Abort(p) => DoneOk(s, p);
  }

  lemma DoneOk(s: State, p: nat)
    requires Inv(s)
    ensures Inv(Done(s, p))
  {
    hide OneSuccessor, OneUnused;
    WorksOnly(s, s.works - {p});
  }

  /** As the source is written, every interleaving keeps one successor a token and one unused token a family. */
  lemma {:induction false} EveryRunOnce(s: State, steps: seq<Step>, last: State)
    requires Inv(s) && Runs(SOURCE, s, steps, last)
    ensures Inv(last)
    decreases |steps|
  {
    hide Inv, Enabled, Next;
    if steps != [] {
      StepOk(s, steps[0]);
      EveryRunOnce(Next(SOURCE, s, steps[0]), steps[1..], last);
    }
  }

  // ----- A revoked family stays silent -----

  lemma {:induction false} StaysRevoked(cfg: Config, s: State, steps: seq<Step>, last: State, f: nat)
    requires Revoked(s, f) && Runs(cfg, s, steps, last)
    ensures Revoked(last, f)
    decreases |steps|
  {
    if steps != [] { StaysRevoked(cfg, Next(cfg, s, steps[0]), steps[1..], last, f); }
  }

  /**
    Once a revocation is committed, no token of its family works in any later state: none of those it
    saw, and none that a rotation in flight inserted beside or after it.
   */
  lemma NoRotationSurvives(s: State, p: nat, steps: seq<Step>, last: State, t: nat)
    requires p in s.works && s.works[p].Revoking?
    requires Runs(SOURCE, Next(SOURCE, s, EndRevocation(p)), steps, last)
    requires t in last.tokens && last.tokens[t].family == s.works[p].f
    ensures !Works(last, t)
  {
    StaysRevoked(SOURCE, Next(SOURCE, s, EndRevocation(p)), steps, last, s.works[p].f);
  }

  /** A revoked token without a successor. */
  predicate Barren(s: State, h: nat)
  {
    h in s.tokens && s.tokens[h].revoked && forall t :: t in s.tokens ==> s.tokens[t].from != From(h)
  }

  lemma StepBarren(s: State, step: Step, h: nat)
    requires Inv(s) && Enabled(s, step) && Barren(s, h)
    ensures Barren(Next(SOURCE, s, step), h)
  {
    hide OneSuccessor, OneUnused;
  }

  lemma {:induction false} RunBarren(s: State, steps: seq<Step>, last: State, h: nat)
    requires Inv(s) && Runs(SOURCE, s, steps, last) && Barren(s, h)
    ensures Barren(last, h)
    decreases |steps|
  {
    hide Inv, Enabled, Next, Barren;
    if steps != [] {
      StepOk(s, steps[0]);
      StepBarren(s, steps[0], h);
      RunBarren(Next(SOURCE, s, steps[0]), steps[1..], last, h);
    }
  }

  /** A token that a committed revocation saw unrotated never gets a successor, not even from a rotation in flight. */
  lemma RevokedNeverRotates(s: State, p: nat, steps: seq<Step>, last: State, h: nat)
    requires Inv(s) && p in s.works && s.works[p].Revoking? && h in s.works[p].seen
    requires forall t :: t in s.tokens ==> s.tokens[t].from != From(h)
    requires Runs(SOURCE, Next(SOURCE, s, EndRevocation(p)), steps, last)
    ensures forall t :: t in last.tokens ==> last.tokens[t].from != From(h)
  {
    StepOk(s, EndRevocation(p));
    assert Barren(Next(SOURCE, s, EndRevocation(p)), h) by { hide OneSuccessor, OneUnused; }
    hide Next, Inv;
    RunBarren(Next(SOURCE, s, EndRevocation(p)), steps, last, h);
  }

  // ----- Both are needed: the guard in the statement, and the test of the family -----

  /** One family with one unused token. */
  const START: State := State(map[0 := false], map[0 := Token(0, Root, false, false)], map[], 1)

  lemma StartOk()
    ensures Inv(START)
  {
  }

  const TWICE: seq<Step> := [BeginRotation(1, 0), BeginRotation(2, 0), EndRotation(1), EndRotation(2)]

  /** With the test made before the statement, two requests rotate one token. */
  lemma UnguardedRotatesTwice()
    ensures exists last :: Runs(Config(false), START, TWICE, last) && !OneSuccessor(last)
  {
    var cfg := Config(false);
    var a := Next(cfg, START, TWICE[0]);
    var b := Next(cfg, a, TWICE[1]);
    var c := Next(cfg, b, TWICE[2]);
    var last := Next(cfg, c, TWICE[3]);
    RunsFour(cfg, START, TWICE, a, b, c, last);
    assert last.tokens[1].from == From(0) == last.tokens[2].from;
  }

  lemma RunsFour(cfg: Config, s: State, steps: seq<Step>, a: State, b: State, c: State, last: State)
    requires |steps| == 4
    requires Enabled(s, steps[0]) && Next(cfg, s, steps[0]) == a && Enabled(a, steps[1]) && Next(cfg, a, steps[1]) == b
    requires Enabled(b, steps[2]) && Next(cfg, b, steps[2]) == c && Enabled(c, steps[3]) && Next(cfg, c, steps[3]) == last
    ensures Runs(cfg, s, steps, last)
  {
    hide Enabled, Next;
    assert steps[1..][1..] == steps[2..] && steps[2..][1..] == steps[3..] && steps[3..][1..] == [];
    assert Runs(cfg, last, [], last);
    assert Runs(cfg, c, steps[3..], last);
    assert Runs(cfg, b, steps[2..], last);
    assert Runs(cfg, a, steps[1..], last);
  }

  const BESIDE: seq<Step> := [BeginRotation(1, 0), BeginRevocation(2, 0), EndRotation(1), EndRevocation(2)]

  /** A rotation committed beside a revocation leaves its new token unrevoked, in a revoked family. */
  lemma UnrevokedTokenLeft()
    ensures exists last :: Runs(SOURCE, START, BESIDE, last) && Inv(last) && Revoked(last, 0) && Fresh(last, 1) && !Works(last, 1)
  {
    var a := Next(SOURCE, START, BESIDE[0]);
    var b := Next(SOURCE, a, BESIDE[1]);
    var c := Next(SOURCE, b, BESIDE[2]);
    var last := Next(SOURCE, c, BESIDE[3]);
    assert TokensOf(a, 0) == {0};
    RunsFour(SOURCE, START, BESIDE, a, b, c, last);
    StartOk();
    EveryRunOnce(START, BESIDE, last);
  }

  /** The guard in the statement is exactly what keeps rotation to once. */
  lemma OnceExactly(cfg: Config)
    ensures (forall s, steps, last :: Inv(s) && Runs(cfg, s, steps, last) ==> OneSuccessor(last)) <==> cfg.guarded
  {
    if cfg.guarded {
      forall s, steps, last | Inv(s) && Runs(cfg, s, steps, last) ensures OneSuccessor(last) {
        assert cfg == SOURCE;
        EveryRunOnce(s, steps, last);
      }
    } else {
      assert cfg == Config(false);
      StartOk();
      UnguardedRotatesTwice();
    }
  }
}
