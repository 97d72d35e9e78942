/**
  Code generation, ceremonies and key changes of one merchant under READ COMMITTED. A statement that
  waits for the merchant's row goes on with the merchant's latest version, but touches only those of
  its other rows that it saw when it began. A confirmation locks the merchant in a statement of its
  own, so the statement after it sees everything.
 */
module RecoveryRaces {

  const CODE_SET: nat := 8

  datatype Code = Code(generation: nat, live: bool, staged: bool)

  datatype Rotation = Rotation(key: nat, generation: nat, pending: bool)

  /** A statement that has begun: the key it was given, or the generation it saw, and the rows it saw. */
  datatype Work =
    | Generating(key: nat, generation: nat, codes: set<nat>, rotations: set<nat>)
    | StagingRotation(key: nat, x: nat)
    | StagingRecovery(c: nat, generation: nat)

  /** Keys are fresh, so a key is named by how often it changed; `size` codes make a set. */
  datatype State = State(
    key: nat, generation: nat, codes: map<nat, Code>, rotations: map<nat, Rotation>, works: map<nat, Work>, next: nat, size: nat)

  datatype Step =
    | BeginGeneration(p: nat)
    | BeginRotation(p: nat, x: nat)
    | BeginRecovery(p: nat, c: nat)
    | End(p: nat)
    | Abort(p: nat)
    | ConfirmRotation(x: nat)
    | ConfirmRecovery(c: nat)
    | CancelRecovery(c: nat)

  function LiveCodes(s: State): set<nat> { set c | c in s.codes && s.codes[c].live }

  function PendingRotations(s: State): set<nat> { set x | x in s.rotations && s.rotations[x].pending }

  /** The codes that recovery accepts: live, and of the present generation. */
  function Usable(s: State): set<nat> { set c | c in s.codes && s.codes[c].live && s.codes[c].generation == s.generation }

  /** `available_rotation` and its eligibility. */
  predicate RotationConfirms(s: State, x: nat)
  {
    x in s.rotations && s.rotations[x].pending && s.rotations[x].key == s.key && s.rotations[x].generation == s.generation
  }

  predicate RecoveryConfirms(s: State, c: nat) { c in Usable(s) && s.codes[c].staged }

  predicate Enabled(s: State, step: Step)
  {
    match step
    case BeginGeneration(p) => p !in s.works
    case BeginRotation(p, x) => p !in s.works
    case BeginRecovery(p, c) => p !in s.works && c in Usable(s)
    case End(p) => p in s.works
    case Abort(p) => p in s.works
    case ConfirmRotation(x) => RotationConfirms(s, x)
    case ConfirmRecovery(c) => RecoveryConfirms(s, c)
    case CancelRecovery(c) => c in s.codes
  }

  function DropCodes(codes: map<nat, Code>, gone: set<nat>): map<nat, Code>
  {
    map c | c in codes :: if c in gone then codes[c].(live := false, staged := false) else codes[c]
  }

  function DropRotations(rotations: map<nat, Rotation>, gone: set<nat>): map<nat, Rotation>
  {
    map x | x in rotations :: if x in gone then rotations[x].(pending := false) else rotations[x]
  }

  /** The `n` numbers from `from` on. */
  function Range(from: nat, n: nat): (r: set<nat>)
    ensures forall c :: c in r <==> from <= c < from + n
    ensures |r| == n
    decreases n
  {
    if n == 0 then {} else {from} + Range(from + 1, n - 1)
  }

  /** What a generation that has seen `codes` makes of a code number. */
  function CodeAfter(s: State, codes: set<nat>, c: nat): Code
    requires c in s.codes || c in Range(s.next, s.size)
  {
    if c in Range(s.next, s.size) then Code(s.generation + 1, true, false)
    else if c in codes then s.codes[c].(live := false, staged := false)
    else s.codes[c]
  }

  /** `generateMerchantRecoveryCodes`, once it has the merchant's row: only the rows it saw are invalidated. */
  function Generated(s: State, codes: set<nat>, rotations: set<nat>): State
  {
    s.(generation := s.generation + 1, codes := map c | c in s.codes.Keys + Range(s.next, s.size) :: CodeAfter(s, codes, c),
       rotations := DropRotations(s.rotations, rotations), next := s.next + s.size)
  }

  /** A confirmed rotation or recovery, which sees every row. */
  function KeyChanged(s: State): State
  {
    s.(key := s.key + 1, generation := s.generation + 1, codes := DropCodes(s.codes, LiveCodes(s)),
       rotations := DropRotations(s.rotations, PendingRotations(s)))
  }

  function Ended(s: State, w: Work): State
  {
    match w
    case Generating(key, _, codes, rotations) => if key == s.key then Generated(s, codes, rotations) else s
    case StagingRotation(key, x) =>
      if key == s.key && x !in s.rotations then s.(rotations := s.rotations[x := Rotation(key, s.generation, true)]) else s
    case StagingRecovery(c, generation) =>
      if c in s.codes && s.codes[c].live && s.codes[c].generation == generation
      then s.(codes := s.codes[c := s.codes[c].(staged := true)]) else s
  }

  function Next(s: State, step: Step): State
    requires Enabled(s, step)
  {
    match step
    case BeginGeneration(p) =>
      s.(works := s.works[p := Generating(s.key, s.generation, LiveCodes(s), PendingRotations(s))])
    case BeginRotation(p, x) => s.(works := s.works[p := StagingRotation(s.key, x)])
    case BeginRecovery(p, c) => s.(works := s.works[p := StagingRecovery(c, s.generation)])
    case End(p) => Ended(s, s.works[p]).(works := s.works - {p})
    case Abort(p) => s.(works := s.works - {p})
    case ConfirmRotation(x) => KeyChanged(s)
    case ConfirmRecovery(c) => KeyChanged(s)
    case CancelRecovery(c) => s.(codes := s.codes[c := s.codes[c].(staged := false)])
  }

  ghost predicate Runs(s: State, steps: seq<Step>, last: State)
    decreases |steps|
  {
    if steps == [] then s == last
    else Enabled(s, steps[0]) && Runs(Next(s, steps[0]), steps[1..], last)
  }

  // ----- What every interleaving keeps -----

  ghost predicate RowsOk(s: State)
  {
    s.size > 0 && (forall c :: c in s.codes ==> c < s.next && s.codes[c].generation <= s.generation) &&
    (forall x :: x in s.rotations ==> s.rotations[x].generation <= s.generation && s.rotations[x].key <= s.key)
  }

  predicate Whole(s: State) { Usable(s) == {} || |Usable(s)| == s.size }

  /**
    A generation under the present key that began in an earlier generation was overtaken by another one,
    whose codes are usable; one that began in this generation has seen every live code.
   */
  predicate WorkOk(s: State, w: Work)
  {
    match w
    case Generating(key, generation, codes, _) =>
      key <= s.key && generation <= s.generation && (forall c :: c in codes ==> c in s.codes && s.codes[c].generation <= generation) &&
      (key == s.key && generation < s.generation ==> Usable(s) != {}) &&
      (generation == s.generation ==> LiveCodes(s) <= codes)
    case StagingRotation(key, _) => key <= s.key
    case StagingRecovery(_, generation) => generation <= s.generation
  }

  ghost predicate WorksOk(s: State) { forall p :: p in s.works ==> WorkOk(s, s.works[p]) }

  ghost predicate Inv(s: State) { RowsOk(s) && Whole(s) && WorksOk(s) }

  lemma GeneratedCodes(s: State, codes: set<nat>, rotations: set<nat>)
    ensures After(s, Generated(s, codes, rotations), codes)
  {
    hide Range, DropRotations, CodeAfter;
  }

  lemma GeneratedRows(s: State, codes: set<nat>, rotations: set<nat>)
    ensures var next := Generated(s, codes, rotations);
            next.key == s.key && next.generation == s.generation + 1 && next.next == s.next + s.size && next.size == s.size &&
            next.rotations.Keys == s.rotations.Keys &&
            forall x :: x in s.rotations ==> next.rotations[x] == s.rotations[x].(pending := next.rotations[x].pending)
  {
    hide Range, CodeAfter;
  }

  /** The usable codes after a generation are exactly the new ones. */
  lemma GeneratedSet(s: State, codes: set<nat>, rotations: set<nat>)
    requires RowsOk(s)
    ensures var next := Generated(s, codes, rotations); Usable(next) == Range(s.next, s.size) && RowsOk(next)
  {
    hide Range, Generated;
    GeneratedRows(s, codes, rotations);
    GeneratedCodes(s, codes, rotations);
    GeneratedUsable(s, Generated(s, codes, rotations), codes);
    GeneratedRowsOk(s, Generated(s, codes, rotations), codes);
  }

  /** `next` holds the codes of a generation. */
  predicate After(s: State, next: State, codes: set<nat>)
  {
    next.generation == s.generation + 1 && next.codes.Keys == s.codes.Keys + Range(s.next, s.size) &&
    forall c :: c in next.codes ==> next.codes[c] == CodeAfter(s, codes, c)
  }

  lemma GeneratedUsable(s: State, next: State, codes: set<nat>)
    requires RowsOk(s) && After(s, next, codes)
    ensures Usable(next) == Range(s.next, s.size)
  {
    hide Range;
  }

  lemma GeneratedRowsOk(s: State, next: State, codes: set<nat>)
    requires RowsOk(s) && After(s, next, codes) && next.key == s.key && next.next == s.next + s.size && next.size == s.size
    requires next.rotations.Keys == s.rotations.Keys
    requires forall x :: x in s.rotations ==> next.rotations[x] == s.rotations[x].(pending := next.rotations[x].pending)
    ensures RowsOk(next)
  {
    hide Range;
    forall c | c in next.codes ensures c < next.next && next.codes[c].generation <= next.generation {
      assert next.codes[c] == CodeAfter(s, codes, c);
    }
    hide CodeAfter;
  }

  lemma GeneratedLive(s: State, codes: set<nat>, rotations: set<nat>)
    requires RowsOk(s)
    ensures LiveCodes(Generated(s, codes, rotations)) == (LiveCodes(s) - codes) + Range(s.next, s.size)
  {
    hide Range, Generated;
    GeneratedCodes(s, codes, rotations);
  }

  lemma GeneratedOk(s: State, codes: set<nat>, rotations: set<nat>)
    requires Inv(s)
    ensures Inv(Generated(s, codes, rotations))
  {
    var next := Generated(s, codes, rotations);
    GeneratedSet(s, codes, rotations);
    GeneratedOnward(s, codes, rotations);
    GeneratedRows(s, codes, rotations);
    assert s.next in Range(s.next, s.size);
    hide Generated, Range, Usable, RowsOk, Onward;
    forall p | p in s.works ensures WorkOk(next, s.works[p]) {
      assert WorkOk(s, s.works[p]);
      WorkLater(s, next, s.works[p]);
    }
    KeepsWorks(s, codes, rotations);
  }

  lemma KeepsWorks(s: State, codes: set<nat>, rotations: set<nat>)
    ensures Generated(s, codes, rotations).works == s.works
  {
  }

  /** A generation later, with codes in use, every statement in flight is as it should be. */
  lemma WorkLater(s: State, next: State, w: Work)
    requires WorkOk(s, w) && Onward(s, next) && next.key == s.key && next.generation > s.generation && Usable(next) != {}
    ensures WorkOk(next, w)
  {
    hide Usable, LiveCodes;
  }

  lemma KeyChangedOk(s: State)
    requires Inv(s)
    ensures Inv(KeyChanged(s))
  {
    var next := KeyChanged(s);
    assert LiveCodes(next) == {} && Usable(next) == {};
    forall p | p in s.works ensures WorkOk(next, s.works[p]) { assert WorkOk(s, s.works[p]); }
  }

  /** Codes keep their generation and life. */
  predicate SameLife(a: State, b: State)
  {
    b.key == a.key && b.generation == a.generation && b.next == a.next && b.size == a.size && b.codes.Keys == a.codes.Keys &&
    forall c :: c in a.codes ==> b.codes[c].live == a.codes[c].live && b.codes[c].generation == a.codes[c].generation
  }

  lemma SameLifeOk(a: State, b: State)
    requires Inv(a) && SameLife(a, b) && b.works == a.works
    requires forall x :: x in b.rotations ==> b.rotations[x].generation <= b.generation && b.rotations[x].key <= b.key
    ensures Inv(b)
  {
    assert Usable(b) == Usable(a) && LiveCodes(b) == LiveCodes(a);
    forall p | p in b.works ensures WorkOk(b, b.works[p]) { assert WorkOk(a, a.works[p]); }
  }

  lemma EndedOk(s: State, w: Work)
    requires Inv(s) && WorkOk(s, w)
    ensures Inv(Ended(s, w))
  {
    hide Inv, Generated;
    match w
    case Generating(key, _, codes, rotations) => GeneratedOk(s, codes, rotations);
    case StagingRotation(key, x) => StagedOk(s, w);
    case StagingRecovery(c, generation) => StagedOk(s, w);
  }

  lemma StagedOk(s: State, w: Work)
    requires Inv(s) && WorkOk(s, w) && !w.Generating?
    ensures Inv(Ended(s, w))
  {
    hide Whole, WorksOk;
    SameLifeOk(s, Ended(s, w));
  }

  lemma WorksMoved(s: State, works: map<nat, Work>)
    requires Inv(s) && forall p :: p in works ==> WorkOk(s, works[p])
    ensures Inv(s.(works := works))
  {
    var next := s.(works := works);
    assert Usable(next) == Usable(s) && LiveCodes(next) == LiveCodes(s);
    forall p | p in works ensures WorkOk(next, works[p]) { assert WorkOk(s, works[p]); }
  }

  lemma StepOk(s: State, step: Step)
    requires Inv(s) && Enabled(s, step)
    ensures Inv(Next(s, step))
  {
    hide RowsOk, Whole, WorkOk, Ended, KeyChanged, Usable, LiveCodes, PendingRotations;
    match step
    case BeginGeneration(p) =>
      var w := Generating(s.key, s.generation, LiveCodes(s), PendingRotations(s));
      assert WorkOk(s, w) by { BegunOk(s, p); }
      WorksMoved(s, s.works[p := w]);
    case BeginRotation(p, x) =>
      assert WorkOk(s, StagingRotation(s.key, x)) by { BegunOk(s, x); }
      WorksMoved(s, s.works[p := StagingRotation(s.key, x)]);
    case BeginRecovery(p, c) =>
      assert WorkOk(s, StagingRecovery(c, s.generation)) by { BegunOk(s, c); }
      WorksMoved(s, s.works[p := StagingRecovery(c, s.generation)]);
    case End(p) =>
      EndedOk(s, s.works[p]);
      SameWorks(s, s.works[p]);
      WorksMoved(Ended(s, s.works[p]), s.works - {p});
    case Abort(p) => WorksMoved(s, s.works - {p});
    case ConfirmRotation(x) => KeyChangedOk(s);
    case ConfirmRecovery(c) => KeyChangedOk(s);
    case CancelRecovery(c) => CanceledOk(s, c);
  }

  lemma BegunOk(s: State, n: nat)
    requires RowsOk(s)
    ensures WorkOk(s, Generating(s.key, s.generation, LiveCodes(s), PendingRotations(s)))
    ensures WorkOk(s, StagingRotation(s.key, n)) && WorkOk(s, StagingRecovery(n, s.generation))
  {
  }

  lemma SameWorks(s: State, w: Work)
    ensures Ended(s, w).works == s.works
  {
  }

  lemma CanceledOk(s: State, c: nat)
    requires Inv(s) && c in s.codes
    ensures Inv(s.(codes := s.codes[c := s.codes[c].(staged := false)]))
  {
    hide Whole, WorksOk;
    SameLifeOk(s, s.(codes := s.codes[c := s.codes[c].(staged := false)]));
  }

  lemma {:induction false} RunInv(s: State, steps: seq<Step>, last: State)
    requires Inv(s) && Runs(s, steps, last)
    ensures Inv(last)
    decreases |steps|
  {
    hide Inv, Enabled, Next;
    if steps != [] {
      StepOk(s, steps[0]);
      RunInv(Next(s, steps[0]), steps[1..], last);
    }
  }

  // ----- Ceremonies -----

  /** Ceremonies keep the generation they were staged in. */
  ghost predicate Onward(a: State, b: State)
  {
    a.generation <= b.generation && a.next <= b.next && b.size == a.size &&
    (forall c :: c in a.codes ==> c in b.codes && b.codes[c].generation == a.codes[c].generation) &&
    (forall x :: x in a.rotations ==> x in b.rotations && b.rotations[x].generation == a.rotations[x].generation)
  }

  lemma GeneratedOnward(s: State, codes: set<nat>, rotations: set<nat>)
    requires RowsOk(s)
    ensures Onward(s, Generated(s, codes, rotations))
  {
    GeneratedSet(s, codes, rotations);
    GeneratedRows(s, codes, rotations);
    hide Range, Usable, Generated;
  }

  lemma StepOnward(s: State, step: Step)
    requires RowsOk(s) && Enabled(s, step)
    ensures Onward(s, Next(s, step))
  {
    hide RowsOk, Usable, LiveCodes, PendingRotations, Generated;
    if step.End? && s.works[step.p].Generating? {
      GeneratedOnward(s, s.works[step.p].codes, s.works[step.p].rotations);
    }
  }

  lemma {:induction false} RunOnward(s: State, steps: seq<Step>, last: State)
    requires Inv(s) && Runs(s, steps, last)
    ensures Onward(s, last)
    decreases |steps|
  {
    hide Enabled, Next, Whole, WorksOk;
    if steps != [] {
      hide RowsOk;
      var next := Next(s, steps[0]);
      StepOk(s, steps[0]);
      StepOnward(s, steps[0]);
      RunOnward(next, steps[1..], last);
    }
  }

  /** Whatever interleaves, recovery accepts no code or exactly one whole set, of the last generation. */
  lemma EverySetWhole(s: State, steps: seq<Step>, last: State)
    requires Inv(s) && Runs(s, steps, last)
    ensures Inv(last) && (Usable(last) == {} || |Usable(last)| == s.size)
  {
    RunInv(s, steps, last);
    RunOnward(s, steps, last);
    hide RowsOk, WorksOk, Runs, Usable;
  }

  /**
    No rotation or recovery that was staged before a committed credential change confirms after it,
    whatever interleaves: the generation stops even those that the change did not see.
   */
  lemma NoEarlierCeremonyConfirms(s: State, steps: seq<Step>, last: State)
    requires Inv(s) && Runs(s, steps, last) && last.generation > s.generation
    ensures forall x :: x in s.rotations ==> !RotationConfirms(last, x)
    ensures forall c :: c in s.codes ==> !RecoveryConfirms(last, c)
  {
    RunOnward(s, steps, last);
    hide Runs, Whole, WorksOk;
  }

  /** A statement that was given a key which was changed while it waited ends without a trace. */
  lemma OldKeyDoesNothing(s: State, steps: seq<Step>, last: State, p: nat)
    requires Inv(s) && Runs(s, steps, last) && last.key > s.key
    requires p in s.works && !s.works[p].StagingRecovery? && p in last.works && last.works[p] == s.works[p]
    ensures Next(last, End(p)) == last.(works := last.works - {p})
  {
    hide RowsOk, Whole, Runs, Generated;
    assert WorkOk(s, s.works[p]);
  }

  /** The code carries no ceremony, and none is about to be staged on it. */
  predicate Unstaged(s: State, c: nat)
  {
    (c in s.codes ==> !s.codes[c].staged) && forall p :: p in s.works && s.works[p].StagingRecovery? ==> s.works[p].c != c
  }

  predicate Stages(step: Step, c: nat) { step.BeginRecovery? && step.c == c }

  lemma StepUnstaged(s: State, step: Step, c: nat)
    requires Enabled(s, step) && Unstaged(s, c) && !Stages(step, c)
    ensures Unstaged(Next(s, step), c)
  {
    hide Range;
  }

  /** A code confirms a recovery only after one was staged on it. */
  lemma {:induction false} ConfirmsOnlyStaged(s: State, steps: seq<Step>, last: State, c: nat)
    requires Unstaged(s, c) && Runs(s, steps, last) && forall i :: 0 <= i < |steps| ==> !Stages(steps[i], c)
    ensures !RecoveryConfirms(last, c)
    decreases |steps|
  {
    hide Enabled, Next, Stages;
    if steps != [] {
      StepUnstaged(s, steps[0], c);
      ConfirmsOnlyStaged(Next(s, steps[0]), steps[1..], last, c);
    }
  }

  // ----- Live codes of an earlier generation -----

  /** Every live code is of the present generation. */
  predicate Tidy(s: State) { LiveCodes(s) == Usable(s) }

  /**
    When a generation ends, live codes of earlier generations are left if and only if another generation
    was committed since it began.
   */
  lemma TidyExactly(s: State, p: nat)
    requires Inv(s) && p in s.works && s.works[p].Generating? && s.works[p].key == s.key
    ensures Tidy(Next(s, End(p))) <==> s.works[p].generation == s.generation
  {
    hide Generated, Usable, LiveCodes, Range, Whole;
    var w := s.works[p];
    var next, made := Next(s, End(p)), Generated(s, w.codes, w.rotations);
    assert next == made.(works := s.works - {p}) by { KeepsWorks(s, w.codes, w.rotations); }
    SameButWorks(made, next);
    GeneratedSet(s, w.codes, w.rotations);
    GeneratedLive(s, w.codes, w.rotations);
    if w.generation == s.generation {
      SeenAll(s, w);
    } else {
      NotSeen(s, w);
    }
  }

  lemma SeenAll(s: State, w: Work)
    requires WorkOk(s, w) && w.Generating? && w.generation == s.generation
    ensures LiveCodes(s) - w.codes == {}
  {
  }

  /** A usable code that the overtaken generation has not seen. */
  lemma NotSeen(s: State, w: Work)
    requires RowsOk(s) && WorkOk(s, w) && w.Generating? && w.key == s.key && w.generation != s.generation
    ensures exists c :: c in LiveCodes(s) - w.codes && c !in Range(s.next, s.size)
  {
    hide Range;
    var c :| c in Usable(s);
    assert c in LiveCodes(s) - w.codes && c < s.next;
  }

  const START: State := State(0, 0, map[], map[], map[], 0, CODE_SET)

  lemma StartOk()
    ensures Inv(START)
  {
    assert Usable(START) == {};
  }

  const OVERLAP: seq<Step> := [BeginGeneration(1), BeginGeneration(2), End(1), End(2)]

  /** Two generations that overlap leave two live sets, one of which is usable. */
  lemma Overlapped(s: State, a: State, b: State)
    requires RowsOk(s) && LiveCodes(s) == {}
    requires a == Generated(s, {}, {}).(works := a.works) && b == Generated(a, {}, {}).(works := b.works)
    ensures |LiveCodes(b)| == 2 * s.size && |Usable(b)| == s.size
  {
    hide Generated, Usable, LiveCodes, Range, RowsOk;
    GeneratedSet(s, {}, {});
    GeneratedLive(s, {}, {});
    GeneratedRows(s, {}, {});
    SameButWorks(Generated(s, {}, {}), a);
    GeneratedSet(a, {}, {});
    GeneratedLive(a, {}, {});
    SameButWorks(Generated(a, {}, {}), b);
    TwoRanges(s.next, s.size);
  }

  /** From the start: two generations that overlap leave sixteen live codes, of which eight are usable. */
  lemma SixteenLiveCodes() returns (last: State)
    ensures Runs(START, OVERLAP, last) && |LiveCodes(last)| == 2 * CODE_SET && |Usable(last)| == CODE_SET
  {
    hide Generated, Usable, LiveCodes, PendingRotations, Range;
    Nothing(START);
    var a := Next(START, BeginGeneration(1));
    Nothing(a);
    var b := Next(a, BeginGeneration(2));
    Nothing(b);
    var c := Next(b, End(1));
    last := Next(c, End(2));
    BothEnd(b);
    RunsFour(START, OVERLAP, a, b, c, last);
    Overlapped(b, c, last);
  }

  lemma Nothing(s: State)
    requires s.codes == map[] && s.rotations == map[]
    ensures LiveCodes(s) == {} && PendingRotations(s) == {} && (s.size > 0 ==> RowsOk(s))
  {
  }

  lemma BothEnd(s: State)
    requires 1 in s.works && 2 in s.works && s.works[1] == s.works[2] == Generating(s.key, s.generation, {}, {})
    ensures var c := Next(s, End(1));
            c == Generated(s, {}, {}).(works := s.works - {1}) &&
            2 in c.works && Next(c, End(2)) == Generated(c, {}, {}).(works := c.works - {2})
  {
    hide Range, CodeAfter, DropRotations;
  }

  lemma TwoRanges(from: nat, n: nat)
    ensures |{} + Range(from, n) + Range(from + n, n)| == 2 * n
  {
    hide Range;
    assert Range(from, n) !! Range(from + n, n);
  }

  lemma SameButWorks(a: State, b: State)
    requires b == a.(works := b.works)
    ensures LiveCodes(b) == LiveCodes(a) && Usable(b) == Usable(a) && (RowsOk(a) ==> RowsOk(b))
  {
  }

  lemma RunsFour(s: State, steps: seq<Step>, a: State, b: State, c: State, last: State)
    requires |steps| == 4
    requires Enabled(s, steps[0]) && Next(s, steps[0]) == a && Enabled(a, steps[1]) && Next(a, steps[1]) == b
    requires Enabled(b, steps[2]) && Next(b, steps[2]) == c && Enabled(c, steps[3]) && Next(c, steps[3]) == last
    ensures Runs(s, steps, last)
  {
    hide Enabled, Next;
    assert steps[1..][1..] == steps[2..] && steps[2..][1..] == steps[3..] && steps[3..][1..] == [];
    assert Runs(last, [], last);
    assert Runs(c, steps[3..], last);
    assert Runs(b, steps[2..], last);
    assert Runs(a, steps[1..], last);
  }
}
