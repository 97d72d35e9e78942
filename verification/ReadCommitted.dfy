/**
  Approval, code exchange and key change, interleaved under READ COMMITTED. A statement reads
  the tables as they were committed when it began; a row it locks or updates is checked again on
  its latest version; and a merchant's row lock is held until its transaction ends.
 */
module ReadCommitted {

  /** How a key change is written: the merchant's lock and the revocations in one statement, or in two. */
  datatype Style = TwoStatements | OneStatement

  /** `early` allows a confirmation to begin before its own ceremony is committed. */
  datatype Config = Config(style: Style, early: bool)

  datatype Merchant = Merchant(secret: nat, keyChanges: nat)

  /** `epoch` is bookkeeping: the merchant's committed `keyChanges` when the code was approved. */
  datatype Code = Code(merchant: nat, epoch: nat, used: bool)

  datatype Family = Family(merchant: nat, epoch: nat, revoked: bool)

  /** A staged key change, good while the merchant's key is the one it was staged under. */
  datatype Ceremony = Ceremony(merchant: nat, secret: nat, keyChanges: nat)

  /** A connection and the work it has not committed. */
  datatype Process =
    | Idle
    | Approving(secret: nat, todo: set<nat>, kept: set<nat>)
    | Issuing(m: nat, epoch: nat, secret: nat)
    | Exchanging(c: nat, m: nat)
    | Consuming(c: nat, m: nat)
    | Opening(c: nat, m: nat)
    | Asking(m: nat, x: nat)
    | Locked(m: nat, x: nat)
    | Missed(x: nat)
    | Waiting(m: nat, x: nat, codes: set<nat>, families: set<nat>)
    | Changing(m: nat, secret: nat, codes: set<nat>, families: set<nat>)
    | Finishing

  datatype State = State(
    merchants: map<nat, Merchant>, codes: map<nat, Code>, families: map<nat, Family>, staged: map<nat, Ceremony>,
    locks: map<nat, nat>, processes: map<nat, Process>, nextCode: nat, nextFamily: nat)

  datatype Step =
    | BeginApproval(p: nat, secret: nat)
    | LockHolder(p: nat, m: nat)
    | IssueCode(p: nat)
    | BeginExchange(p: nat, c: nat)
    | LockForExchange(p: nat)
    | ConsumeCode(p: nat)
    | Stage(x: nat, m: nat, secret: nat)
    | BeginChange(p: nat, x: nat)
    | LockForChange(p: nat)
    | ReadChange(p: nat)
    | Commit(p: nat)
    | Abort(p: nat)
    | RevokeFamily(f: nat)

  function At(s: State, p: nat): Process { if p in s.processes then s.processes[p] else Idle }

  function Holders(s: State, secret: nat): set<nat>
  {
    set m | m in s.merchants && s.merchants[m].secret == secret
  }

  function CodesOf(s: State, m: nat): set<nat> { set c | c in s.codes && s.codes[c].merchant == m }

  function FamiliesOf(s: State, m: nat): set<nat> { set f | f in s.families && s.families[f].merchant == m }

  predicate Free(s: State, m: nat) { m !in s.locks }

  function Freed(s: State, p: nat): map<nat, nat>
  {
    map m | m in s.locks && s.locks[m] != p :: s.locks[m]
  }

  predicate Enabled(cfg: Config, s: State, step: Step)
  {
    match step
    case BeginApproval(p, _) => At(s, p) == Idle
    case LockHolder(p, m) => At(s, p).Approving? && m in At(s, p).todo && Free(s, m)
    case IssueCode(p) => At(s, p).Approving? && At(s, p).todo == {}
    case BeginExchange(p, c) => At(s, p) == Idle && c in s.codes && !s.codes[c].used
    case LockForExchange(p) => At(s, p).Exchanging? && Free(s, At(s, p).m)
    case ConsumeCode(p) => At(s, p).Consuming?
    case Stage(x, m, _) => x !in s.staged && m in s.merchants
    case BeginChange(p, x) => At(s, p) == Idle && (cfg.early || x in s.staged)
    case LockForChange(p) => (At(s, p).Asking? || At(s, p).Waiting?) && Free(s, At(s, p).m)
    case ReadChange(p) => At(s, p).Locked? || At(s, p).Missed?
    case Commit(p) => At(s, p).Issuing? || At(s, p).Opening? || At(s, p).Changing? || At(s, p).Finishing?
    case Abort(p) => At(s, p) != Idle
    case RevokeFamily(f) => f in s.families
  }

  function Goes(s: State, p: nat, to: Process): State { s.(processes := s.processes[p := to]) }

  function Locks(s: State, p: nat, m: nat, to: Process): State
  {
    s.(processes := s.processes[p := to], locks := s.locks[m := p])
  }

  function Ends(s: State, p: nat): State { s.(processes := s.processes[p := Idle], locks := Freed(s, p)) }

  /** `locked_merchant` of an approval: one of the rows its snapshot found, checked again once locked. */
  function HolderLocked(s: State, a: Process, m: nat): Process
    requires a.Approving?
  {
    var holds := m in s.merchants && s.merchants[m].secret == a.secret;
    Approving(a.secret, a.todo - {m}, if holds then a.kept + {m} else a.kept)
  }

  /** `consumed_request` and `issued_code`, when exactly one merchant is locked. */
  ghost function Issued(s: State, a: Process): Process
    requires a.Approving?
  {
    if m: nat :| a.kept == {m} && m in s.merchants then Issuing(m, s.merchants[m].keyChanges, a.secret) else Finishing
  }

  /** `consumed_code`: the guarded update, on the latest version of the row. */
  function Consumed(s: State, c: nat, m: nat): Process
  {
    if c in s.codes && !s.codes[c].used then Opening(c, m) else Finishing
  }

  /** The statement that does not hold the lock yet: what it will touch is what it sees now. */
  function Sees(s: State, x: nat): Process
  {
    if x in s.staged then
      var m := s.staged[x].merchant; Waiting(m, x, CodesOf(s, m), FamiliesOf(s, m))
    else Finishing
  }

  predicate Available(s: State, m: nat, x: nat)
  {
    x in s.staged && m in s.merchants && s.staged[x].merchant == m && s.staged[x].keyChanges == s.merchants[m].keyChanges
  }

  /** The second statement of the pair: the lock is held, and the snapshot is new. */
  function Reads(s: State, m: nat, x: nat): Process
  {
    if Available(s, m, x) then Changing(m, s.staged[x].secret, CodesOf(s, m), FamiliesOf(s, m)) else Finishing
  }

  function Begun(cfg: Config, s: State, x: nat): Process
  {
    if cfg.style == OneStatement then Sees(s, x)
    else if x in s.staged then Asking(s.staged[x].merchant, x)
    else Missed(x)
  }

  /** A late lock: the merchant is checked again, but the snapshot stays the old one. */
  function ChangeLocked(s: State, w: Process): Process
    requires w.Asking? || w.Waiting?
  {
    if w.Asking? then Locked(w.m, w.x)
    else if Available(s, w.m, w.x) then Changing(w.m, s.staged[w.x].secret, w.codes, w.families)
    else Finishing
  }

  /** The tables after a transaction's buffered work becomes visible. */
  function Committed(s: State, p: nat): State
  {
    match At(s, p)
    case Issuing(m, epoch, _) => CodeAdded(s, m, epoch)
    case Opening(c, m) => if c in s.codes then FamilyOpened(s, c, m) else s
    case Changing(m, secret, codes, families) =>
      if m in s.merchants then KeyChanged(s, m, secret, codes, families) else s
    case _ => s
  }

  function CodeAdded(s: State, m: nat, epoch: nat): State
  {
    s.(codes := s.codes[s.nextCode := Code(m, epoch, false)], nextCode := s.nextCode + 1)
  }

  function FamilyOpened(s: State, c: nat, m: nat): State
    requires c in s.codes
  {
    s.(codes := s.codes[c := s.codes[c].(used := true)],
       families := s.families[s.nextFamily := Family(m, s.codes[c].epoch, false)], nextFamily := s.nextFamily + 1)
  }

  function KeyChanged(s: State, m: nat, secret: nat, codes: set<nat>, families: set<nat>): State
    requires m in s.merchants
  {
    s.(merchants := s.merchants[m := Merchant(secret, s.merchants[m].keyChanges + 1)],
       codes := map c | c in s.codes :: if c in codes then s.codes[c].(used := true) else s.codes[c],
       families := map f | f in s.families :: if f in families then s.families[f].(revoked := true) else s.families[f])
  }

  ghost function Next(cfg: Config, s: State, step: Step): State
    requires Enabled(cfg, s, step)
  {
    match step
    case BeginApproval(p, secret) => Goes(s, p, Approving(secret, Holders(s, secret), {}))
    case LockHolder(p, m) => Locks(s, p, m, HolderLocked(s, At(s, p), m))
    case IssueCode(p) => Goes(s, p, Issued(s, At(s, p)))
    case BeginExchange(p, c) => Goes(s, p, Exchanging(c, s.codes[c].merchant))
    case LockForExchange(p) => Locks(s, p, At(s, p).m, Consuming(At(s, p).c, At(s, p).m))
    case ConsumeCode(p) => Goes(s, p, Consumed(s, At(s, p).c, At(s, p).m))
    case Stage(x, m, secret) => s.(staged := s.staged[x := Ceremony(m, secret, s.merchants[m].keyChanges)])
    case BeginChange(p, x) => Goes(s, p, Begun(cfg, s, x))
    case LockForChange(p) => Locks(s, p, At(s, p).m, ChangeLocked(s, At(s, p)))
    case ReadChange(p) =>
      Goes(s, p, if At(s, p).Locked? then Reads(s, At(s, p).m, At(s, p).x) else Sees(s, At(s, p).x))
    case Commit(p) => Ends(Committed(s, p), p)
    case Abort(p) => Ends(s, p)
    case RevokeFamily(f) => s.(families := s.families[f := s.families[f].(revoked := true)])
  }

  ghost predicate Runs(cfg: Config, s: State, steps: seq<Step>, last: State)
    decreases |steps|
  {
    if steps == [] then s == last
    else Enabled(cfg, s, steps[0]) && Runs(cfg, Next(cfg, s, steps[0]), steps[1..], last)
  }

  // ----- Safety -----

  /** No usable code was approved before a committed key change. */
  ghost predicate CodesSafe(s: State)
  {
    forall c :: c in s.codes && !s.codes[c].used ==>
      s.codes[c].merchant in s.merchants && s.codes[c].epoch == s.merchants[s.codes[c].merchant].keyChanges
  }

  /** No usable family came from a code approved before a committed key change. */
  ghost predicate FamiliesSafe(s: State)
  {
    forall f :: f in s.families && !s.families[f].revoked ==>
      s.families[f].merchant in s.merchants && s.families[f].epoch == s.merchants[s.families[f].merchant].keyChanges
  }

  ghost predicate Safe(s: State) { CodesSafe(s) && FamiliesSafe(s) }

  predicate Holds(s: State, p: nat, m: nat) { m in s.locks && s.locks[m] == p }

  /** What a process may rely on because of the locks it holds. */
  predicate ProcessOk(s: State, p: nat, work: Process)
  {
    match work
    case Approving(secret, _, kept) =>
      forall m :: m in kept ==> Holds(s, p, m) && m in s.merchants && s.merchants[m].secret == secret
    case Issuing(m, epoch, secret) =>
      Holds(s, p, m) && m in s.merchants && epoch == s.merchants[m].keyChanges && secret == s.merchants[m].secret
    case Exchanging(c, m) => c in s.codes && s.codes[c].merchant == m
    case Consuming(c, m) => Holds(s, p, m) && c in s.codes && s.codes[c].merchant == m
    case Opening(c, m) => Holds(s, p, m) && c in s.codes && s.codes[c].merchant == m && !s.codes[c].used
    case Locked(m, _) => Holds(s, p, m)
    case Changing(m, _, codes, families) => Holds(s, p, m) && CodesOf(s, m) == codes && FamiliesOf(s, m) == families
    case Missed(_) => false
    case Waiting(_, _, _, _) => false
    case _ => true
  }

  ghost predicate ProcessesOk(s: State) { forall p :: p in s.processes ==> ProcessOk(s, p, s.processes[p]) }

  ghost predicate SerialsOk(s: State)
  {
    (forall c :: c in s.codes ==> c < s.nextCode) && (forall f :: f in s.families ==> f < s.nextFamily)
  }

  ghost predicate Inv(s: State) { Safe(s) && SerialsOk(s) && ProcessesOk(s) }

  const SOURCE: Config := Config(TwoStatements, false)

  // ----- Each step keeps the invariant -----

  /** A step that only moves one process, and may take one free lock. */
  lemma MoveOk(s: State, p: nat, to: Process)
    requires Inv(s) && ProcessOk(s, p, to)
    ensures Inv(Goes(s, p, to))
  {
    var next := Goes(s, p, to);
    assert forall q, w :: ProcessOk(s, q, w) ==> ProcessOk(next, q, w);
  }

  lemma LockOk(s: State, p: nat, m: nat, to: Process)
    requires Inv(s) && Free(s, m) && ProcessOk(s.(locks := s.locks[m := p]), p, to)
    ensures Inv(Locks(s, p, m, to))
  {
    var next := Locks(s, p, m, to);
    assert forall q, w :: ProcessOk(s, q, w) ==> ProcessOk(next, q, w);
    assert ProcessOk(next, p, to);
  }

  lemma EndOk(s: State, p: nat)
    requires Safe(s) && SerialsOk(s) && forall q :: q in s.processes && q != p ==> ProcessOk(s, q, s.processes[q])
    ensures Inv(Ends(s, p))
  {
    var next := Ends(s, p);
    forall q | q in next.processes && q != p ensures ProcessOk(next, q, next.processes[q]) {
      assert forall m :: Holds(s, q, m) ==> Holds(next, q, m);
    }
  }

  lemma CodeAddedOk(s: State, p: nat, m: nat, epoch: nat)
    requires Inv(s) && At(s, p).Issuing? && At(s, p).m == m && At(s, p).epoch == epoch
    ensures Inv(Ends(CodeAdded(s, m, epoch), p))
  {
    var next := CodeAdded(s, m, epoch);
    assert ProcessOk(s, p, At(s, p));
    forall q | q in s.processes && q != p ensures ProcessOk(next, q, s.processes[q]) {
      assert ProcessOk(s, q, s.processes[q]);
      forall n | n != m ensures CodesOf(next, n) == CodesOf(s, n) { }
      assert forall n :: FamiliesOf(next, n) == FamiliesOf(s, n);
    }
    EndOk(next, p);
  }

  lemma FamilyOpenedOk(s: State, p: nat, c: nat, m: nat)
    requires Inv(s) && At(s, p) == Opening(c, m)
    ensures Inv(Ends(FamilyOpened(s, c, m), p))
  {
    assert ProcessOk(s, p, At(s, p));
    var next := FamilyOpened(s, c, m);
    forall q | q in s.processes && q != p ensures ProcessOk(next, q, s.processes[q]) {
      assert ProcessOk(s, q, s.processes[q]);
      forall n ensures CodesOf(next, n) == CodesOf(s, n) { }
      forall n | n != m ensures FamiliesOf(next, n) == FamiliesOf(s, n) { }
    }
    EndOk(next, p);
  }

  lemma KeyChangedOk(s: State, p: nat, m: nat, secret: nat, codes: set<nat>, families: set<nat>)
    requires Inv(s) && At(s, p) == Changing(m, secret, codes, families) && m in s.merchants
    ensures Inv(Ends(KeyChanged(s, m, secret, codes, families), p))
  {
    assert ProcessOk(s, p, At(s, p));
    var next := KeyChanged(s, m, secret, codes, families);
    KeyChangedSafe(s, m, secret, codes, families);
    forall q | q in s.processes && q != p ensures ProcessOk(next, q, s.processes[q]) {
      assert ProcessOk(s, q, s.processes[q]);
      forall n ensures CodesOf(next, n) == CodesOf(s, n) && FamiliesOf(next, n) == FamiliesOf(s, n) { }
    }
    EndOk(next, p);
  }

  lemma KeyChangedSafe(s: State, m: nat, secret: nat, codes: set<nat>, families: set<nat>)
    requires Safe(s) && SerialsOk(s) && m in s.merchants && codes == CodesOf(s, m) && families == FamiliesOf(s, m)
    ensures var next := KeyChanged(s, m, secret, codes, families); Safe(next) && SerialsOk(next)
  {
  }

  lemma CommitOk(s: State, p: nat)
    requires Inv(s) && Enabled(SOURCE, s, Commit(p))
    ensures Inv(Ends(Committed(s, p), p))
  {
    hide Safe, SerialsOk, CodeAdded, FamilyOpened, KeyChanged, Ends;
    assert ProcessOk(s, p, At(s, p));
    match At(s, p)
    case Issuing(m, epoch, _) => CodeAddedOk(s, p, m, epoch);
    case Opening(c, m) => FamilyOpenedOk(s, p, c, m);
    case Changing(m, secret, codes, families) =>
      if m in s.merchants { KeyChangedOk(s, p, m, secret, codes, families); } else { EndOk(s, p); }
    case _ => EndOk(s, p);
  }

  lemma RevokeFamilyOk(s: State, f: nat)
    requires Inv(s) && f in s.families
    ensures Inv(s.(families := s.families[f := s.families[f].(revoked := true)]))
  {
    var next := s.(families := s.families[f := s.families[f].(revoked := true)]);
    forall n ensures CodesOf(next, n) == CodesOf(s, n) && FamiliesOf(next, n) == FamiliesOf(s, n) { }
    assert forall q, w :: ProcessOk(s, q, w) ==> ProcessOk(next, q, w);
  }

  lemma StageOk(s: State, x: nat, c: Ceremony)
    requires Inv(s)
    ensures Inv(s.(staged := s.staged[x := c]))
  {
    var next := s.(staged := s.staged[x := c]);
    assert forall n :: CodesOf(next, n) == CodesOf(s, n) && FamiliesOf(next, n) == FamiliesOf(s, n);
    assert forall q, w :: ProcessOk(s, q, w) ==> ProcessOk(next, q, w);
  }

  lemma GrantStepOk(s: State, step: Step)
    requires Inv(s) && Enabled(SOURCE, s, step)
    requires step.BeginApproval? || step.LockHolder? || step.IssueCode? || step.BeginExchange? || step.LockForExchange? || step.ConsumeCode?
    ensures Inv(Next(SOURCE, s, step))
  {
    hide Safe, SerialsOk, CodesOf, FamiliesOf;
    assert ProcessOk(s, step.p, At(s, step.p));
    match step
    case BeginApproval(p, secret) => MoveOk(s, p, Approving(secret, Holders(s, secret), {}));
    case LockHolder(p, m) => LockOk(s, p, m, HolderLocked(s, At(s, p), m));
    case IssueCode(p) => MoveOk(s, p, Issued(s, At(s, p)));
    case BeginExchange(p, c) => MoveOk(s, p, Exchanging(c, s.codes[c].merchant));
    case LockForExchange(p) => LockOk(s, p, At(s, p).m, Consuming(At(s, p).c, At(s, p).m));
    case ConsumeCode(p) => MoveOk(s, p, Consumed(s, At(s, p).c, At(s, p).m));
  }

  lemma ChangeStepOk(s: State, step: Step)
    requires Inv(s) && Enabled(SOURCE, s, step) && (step.BeginChange? || step.LockForChange? || step.ReadChange?)
    ensures Inv(Next(SOURCE, s, step))
  {
    hide Safe, SerialsOk, CodesOf, FamiliesOf;
    assert ProcessOk(s, step.p, At(s, step.p));
    match step
    case BeginChange(p, x) => MoveOk(s, p, Asking(s.staged[x].merchant, x));
    case LockForChange(p) => LockOk(s, p, At(s, p).m, Locked(At(s, p).m, At(s, p).x));
    case ReadChange(p) => MoveOk(s, p, Reads(s, At(s, p).m, At(s, p).x));
  }

  lemma StepOk(s: State, step: Step)
    requires Inv(s) && Enabled(SOURCE, s, step)
    ensures Inv(Next(SOURCE, s, step))
  {
    hide Inv, Committed, Ends;
    match step
    case Stage(x, m, secret) => StageOk(s, x, Ceremony(m, secret, s.merchants[m].keyChanges));
    case Commit(p) => CommitOk(s, p);
    case Abort(p) => AbortOk(s, p);
    case RevokeFamily(f) => RevokeFamilyOk(s, f);
    case _ => if step.BeginChange? || step.LockForChange? || step.ReadChange? { ChangeStepOk(s, step); } else { GrantStepOk(s, step); }
  }

  lemma AbortOk(s: State, p: nat)
    requires Inv(s)
    ensures Inv(Ends(s, p))
  {
    EndOk(s, p);
  }

  /** As the source is written, no interleaving leaves an earlier code or family usable. */
  lemma {:induction false} EveryRunSafe(s: State, steps: seq<Step>, last: State)
    requires Inv(s) && Runs(SOURCE, s, steps, last)
    ensures Inv(last)
    decreases |steps|
  {
    hide Inv, Enabled, Next;
    if steps != [] {
      StepOk(s, steps[0]);
      EveryRunSafe(Next(SOURCE, s, steps[0]), steps[1..], last);
    }
  }

  /**
    Whatever ran before it, an approval about to commit is for a merchant that holds the presented key at
    that moment, and the code it commits is the next one, unused, of that merchant and key.
   */
  lemma ApprovesPresentKey(s: State, steps: seq<Step>, last: State, p: nat)
    requires Inv(s) && Runs(SOURCE, s, steps, last) && At(last, p).Issuing?
    ensures var (next, m) := (Next(SOURCE, last, Commit(p)), At(last, p).m);
            m in last.merchants && last.merchants[m].secret == At(last, p).secret && next.merchants == last.merchants &&
            next.families == last.families &&
            next.codes == last.codes[last.nextCode := Code(m, last.merchants[m].keyChanges, false)]
  {
    EveryRunSafe(s, steps, last);
    assert ProcessOk(last, p, At(last, p));
    hide Safe, SerialsOk, ProcessesOk, Runs;
  }

  /** The ceremony stays as it was staged, and keys change only forward. */
  predicate Ages(s: State, x: nat, c: Ceremony, since: nat)
  {
    x in s.staged && s.staged[x] == c && c.merchant in s.merchants && s.merchants[c.merchant].keyChanges >= since
  }

  lemma StepAges(s: State, step: Step, x: nat, c: Ceremony, since: nat)
    requires Enabled(SOURCE, s, step) && Ages(s, x, c, since)
    ensures Ages(Next(SOURCE, s, step), x, c, since)
  {
    hide CodesOf, FamiliesOf, Holders, Freed;
  }

  lemma {:induction false} RunAges(s: State, steps: seq<Step>, last: State, x: nat, c: Ceremony, since: nat)
    requires Runs(SOURCE, s, steps, last) && Ages(s, x, c, since)
    ensures Ages(last, x, c, since)
    decreases |steps|
  {
    hide Enabled, Next, Ages;
    if steps != [] {
      StepAges(s, steps[0], x, c, since);
      RunAges(Next(SOURCE, s, steps[0]), steps[1..], last, x, c, since);
    }
  }

  /** A ceremony staged before a committed key change finds nothing to confirm once it holds the lock, whatever runs meanwhile. */
  lemma OldCeremonyFinishes(s: State, steps: seq<Step>, last: State, p: nat, x: nat)
    requires Runs(SOURCE, s, steps, last) && x in s.staged && s.staged[x].merchant in s.merchants
    requires s.staged[x].keyChanges < s.merchants[s.staged[x].merchant].keyChanges
    requires At(last, p) == Locked(s.staged[x].merchant, x)
    ensures At(Next(SOURCE, last, ReadChange(p)), p) == Finishing
  {
    var c := s.staged[x];
    RunAges(s, steps, last, x, c, s.merchants[c.merchant].keyChanges);
    hide Runs;
  }

  /** The commit of a key change of `m`: all its codes are used and its families revoked, and no row of another merchant moves. */
  predicate ChangesOnly(s: State, next: State, m: nat)
  {
    next.codes.Keys == s.codes.Keys && next.families.Keys == s.families.Keys && next.merchants.Keys == s.merchants.Keys &&
    (forall n :: n in s.merchants && n != m ==> next.merchants[n] == s.merchants[n]) &&
    (forall c :: c in s.codes ==>
       next.codes[c] == if s.codes[c].merchant == m then s.codes[c].(used := true) else s.codes[c]) &&
    forall f :: f in s.families ==>
      next.families[f] == if s.families[f].merchant == m then s.families[f].(revoked := true) else s.families[f]
  }

  /** Whatever ran before it, a committed key change costs its own merchant everything and every other merchant nothing. */
  lemma ChangeSparesOthers(s: State, steps: seq<Step>, last: State, p: nat)
    requires Inv(s) && Runs(SOURCE, s, steps, last) && At(last, p).Changing? && At(last, p).m in last.merchants
    ensures var next := Next(SOURCE, last, Commit(p));
            ChangesOnly(last, next, At(last, p).m) && next.merchants[At(last, p).m].secret == At(last, p).secret
  {
    hide Safe, SerialsOk, Runs;
    EveryRunSafe(s, steps, last);
    ChangeIsWhole(last, p, At(last, p).m);
    ChangeTouches(last, p);
  }

  lemma ChangeIsWhole(s: State, p: nat, m: nat)
    requires ProcessesOk(s) && At(s, p).Changing? && At(s, p).m == m
    ensures At(s, p).codes == CodesOf(s, m) && At(s, p).families == FamiliesOf(s, m)
  {
    assert ProcessOk(s, p, At(s, p));
  }

  lemma ChangeTouches(s: State, p: nat)
    requires At(s, p).Changing? && At(s, p).m in s.merchants
    requires At(s, p).codes == CodesOf(s, At(s, p).m) && At(s, p).families == FamiliesOf(s, At(s, p).m)
    ensures var next := Next(SOURCE, s, Commit(p));
            ChangesOnly(s, next, At(s, p).m) && next.merchants[At(s, p).m].secret == At(s, p).secret
  {
    hide Freed;
  }

  // ----- The two statements, and the order of staging and confirming, are both needed -----

  /** Nothing running, and nothing unsafe. */
  ghost predicate Start(s: State) { Safe(s) && SerialsOk(s) && s.processes == map[] && s.locks == map[] }

  lemma StepRuns(cfg: Config, s: State, step: Step, mid: State, steps: seq<Step>, last: State)
    requires Leads(cfg, s, step, mid) && Runs(cfg, mid, steps, last)
    ensures Runs(cfg, s, [step] + steps, last)
  {
    hide Enabled, Next;
    assert ([step] + steps)[1..] == steps;
  }

  /** One merchant with one unused code, and perhaps a staged key change. */
  function Shop(staged: map<nat, Ceremony>, locks: map<nat, nat>, processes: map<nat, Process>): State
  {
    State(map[0 := Merchant(1, 0)], map[0 := Code(0, 0, false)], map[], staged, locks, processes, 1, 0)
  }

  const CHANGE: map<nat, Ceremony> := map[5 := Ceremony(0, 9, 0)]

  /** The exchange holds the lock and has used the code; the key change waits with the snapshot it took. */
  const RACE: State := Shop(CHANGE, map[0 := 1], map[1 := Opening(0, 0), 2 := Waiting(0, 5, {0}, {})])

  const LOST: State :=
    State(map[0 := Merchant(9, 1)], map[0 := Code(0, 0, true)], map[0 := Family(0, 0, false)], CHANGE, map[],
          map[1 := Idle, 2 := Idle], 1, 1)

  const ENDING: seq<Step> := [Commit(1), LockForChange(2), Commit(2)]

  /** The exchange commits. */
  const OPENED: State :=
    State(map[0 := Merchant(1, 0)], map[0 := Code(0, 0, true)], map[0 := Family(0, 0, false)], CHANGE, map[],
          map[1 := Idle, 2 := Waiting(0, 5, {0}, {})], 1, 1)

  /** The key change gets the lock, and keeps its snapshot. */
  const GRANTED: State :=
    State(map[0 := Merchant(1, 0)], map[0 := Code(0, 0, true)], map[0 := Family(0, 0, false)], CHANGE, map[0 := 2],
          map[1 := Idle, 2 := Changing(0, 9, {0}, {})], 1, 1)

  /** `step` takes `s` to `t`. */
  ghost predicate Leads(cfg: Config, s: State, step: Step, t: State) { Enabled(cfg, s, step) && Next(cfg, s, step) == t }

  lemma ExchangeApplied()
    ensures FamilyOpened(RACE, 0, 0) == OPENED.(locks := map[0 := 1], processes := RACE.processes)
  {
    var open := FamilyOpened(RACE, 0, 0);
    assert open.codes == OPENED.codes && open.families == OPENED.families;
  }

  lemma ExchangeVisible()
    ensures At(RACE, 1) == Opening(0, 0) && Committed(RACE, 1) == FamilyOpened(RACE, 0, 0)
  {
    hide FamilyOpened;
  }

  lemma ExchangeEnds()
    ensures Ends(OPENED.(locks := map[0 := 1], processes := RACE.processes), 1) == OPENED
  {
    assert Freed(OPENED.(locks := map[0 := 1], processes := RACE.processes), 1) == map[];
    assert RACE.processes[1 := Idle] == OPENED.processes;
  }

  lemma ExchangeCommits(cfg: Config)
    ensures Leads(cfg, RACE, Commit(1), OPENED)
  {
    hide Committed, FamilyOpened, Ends;
    ExchangeVisible();
    ExchangeApplied();
    ExchangeEnds();
  }

  lemma ChangeGetsLock(cfg: Config)
    ensures Leads(cfg, OPENED, LockForChange(2), GRANTED)
  {
  }

  lemma ChangeApplied()
    ensures KeyChanged(GRANTED, 0, 9, {0}, {}) == LOST.(locks := map[0 := 2], processes := GRANTED.processes)
  {
    var changed := KeyChanged(GRANTED, 0, 9, {0}, {});
    assert changed.merchants == LOST.merchants && changed.codes == LOST.codes && changed.families == LOST.families;
  }

  lemma ChangeVisible()
    ensures Committed(GRANTED, 2) == LOST.(locks := map[0 := 2], processes := GRANTED.processes)
  {
    ChangeApplied();
    hide KeyChanged;
    assert At(GRANTED, 2) == Changing(0, 9, {0}, {});
  }

  lemma ChangeCommits(cfg: Config)
    ensures Leads(cfg, GRANTED, Commit(2), LOST)
  {
    ChangeVisible();
    hide Committed;
    assert Freed(LOST.(locks := map[0 := 2], processes := GRANTED.processes), 2) == map[];
    assert GRANTED.processes[2 := Idle] == LOST.processes;
  }

  lemma LostIsUnsafe()
    ensures !Safe(LOST)
  {
    assert 0 in LOST.families;
  }

  lemma RaceIsLost(cfg: Config)
    ensures Runs(cfg, RACE, ENDING, LOST)
  {
    ExchangeCommits(cfg);
    ChangeGetsLock(cfg);
    ChangeCommits(cfg);
    hide Enabled, Next;
    assert Runs(cfg, LOST, [], LOST);
    StepRuns(cfg, GRANTED, Commit(2), LOST, [], LOST);
    StepRuns(cfg, OPENED, LockForChange(2), GRANTED, [Commit(2)] + [], LOST);
    StepRuns(cfg, RACE, Commit(1), OPENED, [LockForChange(2)] + ([Commit(2)] + []), LOST);
    assert [Commit(1)] + ([LockForChange(2)] + ([Commit(2)] + [])) == ENDING;
  }

  const EXCHANGE: seq<Step> := [BeginExchange(1, 0), LockForExchange(1), ConsumeCode(1)]

  lemma ExchangeSteps(cfg: Config, other: map<nat, Process>)
    requires 1 !in other
    ensures Leads(cfg, Shop(CHANGE, map[], other), BeginExchange(1, 0), Shop(CHANGE, map[], other[1 := Exchanging(0, 0)]))
    ensures Leads(cfg, Shop(CHANGE, map[], other[1 := Exchanging(0, 0)]), LockForExchange(1),
                  Shop(CHANGE, map[0 := 1], other[1 := Consuming(0, 0)]))
    ensures Leads(cfg, Shop(CHANGE, map[0 := 1], other[1 := Consuming(0, 0)]), ConsumeCode(1),
                  Shop(CHANGE, map[0 := 1], other[1 := Opening(0, 0)]))
  {
    assert other[1 := Exchanging(0, 0)][1 := Consuming(0, 0)] == other[1 := Consuming(0, 0)];
    assert other[1 := Consuming(0, 0)][1 := Opening(0, 0)] == other[1 := Opening(0, 0)];
  }

  /** From a staged change: an exchange gets as far as `Opening`, beside whatever process 2 is doing. */
  lemma ExchangeRuns(cfg: Config, other: map<nat, Process>, steps: seq<Step>, last: State)
    requires 1 !in other
    requires Runs(cfg, Shop(CHANGE, map[0 := 1], other[1 := Opening(0, 0)]), steps, last)
    ensures Runs(cfg, Shop(CHANGE, map[], other), EXCHANGE + steps, last)
  {
    ExchangeSteps(cfg, other);
    hide Enabled, Next, Runs;
    var begun := Shop(CHANGE, map[], other[1 := Exchanging(0, 0)]);
    var held := Shop(CHANGE, map[0 := 1], other[1 := Consuming(0, 0)]);
    var opening := Shop(CHANGE, map[0 := 1], other[1 := Opening(0, 0)]);
    StepRuns(cfg, held, ConsumeCode(1), opening, steps, last);
    StepRuns(cfg, begun, LockForExchange(1), held, [ConsumeCode(1)] + steps, last);
    StepRuns(cfg, Shop(CHANGE, map[], other), BeginExchange(1, 0), begun, [LockForExchange(1)] + ([ConsumeCode(1)] + steps), last);
    assert [BeginExchange(1, 0)] + ([LockForExchange(1)] + ([ConsumeCode(1)] + steps)) == EXCHANGE + steps;
  }

  const QUIET: State := Shop(map[], map[], map[])

  lemma QuietStarts()
    ensures Start(QUIET)
  {
  }

  lemma SnapshotOf(s: State)
    requires s.codes == map[0 := Code(0, 0, false)] && s.families == map[]
    ensures CodesOf(s, 0) == {0} && FamiliesOf(s, 0) == {}
  {
  }

  lemma OneStatementSteps(cfg: Config)
    requires cfg.style == OneStatement
    ensures Leads(cfg, QUIET, Stage(5, 0, 9), Shop(CHANGE, map[], map[]))
    ensures Leads(cfg, Shop(CHANGE, map[0 := 1], map[][1 := Opening(0, 0)]), BeginChange(2, 5), RACE)
  {
    SnapshotOf(Shop(CHANGE, map[0 := 1], map[][1 := Opening(0, 0)]));
    hide CodesOf, FamiliesOf;
    assert map[1 := Opening(0, 0)][2 := Waiting(0, 5, {0}, {})] == map[1 := Opening(0, 0), 2 := Waiting(0, 5, {0}, {})];
  }

  /** With lock and revocations in one statement, the family opened while it waits is never revoked. */
  lemma OneStatementLoses(cfg: Config) returns (steps: seq<Step>)
    requires cfg.style == OneStatement
    ensures Runs(cfg, QUIET, steps, LOST)
  {
    OneStatementSteps(cfg);
    hide Enabled, Next, Runs;
    RaceIsLost(cfg);
    var rest := [BeginChange(2, 5)] + ENDING;
    StepRuns(cfg, Shop(CHANGE, map[0 := 1], map[][1 := Opening(0, 0)]), BeginChange(2, 5), RACE, ENDING, LOST);
    ExchangeRuns(cfg, map[], rest, LOST);
    StepRuns(cfg, QUIET, Stage(5, 0, 9), Shop(CHANGE, map[], map[]), EXCHANGE + rest, LOST);
    steps := [Stage(5, 0, 9)] + (EXCHANGE + rest);
  }

  const MISSED: map<nat, Process> := map[2 := Missed(5)]

  lemma EarlySteps(cfg: Config)
    requires cfg == Config(TwoStatements, true)
    ensures Leads(cfg, QUIET, BeginChange(2, 5), Shop(map[], map[], MISSED))
    ensures Leads(cfg, Shop(map[], map[], MISSED), Stage(5, 0, 9), Shop(CHANGE, map[], MISSED))
  {
  }

  lemma LateSnapshot(cfg: Config)
    ensures Leads(cfg, Shop(CHANGE, map[0 := 1], MISSED[1 := Opening(0, 0)]), ReadChange(2), RACE)
  {
    SnapshotOf(Shop(CHANGE, map[0 := 1], MISSED[1 := Opening(0, 0)]));
    hide CodesOf, FamiliesOf;
    assert MISSED[1 := Opening(0, 0)][2 := Waiting(0, 5, {0}, {})] == map[1 := Opening(0, 0), 2 := Waiting(0, 5, {0}, {})];
  }

  /** With two statements, a confirmation that began before its ceremony was committed holds no lock either. */
  lemma EarlyConfirmationLoses(cfg: Config) returns (steps: seq<Step>)
    requires cfg == Config(TwoStatements, true)
    ensures Runs(cfg, QUIET, steps, LOST)
  {
    EarlySteps(cfg);
    LateSnapshot(cfg);
    hide Enabled, Next, Runs;
    RaceIsLost(cfg);
    var rest := [ReadChange(2)] + ENDING;
    StepRuns(cfg, Shop(CHANGE, map[0 := 1], MISSED[1 := Opening(0, 0)]), ReadChange(2), RACE, ENDING, LOST);
    ExchangeRuns(cfg, MISSED, rest, LOST);
    StepRuns(cfg, Shop(map[], map[], MISSED), Stage(5, 0, 9), Shop(CHANGE, map[], MISSED), EXCHANGE + rest, LOST);
    StepRuns(cfg, QUIET, BeginChange(2, 5), Shop(map[], map[], MISSED), [Stage(5, 0, 9)] + (EXCHANGE + rest), LOST);
    steps := [BeginChange(2, 5)] + ([Stage(5, 0, 9)] + (EXCHANGE + rest));
  }

  ghost predicate AlwaysSafe(cfg: Config)
  {
    forall s, steps, last :: Start(s) && Runs(cfg, s, steps, last) ==> Safe(last)
  }

  /**
    The interleavings are safe exactly when the lock and the revocations are two statements and a
    confirmation begins only after its ceremony is committed. The second holds for whoever
    confirms with the staged key, which is shown only once staging has been committed.
   */
  lemma SafeExactly(cfg: Config)
    ensures AlwaysSafe(cfg) <==> cfg == SOURCE
  {
    hide Start, Safe, Runs;
    QuietStarts();
    LostIsUnsafe();
    if cfg == SOURCE {
      forall s, steps, last | Start(s) && Runs(cfg, s, steps, last) ensures Safe(last) {
        StartOk(s);
        EveryRunSafe(s, steps, last);
      }
    } else if cfg.style == OneStatement {
      var steps := OneStatementLoses(cfg);
    } else {
      var steps := EarlyConfirmationLoses(cfg);
    }
  }

  lemma StartOk(s: State)
    requires Start(s)
    ensures Inv(s)
  {
  }
}
