/** Registration, key rotation and recovery: one function a statement or transaction. */
module MarketIdentity {
  import opened Tables
  import opened Market
  import G = Grants

  // ----- Registration -----

  predicate Expired(db: Market, p: Signup) { p.progress.Staged? && p.expires <= db.Now() }

  function CloseExpired(db: Market): map<Hash, Signup>
  {
    map s | s in db.signups ::
      if Expired(db, db.signups[s]) then db.signups[s].(progress := Closed) else db.signups[s]
  }

  predicate SignupTaken(db: Market, session: Hash, csrf: Hash)
  {
    session in db.signups || exists s :: s in db.signups && db.signups[s].csrf == csrf
  }

  /** A code hash another registration has staged makes the insertion fail. */
  predicate CodePending(db: Market, codes: seq<Hash>)
  {
    exists s, c :: s in db.signups && c in codes && db.signups[s].progress.Staged? && c in db.signups[s].progress.codes
  }

  function SignupsStaged(db: Market, session: Hash, csrf: Hash, handle: string, secret: Hash, codes: seq<Hash>): map<Hash, Signup>
  {
    if !Eight(codes) then db.signups
    else if HandleUsed(db, handle) || SignupTaken(db, session, csrf) then CloseExpired(db)
    else if CodePending(db, codes) then db.signups
    else CloseExpired(db)[session := Signup(csrf, db.Now() + CEREMONY, Staged(handle, secret, codes))]
  }

  /** `stageMerchantRegistration` */
  function StageSignup(db: Market, session: Hash, csrf: Hash, handle: string, secret: Hash, codes: seq<Hash>): (r: Market)
    ensures r.rotations == db.rotations
  {
    db.(signups := SignupsStaged(db, session, csrf, handle, secret, codes))
  }

  predicate ActiveSignup(db: Market, session: Hash, csrf: Hash)
  {
    session in db.signups && db.signups[session].csrf == csrf &&
    db.signups[session].progress.Staged? && db.signups[session].expires > db.Now()
  }

  predicate DoneSignup(db: Market, session: Hash, csrf: Hash)
  {
    session in db.signups && db.signups[session].csrf == csrf && db.signups[session].progress.Completed? &&
    db.signups[session].progress.merchant in db.merchants
  }

  predicate EligibleSignup(db: Market, session: Hash, csrf: Hash, secret: Hash)
  {
    ActiveSignup(db, session, csrf) && db.signups[session].progress.secret == secret
  }

  /** A code hash already issued makes the insertion of the new merchant's codes fail. */
  predicate Collides(db: Market, codes: seq<Hash>) { exists c :: c in codes && c in db.recovery }

  function FinishSignup(db: Market, session: Hash, to: Progress): (r: Market)
    requires session in db.signups
    ensures r.rotations == db.rotations
  {
    db.(signups := db.signups[session := db.signups[session].(progress := to)])
  }

  /** `confirmMerchantRegistrationOnce` */
  function ConfirmSignup(db: Market, session: Hash, csrf: Hash, secret: Hash): (r: (Market, Reply))
    ensures r.0.rotations == db.rotations
  {
    if EligibleSignup(db, session, csrf, secret) then ConfirmStaged(db, session)
    else
      var active, done := ActiveSignup(db, session, csrf), DoneSignup(db, session, csrf);
      var m := if done then db.signups[session].progress.merchant else 0;
      var holds := done && db.merchants[m].secret == secret;
      (db, Rows(When(holds, Approved(m)) + When(!active && !done, Unavailable) + When(active, Rejected) +
                When(done && !holds, Rejected)))
  }

  /** The branches of the query that see the staged row and its exact key. */
  function ConfirmStaged(db: Market, session: Hash): (r: (Market, Reply))
    requires session in db.signups && db.signups[session].progress.Staged?
    ensures r.0.rotations == db.rotations
  {
    var p := db.signups[session].progress;
    if HandleUsed(db, p.handle) then
      (FinishSignup(db, session, Closed), Rows(When(|p.codes| == CODE_SET, HandleTaken)))
    else if !Eight(p.codes) then (db, Rows([]))
    else if Collides(db, p.codes) then (db, Aborted)
    else
      (FinishSignup(Join(db, p.handle, p.secret, p.codes), session, Completed(db.next.merchant)),
       Rows([Approved(db.next.merchant)]))
  }

  /** `cancelMerchantRegistration` */
  function CancelSignup(db: Market, session: Hash, csrf: Hash): (r: Market)
    ensures r.rotations == db.rotations
  {
    if ActiveSignup(db, session, csrf) then FinishSignup(db, session, Closed) else db
  }

  // ----- Key rotation -----

  predicate Lapsed(db: Market, r: KeyRotation) { r.state.Pending? && r.expires <= db.Now() }

  function ClearLapsed(db: Market): map<Hash, KeyRotation>
  {
    map s | s in db.rotations ::
      if Lapsed(db, db.rotations[s]) then db.rotations[s].(state := Canceled(db.Now())) else db.rotations[s]
  }

  predicate RotationTaken(db: Market, session: Hash, csrf: Hash)
  {
    session in db.rotations || exists s :: s in db.rotations && db.rotations[s].csrf == csrf
  }

  predicate Stages(db: Market, session: Hash, csrf: Hash, secret: Hash, replacement: Hash, pick: nat)
  {
    pick in Holders(db, secret) && secret != replacement && !RotationTaken(db, session, csrf)
  }

  function RotationsStaged(db: Market, session: Hash, csrf: Hash, secret: Hash, replacement: Hash, pick: nat): map<Hash, KeyRotation>
  {
    if Stages(db, session, csrf, secret, replacement, pick) then
      ClearLapsed(db)[session :=
        KeyRotation(pick, db.merchants[pick].generation, csrf, db.Now() + CEREMONY, Pending(secret, replacement))]
    else ClearLapsed(db)
  }

  /**
    `stageMerchantRotation`. When several merchants hold the key, one insertion wins and the
    others conflict with it; `pick` says which.
   */
  function StageRotation(db: Market, session: Hash, csrf: Hash, secret: Hash, replacement: Hash, pick: nat): (r: (Market, Reply))
    ensures r.0.signups == db.signups
  {
    var proven, staged := Holders(db, secret), Stages(db, session, csrf, secret, replacement, pick);
    (db.(rotations := RotationsStaged(db, session, csrf, secret, replacement, pick)),
     Rows(When(staged, Approved(pick)) + When(proven == {}, Rejected) + When(proven != {} && !staged, Unavailable)))
  }

  predicate ActiveRotation(db: Market, session: Hash, csrf: Hash)
  {
    session in db.rotations && db.rotations[session].csrf == csrf && db.rotations[session].state.Pending? &&
    db.rotations[session].expires > db.Now() && db.rotations[session].merchant in db.merchants
  }

  predicate AvailableRotation(db: Market, session: Hash, csrf: Hash)
  {
    ActiveRotation(db, session, csrf) &&
    var r := db.rotations[session];
    r.state.current == db.merchants[r.merchant].secret && r.generation == db.merchants[r.merchant].generation
  }

  predicate EligibleRotation(db: Market, session: Hash, csrf: Hash, replacement: Hash)
  {
    AvailableRotation(db, session, csrf) && db.rotations[session].state.replacement == replacement
  }

  function DayStart(now: nat): nat { now - now % DAY }

  function ConfirmedSince(db: Market, m: nat, start: nat): set<Hash>
  {
    set s | s in db.rotations && db.rotations[s].merchant == m && db.rotations[s].state.Confirmed? &&
            db.rotations[s].state.at >= start
  }

  /**
    The rotation rows after a confirmation. A lapsed row of the same merchant is in reach of two
    updates of one statement; `won` holds those that the invalidation got to first.
   */
  function SettleRotations(db: Market, m: nat, own: Hash, won: set<Hash>): map<Hash, KeyRotation>
  {
    map s | s in db.rotations ::
      var r := db.rotations[s];
      if s == own then r.(state := Confirmed(db.Now()))
      else if r.merchant == m && r.state.Pending? && (s in won || !Lapsed(db, r)) then r.(state := Invalidated(db.Now()))
      else if Lapsed(db, r) then r.(state := Canceled(db.Now()))
      else r
  }

  function RotateKey(db: Market, m: nat, secret: Hash, own: Hash, won: set<Hash>): Market
    requires m in db.merchants
  {
    ChangeKey(db, m, secret, "merchant key rotation").(
      rotations := SettleRotations(db, m, own, won), recovery := DropCodes(db.recovery, m, db.Now()))
  }

  predicate Limited(db: Market, m: nat) { |ConfirmedSince(db, m, DayStart(db.Now()))| >= ROTATIONS_A_DAY }

  /** `confirmMerchantRotationOnce` */
  function ConfirmRotation(db: Market, session: Hash, csrf: Hash, replacement: Hash, won: set<Hash>): (r: (Market, Reply))
    ensures r.0.signups == db.signups
  {
    var active, available := ActiveRotation(db, session, csrf), AvailableRotation(db, session, csrf);
    var eligible := EligibleRotation(db, session, csrf, replacement);
    var m := if active then db.rotations[session].merchant else 0;
    var limited := eligible && Limited(db, m);
    var changed := eligible && !limited;
    (if changed then
       RotateKey(db, m, replacement, session, won)
     else if limited then
       db.(rotations := ClearLapsed(db)[session := db.rotations[session].(state := Canceled(db.Now()))])
     else db.(rotations := ClearLapsed(db)),
     Rows(When(changed, Approved(m)) + When(limited, RateLimited) + When(!active || !available, Unavailable) +
          When(available && !eligible, Rejected)))
  }

  /** `cancelMerchantRotation` */
  function CancelRotation(db: Market, session: Hash, csrf: Hash): (r: Market)
    ensures r.signups == db.signups
  {
    if session in db.rotations && db.rotations[session].csrf == csrf && db.rotations[session].state.Pending? &&
       db.rotations[session].expires > db.Now()
    then db.(rotations := db.rotations[session := db.rotations[session].(state := Canceled(db.Now()))]) else db
  }

  // ----- Recovery -----

  /** `generateMerchantRecoveryCodes`. Two holders of the key would insert each hash twice. */
  ghost function Generate(db: Market, secret: Hash, codes: seq<Hash>): (r: Market)
    ensures r.signups == db.signups
  {
    var proven := Holders(db, secret);
    if !Eight(codes) || |proven| != 1 || Collides(db, codes) then db
    else
      var m: nat :| m in proven;
      Regenerate(db, m, codes)
  }

  function Regenerate(db: Market, m: nat, codes: seq<Hash>): (r: Market)
    requires m in db.merchants
    ensures r.signups == db.signups
  {
    var generation := db.merchants[m].generation + 1;
    db.(merchants := db.merchants[m := db.merchants[m].(generation := generation)],
        recovery := AddCodes(DropCodes(db.recovery, m, db.Now()), ToSet(codes), m, generation),
        rotations := DropRotations(db.rotations, m, db.Now()))
  }

  predicate CeremonyRuns(db: Market, c: Ceremony) { c.expires > db.Now() }

  /** A code whose ceremony has lapsed, other than the one now presented. */
  predicate Stale(db: Market, c: Hash, presented: Hash)
  {
    c in db.recovery && Live(db.recovery[c]) && db.recovery[c].ceremony.Some? &&
    !CeremonyRuns(db, db.recovery[c].ceremony.value) && c != presented
  }

  function ClearStale(db: Market, presented: Hash): map<Hash, RecoveryCode>
  {
    map c | c in db.recovery ::
      if Stale(db, c, presented) then db.recovery[c].(ceremony := None) else db.recovery[c]
  }

  predicate Stageable(db: Market, session: Hash, csrf: Hash, code: Hash)
  {
    code in db.recovery && db.recovery[code].merchant in db.merchants &&
    db.recovery[code].generation == db.merchants[db.recovery[code].merchant].generation && Live(db.recovery[code]) &&
    (db.recovery[code].ceremony.None? ||
     (!CeremonyRuns(db, db.recovery[code].ceremony.value) &&
      db.recovery[code].ceremony.value.session != session && db.recovery[code].ceremony.value.csrf != csrf))
  }

  /** Another code already carries the session or the csrf hash. */
  predicate SessionTaken(db: Market, session: Hash, csrf: Hash, code: Hash)
  {
    exists c :: c in db.recovery && c != code && db.recovery[c].ceremony.Some? &&
      (db.recovery[c].ceremony.value.session == session || db.recovery[c].ceremony.value.csrf == csrf)
  }

  function CodesStaged(db: Market, session: Hash, csrf: Hash, code: Hash, replacement: Hash, known: bool): map<Hash, RecoveryCode>
  {
    if !Stageable(db, session, csrf, code) || known then ClearStale(db, code)
    else if SessionTaken(db, session, csrf, code) then db.recovery
    else
      ClearStale(db, code)[code :=
        db.recovery[code].(ceremony := Some(Ceremony(session, csrf, replacement, db.Now() + CEREMONY)))]
  }

  /** `stageMerchantRecovery`; `known` says that the history table has the session or the csrf hash. */
  function StageRecovery(db: Market, session: Hash, csrf: Hash, code: Hash, replacement: Hash, known: bool): (r: Market)
    ensures r.signups == db.signups && r.rotations == db.rotations
  {
    db.(recovery := CodesStaged(db, session, csrf, code, replacement, known))
  }

  predicate ActiveRecovery(db: Market, session: Hash, csrf: Hash, code: Hash)
  {
    code in db.recovery && Live(db.recovery[code]) && db.recovery[code].ceremony.Some? &&
    db.recovery[code].ceremony.value.session == session && db.recovery[code].ceremony.value.csrf == csrf &&
    CeremonyRuns(db, db.recovery[code].ceremony.value) && db.recovery[code].merchant in db.merchants
  }

  predicate AvailableRecovery(db: Market, session: Hash, csrf: Hash, code: Hash)
  {
    ActiveRecovery(db, session, csrf, code) &&
    db.recovery[code].generation == db.merchants[db.recovery[code].merchant].generation
  }

  predicate EligibleRecovery(db: Market, session: Hash, csrf: Hash, replacement: Hash, code: Hash)
  {
    AvailableRecovery(db, session, csrf, code) && db.recovery[code].ceremony.value.replacement == replacement
  }

  function ActiveRecoveries(db: Market, session: Hash, csrf: Hash): set<Hash>
  {
    set c | c in db.recovery && ActiveRecovery(db, session, csrf, c)
  }

  function AvailableRecoveries(db: Market, session: Hash, csrf: Hash): set<Hash>
  {
    set c | c in db.recovery && AvailableRecovery(db, session, csrf, c)
  }

  function EligibleRecoveries(db: Market, session: Hash, csrf: Hash, replacement: Hash): set<Hash>
  {
    set c | c in db.recovery && EligibleRecovery(db, session, csrf, replacement, c)
  }

  /** `confirmMerchantRecoveryOnce` */
  ghost function ConfirmRecovery(db: Market, session: Hash, csrf: Hash, replacement: Hash): (r: (Market, Reply))
    ensures r.0.signups == db.signups
  {
    var active, available := ActiveRecoveries(db, session, csrf), AvailableRecoveries(db, session, csrf);
    var eligible := EligibleRecoveries(db, session, csrf, replacement);
    var refusals := When(active == {} || available == {}, Unavailable) + When(available != {} && eligible == {}, Rejected);
    if eligible == {} then (db, Rows(refusals))
    else
      var code: Hash :| code in eligible;
      (Recover(db, code, replacement),
       Rows(seq(|eligible|, _ => Approved(db.recovery[code].merchant)) + refusals))
  }

  function Recover(db: Market, code: Hash, replacement: Hash): (r: Market)
    requires code in db.recovery && db.recovery[code].merchant in db.merchants
    ensures r.signups == db.signups
  {
    var m := db.recovery[code].merchant;
    ChangeKey(db, m, replacement, "merchant key recovery").(
      recovery := DropCodes(db.recovery[code := db.recovery[code].(used := Some(db.Now()), ceremony := None)], m, db.Now()),
      rotations := DropRotations(db.rotations, m, db.Now()))
  }

  /** `cancelMerchantRecovery` */
  function CancelRecovery(db: Market, session: Hash, csrf: Hash): (r: Market)
    ensures r.signups == db.signups && r.rotations == db.rotations
  {
    db.(recovery := map c | c in db.recovery ::
          if ActiveRecovery(db, session, csrf, c) then db.recovery[c].(ceremony := None) else db.recovery[c])
  }
}
