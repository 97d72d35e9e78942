/** At most five confirmed rotations of a merchant in a UTC day. */
module RotationLimit {
  import opened Tables
  import opened Market
  import opened MarketIdentity
  import opened MarketSignIn
  import opened MarketOnward
  import opened MarketRuns

  function ConfirmedOn(db: Market, m: nat, day: nat): set<Hash>
  {
    set s | s in db.rotations && db.rotations[s].merchant == m && db.rotations[s].state.Confirmed? &&
            db.rotations[s].state.at / DAY == day
  }

  ghost predicate DaysOk(db: Market)
  {
    (forall s :: s in db.rotations && db.rotations[s].state.Confirmed? ==> db.rotations[s].state.at <= db.Now()) &&
    forall m, day :: |ConfirmedOn(db, m, day)| <= 5
  }

  /** No rotation became confirmed. */
  predicate Quiet(a: Market, b: Market)
  {
    forall s :: s in b.rotations && b.rotations[s].state.Confirmed? ==> s in a.rotations && b.rotations[s] == a.rotations[s]
  }

  lemma QuietDays(a: Market, b: Market)
    requires DaysOk(a) && Quiet(a, b) && a.Now() <= b.Now()
    ensures DaysOk(b)
  {
    forall m, day ensures |ConfirmedOn(b, m, day)| <= ROTATIONS_A_DAY {
      SubsetSize(ConfirmedOn(b, m, day), ConfirmedOn(a, m, day));
    }
  }

  lemma StageRotationQuiet(db: Market, session: Hash, csrf: Hash, secret: Hash, replacement: Hash, pick: nat)
    ensures Quiet(db, StageRotation(db, session, csrf, secret, replacement, pick).0)
  {
    hide RotationTaken, Holders;
  }

  lemma CancelRotationQuiet(db: Market, session: Hash, csrf: Hash)
    ensures Quiet(db, CancelRotation(db, session, csrf))
  {
  }

  lemma DropQuiet(a: Market, b: Market, m: nat)
    requires b.rotations == DropRotations(a.rotations, m, a.Now())
    ensures Quiet(a, b)
  {
  }

  lemma GenerateQuiet(db: Market, secret: Hash, codes: seq<Hash>)
    ensures Quiet(db, Generate(db, secret, codes))
  {
    hide Eight, Collides, DropCodes, AddCodes, DropRotations, Quiet;
    SameQuiet(db, db);
    forall m | m in Holders(db, secret) ensures Quiet(db, Regenerate(db, m, codes)) {
      DropQuiet(db, Regenerate(db, m, codes), m);
    }
  }

  lemma SameQuiet(a: Market, b: Market)
    requires b.rotations == a.rotations
    ensures Quiet(a, b)
  {
  }

  lemma ConfirmRecoveryQuiet(db: Market, session: Hash, csrf: Hash, replacement: Hash)
    ensures Quiet(db, ConfirmRecovery(db, session, csrf, replacement).0)
  {
    hide ChangeKey, DropCodes, DropRotations, Quiet;
    SameQuiet(db, db);
    forall code | code in EligibleRecoveries(db, session, csrf, replacement)
      ensures Quiet(db, Recover(db, code, replacement))
    {
      DropQuiet(db, Recover(db, code, replacement), db.recovery[code].merchant);
    }
  }

  lemma DayOf(at: nat, now: nat)
    requires at <= now
    ensures at / DAY == now / DAY ==> at >= DayStart(now)
  {
  }

  lemma RotateKeyDays(db: Market, m: nat, secret: Hash, own: Hash, won: set<Hash>)
    requires DaysOk(db) && m in db.merchants && own in db.rotations && db.rotations[own].merchant == m && !Limited(db, m)
    ensures DaysOk(RotateKey(db, m, secret, own, won))
  {
    hide ChangeKey, DropCodes;
    var next, today := RotateKey(db, m, secret, own, won), db.Now() / DAY;
    assert next.Now() == db.Now() by { ChangeKeyNow(db, m, secret); }
    forall n, day ensures |ConfirmedOn(next, n, day)| <= ROTATIONS_A_DAY {
      if n == m && day == today {
        var since := ConfirmedSince(db, m, DayStart(db.Now()));
        forall s | s in ConfirmedOn(next, n, day) ensures s in since + {own} {
          if s != own { DayOf(db.rotations[s].state.at, db.Now()); }
        }
        SubsetSize(ConfirmedOn(next, n, day), since + {own});
      } else {
        SubsetSize(ConfirmedOn(next, n, day), ConfirmedOn(db, n, day));
      }
    }
  }

  lemma ChangeKeyNow(db: Market, m: nat, secret: Hash)
    requires m in db.merchants
    ensures ChangeKey(db, m, secret, "merchant key rotation").Now() == db.Now()
  {
  }

  lemma ClearLapsedQuiet(db: Market, session: Hash)
    ensures Quiet(db, db.(rotations := ClearLapsed(db)))
    ensures session in db.rotations ==>
      Quiet(db, db.(rotations := ClearLapsed(db)[session := db.rotations[session].(state := Canceled(db.Now()))]))
  {
  }

  lemma ConfirmRotationDays(db: Market, session: Hash, csrf: Hash, replacement: Hash, won: set<Hash>)
    requires DaysOk(db)
    ensures DaysOk(ConfirmRotation(db, session, csrf, replacement, won).0)
  {
    hide DaysOk, Quiet, Limited, ClearLapsed, RotateKey;
    ClearLapsedQuiet(db, session);
    if EligibleRotation(db, session, csrf, replacement) {
      var m := db.rotations[session].merchant;
      if !Limited(db, m) { RotateKeyDays(db, m, replacement, session, won); }
      QuietDays(db, db.(rotations := ClearLapsed(db)[session := db.rotations[session].(state := Canceled(db.Now()))]));
    }
    QuietDays(db, db.(rotations := ClearLapsed(db)));
  }

  lemma IdentityDays(db: Market, e: IdentityStep)
    requires Valid(db) && DaysOk(db)
    ensures DaysOk(ApplyIdentity(db, e))
  {
    hide Valid, Onward, DaysOk, Quiet, StageSignup, ConfirmSignup, CancelSignup, StageRotation, ConfirmRotation, CancelRotation,
      Generate, StageRecovery, ConfirmRecovery, CancelRecovery;
    var next := ApplyIdentity(db, e);
    ApplyIdentityOnward(db, e);
    OnwardNow(db, next);
    match e {
      case RotationStaged(s, x, k, r, pick) => StageRotationQuiet(db, s, x, k, r, pick);
      case RotationCanceled(s, x) => CancelRotationQuiet(db, s, x);
      case RotationConfirmed(s, x, r, won) => ConfirmRotationDays(db, s, x, r, won);
      case CodesGenerated(k, codes) => GenerateQuiet(db, k, codes);
      case RecoveryConfirmed(s, x, r) => ConfirmRecoveryQuiet(db, s, x, r);
      case _ => SameQuiet(db, next);
    }
    if !e.RotationConfirmed? { QuietDays(db, next); }
  }

  lemma OnwardNow(a: Market, b: Market)
    requires Onward(a, b)
    ensures a.Now() <= b.Now()
  {
  }

  /** Never more than five successful rotations of one merchant in one UTC day. */
  lemma {:induction false} FiveRotationsADay(db: Market, es: seq<Event>)
    requires Valid(db) && DaysOk(db)
    ensures DaysOk(Run(db, es))
    decreases |es|
  {
    hide Valid, Onward, DaysOk, ApplyIdentity, ApplySignIn;
    if es != [] {
      var e, next := es[0], Apply(db, es[0]);
      ApplyValid(db, e);
      ApplyOnward(db, e);
      OnwardNow(db, next);
      if e.OnIdentity? {
        IdentityDays(db, e.i);
      } else {
        SameQuiet(db, next);
        QuietDays(db, next);
      }
      FiveRotationsADay(next, es[1..]);
    }
  }
}
