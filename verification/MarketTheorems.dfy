/** The guarantees of the credential tables, stated about the statements that give them. */
module MarketTheorems {
  import opened Tables
  import opened Market
  import opened MarketIdentity
  import opened MarketIdentityLaws
  import opened MarketSignIn
  import opened MarketSignInLaws
  import opened MarketOnward
  import opened MarketRuns
  import G = Grants
  import R = GrantRuns

  // ----- A confirmed rotation or recovery cuts off everything earlier -----

  lemma KeyChangeCutsOff(db: Market, e: Event, es: seq<Event>, m: nat)
    requires Valid(db) && KeyChanged(db, Apply(db, e), m)
    ensures CutOff(db, Run(Apply(db, e), es), m)
  {
    hide Valid, Onward, Apply, CutOff;
    var next, all := Apply(db, e), [e] + es;
    ApplyValid(db, e);
    ApplyOnward(db, e);
    RunKeeps(next, es);
    assert all[1..] == es && Run(db, all) == Run(next, es);
    StaysChanged(db, next, Run(next, es), m);
    NoEarlierGrantSurvives(db, all, m);
  }

  lemma StaysChanged(a: Market, b: Market, c: Market, m: nat)
    requires KeyChanged(a, b, m) && Onward(a, b) && Onward(b, c)
    ensures KeyChanged(a, c, m)
  {
    hide GrantsOnward, RotationsOnward, RecoveryOnward;
  }

  /**
    Once a rotation answers "rotated", no earlier access token resolves, no earlier refresh token
    rotates, no earlier authorization or pairing code works and no earlier ceremony confirms,
    whatever runs next.
   */
  lemma RotationCutsOff(db: Market, session: Hash, csrf: Hash, replacement: Hash, won: set<Hash>, es: seq<Event>, m: nat)
    requires Valid(db) && ConfirmRotation(db, session, csrf, replacement, won).1 == Rows([Approved(m)])
    ensures var next := ConfirmRotation(db, session, csrf, replacement, won).0;
            m in next.merchants && next.merchants[m].secret == replacement && CutOff(db, Run(next, es), m)
  {
    hide Valid, CutOff, Run, ConfirmRotation;
    RotationChangesKey(db, session, csrf, replacement, won, m);
    KeyChangeCutsOff(db, OnIdentity(RotationConfirmed(session, csrf, replacement, won)), es, m);
  }

  lemma RotationChangesKey(db: Market, session: Hash, csrf: Hash, replacement: Hash, won: set<Hash>, m: nat)
    requires ConfirmRotation(db, session, csrf, replacement, won).1 == Rows([Approved(m)])
    ensures var next := ConfirmRotation(db, session, csrf, replacement, won).0;
            KeyChanged(db, next, m) && next.merchants[m].secret == replacement
  {
    hide Limited, SettleRotations, ClearLapsed, DropCodes, G.RevokeMerchant;
    var rows := ConfirmRotation(db, session, csrf, replacement, won).1.rows;
    assert rows[0] == Approved(m);
  }

  /** The same for a confirmed recovery. */
  lemma RecoveryCutsOff(db: Market, session: Hash, csrf: Hash, replacement: Hash, es: seq<Event>, m: nat)
    requires Valid(db) && ConfirmRecovery(db, session, csrf, replacement).1 == Rows([Approved(m)])
    ensures var next := ConfirmRecovery(db, session, csrf, replacement).0;
            m in next.merchants && next.merchants[m].secret == replacement && CutOff(db, Run(next, es), m)
  {
    hide Valid, CutOff, Run, ConfirmRecovery;
    RecoveryChangesKey(db, session, csrf, replacement, m);
    KeyChangeCutsOff(db, OnIdentity(RecoveryConfirmed(session, csrf, replacement)), es, m);
  }

  lemma RecoveryChangesKey(db: Market, session: Hash, csrf: Hash, replacement: Hash, m: nat)
    requires ConfirmRecovery(db, session, csrf, replacement).1 == Rows([Approved(m)])
    ensures var next := ConfirmRecovery(db, session, csrf, replacement).0;
            KeyChanged(db, next, m) && next.merchants[m].secret == replacement
  {
    hide DropRotations, DropCodes, G.RevokeMerchant;
    var rows := ConfirmRecovery(db, session, csrf, replacement).1.rows;
    assert rows[0] == Approved(m);
  }

  // ----- One use -----

  /** An authorization code is exchanged at most once in any run. */
  lemma ExchangesOnce(db: Market, c: nat, client: string, redirect: string, resource: string, es: seq<Event>)
    requires Valid(db) && Exchange(db, c, client, redirect, resource).1.Some?
    ensures var late := Run(Exchange(db, c, client, redirect, resource).0, es);
            forall l, d, r :: Exchange(late, c, l, d, r).1 == None
  {
    hide IdentityOk, PairingsOk, FamiliesOk, RequestsOk, SignupsOk, G.Valid, CredentialsOnward;
    var next := Exchange(db, c, client, redirect, resource).0;
    ExchangeValid(db, c, client, redirect, resource);
    RunKeeps(next, es);
    assert c in next.codes && c < next.next.code && next.codes[c].used.Some?;
  }

  /**
    A pairing code is spent at most once in any run, for its own merchant, and only while the key stands
    under which it was inserted.
   */
  lemma PairsOnce(db: Market, m: nat, es: seq<Event>, es': seq<Event>)
    requires Valid(db) && m in db.merchants && SpendPairing(Run(CreatePairing(db, m), es), db.next.pairing).1.Some?
    ensures var late := Run(CreatePairing(db, m), es);
            var (spent, merchant) := SpendPairing(late, db.next.pairing);
            merchant == Some(m) && m in late.merchants && late.merchants[m].keyChanges == db.merchants[m].keyChanges &&
            late.merchants[m].secret == db.merchants[m].secret &&
            SpendPairing(Run(spent, es'), db.next.pairing).1 == None
  {
    hide IdentityOk, CodesOk, FamiliesOk, RequestsOk, SignupsOk, G.Valid, RotationsOnward, RecoveryOnward;
    var minted, p := CreatePairing(db, m), db.next.pairing;
    assert minted.merchants == db.merchants && p in minted.pairings && p < minted.next.pairing &&
           minted.pairings[p].merchant == m && minted.pairings[p].epoch == db.merchants[m].keyChanges;
    CreatePairingValid(db, m);
    hide CreatePairing;
    RunKeeps(minted, es);
    SpentForGood(Run(minted, es), p, es');
  }

  lemma SpentForGood(db: Market, p: nat, es: seq<Event>)
    requires Valid(db) && Redeemable(db, p)
    ensures SpendPairing(Run(SpendPairing(db, p).0, es), p).1 == None
  {
    hide IdentityOk, CodesOk, FamiliesOk, RequestsOk, SignupsOk, G.Valid, CredentialsOnward;
    var next := SpendPairing(db, p).0;
    SpendPairingValid(db, p);
    RunKeeps(next, es);
    assert p in next.pairings && p < next.next.pairing && next.pairings[p].used.Some?;
  }

  // ----- Code sets -----

  /** In every reachable state a merchant has no live recovery code, or eight of its present generation. */
  lemma EightOrNone(db: Market, es: seq<Event>, m: nat)
    requires Valid(db) && m in Run(db, es).merchants
    ensures var late := Run(db, es);
            (LiveCodes(late, m) == {} || |LiveCodes(late, m)| == 8) &&
            forall c :: c in LiveCodes(late, m) ==> late.recovery[c].generation == late.merchants[m].generation
  {
    hide GrantsOk, SignupsOk, MerchantsOk, RotationsOk, SessionsOk;
    RunKeeps(db, es);
  }

  // ----- Grants speak for the present key -----

  /** While a code is unused, its merchant's key is the one that was presented for it. */
  lemma UnusedCodeUnderPresentKey(db: Market, session: Hash, csrf: Hash, secret: Hash, es: seq<Event>, m: nat)
    requires Valid(db) && Approve(db, session, csrf, secret).1 == Rows([Approved(m)])
    ensures var late := Run(Approve(db, session, csrf, secret).0, es);
            db.next.code in late.codes && late.codes[db.next.code].used.None? ==>
              m in late.merchants && late.codes[db.next.code].merchant == m && late.merchants[m].secret == secret
  {
    hide IdentityOk, PairingsOk, FamiliesOk, RequestsOk, SignupsOk, G.Valid, RotationsOnward, RecoveryOnward;
    var next := Approve(db, session, csrf, secret).0;
    assert Approve(db, session, csrf, secret).1.rows[0] == Approved(m);
    assert m in next.merchants && next.merchants[m].secret == secret && db.next.code in next.codes &&
           next.codes[db.next.code].merchant == m && next.codes[db.next.code].epoch == next.merchants[m].keyChanges &&
           db.next.code < next.next.code;
    ApproveValid(db, session, csrf, secret);
    hide Approve;
    RunKeeps(next, es);
  }

  /** While a family is not revoked, its merchant's key is the one it had when the code was exchanged. */
  lemma FamilyUnderPresentKey(db: Market, c: nat, client: string, redirect: string, resource: string, es: seq<Event>, f: nat)
    requires Valid(db) && Exchange(db, c, client, redirect, resource).1 == Some(f)
    ensures var late := Run(Exchange(db, c, client, redirect, resource).0, es);
            var m := db.codes[c].merchant;
            f in late.grants.families && late.grants.families[f].revoked.None? ==>
              late.grants.families[f].merchant == m && m in late.merchants && late.merchants[m].secret == db.merchants[m].secret
  {
    hide IdentityOk, PairingsOk, RequestsOk, SignupsOk, G.Valid, RotationsOnward, RecoveryOnward;
    var next, m := Exchange(db, c, client, redirect, resource).0, db.codes[c].merchant;
    assert next.merchants == db.merchants && f in next.grants.families && next.grants.families[f].merchant == m &&
           next.grants.families[f].epoch == db.merchants[m].keyChanges && f < next.grants.nextFamily;
    ExchangeValid(db, c, client, redirect, resource);
    hide Exchange;
    RunKeeps(next, es);
  }

  // ----- Confirming a registration again -----

  /** A completed registration stays. */
  predicate SignupKept(a: Market, b: Market, session: Hash)
  {
    session in a.signups && a.signups[session].progress.Completed? ==>
      session in b.signups && b.signups[session] == a.signups[session]
  }

  predicate SignupStep(e: IdentityStep) { e.SignupStaged? || e.SignupConfirmed? || e.SignupCanceled? }

  lemma OtherStepSignups(db: Market, e: IdentityStep)
    requires !SignupStep(e)
    ensures ApplyIdentity(db, e).signups == db.signups
  {
    hide StageSignup, ConfirmSignup, CancelSignup, StageRotation, ConfirmRotation, CancelRotation, Generate, StageRecovery,
      ConfirmRecovery, CancelRecovery;
  }

  lemma StageSignupKeeps(db: Market, s: Hash, csrf: Hash, handle: string, secret: Hash, codes: seq<Hash>, session: Hash)
    ensures SignupKept(db, StageSignup(db, s, csrf, handle, secret, codes), session)
  {
    hide HandleUsed, CodePending, Eight;
  }

  lemma ConfirmSignupKeeps(db: Market, s: Hash, csrf: Hash, secret: Hash, session: Hash)
    ensures SignupKept(db, ConfirmSignup(db, s, csrf, secret).0, session)
  {
    hide HandleUsed, Collides, Eight, Join;
  }

  lemma CancelSignupKeeps(db: Market, s: Hash, csrf: Hash, session: Hash)
    ensures SignupKept(db, CancelSignup(db, s, csrf), session)
  {
  }

  lemma SignupStepKeeps(db: Market, e: IdentityStep, session: Hash)
    ensures SignupKept(db, ApplyIdentity(db, e), session)
  {
    hide StageSignup, ConfirmSignup, CancelSignup, StageRotation, ConfirmRotation, CancelRotation, Generate, StageRecovery,
      ConfirmRecovery, CancelRecovery;
    match e
    case SignupStaged(s, x, handle, k, codes) => StageSignupKeeps(db, s, x, handle, k, codes, session);
    case SignupConfirmed(s, x, k) => ConfirmSignupKeeps(db, s, x, k, session);
    case SignupCanceled(s, x) => CancelSignupKeeps(db, s, x, session);
    case _ => OtherStepSignups(db, e);
  }

  lemma {:induction false} RunKeepsSignup(db: Market, es: seq<Event>, session: Hash)
    requires session in db.signups && db.signups[session].progress.Completed?
    ensures SignupKept(db, Run(db, es), session)
    decreases |es|
  {
    hide ApplyIdentity, ApplySignIn;
    if es != [] {
      if es[0].OnIdentity? { SignupStepKeeps(db, es[0].i, session); }
      RunKeepsSignup(Apply(db, es[0]), es[1..], session);
    }
  }

  /**
    A registration that was confirmed for `m` answers `m` again, in any later state, to whoever
    presents the merchant's present key, and rejects every other key.
   */
  lemma ReconfirmsTheSame(db: Market, session: Hash, csrf: Hash, secret: Hash, m: nat, es: seq<Event>, again: Hash)
    requires Valid(db) && ConfirmSignup(db, session, csrf, secret).1 == Rows([Approved(m)])
    ensures var late := Run(ConfirmSignup(db, session, csrf, secret).0, es);
            m in late.merchants &&
            ConfirmSignup(late, session, csrf, again) ==
              (late, Rows([if late.merchants[m].secret == again then Approved(m) else Rejected]))
  {
    hide Valid, Onward, Apply;
    var next := ConfirmSignup(db, session, csrf, secret).0;
    ConfirmedIsCompleted(db, session, csrf, secret, m);
    ConfirmSignupValid(db, session, csrf, secret);
    hide ConfirmSignup;
    RunKeeps(next, es);
    RunKeepsSignup(next, es, session);
    CompletedAnswers(Run(next, es), session, csrf, again);
  }

  lemma ConfirmedIsCompleted(db: Market, session: Hash, csrf: Hash, secret: Hash, m: nat)
    requires ConfirmSignup(db, session, csrf, secret).1 == Rows([Approved(m)])
    ensures var next := ConfirmSignup(db, session, csrf, secret).0;
            session in next.signups && next.signups[session].csrf == csrf && next.signups[session].progress == Completed(m)
  {
    hide HandleUsed, Collides, Eight, AddCodes;
    assert ConfirmSignup(db, session, csrf, secret).1.rows[0] == Approved(m);
  }

  lemma CompletedAnswers(db: Market, session: Hash, csrf: Hash, again: Hash)
    requires Valid(db) && session in db.signups && db.signups[session].csrf == csrf
    requires db.signups[session].progress.Completed?
    ensures var m := db.signups[session].progress.merchant;
            m in db.merchants &&
            ConfirmSignup(db, session, csrf, again) ==
              (db, Rows([if db.merchants[m].secret == again then Approved(m) else Rejected]))
  {
    hide IdentityOk, GrantsOk, Eight;
    var m := db.signups[session].progress.merchant;
    assert DoneSignup(db, session, csrf) && !ActiveSignup(db, session, csrf);
    var (next, reply) := ConfirmSignup(db, session, csrf, again);
    assert next == db && reply.Rows? && reply.rows == [if db.merchants[m].secret == again then Approved(m) else Rejected];
  }
}
