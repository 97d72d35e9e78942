/** What holds over every run of the identity, sign-in and token statements together. */
module MarketRuns {
  import opened Tables
  import opened Market
  import opened MarketIdentity
  import opened MarketIdentityLaws
  import opened MarketSignIn
  import opened MarketSignInLaws
  import opened MarketOnward
  import G = Grants
  import R = GrantRuns

  datatype IdentityStep =
    | SignupStaged(session: Hash, csrf: Hash, handle: string, secret: Hash, codes: seq<Hash>)
    | SignupConfirmed(session: Hash, csrf: Hash, secret: Hash)
    | SignupCanceled(session: Hash, csrf: Hash)
    | RotationStaged(session: Hash, csrf: Hash, secret: Hash, replacement: Hash, pick: nat)
    | RotationConfirmed(session: Hash, csrf: Hash, replacement: Hash, won: set<Hash>)
    | RotationCanceled(session: Hash, csrf: Hash)
    | CodesGenerated(secret: Hash, codes: seq<Hash>)
    | RecoveryStaged(session: Hash, csrf: Hash, code: Hash, replacement: Hash, known: bool)
    | RecoveryConfirmed(session: Hash, csrf: Hash, replacement: Hash)
    | RecoveryCanceled(session: Hash, csrf: Hash)

  datatype SignInStep =
    | RequestCreated(session: Hash, csrf: Hash, grant: Grant)
    | RequestCanceled(session: Hash, csrf: Hash)
    | MerchantApproved(session: Hash, csrf: Hash, secret: Hash)
    | NewStaged(session: Hash, csrf: Hash, handle: string, secret: Hash, codes: seq<Hash>)
    | NewConfirmed(session: Hash, csrf: Hash, secret: Hash)
    | CodeExchanged(c: nat, client: string, redirect: string, resource: string)
    | PairingCreated(m: nat)
    | PairingReserved(session: Hash, csrf: Hash, p: nat)
    | PairingTaken(session: Hash, csrf: Hash)
    | PairingSpent(p: nat)
    | TokenRefreshed(h: nat, client: string, resource: string)
    | TokenRevoked(h: nat, client: string)
    | Pruned
    | Ticked(elapsed: nat)

  datatype Event = OnIdentity(i: IdentityStep) | OnSignIn(s: SignInStep)

  ghost function ApplyIdentity(db: Market, e: IdentityStep): Market
  {
    match e
    case SignupStaged(s, x, handle, k, codes) => StageSignup(db, s, x, handle, k, codes)
    case SignupConfirmed(s, x, k) => ConfirmSignup(db, s, x, k).0
    case SignupCanceled(s, x) => CancelSignup(db, s, x)
    case RotationStaged(s, x, k, next, pick) => StageRotation(db, s, x, k, next, pick).0
    case RotationConfirmed(s, x, next, won) => ConfirmRotation(db, s, x, next, won).0
    case RotationCanceled(s, x) => CancelRotation(db, s, x)
    case CodesGenerated(k, codes) => Generate(db, k, codes)
    case RecoveryStaged(s, x, code, next, known) => StageRecovery(db, s, x, code, next, known)
    case RecoveryConfirmed(s, x, next) => ConfirmRecovery(db, s, x, next).0
    case RecoveryCanceled(s, x) => CancelRecovery(db, s, x)
  }

  ghost function ApplySignIn(db: Market, e: SignInStep): (r: Market)
    ensures r.signups == db.signups && r.rotations == db.rotations
  {
    match e
    case RequestCreated(s, x, grant) => CreateRequest(db, s, x, grant)
    case RequestCanceled(s, x) => CancelRequest(db, s, x)
    case MerchantApproved(s, x, k) => Approve(db, s, x, k).0
    case NewStaged(s, x, handle, k, codes) => StageNew(db, s, x, handle, k, codes)
    case NewConfirmed(s, x, k) => ConfirmNew(db, s, x, k).0
    case CodeExchanged(c, client, redirect, resource) => Exchange(db, c, client, redirect, resource).0
    case PairingCreated(m) => CreatePairing(db, m)
    case PairingReserved(s, x, p) => Reserve(db, s, x, p)
    case PairingTaken(s, x) => Take(db, s, x).0
    case PairingSpent(p) => SpendPairing(db, p).0
    case TokenRefreshed(h, client, resource) => OnGrants(db, R.Apply(db.grants, R.Refreshed(h, client, resource)))
    case TokenRevoked(h, client) => OnGrants(db, R.Apply(db.grants, R.Revoked(h, client)))
    case Pruned => PruneAll(db)
    case Ticked(d) => OnGrants(db, R.Apply(db.grants, R.Ticked(d)))
  }

  ghost function Apply(db: Market, e: Event): Market
  {
    match e
    case OnIdentity(i) => ApplyIdentity(db, i)
    case OnSignIn(s) => ApplySignIn(db, s)
  }

  ghost function Run(db: Market, es: seq<Event>): Market
    decreases |es|
  {
    if es == [] then db else Run(Apply(db, es[0]), es[1..])
  }

  // ----- Every reachable state is valid -----

  /** A token statement outside the key change: it revokes, uses or adds tokens, but opens no family. */
  predicate TokenEvent(e: R.Event) { e.Refreshed? || e.Revoked? || e.Ticked? }

  lemma TokenEventFamilies(g: G.Db, e: R.Event)
    requires TokenEvent(e)
    ensures var next := R.Apply(g, e);
            next.families.Keys == g.families.Keys && next.nextFamily == g.nextFamily &&
            forall f :: f in g.families ==>
              next.families[f].merchant == g.families[f].merchant && next.families[f].epoch == g.families[f].epoch &&
              (next.families[f].revoked.None? ==> g.families[f].revoked.None?)
  {
    hide G.Rotatable, G.Replayed;
  }

  lemma TokenEventValid(db: Market, e: R.Event)
    requires Valid(db) && TokenEvent(e)
    ensures Valid(OnGrants(db, R.Apply(db.grants, e)))
  {
    hide IdentityOk, PairingsOk, CodesOk, RequestsOk, SignupsOk, G.Valid, R.Apply;
    R.ApplyValid(db.grants, e);
    TokenEventFamilies(db.grants, e);
    GrantsOnly(db, OnGrants(db, R.Apply(db.grants, e)));
  }

  lemma ApplyIdentityValid(db: Market, e: IdentityStep)
    requires Valid(db)
    ensures Valid(ApplyIdentity(db, e))
  {
    hide Valid, StageSignup, ConfirmSignup, CancelSignup, StageRotation, ConfirmRotation, CancelRotation, Generate,
      StageRecovery, ConfirmRecovery, CancelRecovery;
    match e
    case SignupStaged(s, x, handle, k, codes) => StageSignupValid(db, s, x, handle, k, codes);
    case SignupConfirmed(s, x, k) => ConfirmSignupValid(db, s, x, k);
    case SignupCanceled(s, x) => CancelSignupValid(db, s, x);
    case RotationStaged(s, x, k, next, pick) => StageRotationValid(db, s, x, k, next, pick);
    case RotationConfirmed(s, x, next, won) => ConfirmRotationValid(db, s, x, next, won);
    case RotationCanceled(s, x) => CancelRotationValid(db, s, x);
    case CodesGenerated(k, codes) => GenerateValid(db, k, codes);
    case RecoveryStaged(s, x, code, next, known) => StageRecoveryValid(db, s, x, code, next, known);
    case RecoveryConfirmed(s, x, next) => ConfirmRecoveryValid(db, s, x, next);
    case RecoveryCanceled(s, x) => CancelRecoveryValid(db, s, x);
  }

  lemma ApplySignInValid(db: Market, e: SignInStep)
    requires Valid(db)
    ensures Valid(ApplySignIn(db, e))
  {
    hide Valid, CreateRequest, CancelRequest, Approve, StageNew, ConfirmNew, Exchange, CreatePairing, Reserve, Take,
      SpendPairing, PruneAll, OnGrants, R.Apply;
    match e
    case RequestCreated(s, x, grant) => CreateRequestValid(db, s, x, grant);
    case RequestCanceled(s, x) => CancelRequestValid(db, s, x);
    case MerchantApproved(s, x, k) => ApproveValid(db, s, x, k);
    case NewStaged(s, x, handle, k, codes) => StageNewValid(db, s, x, handle, k, codes);
    case NewConfirmed(s, x, k) => ConfirmNewValid(db, s, x, k);
    case CodeExchanged(c, client, redirect, resource) => ExchangeValid(db, c, client, redirect, resource);
    case PairingCreated(m) => CreatePairingValid(db, m);
    case PairingReserved(s, x, p) => ReserveValid(db, s, x, p);
    case PairingTaken(s, x) => ReserveValid(db, s, x, 0);
    case PairingSpent(p) => SpendPairingValid(db, p);
    case TokenRefreshed(h, client, resource) => TokenEventValid(db, R.Refreshed(h, client, resource));
    case TokenRevoked(h, client) => TokenEventValid(db, R.Revoked(h, client));
    case Pruned => PruneAllValid(db);
    case Ticked(d) => TokenEventValid(db, R.Ticked(d));
  }

  lemma ApplyValid(db: Market, e: Event)
    requires Valid(db)
    ensures Valid(Apply(db, e))
  {
    hide Valid, ApplyIdentity, ApplySignIn;
    match e
    case OnIdentity(i) => ApplyIdentityValid(db, i);
    case OnSignIn(s) => ApplySignInValid(db, s);
  }

  lemma ApplyIdentityOnward(db: Market, e: IdentityStep)
    requires Valid(db)
    ensures Onward(db, ApplyIdentity(db, e))
  {
    hide Onward, IdentityOk, GrantsOk, SignupsOk, StageSignup, ConfirmSignup, CancelSignup, StageRotation, ConfirmRotation, CancelRotation, Generate,
      StageRecovery, ConfirmRecovery, CancelRecovery;
    MerchantsOf(db);
    match e
    case SignupStaged(s, x, handle, k, codes) => StageSignupOnward(db, s, x, handle, k, codes);
    case SignupConfirmed(s, x, k) => ConfirmSignupOnward(db, s, x, k);
    case SignupCanceled(s, x) => CancelSignupOnward(db, s, x);
    case RotationStaged(s, x, k, next, pick) => StageRotationOnward(db, s, x, k, next, pick);
    case RotationConfirmed(s, x, next, won) => ConfirmRotationOnward(db, s, x, next, won);
    case RotationCanceled(s, x) => CancelRotationOnward(db, s, x);
    case CodesGenerated(k, codes) => GenerateOnward(db, k, codes);
    case RecoveryStaged(s, x, code, next, known) => StageRecoveryOnward(db, s, x, code, next, known);
    case RecoveryConfirmed(s, x, next) => ConfirmRecoveryOnward(db, s, x, next);
    case RecoveryCanceled(s, x) => CancelRecoveryOnward(db, s, x);
  }

  lemma ApplySignInOnward(db: Market, e: SignInStep)
    requires Valid(db)
    ensures Onward(db, ApplySignIn(db, e))
  {
    hide Onward, IdentityOk, GrantsOk, SignupsOk, CreateRequest, CancelRequest, Approve, StageNew, ConfirmNew, Exchange, CreatePairing, Reserve, Take,
      SpendPairing, PruneAll, OnGrants, R.Apply;
    MerchantsOf(db);
    match e
    case RequestCreated(s, x, grant) => CreateRequestOnward(db, s, x, grant);
    case RequestCanceled(s, x) => ProgressOnward(db, s, x, "", 0, []);
    case MerchantApproved(s, x, k) => ApproveOnward(db, s, x, k);
    case NewStaged(s, x, handle, k, codes) => ProgressOnward(db, s, x, handle, k, codes);
    case NewConfirmed(s, x, k) => ConfirmNewOnward(db, s, x, k);
    case CodeExchanged(c, client, redirect, resource) => ExchangeOnward(db, c, client, redirect, resource);
    case PairingCreated(m) => CreatePairingOnward(db, m);
    case PairingReserved(s, x, p) => ReserveOnward(db, s, x, p);
    case PairingTaken(s, x) => ReserveOnward(db, s, x, 0);
    case PairingSpent(p) => SpendPairingOnward(db, p);
    case TokenRefreshed(h, client, resource) => TokensMoveOnward(db, h, client, resource);
    case TokenRevoked(h, client) => TokensMoveOnward(db, h, client, "");
    case Pruned => PruneOnward(db);
    case Ticked(d) => TickOnward(db, d);
  }

  lemma ApplyOnward(db: Market, e: Event)
    requires Valid(db)
    ensures Onward(db, Apply(db, e))
  {
    hide Onward, IdentityOk, GrantsOk, SignupsOk, ApplyIdentity, ApplySignIn;
    match e
    case OnIdentity(i) => ApplyIdentityOnward(db, i);
    case OnSignIn(s) => ApplySignInOnward(db, s);
  }

  lemma MerchantsOf(db: Market)
    requires Valid(db)
    ensures MerchantsOk(db)
  {
  }

  /** Every run keeps the tables valid, and moves the rows it starts from only onward. */
  lemma {:induction false} RunKeeps(db: Market, es: seq<Event>)
    requires Valid(db)
    ensures Valid(Run(db, es)) && Onward(db, Run(db, es))
    decreases |es|
  {
    hide Valid, Onward, Apply;
    if es == [] {
      OnwardRefl(db);
    } else {
      var next := Apply(db, es[0]);
      ApplyValid(db, es[0]);
      ApplyOnward(db, es[0]);
      RunKeeps(next, es[1..]);
      OnwardTrans(db, next, Run(next, es[1..]));
    }
  }

  // ----- Runs in parts -----

  lemma {:induction false} RunConcat(db: Market, es: seq<Event>, es': seq<Event>)
    ensures Run(db, es + es') == Run(Run(db, es), es')
    decreases |es|
  {
    hide Apply;
    if es == [] {
      assert es + es' == es';
    } else {
      assert (es + es')[0] == es[0] && (es + es')[1..] == es[1..] + es';
      RunConcat(Apply(db, es[0]), es[1..], es');
    }
  }

  // ----- After a key change -----

  /** The merchant's key was rotated or recovered somewhere in the run. */
  predicate KeyChanged(a: Market, b: Market, m: nat)
  {
    m in a.merchants && m in b.merchants && b.merchants[m].keyChanges > a.merchants[m].keyChanges
  }

  ghost predicate TokensCut(db: Market, late: Market, m: nat)
  {
    (forall t: nat, r, s :: t < db.grants.nextToken ==> G.Resolve(late.grants, t, r, s) != Some(m)) &&
    (forall t: nat, c, r :: t < db.grants.nextToken && G.Rotatable(late.grants, t, c, r) ==>
       G.FamilyOf(late.grants, t).merchant != m)
  }

  ghost predicate CodesCut(db: Market, late: Market, m: nat)
  {
    forall c: nat, client, redirect, resource ::
      c < db.next.code && Exchangeable(late, c, client, redirect, resource) ==> late.codes[c].merchant != m
  }

  ghost predicate PairingsCut(db: Market, late: Market, m: nat)
  {
    forall p: nat :: p < db.next.pairing && Redeemable(late, p) ==> late.pairings[p].merchant != m
  }

  ghost predicate CeremoniesCut(db: Market, late: Market, m: nat)
  {
    (forall s, x :: s in db.rotations && db.rotations[s].merchant == m ==> !ActiveRotation(late, s, x)) &&
    (forall c, s, x :: c in db.recovery && db.recovery[c].merchant == m ==> !ActiveRecovery(late, s, x, c))
  }

  /** Of what `db` had granted or staged for `m`, nothing works in `late`. */
  ghost predicate CutOff(db: Market, late: Market, m: nat)
  {
    TokensCut(db, late, m) && CodesCut(db, late, m) && PairingsCut(db, late, m) && CeremoniesCut(db, late, m)
  }

  lemma EarlierTokens(db: Market, late: Market, m: nat)
    requires Valid(db) && Valid(late) && Onward(db, late) && KeyChanged(db, late, m)
    ensures TokensCut(db, late, m)
  {
    forall t: nat | t < db.grants.nextToken && G.Joined(late.grants, t) && G.FamilyOf(late.grants, t).merchant == m
      ensures G.FamilyOf(late.grants, t).revoked.Some?
    {
      FamilyEarlier(db, late, m, late.grants.tokens[t].family, t);
    }
  }

  lemma FamilyEarlier(db: Market, late: Market, m: nat, f: nat, t: nat)
    requires Valid(db) && Valid(late) && Onward(db, late) && KeyChanged(db, late, m)
    requires t < db.grants.nextToken && t in late.grants.tokens && late.grants.tokens[t].family == f
    requires f in late.grants.families && late.grants.families[f].merchant == m
    ensures late.grants.families[f].revoked.Some?
  {
    hide IdentityOk, SignupsOk, PairingsOk, CodesOk, RequestsOk, CredentialsOnward, G.LifetimesValid, G.LinksValid, G.PathsValid;
    assert t in db.grants.tokens && db.grants.tokens[t].family == f;
    assert f in db.grants.families && f < db.grants.nextFamily;
    assert late.grants.families[f].epoch == db.grants.families[f].epoch;
  }

  lemma EarlierCodes(db: Market, late: Market, m: nat)
    requires Valid(db) && Valid(late) && Onward(db, late) && KeyChanged(db, late, m)
    ensures CodesCut(db, late, m)
  {
    hide IdentityOk, SignupsOk, PairingsOk, FamiliesOk, RequestsOk, CredentialsOnward, G.Valid;
  }

  lemma EarlierPairings(db: Market, late: Market, m: nat)
    requires Valid(db) && Valid(late) && Onward(db, late) && KeyChanged(db, late, m)
    ensures PairingsCut(db, late, m)
  {
    hide IdentityOk, SignupsOk, CodesOk, FamiliesOk, RequestsOk, CredentialsOnward, G.Valid;
  }

  /** The generation moved on: by a key change, or by a new set of recovery codes. */
  predicate CredentialChanged(a: Market, b: Market, m: nat)
  {
    m in a.merchants && m in b.merchants && b.merchants[m].generation > a.merchants[m].generation
  }

  lemma EarlierCeremonies(db: Market, late: Market, m: nat)
    requires Valid(db) && Valid(late) && Onward(db, late) && CredentialChanged(db, late, m)
    ensures CeremoniesCut(db, late, m)
  {
    hide GrantsOk, SignupsOk, MerchantsOk, SessionsOk, SetsOk, GrantsOnward;
  }

  lemma KeyIsCredential(a: Market, b: Market, m: nat)
    requires KeyChanged(a, b, m) && Onward(a, b)
    ensures CredentialChanged(a, b, m)
  {
    hide GrantsOnward, RotationsOnward, RecoveryOnward;
  }

  /** Whatever led to the key change, nothing granted or staged before it is usable after it. */
  lemma NoEarlierGrantSurvives(db: Market, es: seq<Event>, m: nat)
    requires Valid(db) && KeyChanged(db, Run(db, es), m)
    ensures CutOff(db, Run(db, es), m)
  {
    hide Valid, Onward, TokensCut, CodesCut, PairingsCut, CeremoniesCut;
    var late := Run(db, es);
    RunKeeps(db, es);
    KeyIsCredential(db, late, m);
    EarlierTokens(db, late, m);
    EarlierCodes(db, late, m);
    EarlierPairings(db, late, m);
    EarlierCeremonies(db, late, m);
  }

  /** A ceremony staged before any credential change can never confirm after it. */
  lemma NoEarlierCeremonyConfirms(db: Market, es: seq<Event>, m: nat)
    requires Valid(db) && CredentialChanged(db, Run(db, es), m)
    ensures CeremoniesCut(db, Run(db, es), m)
  {
    hide Valid, Onward, CeremoniesCut;
    RunKeeps(db, es);
    EarlierCeremonies(db, Run(db, es), m);
  }
}
