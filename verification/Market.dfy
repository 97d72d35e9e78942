/**
  The credential tables of the market: merchants, recovery codes, staged key changes, pairing
  codes, sign-in requests and authorization codes, beside the token tables of `Grants`. A row is
  found by the hash or the serial number its unique column holds.
 */
module Market {
  import opened Tables
  import G = Grants

  type Hash = nat

  const CEREMONY: nat := 15 * MINUTE
  const REQUEST_LIFE: nat := 15 * MINUTE
  const CODE_LIFE: nat := 5 * MINUTE
  const PAIRING_LIFE: nat := 10 * MINUTE
  const ROTATIONS_A_DAY: nat := 5
  const CODE_SET: nat := 8

  /** `keyChanges` is bookkeeping: how many confirmed rotations and recoveries changed the key. */
  datatype Merchant = Merchant(handle: string, secret: Hash, generation: nat, keyChanges: nat)

  datatype Ceremony = Ceremony(session: Hash, csrf: Hash, replacement: Hash, expires: nat)

  datatype RecoveryCode = RecoveryCode(
    merchant: nat, generation: nat, ceremony: Option<Ceremony>, used: Option<nat>, invalidated: Option<nat>)

  datatype Change =
    | Pending(current: Hash, replacement: Hash)
    | Confirmed(at: nat)
    | Canceled(at: nat)
    | Invalidated(at: nat)

  /** A staged rotation, found by its session hash. */
  datatype KeyRotation = KeyRotation(merchant: nat, generation: nat, csrf: Hash, expires: nat, state: Change)

  /** `epoch` is bookkeeping: the merchant's `keyChanges` when the row was made. */
  datatype Pairing = Pairing(
    merchant: nat, expires: nat, used: Option<nat>, invalidated: Option<nat>, epoch: nat)

  datatype Reservation = Reservation(csrf: Hash, code: nat, merchant: nat, expires: nat)

  /** What a ceremony that may create a merchant has come to; `codes` are its pending code rows. */
  datatype Progress =
    | Open
    | Staged(handle: string, secret: Hash, codes: seq<Hash>)
    | Completed(merchant: nat)
    | Closed

  /** A pending registration, found by its session hash. */
  datatype Signup = Signup(csrf: Hash, expires: nat, progress: Progress)

  datatype Grant = Grant(client: string, redirect: string, resource: string, scope: string)

  /** A sign-in request, found by its session hash. */
  datatype Request = Request(id: nat, csrf: Hash, grant: Grant, expires: nat, progress: Progress)

  datatype AuthCode = AuthCode(
    request: Hash, merchant: nat, grant: Grant, expires: nat, used: Option<nat>, epoch: nat)

  datatype Serials = Serials(merchant: nat, request: nat, pairing: nat, code: nat)

  datatype Market = Market(
    merchants: map<nat, Merchant>, recovery: map<Hash, RecoveryCode>, rotations: map<Hash, KeyRotation>,
    pairings: map<nat, Pairing>, reservations: map<Hash, Reservation>, signups: map<Hash, Signup>,
    requests: map<Hash, Request>, codes: map<nat, AuthCode>, grants: G.Db, next: Serials)
  {
    function Now(): nat { grants.now }
  }

  datatype Verdict = Approved(merchant: nat) | Rejected | Unavailable | HandleTaken | RateLimited | NotReady

  /** The outcome rows of a confirm query, or the error that rolled its statement back. */
  datatype Reply = Rows(rows: seq<Verdict>) | Aborted

  /** One branch of a UNION ALL. */
  function When(guard: bool, v: Verdict): seq<Verdict> { if guard then [v] else [] }

  function ToSet(codes: seq<Hash>): set<Hash> { set c | c in codes }

  /** count(*) = 8 AND count(DISTINCT code_hash) = 8 */
  predicate Eight(codes: seq<Hash>) { |codes| == CODE_SET && |ToSet(codes)| == CODE_SET }

  // ----- Queries -----

  /** Keys are not declared unique, so a key may prove several merchants. */
  function Holders(db: Market, secret: Hash): set<nat>
  {
    set m | m in db.merchants && db.merchants[m].secret == secret
  }

  predicate HandleUsed(db: Market, handle: string)
  {
    exists m :: m in db.merchants && db.merchants[m].handle == handle
  }

  predicate Live(c: RecoveryCode) { c.used.None? && c.invalidated.None? }

  function LiveCodes(db: Market, m: nat): set<Hash>
  {
    set c | c in db.recovery && db.recovery[c].merchant == m && Live(db.recovery[c])
  }

  predicate Redeemable(db: Market, p: nat)
  {
    p in db.pairings && db.pairings[p].used.None? && db.pairings[p].expires > db.Now() && db.pairings[p].invalidated.None?
  }

  predicate Exchangeable(db: Market, c: nat, client: string, redirect: string, resource: string)
  {
    c in db.codes && db.codes[c].grant.client == client && db.codes[c].grant.redirect == redirect &&
    db.codes[c].grant.resource == resource && db.codes[c].used.None? && db.codes[c].expires > db.Now() &&
    db.codes[c].merchant in db.merchants
  }

  // ----- Table updates that several statements share -----

  /** The unused codes of a merchant, invalidated; their ceremonies go with them. */
  function DropCodes(recovery: map<Hash, RecoveryCode>, m: nat, now: nat): map<Hash, RecoveryCode>
  {
    map c | c in recovery ::
      if recovery[c].merchant == m && Live(recovery[c])
      then recovery[c].(invalidated := Some(now), ceremony := None) else recovery[c]
  }

  function AddCodes(recovery: map<Hash, RecoveryCode>, hashes: set<Hash>, m: nat, generation: nat): map<Hash, RecoveryCode>
  {
    recovery + map c | c in hashes :: RecoveryCode(m, generation, None, None, None)
  }

  function DropRotations(rotations: map<Hash, KeyRotation>, m: nat, now: nat): map<Hash, KeyRotation>
  {
    map s | s in rotations ::
      if rotations[s].merchant == m && rotations[s].state.Pending?
      then rotations[s].(state := Invalidated(now)) else rotations[s]
  }

  function DropPairings(pairings: map<nat, Pairing>, m: nat, now: nat): map<nat, Pairing>
  {
    map p | p in pairings ::
      if pairings[p].merchant == m && pairings[p].used.None?
      then pairings[p].(invalidated := Coalesce(pairings[p].invalidated, now)) else pairings[p]
  }

  function SpendCodes(codes: map<nat, AuthCode>, m: nat, now: nat): map<nat, AuthCode>
  {
    map c | c in codes ::
      if codes[c].merchant == m then codes[c].(used := Coalesce(codes[c].used, now)) else codes[c]
  }

  /** The key change itself, and everything granted under the old key. */
  function ChangeKey(db: Market, m: nat, secret: Hash, reason: string): (r: Market)
    requires m in db.merchants
    ensures r.signups == db.signups && r.rotations == db.rotations
  {
    var was := db.merchants[m];
    db.(merchants := db.merchants[m := was.(secret := secret, generation := was.generation + 1,
                                            keyChanges := was.keyChanges + 1)],
        pairings := DropPairings(db.pairings, m, db.Now()),
        codes := SpendCodes(db.codes, m, db.Now()),
        grants := G.RevokeMerchant(db.grants, m, reason))
  }

  /** A new merchant with its first eight recovery codes. */
  function Join(db: Market, handle: string, secret: Hash, codes: seq<Hash>): (r: Market)
    ensures r.signups == db.signups && r.rotations == db.rotations
  {
    db.(merchants := db.merchants[db.next.merchant := Merchant(handle, secret, 1, 0)],
        recovery := AddCodes(db.recovery, ToSet(codes), db.next.merchant, 1),
        next := db.next.(merchant := db.next.merchant + 1))
  }

  // ----- What every statement keeps -----

  ghost predicate MerchantsOk(db: Market)
  {
    (forall m :: m in db.merchants ==> m < db.next.merchant) &&
    (forall m, n :: m in db.merchants && n in db.merchants && db.merchants[m].handle == db.merchants[n].handle ==> m == n)
  }

  /** A pending rotation was staged under the present key and generation. */
  ghost predicate RotationsOk(db: Market)
  {
    forall s :: s in db.rotations ==>
      var r := db.rotations[s];
      r.merchant in db.merchants && r.generation <= db.merchants[r.merchant].generation &&
      (r.state.Pending? ==> r.generation == db.merchants[r.merchant].generation &&
                            r.state.current == db.merchants[r.merchant].secret)
  }

  /** A live code is of the present generation, and only live codes carry a ceremony. */
  ghost predicate RecoveryOk(db: Market)
  {
    forall c :: c in db.recovery ==>
      var code := db.recovery[c];
      code.merchant in db.merchants && code.generation <= db.merchants[code.merchant].generation &&
      (Live(code) ==> code.generation == db.merchants[code.merchant].generation) &&
      (code.ceremony.Some? ==> Live(code))
  }

  predicate SameSession(a: RecoveryCode, b: RecoveryCode)
  {
    a.ceremony.Some? && b.ceremony.Some? && a.ceremony.value.session == b.ceremony.value.session
  }

  /** recovery_session_hash is unique. */
  ghost predicate SessionsOk(db: Market)
  {
    forall c, d :: c in db.recovery && d in db.recovery && SameSession(db.recovery[c], db.recovery[d]) ==> c == d
  }

  ghost predicate SetsOk(db: Market)
  {
    forall m :: m in db.merchants ==> LiveCodes(db, m) == {} || |LiveCodes(db, m)| == CODE_SET
  }

  predicate EpochOk(db: Market, m: nat, epoch: nat, live: bool)
  {
    m in db.merchants && epoch <= db.merchants[m].keyChanges && (live ==> epoch == db.merchants[m].keyChanges)
  }

  ghost predicate PairingsOk(db: Market)
  {
    forall p :: p in db.pairings ==>
      var r := db.pairings[p];
      p < db.next.pairing && EpochOk(db, r.merchant, r.epoch, r.used.None? && r.invalidated.None?)
  }

  /** An unused authorization code was approved under the present key, and its request is there. */
  ghost predicate CodesOk(db: Market)
  {
    forall c :: c in db.codes ==>
      var r := db.codes[c];
      c < db.next.code && EpochOk(db, r.merchant, r.epoch, r.used.None?) &&
      r.request in db.requests && db.requests[r.request].progress == Completed(r.merchant)
  }

  /** An unrevoked family was approved under the present key. */
  ghost predicate FamiliesOk(db: Market)
  {
    forall f :: f in db.grants.families ==>
      var r := db.grants.families[f];
      EpochOk(db, r.merchant, r.epoch, r.revoked.None?)
  }

  predicate ProgressOk(db: Market, p: Progress)
  {
    match p
    case Staged(_, _, codes) => Eight(codes)
    case Completed(m) => m in db.merchants
    case _ => true
  }

  ghost predicate SignupsOk(db: Market)
  {
    forall s :: s in db.signups ==> db.signups[s].progress != Open && ProgressOk(db, db.signups[s].progress)
  }

  ghost predicate RequestsOk(db: Market)
  {
    forall s :: s in db.requests ==> db.requests[s].id < db.next.request && ProgressOk(db, db.requests[s].progress)
  }

  ghost predicate IdentityOk(db: Market)
  {
    MerchantsOk(db) && RotationsOk(db) && RecoveryOk(db) && SessionsOk(db) && SetsOk(db)
  }

  ghost predicate GrantsOk(db: Market)
  {
    PairingsOk(db) && CodesOk(db) && FamiliesOk(db) && RequestsOk(db) && G.Valid(db.grants)
  }

  ghost predicate Valid(db: Market) { IdentityOk(db) && GrantsOk(db) && SignupsOk(db) }

  const EMPTY: Market :=
    Market(map[], map[], map[], map[], map[], map[], map[], map[], G.Db(0, map[], map[], 0, 0), Serials(0, 0, 0, 0))

  lemma EmptyIdentity()
    ensures IdentityOk(EMPTY)
  {
  }

  lemma EmptyValid()
    ensures Valid(EMPTY)
  {
    hide IdentityOk;
    EmptyIdentity();
  }
}
