/** Sign-in requests, their approval, authorization codes, pairing codes and retention. */
module MarketSignIn {
  import opened Tables
  import opened Market
  import opened MarketIdentity
  import G = Grants

  // ----- Requests -----

  predicate RequestTaken(db: Market, session: Hash, csrf: Hash)
  {
    session in db.requests || exists s :: s in db.requests && db.requests[s].csrf == csrf
  }

  function CloseExpiredRequests(db: Market): map<Hash, Request>
  {
    map s | s in db.requests ::
      if db.requests[s].progress.Staged? && db.requests[s].expires <= db.Now()
      then db.requests[s].(progress := Closed) else db.requests[s]
  }

  /** `createAuthorizationRequest` */
  function CreateRequest(db: Market, session: Hash, csrf: Hash, grant: Grant): (r: Market)
    ensures r.signups == db.signups && r.rotations == db.rotations
  {
    if RequestTaken(db, session, csrf) then db
    else
      db.(requests := CloseExpiredRequests(db)[session := Request(db.next.request, csrf, grant, db.Now() + REQUEST_LIFE, Open)],
          next := db.next.(request := db.next.request + 1))
  }

  predicate ActiveRequest(db: Market, session: Hash, csrf: Hash)
  {
    session in db.requests && db.requests[session].csrf == csrf &&
    (db.requests[session].progress.Open? || db.requests[session].progress.Staged?) &&
    db.requests[session].expires > db.Now()
  }

  predicate OpenRequest(db: Market, session: Hash, csrf: Hash)
  {
    ActiveRequest(db, session, csrf) && db.requests[session].progress.Open?
  }

  function Progressed(db: Market, session: Hash, to: Progress): (r: Market)
    requires session in db.requests
    ensures r.signups == db.signups && r.rotations == db.rotations
  {
    db.(requests := db.requests[session := db.requests[session].(progress := to)])
  }

  /** `cancelAuthorizationRequest` */
  function CancelRequest(db: Market, session: Hash, csrf: Hash): (r: Market)
    ensures r.signups == db.signups && r.rotations == db.rotations
  {
    if ActiveRequest(db, session, csrf) then Progressed(db, session, Closed) else db
  }

  /** A request is completed for a merchant, and its one authorization code issued. */
  function Issue(db: Market, session: Hash, m: nat): (r: Market)
    requires session in db.requests && m in db.merchants
    ensures r.signups == db.signups && r.rotations == db.rotations
  {
    var code := AuthCode(session, m, db.requests[session].grant, db.Now() + CODE_LIFE, None, db.merchants[m].keyChanges);
    Progressed(db, session, Completed(m)).(
      codes := db.codes[db.next.code := code], next := db.next.(code := db.next.code + 1))
  }

  /** `approveExistingMerchantAndIssueAuthorizationCode` */
  ghost function Approve(db: Market, session: Hash, csrf: Hash, secret: Hash): (r: (Market, Reply))
    ensures r.0.signups == db.signups && r.0.rotations == db.rotations
  {
    var locked, open := Holders(db, secret), OpenRequest(db, session, csrf);
    var refusals := When(!open, Unavailable) + When(open && locked == {}, Rejected);
    if open && |locked| == 1 then
      var m: nat :| m in locked;
      (Issue(db, session, m), Rows([Approved(m)] + refusals))
    else (db, Rows(refusals))
  }

  /** `stageNewMerchantRegistration` */
  function StageNew(db: Market, session: Hash, csrf: Hash, handle: string, secret: Hash, codes: seq<Hash>): (r: Market)
    ensures r.signups == db.signups && r.rotations == db.rotations
  {
    if Eight(codes) && OpenRequest(db, session, csrf) && !HandleUsed(db, handle)
    then Progressed(db, session, Staged(handle, secret, codes)) else db
  }

  predicate EligibleRequest(db: Market, session: Hash, csrf: Hash, secret: Hash)
  {
    ActiveRequest(db, session, csrf) && db.requests[session].progress.Staged? && db.requests[session].progress.secret == secret
  }

  /** `confirmNewMerchantOnce` */
  function ConfirmNew(db: Market, session: Hash, csrf: Hash, secret: Hash): (r: (Market, Reply))
    ensures r.0.signups == db.signups && r.0.rotations == db.rotations
  {
    if EligibleRequest(db, session, csrf, secret) then ConfirmStagedNew(db, session)
    else
      var active := ActiveRequest(db, session, csrf);
      var confirmable := active && db.requests[session].progress.Staged?;
      (db, Rows(When(!active, Unavailable) + When(active && !confirmable, NotReady) + When(confirmable, Rejected)))
  }

  /** The branches of the query that see the staged request and its exact key. */
  function ConfirmStagedNew(db: Market, session: Hash): (r: (Market, Reply))
    requires session in db.requests && db.requests[session].progress.Staged?
    ensures r.0.signups == db.signups && r.0.rotations == db.rotations
  {
    var p := db.requests[session].progress;
    if HandleUsed(db, p.handle) then (Progressed(db, session, Closed), Rows([HandleTaken]))
    else if !Eight(p.codes) then (db, Rows([]))
    else if Collides(db, p.codes) then (db, Aborted)
    else (Issue(Join(db, p.handle, p.secret, p.codes), session, db.next.merchant), Rows([Approved(db.next.merchant)]))
  }

  /** `exchangeAuthorizationCode`: the new family's number when the code was good. */
  function Exchange(db: Market, c: nat, client: string, redirect: string, resource: string): (r: (Market, Option<nat>))
    ensures r.0.signups == db.signups && r.0.rotations == db.rotations
  {
    if Exchangeable(db, c, client, redirect, resource) then
      var code := db.codes[c];
      (db.(codes := db.codes[c := code.(used := Some(db.Now()))],
           grants := G.OpenFamily(db.grants, code.merchant, client, resource, code.grant.scope, code.epoch)),
       Some(db.grants.nextFamily))
    else (db, None)
  }

  // ----- Pairing -----

  function PairingsLeft(db: Market): map<nat, Pairing>
  {
    map p | p in db.pairings && db.pairings[p].expires > db.Now() :: db.pairings[p]
  }

  /** `createMerchantPairingCode` */
  function CreatePairing(db: Market, m: nat): (r: Market)
    ensures r.signups == db.signups && r.rotations == db.rotations
  {
    if m !in db.merchants then db
    else
      db.(pairings := PairingsLeft(db)[db.next.pairing := Pairing(m, db.Now() + PAIRING_LIFE, None, None, db.merchants[m].keyChanges)],
          next := db.next.(pairing := db.next.pairing + 1))
  }

  function ReservationsLeft(db: Market): map<Hash, Reservation>
  {
    map s | s in db.reservations && db.reservations[s].expires > db.Now() :: db.reservations[s]
  }

  function Reserved(db: Market, session: Hash, csrf: Hash, p: nat): map<Hash, Reservation>
  {
    if Redeemable(db, p)
    then ReservationsLeft(db)[session := Reservation(csrf, p, db.pairings[p].merchant, db.pairings[p].expires)]
    else ReservationsLeft(db)
  }

  /** `reservePairingCode` */
  function Reserve(db: Market, session: Hash, csrf: Hash, p: nat): (r: Market)
    ensures r.signups == db.signups && r.rotations == db.rotations
  {
    db.(reservations := Reserved(db, session, csrf, p))
  }

  /** `takeReservedPairingCode` */
  function Take(db: Market, session: Hash, csrf: Hash): (r: (Market, Option<nat>))
    ensures r.0.signups == db.signups && r.0.rotations == db.rotations
  {
    if session in db.reservations && db.reservations[session].csrf == csrf && db.reservations[session].expires > db.Now()
    then (db.(reservations := db.reservations - {session}), Some(db.reservations[session].code))
    else (db, None)
  }

  /** The first statement of `resolveAndConsumePairingCode`: the code is spent, and names its merchant. */
  function SpendPairing(db: Market, p: nat): (r: (Market, Option<nat>))
    ensures r.0.signups == db.signups && r.0.rotations == db.rotations
  {
    if Redeemable(db, p)
    then (db.(pairings := db.pairings[p := db.pairings[p].(used := Some(db.Now()))]), Some(db.pairings[p].merchant))
    else (db, None)
  }

  /** The second statement: the merchant's key, as it is by then. */
  function ReadKey(db: Market, m: nat): Option<Hash>
  {
    if m in db.merchants then Some(db.merchants[m].secret) else None
  }

  // ----- Retention -----

  predicate OldCode(db: Market, c: nat) { c in db.codes && db.codes[c].expires + RETENTION <= db.Now() }

  function OlderCodes(db: Market, c: nat): set<nat>
    requires c in db.codes
  {
    set d | d in db.codes && OldCode(db, d) &&
            (db.codes[d].expires < db.codes[c].expires || (db.codes[d].expires == db.codes[c].expires && d < c))
  }

  /** ORDER BY expires_at, id LIMIT 50. */
  function RetiredCodes(db: Market): set<nat>
  {
    set c | c in db.codes && OldCode(db, c) && |OlderCodes(db, c)| < PRUNE_LIMIT
  }

  /** Past retention, and no code that stays refers to it. */
  predicate OldRequest(db: Market, s: Hash)
  {
    s in db.requests && db.requests[s].expires + RETENTION <= db.Now() &&
    forall c :: c in db.codes && db.codes[c].request == s ==> c in RetiredCodes(db)
  }

  function OlderRequests(db: Market, s: Hash): set<Hash>
    requires s in db.requests
  {
    set r | r in db.requests && OldRequest(db, r) &&
            (db.requests[r].expires < db.requests[s].expires ||
             (db.requests[r].expires == db.requests[s].expires && db.requests[r].id < db.requests[s].id))
  }

  function RetiredRequests(db: Market): set<Hash>
  {
    set s | s in db.requests && OldRequest(db, s) && |OlderRequests(db, s)| < PRUNE_LIMIT
  }

  /** The pruning in `consumeOAuthRateLimit`. */
  function PruneAll(db: Market): (r: Market)
    ensures r.signups == db.signups && r.rotations == db.rotations
  {
    db.(codes := db.codes - RetiredCodes(db), requests := db.requests - RetiredRequests(db), grants := G.Prune(db.grants))
  }

  function OnGrants(db: Market, grants: G.Db): (r: Market)
    ensures r.signups == db.signups && r.rotations == db.rotations
  {
    db.(grants := grants)
  }
}
