/** The credential tables as the statements update them in place, each proved against its function. */
module MarketStore {
  import opened Tables
  import opened Market
  import opened MarketIdentity
  import opened MarketIdentityLaws
  import opened MarketSignIn
  import opened MarketSignInLaws
  import opened MarketRuns
  import opened MarketIsolation
  import opened MarketAnswers
  import G = Grants
  import B = GrantBounds
  import R = GrantRuns
  import T = TokenRoute

  lemma RefreshApplies(db: Market, h: nat, client: string, resource: string)
    ensures R.Apply(db.grants, R.Refreshed(h, client, resource)) == G.Rotate(db.grants, h, client, resource).0
    ensures G.Rotate(db.grants, h, client, resource) ==
      if G.Rotatable(db.grants, h, client, resource) then (G.Rotation(db.grants, h), G.Rotated)
      else (G.RevokeReused(db.grants, h, client, resource), if G.Replayed(db.grants, h, client, resource) then G.Reused else G.Invalid)
  {
    hide G.RevokeReused;
  }

  lemma RotationSpares(db: Market, session: Hash, csrf: Hash, replacement: Hash, won: set<Hash>)
    ensures var (next, reply) := ConfirmRotation(db, session, csrf, replacement, won);
            forall m :: reply == Rows([Approved(m)]) ==> Spares(db, next, m, replacement)
  {
    hide ConfirmRotation, Spares;
    var (next, reply) := ConfirmRotation(db, session, csrf, replacement, won);
    forall m: nat | reply == Rows([Approved(m)]) ensures Spares(db, next, m, replacement) {
      RotationSparesOthers(db, session, csrf, replacement, won, m);
    }
  }

  lemma RecoverySpares(db: Market, session: Hash, csrf: Hash, replacement: Hash)
    ensures var (next, reply) := ConfirmRecovery(db, session, csrf, replacement);
            forall m :: reply == Rows([Approved(m)]) ==> Spares(db, next, m, replacement)
  {
    hide ConfirmRecovery, Spares;
    var (next, reply) := ConfirmRecovery(db, session, csrf, replacement);
    forall m: nat | reply == Rows([Approved(m)]) ensures Spares(db, next, m, replacement) {
      RecoverySparesOthers(db, session, csrf, replacement, m);
    }
  }

  lemma JoinPutsIn(db: Market, handle: string, secret: Hash, codes: seq<Hash>)
    ensures var after := Join(db, handle, secret, codes);
            db.next.merchant in after.merchants && after.requests == db.requests
  {
  }

  // ----- The confirm step of pairing -----

  datatype PairAnswer =
    | ReservationMissing
    | CodeUnavailable
    | RequestUnavailable
    | KeyRejected
    | Failed
    | Connected(merchant: nat, code: nat)

  function Answered(reply: Reply, issued: nat): PairAnswer
  {
    if reply.Aborted? || reply.rows == [] then Failed
    else match reply.rows[0]
      case Approved(m) => Connected(m, issued)
      case Unavailable => RequestUnavailable
      case _ => KeyRejected
  }

  /** `handleConfirmPairAction`: take the reservation, spend its code, read the key, approve with it. */
  ghost function ConfirmPair(db: Market, session: Hash, csrf: Hash): (Market, PairAnswer)
  {
    var (taken, code) := Take(db, session, csrf);
    if code.None? then (taken, ReservationMissing)
    else
      var (spent, merchant) := SpendPairing(taken, code.value);
      if merchant.None? || ReadKey(spent, merchant.value).None? then (spent, CodeUnavailable)
      else
        var (next, reply) := Approve(spent, session, csrf, ReadKey(spent, merchant.value).value);
        (next, Answered(reply, spent.next.code))
  }

  predicate Reserves(db: Market, session: Hash, csrf: Hash)
  {
    session in db.reservations && db.reservations[session].csrf == csrf && db.reservations[session].expires > db.Now()
  }

  /** The reservation and its code are good, the request is open, and the merchant's key is its own alone. */
  predicate Connectable(db: Market, session: Hash, csrf: Hash)
  {
    Reserves(db, session, csrf) && OpenRequest(db, session, csrf) && Redeemable(db, db.reservations[session].code) &&
    var m := db.pairings[db.reservations[session].code].merchant;
    m in db.merchants && Holders(db, db.merchants[m].secret) == {m}
  }

  /** The connection speaks for the reserved code's merchant, and reservation and code are gone. */
  predicate Connects(db: Market, next: Market, session: Hash, m: nat, code: nat)
  {
    session in db.reservations && session !in next.reservations &&
    var p := db.reservations[session].code;
    p in db.pairings && db.pairings[p].merchant == m && !Redeemable(next, p) &&
    m in next.merchants && code in next.codes && next.codes[code].merchant == m && next.codes[code].used.None? &&
    next.codes[code].epoch == next.merchants[m].keyChanges
  }

  /** The answer, read off the rows: what is missing first, and with nothing missing the connection. */
  predicate PairMeans(db: Market, session: Hash, csrf: Hash, answer: PairAnswer)
  {
    if !Reserves(db, session, csrf) then answer == ReservationMissing
    else
      var p := db.reservations[session].code;
      if !Good(db, p) then answer == CodeUnavailable
      else if !RequestHere(db, session, csrf) || db.requests[session].progress != Open then answer == RequestUnavailable
      else
        var m := db.pairings[p].merchant;
        if m in db.merchants && Sole(db, db.merchants[m].secret, m) then answer.Connected? && answer.merchant == m else answer == Failed
  }

  lemma ConfirmPairConnects(db: Market, session: Hash, csrf: Hash)
    requires Valid(db)
    ensures var (next, answer) := ConfirmPair(db, session, csrf);
            Valid(next) && (answer.Connected? <==> Connectable(db, session, csrf)) &&
            (answer.Connected? ==> Connects(db, next, session, answer.merchant, answer.code))
  {
    hide Valid, Approve;
    var (taken, code) := Take(db, session, csrf);
    ReserveValid(db, session, csrf, 0);
    if code.Some? {
      var (spent, merchant) := SpendPairing(taken, code.value);
      SpendPairingValid(taken, code.value);
      if merchant.Some? {
        OwnMerchant(taken, code.value);
        var k := ReadKey(spent, merchant.value).value;
        ApproveValid(spent, session, csrf, k);
        assert merchant.value in Holders(spent, k);
        ApprovedWhen(spent, session, csrf, k);
      }
    }
  }

  lemma PairingTells(db: Market, session: Hash, csrf: Hash)
    requires Valid(db)
    ensures PairMeans(db, session, csrf, ConfirmPair(db, session, csrf).1)
  {
    hide Valid, Approve, SpendPairing, Sole;
    var (taken, code) := Take(db, session, csrf);
    ReserveValid(db, session, csrf, 0);
    if code.Some? {
      SpendsExactly(taken, code.value);
      var (spent, merchant) := SpendPairing(taken, code.value);
      if merchant.Some? {
        OwnMerchant(taken, code.value);
        var m := merchant.value;
        var k := spent.merchants[m].secret;
        assert m in Holders(spent, k);
        ApprovalTells(spent, session, csrf, k, m);
        assert spent.merchants == db.merchants && spent.requests == db.requests && spent.Now() == db.Now();
        assert Sole(spent, k, m) <==> Sole(db, k, m) by { SameSole(spent, db, k, m); }
      }
    }
  }

  lemma SameSole(a: Market, b: Market, k: Hash, m: nat)
    requires a.merchants == b.merchants
    ensures Sole(a, k, m) <==> Sole(b, k, m)
  {
  }

  /** An approval under the key of a merchant: no other answer is left. */
  lemma ApprovalTells(db: Market, session: Hash, csrf: Hash, k: Hash, m: nat)
    requires m in Holders(db, k)
    ensures var (answer, open) := (Answered(Approve(db, session, csrf, k).1, db.next.code),
                                   RequestHere(db, session, csrf) && db.requests[session].progress == Open);
            if !open then answer == RequestUnavailable
            else if Sole(db, k, m) then answer.Connected? && answer.merchant == m
            else answer == Failed
  {
    ApprovesExactly(db, session, csrf, k, m);
    SoleIff(db, k);
    ApproveOneRow(db, session, csrf, k);
    hide Approve, Sole;
  }

  lemma OwnMerchant(db: Market, p: nat)
    requires Valid(db) && Redeemable(db, p)
    ensures db.pairings[p].merchant in db.merchants
  {
    hide IdentityOk, SignupsOk, CodesOk, FamiliesOk, RequestsOk, G.Valid;
  }

  /** Under a key that someone holds, an approval goes through exactly for an open request and a single holder. */
  lemma ApprovedWhen(db: Market, session: Hash, csrf: Hash, k: Hash)
    requires Holders(db, k) != {}
    ensures var (next, reply) := Approve(db, session, csrf, k);
            var answer := Answered(reply, db.next.code);
            (answer.Connected? <==> OpenRequest(db, session, csrf) && |Holders(db, k)| == 1) &&
            (answer.Connected? ==>
               Holders(db, k) == {answer.merchant} && answer.code in next.codes &&
               next.codes[answer.code] == AuthCode(session, answer.merchant, db.requests[session].grant, db.Now() + CODE_LIFE, None,
                                                   db.merchants[answer.merchant].keyChanges) &&
               next.merchants == db.merchants && next.pairings == db.pairings && next.reservations == db.reservations &&
               next.Now() == db.Now())
  {
    var open, locked := OpenRequest(db, session, csrf), Holders(db, k);
    if open && |locked| == 1 {
      var m :| m in locked;
      assert Approve(db, session, csrf, k).1.rows == [Approved(m)] by { forall n | n in locked ensures n == m { OnlyMember(locked, n, m); } }
      forall n | n in locked ensures n == m { OnlyMember(locked, n, m); }
    } else {
      assert Approve(db, session, csrf, k).1.rows == When(!open, Unavailable);
    }
  }

  class Store {
    var now: nat
    var merchants: map<nat, Merchant>
    var recovery: map<Hash, RecoveryCode>
    var rotations: map<Hash, KeyRotation>
    var pairings: map<nat, Pairing>
    var reservations: map<Hash, Reservation>
    var signups: map<Hash, Signup>
    var requests: map<Hash, Request>
    var codes: map<nat, AuthCode>
    var families: map<nat, G.Family>
    var tokens: map<nat, G.Token>
    var nextFamily: nat
    var nextToken: nat
    var next: Serials

    function Tokens(): G.Db
      reads this
    {
      G.Db(now, families, tokens, nextFamily, nextToken)
    }

    function State(): Market
      reads this
    {
      Market(merchants, recovery, rotations, pairings, reservations, signups, requests, codes, Tokens(), next)
    }

    constructor ()
      ensures Valid(State())
    {
      now, merchants, recovery, rotations, pairings := 0, map[], map[], map[], map[];
      reservations, signups, requests, codes := map[], map[], map[], map[];
      families, tokens, nextFamily, nextToken, next := map[], map[], 0, 0, Serials(0, 0, 0, 0);
      new;
      hide Valid;
      EmptyValid();
      assert State() == EMPTY;
    }

    // ----- Tokens -----

    /** `revoked` and `revoked_tokens` of every revoking statement. */
    method RevokeFamilies(gone: set<nat>, reason: string)
      modifies `families, `tokens
      ensures Tokens() == G.Revoke(old(Tokens()), gone, reason)
    {
      families := map f | f in families ::
        if f in gone then families[f].(revoked := Coalesce(families[f].revoked, G.Revocation(now, reason))) else families[f];
      tokens := map t | t in tokens ::
        if tokens[t].family in gone then tokens[t].(revoked := Coalesce(tokens[t].revoked, now)) else tokens[t];
    }

    method RevokeReusedRefreshToken(h: nat, client: string, resource: string) returns (reused: bool)
      modifies `families, `tokens
      ensures Tokens() == G.RevokeReused(old(Tokens()), h, client, resource)
      ensures reused == G.Replayed(old(Tokens()), h, client, resource)
      ensures reused <==> B.RefreshOf(old(Tokens()), h, client, resource) && old(tokens)[h].used.Some?
      ensures !reused ==> State() == old(State())
    {
      if h !in tokens || tokens[h].family !in families || tokens[h].kind != G.Refresh { return false; }
      var f := families[tokens[h].family];
      if f.client != client || f.resource != resource || tokens[h].used.None? { return false; }
      RevokeFamilies({tokens[h].family}, "refresh token reuse");
      reused := true;
    }

    /** `consumed_refresh`, `new_access` and `new_refresh` */
    method ConsumeRefreshToken(h: nat, client: string, resource: string) returns (rotated: bool)
      modifies `tokens, `nextToken
      ensures rotated == G.Rotatable(old(Tokens()), h, client, resource)
      ensures State() == if rotated then old(State()).(grants := G.Rotation(old(Tokens()), h)) else old(State())
    {
      if h !in tokens || tokens[h].family !in families || tokens[h].kind != G.Refresh { return false; }
      var token, id := tokens[h], tokens[h].family;
      var f := families[id];
      if token.used.Some? || token.revoked.Some? || token.expires <= now || f.client != client || f.resource != resource ||
         f.revoked.Some? || f.expires < now + G.ACCESS_PASS {
        return false;
      }
      tokens := tokens[h := token.(used := Some(now))];
      tokens := tokens[nextToken := G.Token(G.Access, id, None, now, Least(now + G.ACCESS_PASS, f.expires), None, None)];
      tokens := tokens[nextToken + 1 := G.Token(G.Refresh, id, Some(h), now, f.expires, None, None)];
      nextToken := nextToken + 2;
      rotated := true;
    }

    /** `rotateRefreshToken`: consume the token, or else look for a replay. */
    method RotateRefreshToken(h: nat, client: string, resource: string) returns (result: G.RotateResult)
      requires Valid(State())
      modifies `families, `tokens, `nextToken
      ensures (Tokens(), result) == G.Rotate(old(Tokens()), h, client, resource)
      ensures B.RotationMeans(old(Tokens()), h, client, resource, Tokens(), result)
      ensures Valid(State())
    {
      hide Valid, G.Rotatable, G.Rotation, G.RevokeReused, G.Replayed, R.Apply, G.Rotate, B.RotationMeans;
      B.RotatesExactly(Tokens(), h, client, resource);
      TokenEventValid(State(), R.Refreshed(h, client, resource));
      RefreshApplies(State(), h, client, resource);
      var rotated := ConsumeRefreshToken(h, client, resource);
      if rotated { return G.Rotated; }
      var reused := RevokeReusedRefreshToken(h, client, resource);
      result := if reused then G.Reused else G.Invalid;
    }

    method RevokeTokenFamilyByToken(h: nat, client: string)
      requires Valid(State())
      modifies `families, `tokens
      ensures Tokens() == G.RevokeByToken(old(Tokens()), h, client)
      ensures Valid(State())
    {
      hide Valid;
      TokenEventValid(State(), R.Revoked(h, client));
      if h in tokens && tokens[h].family in families && families[tokens[h].family].client == client {
        RevokeFamilies({tokens[h].family}, "client revocation");
      }
    }

    /** `resolveRefreshRateLimitSubject`: a read. */
    method ResolveRefreshRateLimitSubject(h: nat, client: string, resource: string) returns (s: G.Subject)
      ensures s == G.Classify(Tokens(), h, client, resource)
      ensures B.ClassMeans(Tokens(), h, client, resource, s)
    {
      B.ClassifiesExactly(Tokens(), h, client, resource);
      hide B.ClassMeans;
      if h !in tokens || tokens[h].family !in families || tokens[h].kind != G.Refresh { return G.Junk; }
      var t, f := tokens[h], families[tokens[h].family];
      if f.client != client || f.resource != resource { return G.Junk; }
      if t.revoked.Some? || t.expires <= now || f.revoked.Some? { return G.Junk; }
      if t.used.Some? { return if f.expires > now then G.Replay else G.Junk; }
      s := if f.expires >= now + G.ACCESS_PASS then G.Active else G.Junk;
    }

    /** The refresh half of `POST /oauth/token`, once the token has been classified. */
    method FinishRefresh(subject: G.Subject, h: nat, client: string, resource: string, connection: T.Admission, junk: T.Admission)
      returns (a: T.Answer)
      requires Valid(State())
      modifies `families, `tokens, `nextToken
      ensures (Tokens(), a) == T.Route(old(Tokens()), subject, h, client, resource, connection, junk)
      ensures Valid(State())
    {
      hide Valid;
      if subject == G.Junk { return T.Refusal(junk); }
      if subject == G.Active && connection != T.Admitted { return T.Refusal(connection); }
      var access, refresh := nextToken, nextToken + 1;
      var rotated := RotateRefreshToken(h, client, resource);
      a := if rotated == G.Rotated then T.Issued(access, refresh) else T.Rejected;
    }

    /** `new_family`, `new_access` and `new_refresh` */
    method OpenTokenFamily(merchant: nat, client: string, resource: string, scope: string, epoch: nat)
      modifies `families, `tokens, `nextFamily, `nextToken
      ensures Tokens() == G.OpenFamily(old(Tokens()), merchant, client, resource, scope, epoch)
    {
      families := families[nextFamily := G.Family(merchant, client, resource, scope, now + G.REFRESH_PASS, None, epoch)];
      tokens := tokens[nextToken := G.Token(G.Access, nextFamily, None, now, now + G.ACCESS_PASS, None, None)];
      tokens := tokens[nextToken + 1 := G.Token(G.Refresh, nextFamily, None, now, now + G.REFRESH_PASS, None, None)];
      nextFamily, nextToken := nextFamily + 1, nextToken + 2;
    }

    // ----- Codes -----

    /** `exchangeAuthorizationCode` */
    method ExchangeAuthorizationCode(c: nat, client: string, redirect: string, resource: string) returns (family: Option<nat>)
      requires Valid(State())
      modifies `codes, `families, `tokens, `nextFamily, `nextToken
      ensures (State(), family) == Exchange(old(State()), c, client, redirect, resource)
      ensures Valid(State())
    {
      hide Valid;
      ExchangeValid(State(), c, client, redirect, resource);
      if c !in codes { return None; }
      var code := codes[c];
      if code.grant.client != client || code.grant.redirect != redirect || code.grant.resource != resource ||
         code.used.Some? || code.expires <= now || code.merchant !in merchants {
        return None;
      }
      codes := codes[c := code.(used := Some(now))];
      family := Some(nextFamily);
      OpenTokenFamily(code.merchant, client, resource, code.grant.scope, code.epoch);
    }

    /** `issued_code` and the completion of its request. */
    method IssueCode(session: Hash, m: nat)
      requires session in requests && m in merchants
      modifies `requests, `codes, `next
      ensures State() == Issue(old(State()), session, m)
    {
      var row := requests[session];
      requests := requests[session := row.(progress := Completed(m))];
      codes := codes[next.code := AuthCode(session, m, row.grant, now + CODE_LIFE, None, merchants[m].keyChanges)];
      next := next.(code := next.code + 1);
    }

    /** `approveExistingMerchantAndIssueAuthorizationCode` */
    method ApproveExistingMerchant(session: Hash, csrf: Hash, secret: Hash) returns (reply: Reply)
      requires Valid(State())
      modifies `requests, `codes, `next
      ensures (State(), reply) == Approve(old(State()), session, csrf, secret)
      ensures Valid(State())
    {
      hide Valid;
      ApproveValid(State(), session, csrf, secret);
      var locked := set m | m in merchants && merchants[m].secret == secret;
      assert locked == Holders(State(), secret);
      var open := session in requests && requests[session].csrf == csrf && requests[session].progress.Open? &&
                  requests[session].expires > now;
      var refusals := When(!open, Unavailable) + When(open && locked == {}, Rejected);
      if !open || |locked| != 1 { return Rows(refusals); }
      var m: nat :| m in locked;
      forall n | n in locked ensures n == m { OnlyMember(locked, n, m); }
      IssueCode(session, m);
      reply := Rows([Approved(m)] + refusals);
    }

    // ----- Key changes -----

    /** `invalidated_pairing_codes` and `invalidated_codes` */
    method SpendAllCodes(m: nat)
      modifies `pairings, `codes
      ensures State() ==
        old(State()).(pairings := DropPairings(old(pairings), m, now), codes := SpendCodes(old(codes), m, now))
    {
      pairings := map p | p in pairings ::
        if pairings[p].merchant == m && pairings[p].used.None?
        then pairings[p].(invalidated := Coalesce(pairings[p].invalidated, now)) else pairings[p];
      codes := map c | c in codes ::
        if codes[c].merchant == m then codes[c].(used := Coalesce(codes[c].used, now)) else codes[c];
    }

    /** `revoked_families` and `revoked_tokens` */
    method RevokeGrantsOf(m: nat, reason: string)
      modifies `families, `tokens
      ensures State() == old(State()).(grants := G.RevokeMerchant(old(Tokens()), m, reason))
    {
      var granted := set f | f in families && families[f].merchant == m;
      assert granted == G.FamiliesOf(Tokens(), m);
      RevokeFamilies(granted, reason);
    }

    method SetKey(m: nat, secret: Hash)
      requires m in merchants
      modifies `merchants
      ensures State() == old(State()).(merchants := old(merchants)[m := old(merchants)[m].(
        secret := secret, generation := old(merchants)[m].generation + 1, keyChanges := old(merchants)[m].keyChanges + 1)])
    {
      var was := merchants[m];
      merchants := merchants[m := was.(secret := secret, generation := was.generation + 1, keyChanges := was.keyChanges + 1)];
    }

    /** What a confirmed rotation and a confirmed recovery have in common. */
    method ReplaceKey(m: nat, secret: Hash, reason: string)
      requires m in merchants
      modifies `merchants, `pairings, `codes, `families, `tokens
      ensures State() == ChangeKey(old(State()), m, secret, reason)
    {
      hide DropPairings, SpendCodes, G.RevokeMerchant;
      SetKey(m, secret);
      SpendAllCodes(m);
      RevokeGrantsOf(m, reason);
    }

    method InvalidateRecoveryCodes(m: nat)
      modifies `recovery
      ensures State() == old(State()).(recovery := DropCodes(old(recovery), m, now))
    {
      recovery := map c | c in recovery ::
        if recovery[c].merchant == m && Live(recovery[c])
        then recovery[c].(invalidated := Some(now), ceremony := None) else recovery[c];
    }

    method InvalidateRotations(m: nat)
      modifies `rotations
      ensures State() == old(State()).(rotations := DropRotations(old(rotations), m, now))
    {
      rotations := map s | s in rotations ::
        if rotations[s].merchant == m && rotations[s].state.Pending?
        then rotations[s].(state := Invalidated(now)) else rotations[s];
    }

    /** `cleared_expired` */
    method ClearLapsedRotations()
      modifies `rotations
      ensures State() == old(State()).(rotations := ClearLapsed(old(State())))
    {
      rotations := map s | s in rotations ::
        if rotations[s].state.Pending? && rotations[s].expires <= now
        then rotations[s].(state := Canceled(now)) else rotations[s];
    }

    /** `confirmed`, the invalidated siblings, and the lapsed rows that both updates may reach. */
    method SettleRotationRows(m: nat, own: Hash, won: set<Hash>)
      modifies `rotations
      ensures State() == old(State()).(rotations := SettleRotations(old(State()), m, own, won))
    {
      rotations := map s | s in rotations ::
        if s == own then rotations[s].(state := Confirmed(now))
        else if rotations[s].merchant == m && rotations[s].state.Pending? && (s in won || rotations[s].expires > now)
        then rotations[s].(state := Invalidated(now))
        else if rotations[s].state.Pending? && rotations[s].expires <= now then rotations[s].(state := Canceled(now))
        else rotations[s];
    }

    /** `daily_successes` */
    method DailySuccesses(m: nat) returns (n: nat)
      ensures n == |ConfirmedSince(State(), m, DayStart(now))|
    {
      var start := DayStart(now);
      var prior := set s | s in rotations && rotations[s].merchant == m && rotations[s].state.Confirmed? &&
                           rotations[s].state.at >= start;
      assert prior == ConfirmedSince(State(), m, start);
      n := |prior|;
    }

    /** `active_rotation`, `available_rotation`, `eligible` and `admission`: a read. */
    method RotationVerdict(session: Hash, csrf: Hash, replacement: Hash, won: set<Hash>) returns (v: Verdict)
      ensures ConfirmRotation(State(), session, csrf, replacement, won).1 == Rows([v])
      ensures v.Approved? || v == RateLimited ==> EligibleRotation(State(), session, csrf, replacement)
      ensures v.Approved? ==> v.merchant == rotations[session].merchant && !Limited(State(), v.merchant)
      ensures v == RateLimited ==> Limited(State(), rotations[session].merchant)
      ensures !v.Approved? && v != RateLimited ==> !EligibleRotation(State(), session, csrf, replacement)
    {
      hide Limited, RotateKey, ClearLapsed;
      if session !in rotations || rotations[session].csrf != csrf || !rotations[session].state.Pending? ||
         rotations[session].expires <= now || rotations[session].merchant !in merchants {
        assert ConfirmRotation(State(), session, csrf, replacement, won).1.rows == [Unavailable];
        return Unavailable;
      }
      var row, m := rotations[session], rotations[session].merchant;
      if row.state.current != merchants[m].secret || row.generation != merchants[m].generation {
        assert ConfirmRotation(State(), session, csrf, replacement, won).1.rows == [Unavailable];
        return Unavailable;
      }
      if row.state.replacement != replacement {
        assert ConfirmRotation(State(), session, csrf, replacement, won).1.rows == [Rejected];
        return Rejected;
      }
      var limited := RotationLimited(m);
      v := if limited then RateLimited else Approved(m);
      assert ConfirmRotation(State(), session, csrf, replacement, won).1.rows == [v];
    }

    /** `daily_successes` against the day's allowance. */
    method RotationLimited(m: nat) returns (limited: bool)
      ensures limited == Limited(State(), m)
    {
      var successes := DailySuccesses(m);
      limited := successes >= ROTATIONS_A_DAY;
    }

    /** `rate_limited` */
    method CancelLimitedRotation(session: Hash)
      requires session in rotations
      modifies `rotations
      ensures State() == old(State()).(
        rotations := ClearLapsed(old(State()))[session := old(rotations)[session].(state := Canceled(now))])
    {
      var row := rotations[session];
      hide ClearLapsed;
      ClearLapsedRotations();
      rotations := rotations[session := row.(state := Canceled(now))];
    }

    /** `changed`, `confirmed` and all that is invalidated with them. */
    method RotateTo(m: nat, secret: Hash, session: Hash, won: set<Hash>)
      requires m in merchants
      modifies `merchants, `pairings, `codes, `families, `tokens, `rotations, `recovery
      ensures State() == RotateKey(old(State()), m, secret, session, won)
    {
      hide SettleRotations, DropCodes, DropPairings, SpendCodes, G.RevokeMerchant;
      SettleRotationRows(m, session, won);
      InvalidateRecoveryCodes(m);
      ReplaceKey(m, secret, "merchant key rotation");
    }

    /** `confirmMerchantRotationOnce` */
    method ConfirmMerchantRotation(session: Hash, csrf: Hash, replacement: Hash, won: set<Hash>) returns (reply: Reply)
      requires Valid(State())
      modifies `merchants, `pairings, `codes, `families, `tokens, `rotations, `recovery
      ensures (State(), reply) == ConfirmRotation(old(State()), session, csrf, replacement, won)
      ensures reply == Rows([RotationAnswer(old(State()), session, csrf, replacement)])
      ensures forall m :: reply == Rows([Approved(m)]) ==> Spares(old(State()), State(), m, replacement)
      ensures Valid(State())
    {
      hide Valid, Limited, RotateKey, ClearLapsed, RotationAnswer, Spares;
      RotationAnswers(State(), session, csrf, replacement, won);
      RotationSpares(State(), session, csrf, replacement, won);
      ConfirmRotationValid(State(), session, csrf, replacement, won);
      var v := RotationVerdict(session, csrf, replacement, won);
      reply := Rows([v]);
      if v.Approved? { RotateTo(v.merchant, replacement, session, won); }
      else if v == RateLimited { CancelLimitedRotation(session); }
      else { ClearLapsedRotations(); }
    }

    /** The change of a confirmed recovery: `code` is the one its session names. */
    method RecoverWith(code: Hash, replacement: Hash)
      requires code in recovery && recovery[code].merchant in merchants
      modifies `merchants, `pairings, `codes, `families, `tokens, `rotations, `recovery
      ensures State() == Recover(old(State()), code, replacement)
    {
      var m := recovery[code].merchant;
      recovery := recovery[code := recovery[code].(used := Some(now), ceremony := None)];
      InvalidateRecoveryCodes(m);
      InvalidateRotations(m);
      ReplaceKey(m, replacement, "merchant key recovery");
    }

    /** `confirmMerchantRecoveryOnce`; a session names at most one code. */
    method ConfirmMerchantRecovery(session: Hash, csrf: Hash, replacement: Hash) returns (reply: Reply)
      requires Valid(State())
      modifies `merchants, `pairings, `codes, `families, `tokens, `rotations, `recovery
      ensures (State(), reply) == ConfirmRecovery(old(State()), session, csrf, replacement)
      ensures forall m :: reply == Rows([Approved(m)]) ==> Spares(old(State()), State(), m, replacement)
      ensures Valid(State())
    {
      hide Valid, ConfirmRecovery, Recover, Spares;
      RecoverySpares(State(), session, csrf, replacement);
      ConfirmRecoveryValid(State(), session, csrf, replacement);
      var active := ActiveRecoveries(State(), session, csrf);
      if active == {} {
        NoneRecovers(State(), session, csrf, replacement);
        return Rows([Unavailable]);
      }
      var code: Hash :| code in active;
      OneRecovers(State(), session, csrf, replacement, code);
      if recovery[code].ceremony.value.replacement != replacement { return Rows([Rejected]); }
      reply := Rows([Approved(recovery[code].merchant)]);
      RecoverWith(code, replacement);
    }

    /** `advanced`, both invalidations and `inserted` */
    method RegenerateCodes(m: nat, hashes: seq<Hash>)
      requires m in merchants
      modifies `merchants, `recovery, `rotations
      ensures State() == Regenerate(old(State()), m, hashes)
    {
      hide DropCodes, AddCodes, DropRotations, ToSet;
      merchants := merchants[m := merchants[m].(generation := merchants[m].generation + 1)];
      InvalidateRecoveryCodes(m);
      recovery := AddCodes(recovery, ToSet(hashes), m, merchants[m].generation);
      InvalidateRotations(m);
    }

    /** `generateMerchantRecoveryCodes` */
    method GenerateMerchantRecoveryCodes(secret: Hash, hashes: seq<Hash>) returns (merchant: Option<nat>)
      requires Valid(State())
      modifies `merchants, `recovery, `rotations
      ensures State() == Generate(old(State()), secret, hashes)
      ensures merchant.Some? ==>
        merchant.value in old(merchants) && State() == Regenerate(old(State()), merchant.value, hashes)
      ensures merchant.None? ==> State() == old(State())
      ensures Valid(State())
    {
      hide Valid;
      GenerateValid(State(), secret, hashes);
      var proven := set m | m in merchants && merchants[m].secret == secret;
      assert proven == Holders(State(), secret);
      var issued := exists c :: c in hashes && c in recovery;
      if !Eight(hashes) || |proven| != 1 || issued { return None; }
      var m: nat :| m in proven;
      forall n | n in proven ensures n == m { OnlyMember(proven, n, m); }
      hide Regenerate;
      RegenerateCodes(m, hashes);
      merchant := Some(m);
    }

    // ----- New merchants -----

    /** `new_merchant` and `inserted_recovery_codes` */
    method InsertMerchant(handle: string, secret: Hash, hashes: seq<Hash>)
      modifies `merchants, `recovery, `next
      ensures State() == Join(old(State()), handle, secret, hashes)
    {
      merchants := merchants[next.merchant := Merchant(handle, secret, 1, 0)];
      recovery := AddCodes(recovery, ToSet(hashes), next.merchant, 1);
      next := next.(merchant := next.merchant + 1);
    }

    /** The branches of the confirmation that see the staged request and its exact key. */
    method CompleteStagedRequest(session: Hash) returns (reply: Reply)
      requires session in requests && requests[session].progress.Staged?
      modifies `merchants, `recovery, `next, `requests, `codes
      ensures (State(), reply) == ConfirmStagedNew(old(State()), session)
    {
      var p := requests[session].progress;
      var conflict := exists m :: m in merchants && merchants[m].handle == p.handle;
      if conflict {
        requests := requests[session := requests[session].(progress := Closed)];
        return Rows([HandleTaken]);
      }
      if !Eight(p.codes) { return Rows([]); }
      var issued := exists c :: c in p.codes && c in recovery;
      if issued { return Aborted; }
      hide Join, Issue;
      var m := next.merchant;
      JoinPutsIn(State(), p.handle, p.secret, p.codes);
      InsertMerchant(p.handle, p.secret, p.codes);
      IssueCode(session, m);
      reply := Rows([Approved(m)]);
    }

    /** `confirmNewMerchantOnce` */
    method ConfirmNewMerchant(session: Hash, csrf: Hash, secret: Hash) returns (reply: Reply)
      requires Valid(State())
      modifies `merchants, `recovery, `next, `requests, `codes
      ensures (State(), reply) == ConfirmNew(old(State()), session, csrf, secret)
      ensures Valid(State())
    {
      hide Valid;
      ConfirmNewValid(State(), session, csrf, secret);
      var active := ActiveRequest(State(), session, csrf);
      if !active {
        assert ConfirmNew(State(), session, csrf, secret).1.rows == [Unavailable];
        return Rows([Unavailable]);
      }
      var p := requests[session].progress;
      if !p.Staged? {
        assert ConfirmNew(State(), session, csrf, secret).1.rows == [NotReady];
        return Rows([NotReady]);
      }
      if p.secret != secret {
        assert ConfirmNew(State(), session, csrf, secret).1.rows == [Rejected];
        return Rows([Rejected]);
      }
      hide ConfirmStagedNew;
      reply := CompleteStagedRequest(session);
    }

    method CloseSignup(session: Hash, to: Progress)
      requires session in signups
      modifies `signups
      ensures State() == FinishSignup(old(State()), session, to)
    {
      signups := signups[session := signups[session].(progress := to)];
    }

    /** The branches of the confirmation that see the staged registration and its exact key. */
    method CompleteStagedSignup(session: Hash) returns (reply: Reply)
      requires session in signups && signups[session].progress.Staged?
      modifies `merchants, `recovery, `next, `signups
      ensures (State(), reply) == ConfirmStaged(old(State()), session)
    {
      var p := signups[session].progress;
      var conflict := exists m :: m in merchants && merchants[m].handle == p.handle;
      hide Join, FinishSignup;
      if conflict {
        CloseSignup(session, Closed);
        return Rows(When(|p.codes| == CODE_SET, HandleTaken));
      }
      if !Eight(p.codes) { return Rows([]); }
      var issued := exists c :: c in p.codes && c in recovery;
      if issued { return Aborted; }
      var m := next.merchant;
      InsertMerchant(p.handle, p.secret, p.codes);
      CloseSignup(session, Completed(m));
      reply := Rows([Approved(m)]);
    }

    /** `confirmMerchantRegistrationOnce` */
    method ConfirmMerchantRegistration(session: Hash, csrf: Hash, secret: Hash) returns (reply: Reply)
      requires Valid(State())
      modifies `merchants, `recovery, `next, `signups
      ensures (State(), reply) == ConfirmSignup(old(State()), session, csrf, secret)
      ensures Valid(State())
    {
      hide Valid;
      ConfirmSignupValid(State(), session, csrf, secret);
      hide ConfirmStaged;
      if ActiveSignup(State(), session, csrf) {
        if signups[session].progress.secret == secret {
          reply := CompleteStagedSignup(session);
          return;
        }
        assert ConfirmSignup(State(), session, csrf, secret).1.rows == [Rejected];
        return Rows([Rejected]);
      }
      if !DoneSignup(State(), session, csrf) {
        assert ConfirmSignup(State(), session, csrf, secret).1.rows == [Unavailable];
        return Rows([Unavailable]);
      }
      var m := signups[session].progress.merchant;
      reply := if merchants[m].secret == secret then Rows([Approved(m)]) else Rows([Rejected]);
      assert ConfirmSignup(State(), session, csrf, secret).1.rows == reply.rows;
    }

    // ----- Retention -----

    /** The pruning in `consumeOAuthRateLimit`: every set is read from one snapshot. */
    method PruneRetired()
      requires Valid(State())
      modifies `codes, `requests, `families, `tokens
      ensures State() == PruneAll(old(State()))
      ensures Valid(State())
    {
      hide Valid;
      PruneAllValid(State());
      var retiredCodes, retiredRequests := RetiredCodes(State()), RetiredRequests(State());
      var retiredTokens, retiredFamilies := G.RetiredTokens(Tokens()), G.RetiredFamilies(Tokens());
      codes := codes - retiredCodes;
      requests := requests - retiredRequests;
      tokens := tokens - retiredTokens;
      families := families - retiredFamilies;
    }

    // ----- Pairing -----

    /** `cleanup` */
    method DropExpiredPairings()
      modifies `pairings
      ensures State() == old(State()).(pairings := PairingsLeft(old(State())))
    {
      pairings := map p | p in pairings && pairings[p].expires > now :: pairings[p];
    }

    method CreateMerchantPairingCode(m: nat)
      requires Valid(State())
      modifies `pairings, `next
      ensures State() == CreatePairing(old(State()), m)
      ensures Valid(State())
    {
      hide Valid;
      CreatePairingValid(State(), m);
      if m !in merchants { return; }
      DropExpiredPairings();
      hide PairingsLeft;
      pairings := pairings[next.pairing := Pairing(m, now + PAIRING_LIFE, None, None, merchants[m].keyChanges)];
      next := next.(pairing := next.pairing + 1);
    }

    /** `cleanup` */
    method DropExpiredReservations()
      modifies `reservations
      ensures State() == old(State()).(reservations := ReservationsLeft(old(State())))
    {
      reservations := map s | s in reservations && reservations[s].expires > now :: reservations[s];
    }

    method ReservePairingCode(session: Hash, csrf: Hash, p: nat)
      requires Valid(State())
      modifies `reservations
      ensures State() == Reserve(old(State()), session, csrf, p)
      ensures Valid(State())
    {
      hide Valid, ReservationsLeft;
      ReserveValid(State(), session, csrf, p);
      DropExpiredReservations();
      if p in pairings && pairings[p].used.None? && pairings[p].expires > now && pairings[p].invalidated.None? {
        reservations := reservations[session := Reservation(csrf, p, pairings[p].merchant, pairings[p].expires)];
      }
    }

    method TakeReservedPairingCode(session: Hash, csrf: Hash) returns (code: Option<nat>)
      requires Valid(State())
      modifies `reservations
      ensures (State(), code) == Take(old(State()), session, csrf)
      ensures Valid(State())
    {
      hide Valid;
      ReserveValid(State(), session, csrf, 0);
      if session !in reservations || reservations[session].csrf != csrf || reservations[session].expires <= now { return None; }
      code := Some(reservations[session].code);
      reservations := reservations - {session};
    }

    /** The first statement of `resolveAndConsumePairingCode`. */
    method SpendPairingCode(p: nat) returns (merchant: Option<nat>)
      requires Valid(State())
      modifies `pairings
      ensures (State(), merchant) == SpendPairing(old(State()), p)
      ensures Valid(State())
    {
      hide Valid;
      SpendPairingValid(State(), p);
      if p !in pairings || pairings[p].used.Some? || pairings[p].expires <= now || pairings[p].invalidated.Some? { return None; }
      merchant := Some(pairings[p].merchant);
      pairings := pairings[p := pairings[p].(used := Some(now))];
    }

    /** The second: a read. */
    method ReadMerchantKey(m: nat) returns (secret: Option<Hash>)
      ensures secret == ReadKey(State(), m)
    {
      secret := if m in merchants then Some(merchants[m].secret) else None;
    }

    /** The confirm step of pairing in the browser, when nothing else runs between its statements. */
    method HandleConfirmPair(session: Hash, csrf: Hash) returns (answer: PairAnswer)
      requires Valid(State())
      modifies `reservations, `pairings, `requests, `codes, `next
      ensures (State(), answer) == ConfirmPair(old(State()), session, csrf)
      ensures Valid(State())
      ensures PairMeans(old(State()), session, csrf, answer)
      ensures answer.Connected? <==> old(Connectable(State(), session, csrf))
      ensures answer.Connected? ==> Connects(old(State()), State(), session, answer.merchant, answer.code)
    {
      ConfirmPairConnects(State(), session, csrf);
      PairingTells(State(), session, csrf);
      hide Valid, PairMeans, Connectable, Connects, Approve, SpendPairing, Take;
      var code := TakeReservedPairingCode(session, csrf);
      if code.None? { return ReservationMissing; }
      var merchant := SpendPairingCode(code.value);
      if merchant.None? { return CodeUnavailable; }
      var secret := ReadMerchantKey(merchant.value);
      if secret.None? { return CodeUnavailable; }
      var issued := next.code;
      var reply := ApproveExistingMerchant(session, csrf, secret.value);
      answer := Answered(reply, issued);
    }
  }
}
