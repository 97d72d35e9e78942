/**
  When a ceremony, an approval or an exchange goes through, read off the rows alone, and what it leaves
  alone when it does not.
 */
module MarketAnswers {
  import opened Tables
  import opened Market
  import opened MarketIdentity
  import opened MarketIdentityLaws
  import opened MarketSignIn
  import opened MarketIsolation
  import G = Grants

  // ----- Key rotation -----

  /** Rotations of `m` confirmed since midnight. */
  function Today(db: Market, m: nat): set<Hash>
  {
    set s | s in db.rotations && db.rotations[s].merchant == m && db.rotations[s].state.Confirmed? &&
            db.rotations[s].state.at >= 24 * 60 * MINUTE * (db.Now() / (24 * 60 * MINUTE))
  }

  /** The staged row of this very session and csrf hash, still in time. */
  predicate StagedHere(db: Market, session: Hash, csrf: Hash)
  {
    session in db.rotations && db.rotations[session].csrf == csrf && db.rotations[session].state.Pending? &&
    db.rotations[session].expires > db.Now()
  }

  function RotationAnswer(db: Market, session: Hash, csrf: Hash, replacement: Hash): Verdict
  {
    if !StagedHere(db, session, csrf) then Unavailable
    else if db.rotations[session].state.replacement != replacement then Rejected
    else if |Today(db, db.rotations[session].merchant)| >= 5 then RateLimited
    else Approved(db.rotations[session].merchant)
  }

  /** Staged rotations move only by running out, and a limited one by being canceled. */
  predicate OnlyLapses(a: Market, b: Market, limited: Option<Hash>)
  {
    b == a.(rotations := b.rotations) && b.rotations.Keys == a.rotations.Keys &&
    forall s :: s in a.rotations ==>
      if limited == Some(s) then b.rotations[s] == a.rotations[s].(state := Canceled(a.Now()))
      else SameRotation(a.rotations[s], b.rotations[s], a.Now())
  }

  lemma SinceMidnight(db: Market, m: nat)
    ensures Limited(db, m) <==> |Today(db, m)| >= 5
  {
    var day := 24 * 60 * MINUTE;
    assert DayStart(db.Now()) == day * (db.Now() / day);
    assert ConfirmedSince(db, m, DayStart(db.Now())) == Today(db, m);
  }

  /**
    A rotation confirms exactly with the session and csrf hash that staged it, in time, with the staged
    key, and while fewer than five were confirmed since midnight. Otherwise it says why, and no table but
    that of staged rotations moves, where only what ran out and what was limited is canceled.
   */
  lemma RotationAnswers(db: Market, session: Hash, csrf: Hash, replacement: Hash, won: set<Hash>)
    requires Valid(db)
    ensures var (next, reply) := ConfirmRotation(db, session, csrf, replacement, won);
            var answer := RotationAnswer(db, session, csrf, replacement);
            reply == Rows([answer]) &&
            (!answer.Approved? ==> OnlyLapses(db, next, if answer == RateLimited then Some(session) else None))
  {
    hide Valid, Limited, Today, ClearLapsed, RotateKey, OnlyLapses;
    ActiveIsAvailable(db, session, csrf);
    RotationOwner(db, session);
    if StagedHere(db, session, csrf) { SinceMidnight(db, db.rotations[session].merchant); }
    var (next, reply) := ConfirmRotation(db, session, csrf, replacement, won);
    assert reply.rows == [RotationAnswer(db, session, csrf, replacement)];
    Lapses(db, session);
  }

  lemma RotationOwner(db: Market, session: Hash)
    requires Valid(db)
    ensures session in db.rotations ==> db.rotations[session].merchant in db.merchants
  {
    hide GrantsOk, SignupsOk, MerchantsOk, RecoveryOk, SessionsOk, SetsOk;
  }

  lemma Lapses(db: Market, session: Hash)
    ensures OnlyLapses(db, db.(rotations := ClearLapsed(db)), None)
    ensures session in db.rotations ==>
      OnlyLapses(db, db.(rotations := ClearLapsed(db)[session := db.rotations[session].(state := Canceled(db.Now()))]), Some(session))
  {
  }

  /**
    A rotation is staged exactly for a merchant that holds the presented key, with another key, under a
    session and a csrf hash no row has; it waits fifteen minutes for its confirmation.
   */
  lemma StagesExactly(db: Market, session: Hash, csrf: Hash, secret: Hash, replacement: Hash, pick: nat)
    ensures var (next, reply) := StageRotation(db, session, csrf, secret, replacement, pick);
            var used := session in db.rotations || exists s :: s in db.rotations && db.rotations[s].csrf == csrf;
            var held := exists m :: m in db.merchants && db.merchants[m].secret == secret;
            var staged := pick in db.merchants && db.merchants[pick].secret == secret && secret != replacement && !used;
            reply == Rows([if staged then Approved(pick) else if held then Unavailable else Rejected]) &&
            (staged ==>
               session in next.rotations && OnlyLapses(db, next.(rotations := next.rotations - {session}), None) &&
               next.rotations[session] == KeyRotation(pick, db.merchants[pick].generation, csrf, db.Now() + 15 * MINUTE,
                                                      Pending(secret, replacement))) &&
            (!staged ==> OnlyLapses(db, next, None))
  {
    var staged := Stages(db, session, csrf, secret, replacement, pick);
    var (next, reply) := StageRotation(db, session, csrf, secret, replacement, pick);
    Lapses(db, session);
    HeldIff(db, secret);
    hide ClearLapsed, OnlyLapses;
    if staged {
      assert reply.rows == [Approved(pick)];
      assert ClearLapsed(db).Keys == db.rotations.Keys by { LapsedKeys(db); }
      assert next.rotations - {session} == ClearLapsed(db);
    } else if Holders(db, secret) == {} {
      assert reply.rows == [Rejected];
    } else {
      assert reply.rows == [Unavailable];
    }
  }

  lemma HeldIff(db: Market, secret: Hash)
    ensures Holders(db, secret) != {} <==> exists m :: m in db.merchants && db.merchants[m].secret == secret
  {
    if m :| m in db.merchants && db.merchants[m].secret == secret { assert m in Holders(db, secret); }
  }

  lemma LapsedKeys(db: Market)
    ensures ClearLapsed(db).Keys == db.rotations.Keys
  {
  }

  // ----- Recovery -----

  /** A live code that carries this very session and csrf hash, still in time. */
  predicate CodeHere(db: Market, session: Hash, csrf: Hash, c: Hash)
  {
    c in db.recovery && db.recovery[c].used.None? && db.recovery[c].invalidated.None? && db.recovery[c].ceremony.Some? &&
    db.recovery[c].ceremony.value.session == session && db.recovery[c].ceremony.value.csrf == csrf &&
    db.recovery[c].ceremony.value.expires > db.Now()
  }

  lemma OnlyMember(s: set<nat>, m: nat, n: nat)
    requires |s| == 1 && m in s && n in s
    ensures m == n
  {
    if m != n { SubsetSize({m, n}, s); }
  }

  /** Sessions are unique, and a live code is of the present generation. */
  lemma ActiveIsOne(db: Market, session: Hash, csrf: Hash, code: Hash)
    requires Valid(db) && code in ActiveRecoveries(db, session, csrf)
    ensures ActiveRecoveries(db, session, csrf) == {code} == AvailableRecoveries(db, session, csrf)
  {
    hide GrantsOk, SignupsOk, MerchantsOk, RotationsOk, SetsOk;
    assert forall c :: c in ActiveRecoveries(db, session, csrf) ==> SameSession(db.recovery[c], db.recovery[code]);
  }

  lemma NoneRecovers(db: Market, session: Hash, csrf: Hash, replacement: Hash)
    requires ActiveRecoveries(db, session, csrf) == {}
    ensures ConfirmRecovery(db, session, csrf, replacement) == (db, Rows([Unavailable]))
  {
    hide Recover;
    assert EligibleRecoveries(db, session, csrf, replacement) <= ActiveRecoveries(db, session, csrf);
    assert ConfirmRecovery(db, session, csrf, replacement).1.rows == [Unavailable];
  }

  lemma OneRecovers(db: Market, session: Hash, csrf: Hash, replacement: Hash, code: Hash)
    requires Valid(db) && code in ActiveRecoveries(db, session, csrf)
    ensures ConfirmRecovery(db, session, csrf, replacement) ==
      if db.recovery[code].ceremony.value.replacement == replacement
      then (Recover(db, code, replacement), Rows([Approved(db.recovery[code].merchant)])) else (db, Rows([Rejected]))
  {
    hide Valid, Recover;
    ActiveIsOne(db, session, csrf, code);
    var good := db.recovery[code].ceremony.value.replacement == replacement;
    var eligible := EligibleRecoveries(db, session, csrf, replacement);
    assert code in AvailableRecoveries(db, session, csrf);
    forall c ensures c in eligible <==> good && c == code { assert c in eligible ==> c in ActiveRecoveries(db, session, csrf); }
    assert eligible == if good then {code} else {};
    assert ConfirmRecovery(db, session, csrf, replacement).1.rows ==
      [if good then Approved(db.recovery[code].merchant) else Rejected];
  }

  /**
    A recovery confirms exactly on the code its session and csrf hash staged, in time, with the staged key;
    or it changes nothing.
   */
  lemma RecoveryAnswers(db: Market, session: Hash, csrf: Hash, replacement: Hash, c: Hash)
    requires Valid(db)
    ensures var (next, reply) := ConfirmRecovery(db, session, csrf, replacement);
            (CodeHere(db, session, csrf, c) ==>
               reply == Rows([if db.recovery[c].ceremony.value.replacement == replacement
                              then Approved(db.recovery[c].merchant) else Rejected])) &&
            ((forall d :: !CodeHere(db, session, csrf, d)) ==> reply == Rows([Unavailable])) &&
            (reply == Rows([Unavailable]) || reply == Rows([Rejected]) ==> next == db)
  {
    CodesHere(db, session, csrf);
    hide Valid, Recover, ConfirmRecovery, ActiveRecovery, CodeHere;
    var active := ActiveRecoveries(db, session, csrf);
    if active == {} {
      NoneRecovers(db, session, csrf, replacement);
      assert !CodeHere(db, session, csrf, c);
    } else {
      var d :| d in active;
      ActiveIsOne(db, session, csrf, d);
      OneRecovers(db, session, csrf, replacement, d);
      assert CodeHere(db, session, csrf, d) && (CodeHere(db, session, csrf, c) ==> c == d);
    }
  }

  lemma CodesHere(db: Market, session: Hash, csrf: Hash)
    requires Valid(db)
    ensures forall c :: c in ActiveRecoveries(db, session, csrf) <==> CodeHere(db, session, csrf, c)
  {
    hide GrantsOk, SignupsOk, MerchantsOk, RotationsOk, SetsOk, SessionsOk;
  }

  /** A session or csrf hash that a code other than `code` carries. */
  predicate CarriedElsewhere(db: Market, session: Hash, csrf: Hash, code: Hash)
  {
    exists c :: c in db.recovery && c != code && db.recovery[c].ceremony.Some? &&
      (db.recovery[c].ceremony.value.session == session || db.recovery[c].ceremony.value.csrf == csrf)
  }

  /**
    A recovery is staged exactly on a live code without a running ceremony, under a session and a csrf hash
    no other code, no ended one and no earlier ceremony of this code carries; it waits fifteen minutes. Of
    the other codes at most a ceremony that ran out is cleared.
   */
  lemma StagesRecoveryExactly(db: Market, session: Hash, csrf: Hash, code: Hash, replacement: Hash, known: bool)
    requires Valid(db)
    ensures var next := StageRecovery(db, session, csrf, code, replacement, known);
            var staged := !known && code in db.recovery && db.recovery[code].used.None? && db.recovery[code].invalidated.None? &&
              (db.recovery[code].ceremony.Some? ==>
                 db.recovery[code].ceremony.value.expires <= db.Now() &&
                 db.recovery[code].ceremony.value.session != session && db.recovery[code].ceremony.value.csrf != csrf) &&
              !CarriedElsewhere(db, session, csrf, code);
            next == db.(recovery := next.recovery) && next.recovery.Keys == db.recovery.Keys &&
            (forall c :: c in db.recovery && c != code ==> SameCode(db.recovery[c], next.recovery[c], db.Now())) &&
            (code in db.recovery ==>
               next.recovery[code] ==
                 if staged then db.recovery[code].(ceremony := Some(Ceremony(session, csrf, replacement, db.Now() + 15 * MINUTE)))
                 else db.recovery[code])
  {
    hide GrantsOk, SignupsOk, MerchantsOk, RotationsOk, SetsOk, SessionsOk, SessionTaken, CarriedElsewhere;
    TakenIff(db, session, csrf, code);
  }

  lemma TakenIff(db: Market, session: Hash, csrf: Hash, code: Hash)
    ensures SessionTaken(db, session, csrf, code) <==> CarriedElsewhere(db, session, csrf, code)
  {
  }

  /**
    Merchant `m` is one generation on, with these codes; its live codes and staged rotations are invalidated.
    Its handle and key, its used codes and all it has granted stay.
   */
  ghost predicate Regenerates(a: Market, b: Market, m: nat, codes: seq<Hash>)
  {
    m in a.merchants && b == a.(merchants := b.merchants, recovery := b.recovery, rotations := b.rotations) &&
    b.merchants == a.merchants[m := a.merchants[m].(generation := a.merchants[m].generation + 1)] &&
    (forall c :: c in b.recovery <==> c in a.recovery || c in codes) &&
    (forall c :: c in codes ==>
       c in b.recovery && b.recovery[c] == RecoveryCode(m, a.merchants[m].generation + 1, None, None, None)) &&
    (forall c :: c in a.recovery ==>
       c in b.recovery &&
       b.recovery[c] == if a.recovery[c].merchant == m && a.recovery[c].used.None? && a.recovery[c].invalidated.None?
                        then a.recovery[c].(invalidated := Some(a.Now()), ceremony := None) else a.recovery[c]) &&
    b.rotations.Keys == a.rotations.Keys &&
    forall s :: s in a.rotations ==>
      b.rotations[s] == if a.rotations[s].merchant == m && a.rotations[s].state.Pending?
                        then a.rotations[s].(state := Invalidated(a.Now())) else a.rotations[s]
  }

  /**
    A new set is generated exactly for the one merchant that holds the key, from eight different codes never
    issued; or nothing changes.
   */
  lemma GeneratesExactly(db: Market, secret: Hash, codes: seq<Hash>, m: nat)
    ensures var next := Generate(db, secret, codes);
            var good := Distinct8(codes) && !SomeIssued(db, codes);
            (good && Sole(db, secret, m) ==> Regenerates(db, next, m, codes)) &&
            (!good || (forall n: nat :: !Sole(db, secret, n)) ==> next == db)
  {
    hide Regenerate, Regenerates, Distinct8, Eight, Sole, SomeIssued, Collides;
    EightDistinct(codes);
    SameNames(db, "", codes);
    SoleIff(db, secret);
    if Sole(db, secret, m) && Eight(codes) && !SomeIssued(db, codes) {
      assert m in Holders(db, secret);
      assert Generate(db, secret, codes) == Regenerate(db, m, codes);
      RegenerateWrites(db, m, codes);
    }
  }

  lemma RegenerateWrites(db: Market, m: nat, codes: seq<Hash>)
    requires m in db.merchants && !SomeIssued(db, codes)
    ensures Regenerates(db, Regenerate(db, m, codes), m, codes)
  {
    hide DropCodes, AddCodes, DropRotations, SomeIssued;
    NewSet(db, m, codes, db.merchants[m].generation + 1);
    RotationsDropped(db, m);
  }

  lemma NewSet(db: Market, m: nat, codes: seq<Hash>, generation: nat)
    requires !SomeIssued(db, codes)
    ensures var next := AddCodes(DropCodes(db.recovery, m, db.Now()), ToSet(codes), m, generation);
            (forall c :: c in next <==> c in db.recovery || c in codes) &&
            (forall c :: c in codes ==> c in next && next[c] == RecoveryCode(m, generation, None, None, None)) &&
            forall c :: c in db.recovery ==>
              c in next &&
              next[c] == if db.recovery[c].merchant == m && db.recovery[c].used.None? && db.recovery[c].invalidated.None?
                         then db.recovery[c].(invalidated := Some(db.Now()), ceremony := None) else db.recovery[c]
  {
  }

  lemma RotationsDropped(db: Market, m: nat)
    ensures var next := DropRotations(db.rotations, m, db.Now());
            next.Keys == db.rotations.Keys &&
            forall s :: s in db.rotations ==>
              next[s] == if db.rotations[s].merchant == m && db.rotations[s].state.Pending?
                         then db.rotations[s].(state := Invalidated(db.Now())) else db.rotations[s]
  {
  }

  /** `m` holds the key, and no other merchant does. */
  predicate Sole(db: Market, secret: Hash, m: nat)
  {
    m in db.merchants && db.merchants[m].secret == secret &&
    forall n :: n in db.merchants && db.merchants[n].secret == secret ==> n == m
  }

  lemma SoleIff(db: Market, secret: Hash)
    ensures |Holders(db, secret)| == 1 <==> exists m: nat :: Sole(db, secret, m)
    ensures forall m: nat :: Sole(db, secret, m) <==> Holders(db, secret) == {m}
  {
    forall m: nat ensures Sole(db, secret, m) <==> Holders(db, secret) == {m} {
      if Holders(db, secret) == {m} {
        forall n | n in db.merchants && db.merchants[n].secret == secret ensures n == m { assert n in Holders(db, secret); }
      }
    }
    if |Holders(db, secret)| == 1 {
      var m :| m in Holders(db, secret);
      forall n | n in Holders(db, secret) ensures n == m { OnlyMember(Holders(db, secret), m, n); }
      assert Holders(db, secret) == {m};
    }
  }

  predicate Distinct(codes: seq<Hash>) { forall i, j :: 0 <= i < j < |codes| ==> codes[i] != codes[j] }

  predicate Distinct8(codes: seq<Hash>) { |codes| == 8 && Distinct(codes) }

  lemma EightDistinct(codes: seq<Hash>)
    ensures Eight(codes) <==> Distinct8(codes)
  {
    DistinctCount(codes);
    hide ToSet, Distinct;
  }

  lemma SnocSet(rest: seq<Hash>, last: Hash)
    ensures ToSet(rest + [last]) == ToSet(rest) + {last} && (last in ToSet(rest) <==> last in rest)
  {
  }

  lemma SnocDistinct(rest: seq<Hash>, last: Hash)
    ensures Distinct(rest + [last]) <==> Distinct(rest) && last !in rest
  {
    var codes := rest + [last];
    assert forall i :: 0 <= i < |rest| ==> codes[i] == rest[i];
    if last in rest {
      var i :| 0 <= i < |rest| && rest[i] == last;
      assert codes[i] == codes[|rest|];
    }
  }

  lemma {:induction false} DistinctCount(codes: seq<Hash>)
    ensures |ToSet(codes)| <= |codes| && (|ToSet(codes)| == |codes| <==> Distinct(codes))
  {
    if codes == [] {
      assert ToSet(codes) == {};
    } else {
      hide ToSet, Distinct;
      var rest, last := codes[..|codes| - 1], codes[|codes| - 1];
      assert codes == rest + [last];
      DistinctCount(rest);
      SnocSet(rest, last);
      SnocDistinct(rest, last);
      if last in rest { assert ToSet(rest) + {last} == ToSet(rest); }
    }
  }

  // ----- Approval -----

  /** A sign-in request of this very session and csrf hash, still in time. */
  predicate RequestHere(db: Market, session: Hash, csrf: Hash)
  {
    session in db.requests && db.requests[session].csrf == csrf && db.requests[session].expires > db.Now()
  }

  /** The request is completed for `m`, and one code of five minutes is added for its own grant. */
  predicate Issues(a: Market, b: Market, session: Hash, m: nat)
  {
    session in a.requests && m in b.merchants &&
    b.requests == a.requests[session := a.requests[session].(progress := Completed(m))] &&
    b.codes == a.codes[a.next.code :=
      AuthCode(session, m, a.requests[session].grant, a.Now() + 5 * MINUTE, None, b.merchants[m].keyChanges)] &&
    b.next.code == a.next.code + 1 && b.pairings == a.pairings && b.reservations == a.reservations && b.signups == a.signups &&
    b.grants == a.grants && b.rotations == a.rotations
  }

  /**
    An approval goes through exactly for an open request of this session and csrf hash and the one merchant
    with the key; or nothing changes.
   */
  lemma ApprovesExactly(db: Market, session: Hash, csrf: Hash, secret: Hash, m: nat)
    ensures var (next, reply) := Approve(db, session, csrf, secret);
            var open := RequestHere(db, session, csrf) && db.requests[session].progress == Open;
            (reply == Rows([Approved(m)]) <==> open && Sole(db, secret, m)) &&
            (reply == Rows([Approved(m)]) ==>
               Issues(db, next, session, m) && next.merchants == db.merchants && next.recovery == db.recovery) &&
            (reply == Rows([Unavailable]) <==> !open) &&
            (reply == Rows([Rejected]) <==> open && forall n :: n in db.merchants ==> db.merchants[n].secret != secret) &&
            ((!open || forall n: nat :: !Sole(db, secret, n)) ==> next == db)
  {
    hide Sole;
    SoleIff(db, secret);
    HeldIff(db, secret);
    var (next, reply) := Approve(db, session, csrf, secret);
    var open, locked := OpenRequest(db, session, csrf), Holders(db, secret);
    if open && |locked| == 1 {
      var k: nat :| Sole(db, secret, k);
      assert locked == {k} && reply.rows == [Approved(k)];
      assert Sole(db, secret, m) ==> {m} == {k};
    } else {
      assert !open ==> reply.rows == [Unavailable];
      assert open && locked == {} ==> reply.rows == [Rejected];
      assert open && locked != {} ==> reply.rows == [];
      assert Sole(db, secret, m) ==> |locked| == 1;
    }
  }

  // ----- New merchants -----

  predicate HandleHeld(db: Market, handle: string) { exists m :: m in db.merchants && db.merchants[m].handle == handle }

  predicate SomeIssued(db: Market, codes: seq<Hash>) { exists c :: c in codes && c in db.recovery }

  /** The next merchant, with the staged handle and key and eight codes of its first generation. */
  predicate Joins(a: Market, b: Market, handle: string, secret: Hash, codes: seq<Hash>)
  {
    b.merchants == a.merchants[a.next.merchant := Merchant(handle, secret, 1, 0)] && b.next.merchant == a.next.merchant + 1 &&
    |codes| == 8 &&
    (forall c :: c in codes ==> c in b.recovery && b.recovery[c] == RecoveryCode(a.next.merchant, 1, None, None, None)) &&
    (forall c :: c in a.recovery ==> c in b.recovery && b.recovery[c] == a.recovery[c]) &&
    forall c :: c in b.recovery ==> c in a.recovery || c in codes
  }

  lemma JoinJoins(db: Market, handle: string, secret: Hash, codes: seq<Hash>)
    requires |codes| == 8 && !SomeIssued(db, codes)
    ensures Joins(db, Join(db, handle, secret, codes), handle, secret, codes)
  {
  }

  /** The outcome for a staged newcomer whose key was presented. */
  predicate Enters(db: Market, next: Market, reply: Reply, handle: string, secret: Hash, codes: seq<Hash>)
  {
    if HandleHeld(db, handle) then
      reply == Rows([HandleTaken]) && next == db.(signups := next.signups, requests := next.requests)
    else if SomeIssued(db, codes) then reply == Aborted && next == db
    else reply == Rows([Approved(db.next.merchant)]) && Joins(db, next, handle, secret, codes)
  }

  lemma SameNames(db: Market, handle: string, codes: seq<Hash>)
    ensures HandleUsed(db, handle) <==> HandleHeld(db, handle)
    ensures Collides(db, codes) <==> SomeIssued(db, codes)
  {
  }

  lemma StagedEight(db: Market, session: Hash)
    requires Valid(db)
    ensures session in db.requests && db.requests[session].progress.Staged? ==> Eight(db.requests[session].progress.codes)
    ensures session in db.signups && db.signups[session].progress.Staged? ==> Eight(db.signups[session].progress.codes)
  {
    hide IdentityOk, PairingsOk, CodesOk, FamiliesOk, G.Valid, Eight;
  }

  /**
    A newcomer's sign-in confirms exactly with its session and csrf hash, in time, once staged, under the
    staged key, a handle nobody has and codes never issued: then the merchant joins and the request's one
    code is issued. Every other answer leaves all but a refused handle's own request as it was.
   */
  lemma NewcomerAnswers(db: Market, session: Hash, csrf: Hash, secret: Hash)
    requires Valid(db)
    ensures var (next, reply) := ConfirmNew(db, session, csrf, secret);
            if !RequestHere(db, session, csrf) || db.requests[session].progress.Completed? || db.requests[session].progress.Closed?
            then reply == Rows([Unavailable]) && next == db
            else match db.requests[session].progress
              case Open => reply == Rows([NotReady]) && next == db
              case Staged(handle, key, codes) =>
                if key != secret then reply == Rows([Rejected]) && next == db
                else
                  Enters(db, next, reply, handle, secret, codes) &&
                  (reply == Rows([HandleTaken]) ==>
                     next == db.(requests := db.requests[session := db.requests[session].(progress := Closed)])) &&
                  (reply == Rows([Approved(db.next.merchant)]) ==> Issues(db, next, session, db.next.merchant))
  {
    StagedEight(db, session);
    hide Valid, Join, HandleUsed, Collides, HandleHeld, SomeIssued, Joins;
    var (next, reply) := ConfirmNew(db, session, csrf, secret);
    if EligibleRequest(db, session, csrf, secret) {
      NewcomerEnters(db, session);
    } else if ActiveRequest(db, session, csrf) {
      assert reply.rows == [if db.requests[session].progress.Staged? then Rejected else NotReady];
    } else {
      assert reply.rows == [Unavailable];
    }
  }

  lemma NewcomerEnters(db: Market, session: Hash)
    requires session in db.requests && db.requests[session].progress.Staged? && Eight(db.requests[session].progress.codes)
    ensures var (next, reply) := ConfirmStagedNew(db, session);
            var p := db.requests[session].progress;
            Enters(db, next, reply, p.handle, p.secret, p.codes) &&
            (reply == Rows([HandleTaken]) ==>
               next == db.(requests := db.requests[session := db.requests[session].(progress := Closed)])) &&
            (reply == Rows([Approved(db.next.merchant)]) ==> Issues(db, next, session, db.next.merchant))
  {
    hide HandleUsed, Collides, HandleHeld, SomeIssued, Joins, Join, Issue, Issues;
    var p := db.requests[session].progress;
    SameNames(db, p.handle, p.codes);
    if !HandleHeld(db, p.handle) && !SomeIssued(db, p.codes) { JoinedIssue(db, session, p.handle, p.secret, p.codes); }
  }

  lemma JoinedIssue(db: Market, session: Hash, handle: string, secret: Hash, codes: seq<Hash>)
    requires session in db.requests && |codes| == 8 && !SomeIssued(db, codes)
    ensures db.next.merchant in Join(db, handle, secret, codes).merchants
    ensures var next := Issue(Join(db, handle, secret, codes), session, db.next.merchant);
            Joins(db, next, handle, secret, codes) && Issues(db, next, session, db.next.merchant)
  {
    hide AddCodes, Joins, SomeIssued;
    var joined := Join(db, handle, secret, codes);
    JoinJoins(db, handle, secret, codes);
    JoinsStill(db, joined, Issue(joined, session, db.next.merchant), handle, secret, codes);
  }

  lemma JoinsStill(a: Market, b: Market, c: Market, handle: string, secret: Hash, codes: seq<Hash>)
    requires Joins(a, b, handle, secret, codes)
    requires c.merchants == b.merchants && c.recovery == b.recovery && c.next.merchant == b.next.merchant
    ensures Joins(a, c, handle, secret, codes)
  {
  }

  /** A pending registration of this very session and csrf hash. */
  predicate SignupHere(db: Market, session: Hash, csrf: Hash)
  {
    session in db.signups && db.signups[session].csrf == csrf
  }

  /**
    A registration confirms exactly with its session and csrf hash, in time, under the staged key, a handle
    nobody has and codes never issued. A completed one answers again, at any time, to the merchant's present
    key, and changes nothing.
   */
  lemma RegistrationAnswers(db: Market, session: Hash, csrf: Hash, secret: Hash)
    requires Valid(db)
    ensures var (next, reply) := ConfirmSignup(db, session, csrf, secret);
            if !SignupHere(db, session, csrf) then reply == Rows([Unavailable]) && next == db
            else match db.signups[session].progress
              case Completed(m) =>
                m in db.merchants && next == db &&
                reply == Rows([if db.merchants[m].secret == secret then Approved(m) else Rejected])
              case Staged(handle, key, codes) =>
                if db.signups[session].expires <= db.Now() then reply == Rows([Unavailable]) && next == db
                else if key != secret then reply == Rows([Rejected]) && next == db
                else
                  Enters(db, next, reply, handle, secret, codes) && next.requests == db.requests &&
                  (reply != Aborted ==>
                     next.signups == db.signups[session := db.signups[session].(
                       progress := if reply == Rows([HandleTaken]) then Closed else Completed(db.next.merchant))])
              case _ => reply == Rows([Unavailable]) && next == db
  {
    StagedEight(db, session);
    CompletedIn(db, session);
    hide Valid, Join, HandleUsed, Collides, HandleHeld, SomeIssued, Joins;
    var (next, reply) := ConfirmSignup(db, session, csrf, secret);
    if EligibleSignup(db, session, csrf, secret) {
      SignupEnters(db, session);
    } else if ActiveSignup(db, session, csrf) {
      assert reply.rows == [Rejected];
    } else if DoneSignup(db, session, csrf) {
      var m := db.signups[session].progress.merchant;
      assert reply.rows == [if db.merchants[m].secret == secret then Approved(m) else Rejected];
    } else {
      assert reply.rows == [Unavailable];
    }
  }

  lemma CompletedIn(db: Market, session: Hash)
    requires Valid(db)
    ensures session in db.signups && db.signups[session].progress.Completed? ==>
      db.signups[session].progress.merchant in db.merchants
  {
    hide IdentityOk, GrantsOk, Eight;
  }

  lemma SignupEnters(db: Market, session: Hash)
    requires session in db.signups && db.signups[session].progress.Staged? && Eight(db.signups[session].progress.codes)
    ensures var (next, reply) := ConfirmStaged(db, session);
            var p := db.signups[session].progress;
            Enters(db, next, reply, p.handle, p.secret, p.codes) && next.requests == db.requests &&
            (reply != Aborted ==>
               next.signups == db.signups[session := db.signups[session].(
                 progress := if reply == Rows([HandleTaken]) then Closed else Completed(db.next.merchant))])
  {
    hide HandleUsed, Collides, HandleHeld, SomeIssued, Joins, AddCodes;
    var p := db.signups[session].progress;
    var (next, reply) := ConfirmStaged(db, session);
    SameNames(db, p.handle, p.codes);
    if HandleHeld(db, p.handle) {
      assert reply.rows == [HandleTaken];
    } else if !SomeIssued(db, p.codes) {
      JoinJoins(db, p.handle, p.secret, p.codes);
      JoinsStill(db, Join(db, p.handle, p.secret, p.codes), next, p.handle, p.secret, p.codes);
    }
  }

  // ----- Exchange -----

  /**
    A code is exchanged exactly while unused and in time, by the client, with the redirect address and for
    the resource it was issued for; that opens one family of thirty days with an access token of ten minutes
    and a refresh token. Anything else changes nothing.
   */
  lemma ExchangesExactly(db: Market, c: nat, client: string, redirect: string, resource: string)
    requires Valid(db)
    ensures var (next, family) := Exchange(db, c, client, redirect, resource);
            var good := c in db.codes && db.codes[c].used.None? && db.codes[c].expires > db.Now() &&
              db.codes[c].grant.client == client && db.codes[c].grant.redirect == redirect &&
              db.codes[c].grant.resource == resource;
            if !good then family == None && next == db
            else
              var (g, h, f, t) := (db.grants, next.grants, db.grants.nextFamily, db.grants.nextToken);
              family == Some(f) && next == db.(codes := db.codes[c := db.codes[c].(used := Some(db.Now()))], grants := h) &&
              h.families == g.families[f := G.Family(db.codes[c].merchant, client, resource, db.codes[c].grant.scope,
                                                     db.Now() + 30 * 24 * 60 * MINUTE, None, db.codes[c].epoch)] &&
              h.tokens.Keys == g.tokens.Keys + {t, t + 1} && (forall u :: u in g.tokens ==> h.tokens[u] == g.tokens[u]) &&
              G.Resolve(h, t, resource, db.codes[c].grant.scope) == Some(db.codes[c].merchant) &&
              h.tokens[t].expires == db.Now() + 10 * MINUTE && h.tokens[t + 1].from == None &&
              G.Classify(h, t + 1, client, resource) == G.Active
  {
    hide Valid, G.RowsValid, G.OpenFamily, G.Resolve, G.Classify;
    NewCode(db);
    OwnsCode(db, c);
    if c in db.codes {
      var code := db.codes[c];
      Opens(db.grants, code.merchant, client, resource, code.grant.scope, code.epoch);
    }
  }

  lemma Opens(g: G.Db, m: nat, client: string, resource: string, scope: string, epoch: nat)
    requires g.nextToken !in g.tokens && g.nextToken + 1 !in g.tokens
    ensures var (h, t) := (G.OpenFamily(g, m, client, resource, scope, epoch), g.nextToken);
            h.now == g.now &&
            h.families ==
              g.families[g.nextFamily := G.Family(m, client, resource, scope, g.now + 30 * 24 * 60 * MINUTE, None, epoch)] &&
            h.tokens.Keys == g.tokens.Keys + {t, t + 1} && (forall u :: u in g.tokens ==> h.tokens[u] == g.tokens[u]) &&
            G.Resolve(h, t, resource, scope) == Some(m) && h.tokens[t].expires == g.now + 10 * MINUTE &&
            h.tokens[t + 1].from == None && G.Classify(h, t + 1, client, resource) == G.Active
  {
  }

  lemma OwnsCode(db: Market, c: nat)
    requires Valid(db)
    ensures c in db.codes ==> db.codes[c].merchant in db.merchants
  {
    hide IdentityOk, SignupsOk, PairingsOk, FamiliesOk, RequestsOk, G.Valid;
  }

  // ----- Pairing -----

  /** A pairing code that is unused, in time and not invalidated. */
  predicate Good(db: Market, p: nat)
  {
    p in db.pairings && db.pairings[p].used.None? && db.pairings[p].invalidated.None? && db.pairings[p].expires > db.Now()
  }

  /** A pairing code is spent exactly while good, and names its merchant; no other row moves. */
  lemma SpendsExactly(db: Market, p: nat)
    ensures SpendPairing(db, p) ==
      if Good(db, p)
      then (db.(pairings := db.pairings[p := db.pairings[p].(used := Some(db.Now()))]), Some(db.pairings[p].merchant))
      else (db, None)
  {
  }

  /**
    A reservation is kept exactly for a good code, lasts as long as the code, and is taken once, with the
    csrf hash it was made with. Other sessions lose theirs only by expiry.
   */
  lemma ReservesAndTakes(db: Market, session: Hash, csrf: Hash, p: nat, csrf': Hash, wait: nat)
    ensures var reserved := Reserve(db, session, csrf, p);
            var late := reserved.(grants := reserved.grants.(now := db.Now() + wait));
            var (taken, code) := Take(late, session, csrf');
            (Good(db, p) ==> code == if csrf' == csrf && db.Now() + wait < db.pairings[p].expires then Some(p) else None) &&
            (code.Some? ==> Take(taken, session, csrf').1 == None) &&
            (code.None? ==> taken == late) && taken == late.(reservations := taken.reservations) &&
            reserved == db.(reservations := reserved.reservations) &&
            (forall s :: s in reserved.reservations && s != session ==> s in taken.reservations) &&
            forall s :: s != session ==>
              (s in reserved.reservations <==> s in db.reservations && db.reservations[s].expires > db.Now()) &&
              (s in reserved.reservations ==> reserved.reservations[s] == db.reservations[s])
  {
  }

  // ----- Cancellation -----

  /** Each cancellation ends exactly what its own session and csrf hash staged, and nothing else. */
  lemma CancelsItsOwn(db: Market, session: Hash, csrf: Hash)
    requires Valid(db)
    ensures CancelRotation(db, session, csrf) ==
      if StagedHere(db, session, csrf)
      then db.(rotations := db.rotations[session := db.rotations[session].(state := Canceled(db.Now()))]) else db
    ensures CancelRequest(db, session, csrf) ==
      if RequestHere(db, session, csrf) && (db.requests[session].progress.Open? || db.requests[session].progress.Staged?)
      then db.(requests := db.requests[session := db.requests[session].(progress := Closed)]) else db
    ensures CancelSignup(db, session, csrf) ==
      if SignupHere(db, session, csrf) && db.signups[session].progress.Staged? && db.signups[session].expires > db.Now()
      then db.(signups := db.signups[session := db.signups[session].(progress := Closed)]) else db
    ensures var next := CancelRecovery(db, session, csrf);
            next == db.(recovery := next.recovery) && next.recovery.Keys == db.recovery.Keys &&
            forall c :: c in db.recovery ==>
              next.recovery[c] == if CodeHere(db, session, csrf, c) then db.recovery[c].(ceremony := None) else db.recovery[c]
  {
    hide Valid, CancelRotation, CancelRequest, CancelSignup, CancelRecovery, StagedHere, RequestHere, SignupHere, CodeHere;
    CancelsRows(db, session, csrf);
    CancelsCodes(db, session, csrf);
  }

  lemma CancelsRows(db: Market, session: Hash, csrf: Hash)
    ensures StagedHere(db, session, csrf) ==> session in db.rotations
    ensures CancelRotation(db, session, csrf) ==
      if StagedHere(db, session, csrf)
      then db.(rotations := db.rotations[session := db.rotations[session].(state := Canceled(db.Now()))]) else db
    ensures RequestHere(db, session, csrf) ==> session in db.requests
    ensures CancelRequest(db, session, csrf) ==
      if RequestHere(db, session, csrf) && (db.requests[session].progress.Open? || db.requests[session].progress.Staged?)
      then db.(requests := db.requests[session := db.requests[session].(progress := Closed)]) else db
    ensures SignupHere(db, session, csrf) ==> session in db.signups
    ensures CancelSignup(db, session, csrf) ==
      if SignupHere(db, session, csrf) && db.signups[session].progress.Staged? && db.signups[session].expires > db.Now()
      then db.(signups := db.signups[session := db.signups[session].(progress := Closed)]) else db
  {
  }

  lemma CancelsCodes(db: Market, session: Hash, csrf: Hash)
    requires Valid(db)
    ensures var next := CancelRecovery(db, session, csrf);
            next == db.(recovery := next.recovery) && next.recovery.Keys == db.recovery.Keys &&
            forall c :: c in db.recovery ==>
              next.recovery[c] == if CodeHere(db, session, csrf, c) then db.recovery[c].(ceremony := None) else db.recovery[c]
  {
    CodesHere(db, session, csrf);
    hide Valid, CodeHere, ActiveRecovery;
    assert forall c :: c in db.recovery ==> (ActiveRecovery(db, session, csrf, c) <==> c in ActiveRecoveries(db, session, csrf));
    hide ActiveRecoveries;
  }

  // ----- Staging a newcomer -----

  /** A staged row that ran out is closed, and nothing else. */
  predicate SameRequest(x: Request, y: Request, now: nat)
  {
    y == x || (x.progress.Staged? && x.expires <= now && y == x.(progress := Closed))
  }

  predicate SameSignup(x: Signup, y: Signup, now: nat)
  {
    y == x || (x.progress.Staged? && x.expires <= now && y == x.(progress := Closed))
  }

  /**
    A sign-in request is opened exactly under a session and a csrf hash no request has, for fifteen minutes; no
    other moves but one that ran out.
   */
  lemma OpensExactly(db: Market, session: Hash, csrf: Hash, grant: Grant)
    ensures var next := CreateRequest(db, session, csrf, grant);
            if session in db.requests || exists s :: s in db.requests && db.requests[s].csrf == csrf then next == db
            else
              next == db.(requests := next.requests, next := db.next.(request := db.next.request + 1)) &&
              next.requests.Keys == db.requests.Keys + {session} &&
              next.requests[session] == Request(db.next.request, csrf, grant, db.Now() + 15 * MINUTE, Open) &&
              forall s :: s in db.requests ==> SameRequest(db.requests[s], next.requests[s], db.Now())
  {
    hide CloseExpiredRequests, SameRequest, RequestTaken;
    RequestTakenIff(db, session, csrf);
    RequestsClose(db);
  }

  lemma RequestTakenIff(db: Market, session: Hash, csrf: Hash)
    ensures RequestTaken(db, session, csrf) <==>
      session in db.requests || exists s :: s in db.requests && db.requests[s].csrf == csrf
  {
  }

  lemma RequestsClose(db: Market)
    ensures CloseExpiredRequests(db).Keys == db.requests.Keys
    ensures forall s :: s in db.requests ==> SameRequest(db.requests[s], CloseExpiredRequests(db)[s], db.Now())
  {
  }

  /** A sign-in is staged for a newcomer exactly while open and in time, with a free handle and eight different codes. */
  lemma StagesNewcomerExactly(db: Market, session: Hash, csrf: Hash, handle: string, secret: Hash, codes: seq<Hash>)
    ensures StageNew(db, session, csrf, handle, secret, codes) ==
            if RequestHere(db, session, csrf) && db.requests[session].progress == Open && !HandleHeld(db, handle) &&
               Distinct8(codes)
            then db.(requests := db.requests[session := db.requests[session].(progress := Staged(handle, secret, codes))]) else db
  {
    hide HandleUsed, HandleHeld, Eight, Distinct8;
    SameNames(db, handle, codes);
    EightDistinct(codes);
  }

  /** Another registration has staged one of these codes. */
  predicate StagedElsewhere(db: Market, codes: seq<Hash>)
  {
    exists s, c :: s in db.signups && c in codes && db.signups[s].progress.Staged? && c in db.signups[s].progress.codes
  }

  /**
    A registration is staged exactly with eight different codes none of which is staged, a free handle, and
    a session and a csrf hash no registration has; it waits fifteen minutes. No other moves but one that ran out.
   */
  lemma StagesSignupExactly(db: Market, session: Hash, csrf: Hash, handle: string, secret: Hash, codes: seq<Hash>)
    ensures var next := StageSignup(db, session, csrf, handle, secret, codes);
            var used := session in db.signups || exists s :: s in db.signups && db.signups[s].csrf == csrf;
            var staged := Distinct8(codes) && !HandleHeld(db, handle) && !used && !StagedElsewhere(db, codes);
            next == db.(signups := next.signups) &&
            next.signups.Keys == db.signups.Keys + (if staged then {session} else {}) &&
            (staged ==> next.signups[session] == Signup(csrf, db.Now() + 15 * MINUTE, Staged(handle, secret, codes))) &&
            forall s :: s in db.signups ==> SameSignup(db.signups[s], next.signups[s], db.Now())
  {
    hide HandleUsed, HandleHeld, Eight, Distinct8, StagedElsewhere, CodePending;
    SameNames(db, handle, codes);
    EightDistinct(codes);
    PendingIff(db, codes);
  }

  lemma PendingIff(db: Market, codes: seq<Hash>)
    ensures CodePending(db, codes) <==> StagedElsewhere(db, codes)
  {
  }

  /** A pairing code is made for ten minutes, and of the others only expired ones go. */
  lemma MakesPairingCode(db: Market, m: nat)
    requires Valid(db)
    ensures var next := CreatePairing(db, m);
            if m !in db.merchants then next == db
            else
              next == db.(pairings := next.pairings, next := db.next.(pairing := db.next.pairing + 1)) &&
              db.next.pairing in next.pairings && db.next.pairing !in db.pairings &&
              next.pairings[db.next.pairing] == Pairing(m, db.Now() + 10 * MINUTE, None, None, db.merchants[m].keyChanges) &&
              forall p :: p != db.next.pairing ==>
                (p in next.pairings <==> p in db.pairings && db.pairings[p].expires > db.Now()) &&
                (p in next.pairings ==> next.pairings[p] == db.pairings[p])
  {
    NewCode(db);
    hide Valid;
  }
}
