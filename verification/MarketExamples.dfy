/** Runs from the empty tables that show where a condition of a theorem is needed. */
module MarketExamples {
  import opened Tables
  import opened Market
  import opened MarketIdentity
  import opened MarketIdentityLaws
  import opened MarketSignIn
  import opened MarketSignInLaws
  import opened MarketOnward
  import opened MarketRuns
  import opened MarketKeys
  import opened MarketPairing
  import G = Grants

  /** Eight code hashes. */
  function CodesFrom(n: nat): seq<Hash> { seq(CODE_SET, i => n + i) }

  const CODES: seq<Hash> := CodesFrom(10)
  const MORE_CODES: seq<Hash> := CodesFrom(20)
  const GRANT: Grant := Grant("client", "redirect", "resource", "scope")

  function Joining(session: Hash, csrf: Hash, handle: string, secret: Hash, codes: seq<Hash>): seq<Event>
  {
    [OnIdentity(SignupStaged(session, csrf, handle, secret, codes)), OnIdentity(SignupConfirmed(session, csrf, secret))]
  }

  lemma {:induction false} DistinctSize(codes: seq<Hash>)
    requires forall i, j :: 0 <= i < j < |codes| ==> codes[i] != codes[j]
    ensures |ToSet(codes)| == |codes|
    decreases |codes|
  {
    if codes != [] {
      var last, front := codes[|codes| - 1], codes[..|codes| - 1];
      DistinctSize(front);
      assert ToSet(codes) == ToSet(front) + {last} && last !in ToSet(front);
    }
  }

  lemma EightCodes(n: nat)
    ensures Eight(CodesFrom(n))
  {
    DistinctSize(CodesFrom(n));
  }

  lemma RunTwo(db: Market, e: Event, f: Event)
    ensures Run(db, [e, f]) == Apply(Apply(db, e), f)
  {
    hide Apply;
    assert [e, f][1..] == [f] && [f][1..] == [];
    assert Run(Apply(db, e), [f]) == Run(Apply(Apply(db, e), f), []);
  }

  lemma RunLast(db: Market, es: seq<Event>, e: Event)
    ensures Run(db, es + [e]) == Apply(Run(db, es), e)
  {
    hide Apply;
    RunConcat(db, es, [e]);
    assert [e][1..] == [];
    assert Run(Run(db, es), [e]) == Run(Apply(Run(db, es), e), []);
  }

  /** A registration that nothing stands against makes its merchant. */
  lemma Joins(db: Market, session: Hash, csrf: Hash, handle: string, secret: Hash, codes: seq<Hash>)
    requires Valid(db) && Eight(codes) && !HandleUsed(db, handle) && !SignupTaken(db, session, csrf)
    requires !CodePending(db, codes) && !Collides(db, codes)
    ensures var next := Run(db, Joining(session, csrf, handle, secret, codes));
            next == Join(db, handle, secret, codes).(
              signups := CloseExpired(db)[session := Signup(csrf, db.Now() + CEREMONY, Completed(db.next.merchant))])
  {
    hide Run, Valid, Eight, HandleUsed, SignupTaken, CodePending, Collides, Join, CloseExpired, StageSignup, ConfirmSignup,
      EligibleSignup, Joining;
    RunsJoining(db, session, csrf, handle, secret, codes);
    StagesOpen(db, session, csrf, handle, secret, codes);
    var staged := StageSignup(db, session, csrf, handle, secret, codes);
    SignupsAside(db, staged.signups, handle, secret, codes);
    Confirms(staged, session, csrf, secret);
  }

  lemma RunsJoining(db: Market, session: Hash, csrf: Hash, handle: string, secret: Hash, codes: seq<Hash>)
    ensures Run(db, Joining(session, csrf, handle, secret, codes)) ==
      ConfirmSignup(StageSignup(db, session, csrf, handle, secret, codes), session, csrf, secret).0
  {
    hide Run, StageSignup, ConfirmSignup;
    RunTwo(db, OnIdentity(SignupStaged(session, csrf, handle, secret, codes)), OnIdentity(SignupConfirmed(session, csrf, secret)));
  }

  lemma StagesOpen(db: Market, session: Hash, csrf: Hash, handle: string, secret: Hash, codes: seq<Hash>)
    requires Eight(codes) && !HandleUsed(db, handle) && !SignupTaken(db, session, csrf) && !CodePending(db, codes)
    ensures var staged := StageSignup(db, session, csrf, handle, secret, codes);
            staged == db.(signups := CloseExpired(db)[session := Signup(csrf, db.Now() + CEREMONY, Staged(handle, secret, codes))]) &&
            EligibleSignup(staged, session, csrf, secret)
  {
    hide Eight, HandleUsed, SignupTaken, CodePending, CloseExpired;
  }

  lemma SignupsAside(db: Market, signups: map<Hash, Signup>, handle: string, secret: Hash, codes: seq<Hash>)
    ensures var other := db.(signups := signups);
            HandleUsed(other, handle) == HandleUsed(db, handle) && Collides(other, codes) == Collides(db, codes) &&
            Join(other, handle, secret, codes) == Join(db, handle, secret, codes).(signups := signups)
  {
  }

  lemma Confirms(db: Market, session: Hash, csrf: Hash, secret: Hash)
    requires EligibleSignup(db, session, csrf, secret)
    requires var p := db.signups[session].progress; Eight(p.codes) && !HandleUsed(db, p.handle) && !Collides(db, p.codes)
    ensures var p := db.signups[session].progress;
            ConfirmSignup(db, session, csrf, secret).0 ==
              FinishSignup(Join(db, p.handle, p.secret, p.codes), session, Completed(db.next.merchant))
  {
    hide Join, Eight, HandleUsed, Collides;
  }

  lemma RoomAtFirst(codes: seq<Hash>)
    ensures !HandleUsed(EMPTY, "ann") && !SignupTaken(EMPTY, 1, 2) && !CodePending(EMPTY, codes) && !Collides(EMPTY, codes)
    ensures CloseExpired(EMPTY) == map[]
  {
  }

  lemma FirstJoin(codes: seq<Hash>)
    ensures var next := Join(EMPTY, "ann", 7, codes);
            next == EMPTY.(merchants := map[0 := Merchant("ann", 7, 1, 0)], recovery := next.recovery, next := Serials(1, 0, 0, 0)) &&
            next.recovery.Keys == ToSet(codes)
  {
  }

  /** One merchant, under key 7. */
  lemma OneMerchant(codes: seq<Hash>)
    requires Eight(codes)
    ensures var one := Run(EMPTY, Joining(1, 2, "ann", 7, codes));
            one == EMPTY.(merchants := map[0 := Merchant("ann", 7, 1, 0)], recovery := one.recovery,
                          signups := map[1 := Signup(2, CEREMONY, Completed(0))], next := Serials(1, 0, 0, 0)) &&
            one.recovery.Keys == ToSet(codes)
  {
    EmptyValid();
    RoomAtFirst(codes);
    FirstJoin(codes);
    hide Valid, Eight, ToSet, Run, Join, HandleUsed, SignupTaken, CodePending, Collides, CloseExpired, Joining;
    Joins(EMPTY, 1, 2, "ann", 7, codes);
  }

  // ----- A key that is staged twice -----

  const REPEATED: seq<Event> :=
    Joining(1, 2, "ann", 7, CODES) + Joining(3, 4, "bob", 7, MORE_CODES) + [OnSignIn(RequestCreated(5, 6, GRANT))]

  /** If the same key were made twice, an approval under it would find two holders and answer with no row. */
  lemma RepeatedKeyNoRows()
    ensures !FreshRun({}, REPEATED)
    ensures Approve(Run(EMPTY, REPEATED), 5, 6, 7).1 == Rows([])
  {
    hide FreshRun, Run, Joining, Apply, Approve;
    NotFresh();
    TwoMerchants();
    var two := Run(EMPTY, Joining(1, 2, "ann", 7, CODES) + Joining(3, 4, "bob", 7, MORE_CODES));
    RunLast(EMPTY, Joining(1, 2, "ann", 7, CODES) + Joining(3, 4, "bob", 7, MORE_CODES), OnSignIn(RequestCreated(5, 6, GRANT)));
    AppliesRequest(two);
    TwoHolders(two);
  }

  lemma AppliesRequest(db: Market)
    ensures Apply(db, OnSignIn(RequestCreated(5, 6, GRANT))) == CreateRequest(db, 5, 6, GRANT)
  {
    hide CreateRequest;
  }

  lemma TwoHolders(db: Market)
    requires db.merchants == map[0 := Merchant("ann", 7, 1, 0), 1 := Merchant("bob", 7, 1, 0)] && db.requests == map[] && db.Now() == 0
    ensures Approve(CreateRequest(db, 5, 6, GRANT), 5, 6, 7).1 == Rows([])
  {
    var late := CreateRequest(db, 5, 6, GRANT);
    assert OpenRequest(late, 5, 6);
    assert Holders(late, 7) == {0, 1};
    ApproveOneRow(late, 5, 6, 7);
    hide Approve;
    assert Approve(late, 5, 6, 7).1.rows == [];
  }

  lemma NotFresh()
    ensures !FreshRun({}, REPEATED)
  {
    var first, second := Joining(1, 2, "ann", 7, CODES), Joining(3, 4, "bob", 7, MORE_CODES);
    assert NewKey(first[0]) == Some(7) && NewKey(second[0]) == Some(7);
    assert 7 in Keys(first);
    if FreshRun({}, REPEATED) {
      FreshConcat({}, first + second, [OnSignIn(RequestCreated(5, 6, GRANT))]);
      FreshConcat({}, first, second);
    }
  }

  lemma TwoMerchants()
    ensures var two := Run(EMPTY, Joining(1, 2, "ann", 7, CODES) + Joining(3, 4, "bob", 7, MORE_CODES));
            two.merchants == map[0 := Merchant("ann", 7, 1, 0), 1 := Merchant("bob", 7, 1, 0)] && two.requests == map[] && two.Now() == 0
  {
    var one := Run(EMPTY, Joining(1, 2, "ann", 7, CODES));
    EightCodes(10);
    OneMerchant(CODES);
    EmptyValid();
    RunKeeps(EMPTY, Joining(1, 2, "ann", 7, CODES));
    EightCodes(20);
    RunConcat(EMPTY, Joining(1, 2, "ann", 7, CODES), Joining(3, 4, "bob", 7, MORE_CODES));
    hide Run, Valid, Onward;
    RoomForMore(one);
    hide Collides, CodePending, SignupTaken, HandleUsed, Eight, AddCodes, CodesFrom;
    Joins(one, 3, 4, "bob", 7, MORE_CODES);
  }

  lemma RoomForMore(one: Market)
    requires one.merchants == map[0 := Merchant("ann", 7, 1, 0)] && one.recovery.Keys == ToSet(CODES)
    requires one.signups == map[1 := Signup(2, CEREMONY, Completed(0))]
    ensures !Collides(one, MORE_CODES) && !CodePending(one, MORE_CODES) && !SignupTaken(one, 3, 4) && !HandleUsed(one, "bob")
  {
    forall c | c in MORE_CODES ensures c !in one.recovery { assert c !in ToSet(CODES); }
  }

  // ----- A key change in either gap of a pairing -----

  const REQUEST: Event := OnSignIn(RequestCreated(3, 4, GRANT))
  const STAGE: Event := OnIdentity(RotationStaged(5, 6, 7, 8, 0))

  /** A merchant under key 7, an open sign-in request, and a rotation from 7 to 8 staged in time. */
  const READY: seq<Event> := Joining(1, 2, "ann", 7, CODES) + [REQUEST, STAGE]

  ghost predicate IsReady(db: Market)
  {
    db.merchants == map[0 := Merchant("ann", 7, 1, 0)] && db.Now() == 0 && OpenRequest(db, 3, 4) &&
    db.rotations == map[5 := KeyRotation(0, 1, 6, CEREMONY, Pending(7, 8))]
  }

  lemma ReadyReached()
    ensures var ready := Run(EMPTY, READY); Valid(ready) && IsReady(ready) && ready.next.pairing == 0
  {
    EmptyValid();
    RunKeeps(EMPTY, READY);
    EightCodes(10);
    hide Run, Valid, Onward, Eight, IsReady, Joining, Apply;
    OneMerchant(CODES);
    RunConcat(EMPTY, Joining(1, 2, "ann", 7, CODES), [REQUEST, STAGE]);
    MadeReady(Run(EMPTY, Joining(1, 2, "ann", 7, CODES)));
  }

  lemma MadeReady(db: Market)
    requires db.merchants == map[0 := Merchant("ann", 7, 1, 0)] && db.rotations == map[] && db.requests == map[] && db.Now() == 0
    ensures var next := Run(db, [REQUEST, STAGE]); IsReady(next) && next.next.pairing == db.next.pairing
  {
    RunTwo(db, REQUEST, STAGE);
    hide Run, IsReady, CreateRequest, StageRotation;
    Requested(db);
    StagedOver(CreateRequest(db, 3, 4, GRANT));
  }

  lemma Requested(db: Market)
    requires db.requests == map[] && db.Now() == 0
    ensures var next := CreateRequest(db, 3, 4, GRANT);
            OpenRequest(next, 3, 4) && next.merchants == db.merchants && next.rotations == db.rotations && next.Now() == 0 &&
            next.next.pairing == db.next.pairing
  {
  }

  lemma StagedOver(db: Market)
    requires db.merchants == map[0 := Merchant("ann", 7, 1, 0)] && db.rotations == map[] && db.Now() == 0
    requires OpenRequest(db, 3, 4)
    ensures var next := StageRotation(db, 5, 6, 7, 8, 0).0; IsReady(next) && next.next == db.next
  {
    assert ClearLapsed(db) == map[];
    assert 0 in Holders(db, 7);
    hide Holders, ClearLapsed;
  }

  /** What a ready state allows. */
  lemma ReadyToRotate(db: Market)
    requires IsReady(db)
    ensures EligibleRotation(db, 5, 6, 8) && db.rotations[5].merchant == 0 && !Limited(db, 0) && Holders(db, 8) == {}
    ensures 0 in Holders(db, 7) && ReadKey(db, 0) == Some(7) && OpenRequest(db, 3, 4)
  {
    assert ConfirmedSince(db, 0, DayStart(0)) == {};
  }

  /** A code is inserted under key 7 and spent; the merchant rotates to key 8; then the read hands out 8. */
  lemma SlipsAfterUse()
    ensures var inserted := CreatePairing(Run(EMPTY, READY), 0);
            var (spent, merchant) := SpendPairing(inserted, 0);
            var late := ConfirmRotation(spent, 5, 6, 8, {}).0;
            ReadKey(inserted, 0) == Some(7) && merchant == Some(0) &&
            ReadKey(late, 0) == Some(8) && Approve(late, 3, 4, 8).1 == Rows([Approved(0)])
  {
    hide Run, Valid, IsReady, EligibleRotation, Approve, ConfirmRotation;
    ReadyReached();
    var ready := Run(EMPTY, READY);
    CreatePairingValid(ready, 0);
    Inserted(ready);
    ReadyToRotate(CreatePairing(ready, 0));
    hide CreatePairing;
    ChangeSlipsBetween(CreatePairing(ready, 0), 0, 5, 6, 8, {}, 3, 4);
  }

  lemma Inserted(db: Market)
    requires IsReady(db) && db.next.pairing == 0
    ensures var next := CreatePairing(db, 0); IsReady(next) && Redeemable(next, 0) && next.pairings[0].merchant == 0
  {
  }

  /** The merchant authenticates with key 7, rotates to 8, and only then is its code inserted: it hands out 8. */
  lemma SlipsBeforeInsertion()
    ensures var ready := Run(EMPTY, READY);
            var inserted := CreatePairing(ConfirmRotation(ready, 5, 6, 8, {}).0, 0);
            var (late, merchant) := SpendPairing(inserted, 0);
            0 in Holders(ready, 7) && merchant == Some(0) && ReadKey(late, 0) == Some(8) &&
            Approve(late, 3, 4, 8).1 == Rows([Approved(0)])
  {
    hide Run, Valid, IsReady, EligibleRotation, Limited, Approve, ConfirmRotation, Holders;
    ReadyReached();
    var ready := Run(EMPTY, READY);
    ReadyToRotate(ready);
    RotationGoesThrough(ready, 5, 6, 8, {});
    var rotated := ConfirmRotation(ready, 5, 6, 8, {}).0;
    OnlyHolder(ready, rotated, 0, 8);
    InsertedAndSpent(rotated);
    var late := SpendPairing(CreatePairing(rotated, 0), 0).0;
    StillOpen(ready, late, 3, 4);
    HolderAnswers(late, 3, 4, 8);
  }

  lemma InsertedAndSpent(db: Market)
    requires 0 in db.merchants && db.merchants[0].secret == 8 && db.next.pairing == 0 && Holders(db, 8) == {0}
    ensures var (late, merchant) := SpendPairing(CreatePairing(db, 0), 0);
            merchant == Some(0) && ReadKey(late, 0) == Some(8) && Holders(late, 8) == {0} &&
            late.requests == db.requests && late.Now() == db.Now()
  {
    assert SpendPairing(CreatePairing(db, 0), 0).0.merchants == db.merchants;
  }
}
