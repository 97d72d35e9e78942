/**
  Pairing across its statements. Minting authenticates and then inserts; redemption spends the code
  and then reads the merchant's key; approval comes after that. Other statements may run in between.
 */
module MarketPairing {
  import opened Tables
  import opened Market
  import opened MarketIdentity
  import opened MarketIdentityLaws
  import opened MarketSignIn
  import opened MarketSignInLaws
  import opened MarketOnward
  import opened MarketRuns
  import opened MarketTheorems
  import opened MarketKeys
  import G = Grants
  import R = GrantRuns

  // ----- From authentication to the key that redemption reads -----

  /** Everything from authentication to the read: what ran before the code's insertion, before its use and after it. */
  function Life(minting: seq<Event>, m: nat, waiting: seq<Event>, p: nat, reading: seq<Event>): seq<Event>
  {
    minting + [OnSignIn(PairingCreated(m))] + waiting + [OnSignIn(PairingSpent(p))] + reading
  }

  lemma {:induction false} RunLife(db: Market, minting: seq<Event>, m: nat, waiting: seq<Event>, p: nat, reading: seq<Event>)
    ensures Run(db, Life(minting, m, waiting, p, reading)) ==
      Run(SpendPairing(Run(CreatePairing(Run(db, minting), m), waiting), p).0, reading)
  {
    hide CreatePairing, SpendPairing;
    var insert, spend := [OnSignIn(PairingCreated(m))], [OnSignIn(PairingSpent(p))];
    RunConcat(db, minting + insert + waiting + spend, reading);
    RunConcat(db, minting + insert + waiting, spend);
    RunConcat(db, minting + insert, waiting);
    RunConcat(db, minting, insert);
    RunOne(Run(db, minting), PairingCreated(m));
    RunOne(Run(db, minting + insert + waiting), PairingSpent(p));
  }

  lemma RunOne(db: Market, e: SignInStep)
    ensures Run(db, [OnSignIn(e)]) == ApplySignIn(db, e)
  {
    hide ApplySignIn;
    assert Run(Apply(db, OnSignIn(e)), [OnSignIn(e)][1..]) == Apply(db, OnSignIn(e));
  }

  /**
    A key that proved merchant `m` minted the code. If the code is spent, it names `m`, and the key had
    not changed between insertion and use. The key then read is the key that minted the code if and
    only if no key change was committed between authentication and insertion, nor between use and read.
   */
  lemma RedeemsMintingKeyExactly(db: Market, seen: set<Hash>, m: nat, k: Hash,
                                 minting: seq<Event>, waiting: seq<Event>, reading: seq<Event>)
    requires Valid(db) && KeysDistinct(db, seen) && m in Holders(db, k)
    requires FreshRun(seen, Life(minting, m, waiting, Run(db, minting).next.pairing, reading))
    requires var before := Run(db, minting); SpendPairing(Run(CreatePairing(before, m), waiting), before.next.pairing).1.Some?
    ensures var before := Run(db, minting);
            var at := Run(CreatePairing(before, m), waiting);
            var (spent, merchant) := SpendPairing(at, before.next.pairing);
            var late := Run(spent, reading);
            merchant == Some(m) && !KeyChanged(before, at, m) && ReadKey(late, m).Some? &&
            (ReadKey(late, m) == Some(k) <==> !KeyChanged(db, before, m) && !KeyChanged(spent, late, m))
  {
    hide Valid, KeysDistinct, FreshRun, Run, Life, Onward, SpendPairing, CreatePairing;
    var before := Run(db, minting);
    var p := before.next.pairing;
    var at := Run(CreatePairing(before, m), waiting);
    var spent := SpendPairing(at, p).0;
    var late := Run(spent, reading);
    HolderStays(db, minting, m, k);
    PairsOnce(before, m, waiting, []);
    CreatePairingValid(before, m);
    RunKeeps(CreatePairing(before, m), waiting);
    StillThere(at, p, reading, m);
    RunLife(db, minting, m, waiting, p, reading);
    KeyProvesUntilChanged(db, Life(minting, m, waiting, p, reading), seen, m, k);
    assert ReadKey(late, m) == Some(k) <==> m in Holders(late, k);
  }

  lemma HolderStays(db: Market, es: seq<Event>, m: nat, k: Hash)
    requires Valid(db) && m in Holders(db, k)
    ensures Valid(Run(db, es)) && m in Run(db, es).merchants && m in db.merchants
    ensures db.merchants[m].keyChanges <= Run(db, es).merchants[m].keyChanges
  {
    RunKeeps(db, es);
    hide Run, Valid;
    MerchantKept(db, Run(db, es), m);
  }

  /** Spending a code changes no merchant, and merchants stay. */
  lemma StillThere(db: Market, p: nat, es: seq<Event>, m: nat)
    requires Valid(db) && m in db.merchants
    ensures var spent := SpendPairing(db, p).0;
            spent.merchants == db.merchants && m in Run(spent, es).merchants &&
            spent.merchants[m].keyChanges <= Run(spent, es).merchants[m].keyChanges
  {
    hide Run, Valid, Onward, SpendPairing;
    var spent := SpendPairing(db, p).0;
    SpendPairingValid(db, p);
    SpentMerchants(db, p);
    RunKeeps(spent, es);
    MerchantKept(spent, Run(spent, es), m);
  }

  lemma SpentMerchants(db: Market, p: nat)
    ensures SpendPairing(db, p).0.merchants == db.merchants
  {
    hide Redeemable;
  }

  // ----- What an approval through a pairing code guarantees -----

  /** An approval with the key of `m` is for `m`, whose key has not changed since it was read. */
  lemma ReadKeyApproves(db: Market, seen: set<Hash>, m: nat, k: Hash, es: seq<Event>, session: Hash, csrf: Hash, n: nat)
    requires Valid(db) && KeysDistinct(db, seen) && FreshRun(seen, es) && ReadKey(db, m) == Some(k)
    requires Approve(Run(db, es), session, csrf, k).1 == Rows([Approved(n)])
    ensures n == m && !KeyChanged(db, Run(db, es), m) && ReadKey(Run(db, es), m) == Some(k)
  {
    var late := Run(db, es);
    assert m in Holders(db, k);
    KeyProvesUntilChanged(db, es, seen, m, k);
    hide Valid, KeysDistinct, FreshRun, Run;
    ApprovedHolds(late, session, csrf, k, n);
    assert m in Holders(late, k);
  }

  /**
    What an approval through a pairing code guarantees, whatever runs between any two of its statements.
    It is for the merchant that authenticated, under that merchant's present key; and this is the key
    that authenticated, unless a key change was committed in one of the two gaps that
    `RedeemsMintingKeyExactly` names. In the two other gaps a key change stops the approval.
   */
  lemma PairedApproval(db: Market, seen: set<Hash>, m: nat, k: Hash, minting: seq<Event>, waiting: seq<Event>,
                       reading: seq<Event>, approving: seq<Event>, session: Hash, csrf: Hash, n: nat)
    requires Valid(db) && KeysDistinct(db, seen) && m in Holders(db, k)
    requires FreshRun(seen, Life(minting, m, waiting, Run(db, minting).next.pairing, reading) + approving)
    requires var before := Run(db, minting);
             var at := Run(CreatePairing(before, m), waiting);
             var (spent, merchant) := SpendPairing(at, before.next.pairing);
             var late := Run(spent, reading);
             merchant.Some? && ReadKey(late, merchant.value).Some? &&
             Approve(Run(late, approving), session, csrf, ReadKey(late, merchant.value).value).1 == Rows([Approved(n)])
    ensures var before := Run(db, minting);
            var at := Run(CreatePairing(before, m), waiting);
            var spent := SpendPairing(at, before.next.pairing).0;
            var late := Run(spent, reading);
            var approved := Run(late, approving);
            n == m && !KeyChanged(before, at, m) && !KeyChanged(late, approved, m) && ReadKey(approved, m).Some? &&
            (ReadKey(approved, m) == Some(k) <==> !KeyChanged(db, before, m) && !KeyChanged(spent, late, m))
  {
    var before := Run(db, minting);
    var life := Life(minting, m, waiting, before.next.pairing, reading);
    FreshConcat(seen, life, approving);
    RunLife(db, minting, m, waiting, before.next.pairing, reading);
    RunDistinct(db, life, seen);
    RunKeeps(db, life);
    hide Valid, KeysDistinct, FreshRun, Run, Life, Onward, SpendPairing, CreatePairing, Approve, Holders;
    RedeemsMintingKeyExactly(db, seen, m, k, minting, waiting, reading);
    var late := Run(db, life);
    ReadKeyApproves(late, seen + Keys(life), m, ReadKey(late, m).value, approving, session, csrf, n);
  }

  lemma ApprovedHolds(db: Market, session: Hash, csrf: Hash, k: Hash, n: nat)
    requires Approve(db, session, csrf, k).1 == Rows([Approved(n)])
    ensures n in Holders(db, k)
  {
    assert Approve(db, session, csrf, k).1.rows[0] == Approved(n);
  }

  // ----- The gap is real -----

  /**
    The losing order. A code is spent; a rotation of its merchant then commits, and does not touch the
    spent code; the read hands out the new key; and the approval is granted under it.
   */
  lemma ChangeSlipsBetween(db: Market, p: nat, session: Hash, csrf: Hash, replacement: Hash, won: set<Hash>,
                           request: Hash, token: Hash)
    requires Valid(db) && Redeemable(db, p) && EligibleRotation(db, session, csrf, replacement)
    requires var m := db.pairings[p].merchant; db.rotations[session].merchant == m && !Limited(db, m)
    requires Holders(db, replacement) == {} && OpenRequest(db, request, token)
    ensures var m := db.pairings[p].merchant;
            var spent := SpendPairing(db, p).0;
            var (changed, reply) := ConfirmRotation(spent, session, csrf, replacement, won);
            reply == Rows([Approved(m)]) && KeyChanged(spent, changed, m) && ReadKey(changed, m) == Some(replacement) &&
            Approve(changed, request, token, replacement).1 == Rows([Approved(m)])
  {
    var m, spent := db.pairings[p].merchant, SpendPairing(db, p).0;
    SpentSame(db, p, session, csrf, replacement, request, token);
    hide Valid, SpendPairing, Redeemable, EligibleRotation, Limited, OpenRequest;
    RotationGoesThrough(spent, session, csrf, replacement, won);
    var changed := ConfirmRotation(spent, session, csrf, replacement, won).0;
    hide ConfirmRotation;
    OnlyHolder(spent, changed, m, replacement);
    HolderAnswers(changed, request, token, replacement);
    assert m in Holders(changed, replacement);
    StillOpen(spent, changed, request, token);
  }

  lemma SpentSame(db: Market, p: nat, session: Hash, csrf: Hash, replacement: Hash, request: Hash, token: Hash)
    ensures var spent := SpendPairing(db, p).0;
            spent.merchants == db.merchants && spent.rotations == db.rotations && spent.requests == db.requests &&
            spent.grants == db.grants &&
            EligibleRotation(spent, session, csrf, replacement) == EligibleRotation(db, session, csrf, replacement) &&
            (forall m :: Limited(spent, m) == Limited(db, m)) && Holders(spent, replacement) == Holders(db, replacement) &&
            OpenRequest(spent, request, token) == OpenRequest(db, request, token)
  {
    var spent := SpendPairing(db, p).0;
    assert forall m, d :: ConfirmedSince(spent, m, d) == ConfirmedSince(db, m, d);
  }

  lemma RotationGoesThrough(db: Market, session: Hash, csrf: Hash, replacement: Hash, won: set<Hash>)
    requires EligibleRotation(db, session, csrf, replacement) && !Limited(db, db.rotations[session].merchant)
    ensures var m := db.rotations[session].merchant;
            var (next, reply) := ConfirmRotation(db, session, csrf, replacement, won);
            reply == Rows([Approved(m)]) && KeyChanged(db, next, m) && next.merchants[m].secret == replacement &&
            (forall n :: n in next.merchants && n != m ==> n in db.merchants && next.merchants[n] == db.merchants[n]) &&
            next.requests == db.requests && next.next == db.next && next.Now() == db.Now()
  {
    hide Limited, SettleRotations, ClearLapsed, DropCodes, DropPairings, SpendCodes;
    var rows := ConfirmRotation(db, session, csrf, replacement, won).1.rows;
    assert rows == [Approved(db.rotations[session].merchant)];
  }

  lemma OnlyHolder(a: Market, b: Market, m: nat, k: Hash)
    requires Holders(a, k) == {} && m in b.merchants && b.merchants[m].secret == k
    requires forall n :: n in b.merchants && n != m ==> n in a.merchants && b.merchants[n] == a.merchants[n]
    ensures Holders(b, k) == {m}
  {
    forall n | n in Holders(b, k) ensures n == m { assert n != m ==> n in Holders(a, k); }
  }

  lemma StillOpen(a: Market, b: Market, request: Hash, token: Hash)
    requires OpenRequest(a, request, token) && b.requests == a.requests && b.Now() == a.Now()
    ensures OpenRequest(b, request, token)
  {
  }
}
