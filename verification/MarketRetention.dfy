/** How much one pruning of codes and sign-in requests takes, and in which order. */
module MarketRetention {
  import opened Tables
  import opened Market
  import opened MarketIdentity
  import opened MarketSignIn
  import opened MarketRuns
  import opened MarketIsolation
  import R = GrantRuns
  import G = Grants

  // ----- The primary key of the requests -----

  ghost predicate RequestIds(db: Market)
  {
    (forall s :: s in db.requests ==> db.requests[s].id < db.next.request) &&
    forall s, t :: s in db.requests && t in db.requests && db.requests[s].id == db.requests[t].id ==> s == t
  }

  /** Requests keep their ids, and at most one is new, with the next one. */
  ghost predicate IdsKept(a: Market, b: Market)
  {
    a.next.request <= b.next.request <= a.next.request + 1 &&
    (forall s :: s in b.requests && s in a.requests ==> b.requests[s].id == a.requests[s].id) &&
    (forall s :: s in b.requests && s !in a.requests ==> b.requests[s].id == a.next.request < b.next.request) &&
    forall s, t :: s in b.requests && t in b.requests && s !in a.requests && t !in a.requests ==> s == t
  }

  lemma KeptIds(a: Market, b: Market)
    requires RequestIds(a) && IdsKept(a, b)
    ensures RequestIds(b)
  {
  }

  lemma SameIds(a: Market, b: Market)
    requires b.requests == a.requests && b.next.request == a.next.request
    ensures IdsKept(a, b)
  {
  }

  lemma ConfirmRecoveryIds(db: Market, session: Hash, csrf: Hash, replacement: Hash)
    ensures var next := ConfirmRecovery(db, session, csrf, replacement).0;
            next.requests == db.requests && next.next.request == db.next.request
  {
    hide DropCodes, DropRotations, DropPairings, SpendCodes, G.RevokeMerchant;
  }

  lemma ConfirmRotationIds(db: Market, session: Hash, csrf: Hash, replacement: Hash, won: set<Hash>)
    ensures var next := ConfirmRotation(db, session, csrf, replacement, won).0;
            next.requests == db.requests && next.next.request == db.next.request
  {
    hide DropCodes, SettleRotations, ClearLapsed, Limited, DropPairings, SpendCodes, G.RevokeMerchant;
  }

  lemma ConfirmStagedIds(db: Market, session: Hash)
    requires session in db.signups && db.signups[session].progress.Staged?
    ensures var next := ConfirmStaged(db, session).0; next.requests == db.requests && next.next.request == db.next.request
  {
    hide AddCodes, HandleUsed, Eight, Collides;
  }

  lemma ConfirmSignupIds(db: Market, session: Hash, csrf: Hash, secret: Hash)
    ensures var next := ConfirmSignup(db, session, csrf, secret).0;
            next.requests == db.requests && next.next.request == db.next.request
  {
    hide ConfirmStaged;
    if EligibleSignup(db, session, csrf, secret) { ConfirmStagedIds(db, session); }
  }

  lemma IdentityIds(db: Market, e: IdentityStep)
    ensures IdsKept(db, ApplyIdentity(db, e))
  {
    hide IdsKept, SignupsStaged, RotationsStaged, CodesStaged, ActiveRecovery, ConfirmSignup, ConfirmRotation, ConfirmRecovery,
      Eight, Collides, DropCodes, AddCodes, DropRotations;
    match e {
      case SignupConfirmed(s, x, k) => ConfirmSignupIds(db, s, x, k);
      case RotationConfirmed(s, x, next, won) => ConfirmRotationIds(db, s, x, next, won);
      case RecoveryConfirmed(s, x, next) => ConfirmRecoveryIds(db, s, x, next);
      case _ =>
    }
    SameIds(db, ApplyIdentity(db, e));
  }

  lemma ProgressIds(db: Market, session: Hash, to: Progress)
    requires session in db.requests
    ensures IdsKept(db, Progressed(db, session, to))
  {
  }

  lemma CreateIds(db: Market, session: Hash, csrf: Hash, grant: Grant)
    ensures IdsKept(db, CreateRequest(db, session, csrf, grant))
  {
  }

  lemma StageIds(db: Market, session: Hash, csrf: Hash, handle: string, secret: Hash, codes: seq<Hash>)
    ensures IdsKept(db, CancelRequest(db, session, csrf)) && IdsKept(db, StageNew(db, session, csrf, handle, secret, codes))
  {
    hide IdsKept, Progressed, Eight, HandleUsed;
    SameIds(db, db);
    if session in db.requests {
      ProgressIds(db, session, Closed);
      ProgressIds(db, session, Staged(handle, secret, codes));
    }
  }

  /** The same requests but for their progress. */
  lemma AlsoIds(a: Market, b: Market, c: Market)
    requires IdsKept(a, b) && c.requests == b.requests && c.next.request == b.next.request
    ensures IdsKept(a, c)
  {
  }

  lemma IssueIds(db: Market, from: Market, session: Hash, m: nat)
    requires session in db.requests && from.requests == db.requests && from.next.request == db.next.request && m in from.merchants
    ensures IdsKept(db, Issue(from, session, m))
  {
    hide IdsKept;
    ProgressIds(db, session, Completed(m));
    AlsoIds(db, Progressed(db, session, Completed(m)), Issue(from, session, m));
  }

  lemma ApproveIds(db: Market, session: Hash, csrf: Hash, secret: Hash)
    ensures IdsKept(db, Approve(db, session, csrf, secret).0) && IdsKept(db, ConfirmNew(db, session, csrf, secret).0)
  {
    hide IdsKept, Eight, HandleUsed, Collides, AddCodes, Progressed, Issue;
    SameIds(db, db);
    if session in db.requests {
      ProgressIds(db, session, Closed);
      forall m | m in db.merchants ensures IdsKept(db, Issue(db, session, m)) { IssueIds(db, db, session, m); }
      if db.requests[session].progress.Staged? {
        var p := db.requests[session].progress;
        IssueIds(db, Join(db, p.handle, p.secret, p.codes), session, db.next.merchant);
      }
    }
  }

  lemma PruneIds(db: Market)
    ensures IdsKept(db, PruneAll(db))
  {
    hide RetiredCodes, RetiredRequests, G.Prune;
  }

  lemma OtherIds(db: Market, e: SignInStep)
    requires !e.RequestCreated? && !e.RequestCanceled? && !e.MerchantApproved? && !e.NewStaged? && !e.NewConfirmed? && !e.Pruned?
    ensures ApplySignIn(db, e).requests == db.requests && ApplySignIn(db, e).next.request == db.next.request
  {
    hide G.OpenFamily, PairingsLeft, Reserved, R.Apply, Redeemable, Exchangeable;
  }

  lemma SignInIds(db: Market, e: SignInStep)
    ensures IdsKept(db, ApplySignIn(db, e))
  {
    hide IdsKept, CreateRequest, CancelRequest, Approve, StageNew, ConfirmNew, Exchange, CreatePairing, Reserve, Take, SpendPairing,
      PruneAll, R.Apply;
    match e
    case RequestCreated(s, x, grant) => CreateIds(db, s, x, grant);
    case RequestCanceled(s, x) => StageIds(db, s, x, "", 0, []);
    case MerchantApproved(s, x, k) => ApproveIds(db, s, x, k);
    case NewStaged(s, x, handle, k, codes) => StageIds(db, s, x, handle, k, codes);
    case NewConfirmed(s, x, k) => ApproveIds(db, s, x, k);
    case Pruned => PruneIds(db);
    case _ => OtherIds(db, e); SameIds(db, ApplySignIn(db, e));
  }

  /** No two requests ever share an id. */
  lemma {:induction false} RunIds(db: Market, es: seq<Event>)
    requires RequestIds(db)
    ensures RequestIds(Run(db, es))
    decreases |es|
  {
    hide RequestIds, IdsKept, ApplyIdentity, ApplySignIn;
    if es != [] {
      match es[0] {
        case OnIdentity(i) => IdentityIds(db, i);
        case OnSignIn(e) => SignInIds(db, e);
      }
      KeptIds(db, Apply(db, es[0]));
      RunIds(Apply(db, es[0]), es[1..]);
    }
  }

  // ----- One pruning -----

  function OldCodes(db: Market): set<nat> { set c | c in db.codes && LongGone(db.codes[c].expires, db.Now()) }

  /** The requests that expired thirty days ago and that no code in `codes` refers to. */
  function OldRequests(db: Market, codes: map<nat, AuthCode>): set<Hash>
  {
    set s | s in db.requests && LongGone(db.requests[s].expires, db.Now()) &&
            forall c :: c in codes ==> codes[c].request != s
  }

  /** Expiry, then number. */
  predicate CodeSooner(db: Market, c: nat, d: nat)
  {
    c in db.codes && d in db.codes &&
    (db.codes[c].expires < db.codes[d].expires || (db.codes[c].expires == db.codes[d].expires && c < d))
  }

  predicate RequestSooner(db: Market, s: Hash, t: Hash)
  {
    s in db.requests && t in db.requests &&
    (db.requests[s].expires < db.requests[t].expires ||
     (db.requests[s].expires == db.requests[t].expires && db.requests[s].id < db.requests[t].id))
  }

  /**
    In every run a pruning takes fifty of the authorization codes that expired thirty days ago, or all there
    are, the longest expired first; then as many of the equally old requests that no staying code refers to.
    What stays is unchanged.
   */
  lemma PruneTakesFifty(db: Market, es: seq<Event>)
    requires RequestIds(db)
    ensures var late := Run(db, es);
            var next := PruneAll(late);
            var (codes, requests) := (late.codes.Keys - next.codes.Keys, late.requests.Keys - next.requests.Keys);
            next == late.(codes := late.codes - codes, requests := late.requests - requests, grants := G.Prune(late.grants)) &&
            codes <= OldCodes(late) && |codes| == Least(|OldCodes(late)|, 50) &&
            (forall x, y :: x in codes && y in OldCodes(late) - codes ==> CodeSooner(late, x, y)) &&
            requests <= OldRequests(late, next.codes) && |requests| == Least(|OldRequests(late, next.codes)|, 50) &&
            (forall x, y :: x in requests && y in OldRequests(late, next.codes) - requests ==> RequestSooner(late, x, y))
  {
    RunIds(db, es);
    hide RequestIds, Run, G.Prune, RetiredCodes, RetiredRequests, OldCodes, OldRequests, CodeSooner, RequestSooner;
    var late := Run(db, es);
    var next := PruneAll(late);
    CodesTaken(late);
    RequestsTaken(late);
    assert late.codes.Keys - next.codes.Keys == RetiredCodes(late);
    assert late.requests.Keys - next.requests.Keys == RetiredRequests(late);
  }

  lemma FewCodes(db: Market)
    ensures RetiredCodes(db) == FirstFew(OldCodes(db), (c, d) => CodeSooner(db, c, d), 50)
  {
    var rows, before := OldCodes(db), (c, d) => CodeSooner(db, c, d);
    forall c | c in rows ensures Ahead(rows, before, c) == OlderCodes(db, c) { }
  }

  lemma CodesTaken(db: Market)
    ensures var (codes, rows) := (RetiredCodes(db), OldCodes(db));
            codes <= rows <= db.codes.Keys && |codes| == Least(|rows|, 50) &&
            forall x, y :: x in codes && y in rows - codes ==> CodeSooner(db, x, y)
  {
    FewCodes(db);
    var rows, before := OldCodes(db), (c, d) => CodeSooner(db, c, d);
    assert Sorts(rows, before);
    hide Sorts, OldCodes, RetiredCodes, CodeSooner;
    FirstFewCount(rows, before, 50);
    forall x, y | x in RetiredCodes(db) && y in rows - RetiredCodes(db) ensures CodeSooner(db, x, y) {
      FirstFewLead(rows, before, 50, x, y);
    }
  }

  lemma OldRequestRows(db: Market)
    ensures forall s :: OldRequest(db, s) <==> s in OldRequests(db, db.codes - RetiredCodes(db))
  {
    hide RetiredCodes;
    var left := db.codes - RetiredCodes(db);
    assert forall c :: c in left ==> left[c] == db.codes[c];
    assert forall c :: c in db.codes ==> c in left || c in RetiredCodes(db);
    forall s ensures OldRequest(db, s) <==> s in OldRequests(db, left) { }
  }

  lemma FewRequests(db: Market, rows: set<Hash>)
    requires forall s :: OldRequest(db, s) <==> s in rows
    ensures RetiredRequests(db) == FirstFew(rows, (s, t) => RequestSooner(db, s, t), 50)
  {
    hide OldRequest;
    var before := (s, t) => RequestSooner(db, s, t);
    forall s | s in rows && s in db.requests ensures Ahead(rows, before, s) == OlderRequests(db, s) { }
    assert forall s :: s in rows ==> s in db.requests by { InRequests(db); }
  }

  lemma InRequests(db: Market)
    ensures forall s :: OldRequest(db, s) ==> s in db.requests
  {
  }

  lemma RequestsTaken(db: Market)
    requires RequestIds(db)
    ensures var requests := RetiredRequests(db);
            var rows := OldRequests(db, db.codes - RetiredCodes(db));
            requests <= rows <= db.requests.Keys && |requests| == Least(|rows|, 50) &&
            forall x, y :: x in requests && y in rows - requests ==> RequestSooner(db, x, y)
  {
    OldRequestRows(db);
    var rows, before := OldRequests(db, db.codes - RetiredCodes(db)), (s, t) => RequestSooner(db, s, t);
    assert rows <= db.requests.Keys;
    hide OldRequests, RetiredCodes, OldRequest;
    FewRequests(db, rows);
    assert Sorts(rows, before);
    hide Sorts, RetiredRequests, RequestSooner, RequestIds;
    FirstFewCount(rows, before, 50);
    forall x, y | x in RetiredRequests(db) && y in rows - RetiredRequests(db) ensures RequestSooner(db, x, y) {
      FirstFewLead(rows, before, 50, x, y);
    }
  }
}
