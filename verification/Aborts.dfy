/** When a run of the monitor aborts of itself, with provider and Telegram willing. */
module Aborts {
  import opened Types
  import opened Eligibility
  import opened Rows
  import opened Lifecycle
  import opened Sweep
  import opened SweepLaws
  import opened SweepTheorems
  import opened Runs
  import opened Onboarding
  import opened PeriodLock
  import opened Engine
  import opened Entitlement
  import Uid

  /** Every snapshot belongs to a period on record. */
  ghost predicate SnapshotsHaveJobs(db: Db) {
    forall k | k in db.snapshots :: k.1 in db.jobs
  }

  lemma SubmitKeepsRecords(db: Db, raw: string, rq: Request)
    ensures Submit(db, raw, rq).db.snapshots == db.snapshots && Submit(db, raw, rq).db.jobs == db.jobs
  {
    hide Uid.IsValid, Uid.Normalize, Issued, Readmitted, JudgedAccount, FindUid, FindUser, FindMembership,
        FirstSubscription;
  }

  lemma SweepKeepsRecords(settings: Settings, db: Db, now: Time, serves: nat)
    requires SnapshotsHaveJobs(db)
    ensures SnapshotsHaveJobs(Kept(settings, db, now, serves))
  {
    hide SweepOver, MergedRows, MergedAccounts, MergedSubscriptions, Checks, Answered;
    var start := PeriodStart(now, settings.period);
    var cx, ids, claimed := ContextFor(settings, now), MonitoredIds(db.memberships), Claim(db, start);
    ListIsDistinct(db);
    SweepIsParallel(cx, claimed, ids);
  }

  lemma {:induction false} RecordsHold(db: Db, steps: seq<Step>)
    requires SnapshotsHaveJobs(db)
    ensures SnapshotsHaveJobs(After(db, steps))
  {
    if steps != [] {
      var n := |steps| - 1;
      var before := After(db, steps[..n]);
      RecordsHold(db, steps[..n]);
      hide Submit, Kept;
      match steps[n]
      case Onboard(raw, rq, serves) => SubmitKeepsRecords(before, raw, rq);
      case Sweeping(settings, now, serves) => SweepKeepsRecords(settings, before, now, serves);
      case Join(_, _) =>
    }
  }

  /** Two monitored memberships are judged by one account the provider answers about. */
  ghost predicate ShareAnswered(settings: Settings, db: Db, now: Time, x: nat, y: nat) {
    && x != y && x in MonitoredIds(db.memberships) && y in MonitoredIds(db.memberships)
    && x < |db.memberships| && y < |db.memberships|
    && SnapshotAccount(ContextFor(settings, now), db, x).Some?
    && SnapshotAccount(ContextFor(settings, now), db, x) == SnapshotAccount(ContextFor(settings, now), db, y)
  }

  lemma ClaimIsAside(settings: Settings, db: Db, now: Time, start: Time, x: nat)
    requires x < |db.memberships|
    ensures SnapshotAccount(ContextFor(settings, now), Claim(db, start), x) ==
              SnapshotAccount(ContextFor(settings, now), db, x)
  {
    hide Evaluate, FirstAccount, PeriodStart;
  }

  /** Nobody's snapshot row of this period is there yet: only two members can clash. */
  lemma ClashIff(cx: Context, db: Db, ids: seq<nat>)
    requires InRange(db, ids) && forall a: nat :: (a, cx.periodStart) !in db.snapshots
    ensures !NoDuplicateSnapshot(cx, db, ids) <==>
            exists x: nat, y: nat ::
              x != y && x in ids && y in ids && x < |db.memberships| && y < |db.memberships|
              && SnapshotAccount(cx, db, x).Some? && SnapshotAccount(cx, db, x) == SnapshotAccount(cx, db, y)
  {
    hide SnapshotAccount;
  }

  lemma ClaimedShare(settings: Settings, db: Db, now: Time, x: nat, y: nat)
    ensures var cx, claimed := ContextFor(settings, now), Claim(db, PeriodStart(now, settings.period));
            ShareAnswered(settings, db, now, x, y) <==>
            x != y && x in MonitoredIds(db.memberships) && y in MonitoredIds(db.memberships)
            && x < |db.memberships| && y < |db.memberships|
            && SnapshotAccount(cx, claimed, x).Some?
            && SnapshotAccount(cx, claimed, x) == SnapshotAccount(cx, claimed, y)
  {
    hide SnapshotAccount, PeriodStart, MonitoredIds;
    if x < |db.memberships| { ClaimIsAside(settings, db, now, PeriodStart(now, settings.period), x); }
    if y < |db.memberships| { ClaimIsAside(settings, db, now, PeriodStart(now, settings.period), y); }
  }

  lemma AbortsIff(settings: Settings, db: Db, now: Time)
    requires SnapshotsHaveJobs(db)
    ensures RunMonitor(settings, db, now).Aborted? <==>
            PeriodStart(now, settings.period) !in db.jobs
            && exists x: nat, y: nat :: ShareAnswered(settings, db, now, x, y)
  {
    hide SweepOver, PeriodStart, MonitoredIds, NoDuplicateSnapshot, SnapshotAccount, ShareAnswered;
    var start := PeriodStart(now, settings.period);
    var cx, ids, claimed := ContextFor(settings, now), MonitoredIds(db.memberships), Claim(db, start);
    ListIsDistinct(db);
    SweepFinishesIff(cx, claimed, ids);
    if start !in db.jobs {
      assert forall a: nat :: (a, start) !in db.snapshots;
      ClashIff(cx, claimed, ids);
      forall x: nat, y: nat
        ensures ShareAnswered(settings, db, now, x, y) <==>
                x != y && x in ids && y in ids && x < |db.memberships| && y < |db.memberships|
                && SnapshotAccount(cx, claimed, x).Some?
                && SnapshotAccount(cx, claimed, x) == SnapshotAccount(cx, claimed, y)
      {
        ClaimedShare(settings, db, now, x, y);
      }
    }
  }

  /** After any history from tables without snapshots: a run aborts of itself
      exactly when its period is free and two monitored memberships are judged by
      one and the same account, about which the provider answers. */
  lemma RunsAbortIff(db: Db, steps: seq<Step>, settings: Settings, now: Time)
    requires db.snapshots == map[]
    ensures var end := After(db, steps);
            RunMonitor(settings, end, now).Aborted?
            <==> PeriodStart(now, settings.period) !in end.jobs && exists x: nat, y: nat ::
                ShareAnswered(settings, end, now, x, y)
  {
    hide After;
    RecordsHold(db, steps);
    AbortsIff(settings, After(db, steps), now);
  }

  /** The account that judges a member is that member's user's own. */
  lemma JudgedByOwn(cx: Context, db: Db, x: nat)
    requires x < |db.memberships|
    ensures var a := SnapshotAccount(cx, db, x);
            a.Some? ==> a.value < |db.accounts| && db.accounts[a.value].user == db.memberships[x].user
  {
  }

  /** Only two memberships of one person can do that, so a tenant with one market
      never sees it, whatever its history and whatever the provider answers. */
  lemma OneMarketRunsNeverAbort(db: Db, steps: seq<Step>, k: Market, settings: Settings, now: Time)
    requires SingleMarket(db, k) && db.accounts == [] && db.subscriptions == [] && db.memberships == []
             && db.snapshots == map[]
    ensures !RunMonitor(settings, After(db, steps), now).Aborted?
  {
    hide After, RunMonitor, SnapshotAccount;
    var end := After(db, steps);
    RunsAbortIff(db, steps, settings, now);
    EntitlementAndAccessAgree(db, steps, k);
    forall x: nat, y: nat
      ensures !ShareAnswered(settings, end, now, x, y)
    {
      if x < |end.memberships| && y < |end.memberships| && x != y {
        JudgedByOwn(ContextFor(settings, now), end, x);
        JudgedByOwn(ContextFor(settings, now), end, y);
        assert end.memberships[x].user != end.memberships[y].user;
      }
    }
  }
}
