/** The end date on a subscription: set by removals, never cleared by returns. */
module Expiry {
  import opened Types
  import opened Eligibility
  import opened Compliance
  import opened Rows
  import opened Lifecycle
  import opened Sweep
  import opened SweepLaws
  import opened Runs
  import opened Onboarding
  import opened PeriodLock
  import opened Engine
  import opened Entitlement

  /** A removal of a committed run expires subscription `s`. */
  ghost predicate Expires(db: Db, step: Step, s: nat) {
    && step.Sweeping?
    && var r := RunMonitor(step.settings, db, step.now);
       && r.Completed? && !RunRaises(r, step.serves)
       && exists x: nat :: RemovalExpires(ContextFor(step.settings, step.now), db, x, s)
  }

  /** The check of listed member `x` removes it, and `s` is the first subscription
      of its user in the judging account's market. */
  ghost predicate RemovalExpires(cx: Context, db: Db, x: nat, s: nat) {
    && x < |db.memberships| && x in MonitoredIds(db.memberships)
    && var f := Find(cx, db, x);
       && f.Some? && DecisionOn(db.memberships[x], EventOf(cx, f.value)).action == Revoke
       && FirstSubscription(db.subscriptions, db.memberships[x].user, f.value.market) == Some(s)
  }

  ghost predicate ExpiresAt(db: Db, steps: seq<Step>, s: nat, k: nat)
    requires k < |steps|
  {
    Expires(After(db, steps[..k]), steps[k], s)
  }

  /** The last step before `n` whose run expired `s`, or -1. */
  ghost function LastExpiry(db: Db, steps: seq<Step>, s: nat, n: nat): (i: int)
    requires n <= |steps|
    ensures -1 <= i < n
  {
    if n == 0 then -1 else if ExpiresAt(db, steps, s, n - 1) then n - 1 else LastExpiry(db, steps, s, n - 1)
  }

  function RunInstant(step: Step): Time {
    if step.Sweeping? then step.now else 0
  }

  lemma {:induction false} LastExpiryIsLast(db: Db, steps: seq<Step>, s: nat, n: nat)
    requires n <= |steps|
    ensures var i := LastExpiry(db, steps, s, n);
            (i >= 0 ==> ExpiresAt(db, steps, s, i)) && forall k | i < k < n :: !ExpiresAt(db, steps, s, k)
  {
    hide Expires, After;
    if n > 0 { LastExpiryIsLast(db, steps, s, n - 1); }
  }

  lemma OneEndMeans(cx: Context, db: Db, start: Time, x: nat, s: nat)
    requires x < |db.memberships|
    ensures ExpiresFor(cx, Claim(db, start), x) == Some(s) && x in MonitoredIds(db.memberships) <==>
              RemovalExpires(cx, db, x, s)
  {
    hide Next, Evaluate, FirstSubscription, Decide, MonitoredIds, FirstAccount;
    FindStable(cx, db, Claim(db, start), x);
  }

  lemma EndsMeans(cx: Context, db: Db, start: Time, s: nat)
    requires InRange(db, MonitoredIds(db.memberships))
    ensures Ends(cx, Claim(db, start), MonitoredIds(db.memberships), s) <==> exists x: nat ::
              RemovalExpires(cx, db, x, s)
  {
    hide RemovalExpires, ExpiresFor, MonitoredIds;
    var ids, claimed := MonitoredIds(db.memberships), Claim(db, start);
    forall x: nat | x < |db.memberships|
      ensures ExpiresFor(cx, claimed, x) == Some(s) && x in ids <==> RemovalExpires(cx, db, x, s)
    {
      OneEndMeans(cx, db, start, x, s);
    }
    if Ends(cx, claimed, ids, s) {
      var i :| 0 <= i < |ids| && ExpiresFor(cx, claimed, ids[i]) == Some(s);
      assert ids[i] in ids && RemovalExpires(cx, db, ids[i], s);
    }
    if x: nat :| RemovalExpires(cx, db, x, s) {
      ListedInRange(cx, db, x, s);
      var i :| 0 <= i < |ids| && ids[i] == x;
      assert ExpiresFor(cx, claimed, ids[i]) == Some(s);
    }
  }

  lemma ListedInRange(cx: Context, db: Db, x: nat, s: nat)
    requires RemovalExpires(cx, db, x, s)
    ensures x < |db.memberships| && x in MonitoredIds(db.memberships)
  {
  }

  lemma SweepEnds(db: Db, step: Step, s: nat)
    requires step.Sweeping? && s < |db.subscriptions|
    ensures var next := Apply(db, step);
            && |next.subscriptions| == |db.subscriptions|
            && next.subscriptions[s].endsAt == if Expires(db, step, s) then Some(step.now)
               else db.subscriptions[s].endsAt
  {
    hide SweepOver, MergedRows, MergedAccounts, NewSnapshots, Ends, RemovalExpires;
    var start := PeriodStart(step.now, step.settings.period);
    var cx, ids, claimed := ContextFor(step.settings, step.now), MonitoredIds(db.memberships), Claim(db, start);
    ListIsDistinct(db);
    SweepIsParallel(cx, claimed, ids);
    EndsMeans(cx, db, start, s);
  }

  lemma ReturnKeepsEnd(db: Db, user: nat, market: Market, now: Time, s: nat)
    requires s < |EnsureSubscription(db, user, market, now).0.subscriptions|
    ensures EnsureSubscription(db, user, market, now).0.subscriptions[s].endsAt ==
              if s < |db.subscriptions| then db.subscriptions[s].endsAt else None
  {
  }

  lemma StepEnds(db: Db, step: Step, s: nat)
    requires s < |Apply(db, step).subscriptions|
    ensures Apply(db, step).subscriptions[s].endsAt ==
              if Expires(db, step, s) then Some(RunInstant(step))
              else if s < |db.subscriptions| then db.subscriptions[s].endsAt else None
  {
    match step
    case Onboard(raw, rq, serves) =>
      hide Submit, EnsureUser, EnsureSubscription;
      SubmitTables(db, raw, rq);
      if Admits(Submit(db, raw, rq)) && |Submit(db, raw, rq).effects| <= serves {
        ReturnKeepsEnd(db, EnsureUser(db, rq.telegramId).1, rq.market, rq.now, s);
      }
    case Sweeping(settings, now, serves) =>
      hide Kept, Expires;
      SweepCounts(settings, db, now, serves);
      SweepEnds(db, step, s);
    case Join(_, _) =>
  }

  /** After any history from empty tables a subscription has an end date exactly
      when some committed run's removal expired it, and the date is the instant of
      the last such removal; a return changes neither. */
  lemma {:induction false} EndDateIsLastRemoval(db: Db, steps: seq<Step>, s: nat, n: nat)
    requires db.subscriptions == [] && n <= |steps| && s < |After(db, steps[..n]).subscriptions|
    ensures var i := LastExpiry(db, steps, s, n);
            After(db, steps[..n]).subscriptions[s].endsAt == if i >= 0 then Some(RunInstant(steps[i])) else None
    ensures After(db, steps[..n]).subscriptions[s].endsAt.Some? <==> exists k: nat ::
              k < n && ExpiresAt(db, steps, s, k)
    decreases n
  {
    hide Apply, Expires;
    LastExpiryIsLast(db, steps, s, n);
    if n > 0 {
      assert steps[..n][..n - 1] == steps[..n - 1];
      var before := After(db, steps[..n - 1]);
      StepEnds(before, steps[n - 1], s);
      if s < |before.subscriptions| {
        EndDateIsLastRemoval(db, steps, s, n - 1);
      } else {
        NotYetExpired(db, steps, s, n - 1);
      }
    }
  }

  lemma ExpiresExisting(db: Db, step: Step, s: nat)
    requires Expires(db, step, s)
    ensures s < |db.subscriptions|
  {
  }

  /** Subscriptions are never taken away. */
  lemma StepKeepsCount(db: Db, step: Step)
    ensures |Apply(db, step).subscriptions| >= |db.subscriptions|
  {
    match step
    case Onboard(raw, rq, serves) =>
      hide Submit, EnsureUser;
      SubmitTables(db, raw, rq);
    case Sweeping(settings, now, serves) =>
      hide Kept;
      SweepCounts(settings, db, now, serves);
    case Join(_, _) =>
  }

  lemma {:induction false} NotYetExpired(db: Db, steps: seq<Step>, s: nat, n: nat)
    requires n <= |steps| && s >= |After(db, steps[..n]).subscriptions|
    ensures LastExpiry(db, steps, s, n) == -1
    decreases n
  {
    hide Apply, Expires;
    if n > 0 {
      assert steps[..n][..n - 1] == steps[..n - 1];
      StepKeepsCount(After(db, steps[..n - 1]), steps[n - 1]);
      if ExpiresAt(db, steps, s, n - 1) { ExpiresExisting(After(db, steps[..n - 1]), steps[n - 1], s); }
      NotYetExpired(db, steps, s, n - 1);
    }
  }
}
