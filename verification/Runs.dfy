/** One run of the monitor for one tenant: claim the period, sweep, record. */
module Runs {
  import opened Types
  import opened Eligibility
  import opened Rows
  import opened PeriodLock
  import opened Sweep
  import opened SweepLaws
  import opened SweepTheorems

  /** What a run is configured and answered with; `oracle` is the provider. */
  datatype Settings = Settings(maxWarnings: nat, intervalDays: int, period: Period, oracle: map<string, Check>)

  const CLAIMED := Job(Running, 0, 0, 0, 0)

  function Claim(db: Db, start: Time): Db {
    db.(jobs := db.jobs[start := CLAIMED])
  }

  function ContextFor(s: Settings, now: Time): Context
  {
    var start := PeriodStart(now, s.period);
    Context(s.maxWarnings, s.intervalDays, start, start + s.period, now, s.oracle)
  }

  function JobRow(t: Tally): Job {
    Job(Succeeded, t.processed, t.warned, t.revoked, t.skipped)
  }

  datatype RunOutcome =
    | StoodDown
    | Completed(db: Db, effects: seq<Effect>, tally: Tally)
    | Aborted(effects: seq<Effect>)

  function SweepListed(s: Settings, db: Db, now: Time): Outcome
  {
    SweepOver(ContextFor(s, now), Claim(db, PeriodStart(now, s.period)), MonitoredIds(db.memberships))
  }

  function RunMonitor(s: Settings, db: Db, now: Time): RunOutcome
  {
    var start := PeriodStart(now, s.period);
    if start in db.jobs then StoodDown
    else
      match SweepListed(s, db, now)
      case Raised(e) => Aborted(e)
      case Done(d, e, t) => Completed(d.(jobs := d.jobs[start := JobRow(t)]), e, t)
  }

  /** Telegram answers `serves` calls and then is down: the run raises exactly if
      it needs more. */
  function Delivered(effects: seq<Effect>, serves: nat): seq<Effect> {
    if |effects| <= serves then effects else effects[..serves]
  }

  /** A log in which every entry says on whose behalf it was sent. */
  function Tagged<T>(tag: T, effects: seq<Effect>): seq<(T, Effect)> {
    seq(|effects|, i requires 0 <= i < |effects| => (tag, effects[i]))
  }

  lemma DeliveredInTwo(a: seq<Effect>, b: seq<Effect>, serves: nat)
    ensures Delivered(a + b, serves) ==
              if |a| > serves then Delivered(a, serves) else Delivered(a, serves) + Delivered(b, serves - |a|)
  {
    if |a| > serves {
      assert (a + b)[..serves] == a[..serves];
    } else if |a + b| > serves {
      assert (a + b)[..serves] == a + b[..serves - |a|];
    }
  }

  predicate RunRaises(r: RunOutcome, serves: nat) {
    r.Aborted? || (r.Completed? && |r.effects| > serves)
  }

  lemma {:induction false} PlanGrows(cx: Context, db: Db, mids: seq<nat>, i: nat)
    requires InRange(db, mids) && i <= |mids| && InRange(db, mids[..i])
    ensures var part, whole := SweepOver(cx, db, mids[..i]), SweepOver(cx, db, mids);
            part.effects <= whole.effects && (part.Raised? ==> whole == part)
    decreases |mids|
  {
    hide MemberPass;
    var n := |mids| - 1;
    if i <= n {
      assert mids[..n][..i] == mids[..i];
      PlanGrows(cx, db, mids[..n], i);
    } else {
      assert mids[..i] == mids;
    }
  }

  lemma DeliveredPrefix(a: seq<Effect>, b: seq<Effect>, serves: nat)
    requires a <= b && (|a| > serves || a == b)
    ensures Delivered(b, serves) == Delivered(a, serves)
  {
  }

  /** A sweep that stops at member `i`, by an exception of its own or for want of
      Telegram, has sent what the whole plan would have sent by then. */
  lemma StoppedAt(cx: Context, db: Db, mids: seq<nat>, i: nat, serves: nat, before: Outcome, here: Outcome)
    requires InRange(db, mids) && i < |mids| && InRange(db, mids[..i])
    requires before == SweepOver(cx, db, mids[..i]) && before.Done? && |before.effects| <= serves
    requires here == MemberPass(cx, before.db, mids[i])
    requires here.Raised? || |here.effects| > serves - |before.effects|
    ensures var o := SweepOver(cx, db, mids);
            && (o.Raised? || |o.effects| > serves)
            && Delivered(o.effects, serves) == before.effects + Delivered(here.effects, serves - |before.effects|)
  {
    hide MemberPass;
    var through := mids[..i + 1];
    assert through[..i] == mids[..i] && InRange(db, through);
    PlanGrows(cx, db, mids, i + 1);
    var part := SweepOver(cx, db, through);
    assert part.effects == before.effects + here.effects;
    DeliveredInTwo(before.effects, here.effects, serves);
    DeliveredPrefix(part.effects, SweepOver(cx, db, mids).effects, serves);
  }

  /** What the database keeps of a run: commit on success, everything rolled back
      otherwise, the claim included. */
  function Kept(s: Settings, db: Db, now: Time, serves: nat): Db
  {
    var r := RunMonitor(s, db, now);
    if r.Completed? && !RunRaises(r, serves) then r.db else db
  }

  lemma {:induction false} SweepKeepsJobs(cx: Context, db: Db, mids: seq<nat>)
    requires InRange(db, mids)
    ensures var o := SweepOver(cx, db, mids);
            o.Done? ==>
              o.db.jobs == db.jobs && o.db.users == db.users
              && o.db.configs == db.configs && o.db.channels == db.channels
  {
    if mids != [] { SweepKeepsJobs(cx, db, mids[..|mids| - 1]); }
  }

  lemma ListIsDistinct(db: Db)
    ensures InRange(db, MonitoredIds(db.memberships)) && Distinct(MonitoredIds(db.memberships))
  {
  }

  /** A completed run's job row repeats the report, and the report accounts for
      every monitored membership and every change made. */
  lemma RunAccountsForItself(s: Settings, db: Db, now: Time)
    ensures var r := RunMonitor(s, db, now);
            r.Completed? ==>
              && PeriodStart(now, s.period) !in db.jobs
              && r.db.jobs == db.jobs[PeriodStart(now, s.period) :=
                   Job(Succeeded, r.tally.processed, r.tally.warned, r.tally.revoked, r.tally.skipped)]
              && InRange(db, MonitoredIds(db.memberships))
              && Conserved(ContextFor(s, now), Claim(db, PeriodStart(now, s.period)), MonitoredIds(db.memberships),
                   r.db.memberships, r.tally, r.effects)
  {
    var start := PeriodStart(now, s.period);
    if start !in db.jobs && SweepListed(s, db, now).Done? {
      ListIsDistinct(db);
      SweepKeepsJobs(ContextFor(s, now), Claim(db, start), MonitoredIds(db.memberships));
      SweepConservation(ContextFor(s, now), Claim(db, start), MonitoredIds(db.memberships));
    }
  }

  datatype Turn = Turn(settings: Settings, now: Time, serves: nat)

  function KeptAll(db: Db, turns: seq<Turn>): Db
  {
    if turns == [] then db
    else
      var n := |turns| - 1;
      Kept(turns[n].settings, KeptAll(db, turns[..n]), turns[n].now, turns[n].serves)
  }

  /** Once a period is on record, any further runs inside it stand down: no row
      changes and nothing is asked of anyone, whatever they would be told. */
  lemma {:induction false} ReplayIsNoOp(db: Db, start: Time, period: Time, turns: seq<Turn>)
    requires period > 0 && start in db.jobs && start == PeriodStart(start, period)
    requires forall i | 0 <= i < |turns| :: turns[i].settings.period == period && start <= turns[i].now < start + period
    ensures KeptAll(db, turns) == db
    ensures forall i | 0 <= i < |turns| :: RunMonitor(turns[i].settings, db, turns[i].now) == StoodDown
  {
    forall i | 0 <= i < |turns|
      ensures RunMonitor(turns[i].settings, db, turns[i].now) == StoodDown
    {
      QuotientUnique(turns[i].now, FloorDiv(start, period), period);
    }
    if turns != [] {
      var n := |turns| - 1;
      assert forall i | 0 <= i < n :: turns[..n][i] == turns[i];
      ReplayIsNoOp(db, start, period, turns[..n]);
    }
  }

  /** The turns that did not end in an exception. */
  function Lasting(db: Db, turns: seq<Turn>): seq<Turn> {
    if turns == [] then []
    else
      var n := |turns| - 1;
      var t := turns[n];
      if RunRaises(RunMonitor(t.settings, KeptAll(db, turns[..n]), t.now), t.serves) then Lasting(db, turns[..n])
      else Lasting(db, turns[..n]) + [t]
  }

  /** Failed attempts are as if never made: any sequence of runs leaves the tables
      that its runs without an exception leave, made alone, each of which then
      again ends without one. So a failed attempt uses up no period, and the next
      finds the work a first attempt would have found. */
  lemma {:induction false} AbortedRunsLeaveNoTrace(db: Db, turns: seq<Turn>)
    ensures KeptAll(db, turns) == KeptAll(db, Lasting(db, turns))
    ensures Lasting(db, Lasting(db, turns)) == Lasting(db, turns)
  {
    if turns != [] {
      var n := |turns| - 1;
      AbortedRunsLeaveNoTrace(db, turns[..n]);
      RaisedRunsKeepNothing(turns[n], KeptAll(db, turns[..n]));
      hide RunMonitor, RunRaises, Kept;
      var before := Lasting(db, turns[..n]);
      assert (before + [turns[n]])[..|before|] == before;
    }
  }

  /** A free period is on record after a run exactly when the run does not raise;
      in an outage of the whole provider it never does. */
  lemma PeriodIsUsedUpIff(s: Settings, db: Db, now: Time, serves: nat)
    requires PeriodStart(now, s.period) !in db.jobs
    ensures PeriodStart(now, s.period) in Kept(s, db, now, serves).jobs <==>
              !RunRaises(RunMonitor(s, db, now), serves)
    ensures s.oracle == map[] ==>
              RunMonitor(s, db, now).Completed? && RunMonitor(s, db, now).effects == []
              && PeriodStart(now, s.period) in Kept(s, db, now, serves).jobs
  {
    hide SweepOver, PeriodStart;
    if s.oracle == map[] {
      ListIsDistinct(db);
      SilentSweep(ContextFor(s, now), Claim(db, PeriodStart(now, s.period)), MonitoredIds(db.memberships));
    }
  }

  /** Without an answer about anybody a sweep finishes and says nothing. */
  lemma {:induction false} SilentSweep(cx: Context, db: Db, mids: seq<nat>)
    requires InRange(db, mids) && cx.oracle == map[]
    ensures SweepOver(cx, db, mids).Done? && SweepOver(cx, db, mids).effects == []
  {
    if mids != [] { SilentSweep(cx, db, mids[..|mids| - 1]); }
  }

  lemma RaisedRunsKeepNothing(t: Turn, db: Db)
    ensures RunRaises(RunMonitor(t.settings, db, t.now), t.serves) ==> Kept(t.settings, db, t.now, t.serves) == db
  {
  }
}
