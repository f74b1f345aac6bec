/** Outages in whole histories: with claims, job rows, commits and failures of
    Telegram, leaving out of each run any members the provider could not tell about
    changes nothing but check fields, snapshots and two counts. */
module OutageRuns {
  import opened Types
  import opened Eligibility
  import opened Compliance
  import opened Rows
  import opened Lifecycle
  import opened Sweep
  import opened SweepLaws
  import opened Runs
  import opened Onboarding
  import opened PeriodLock
  import E = Engine
  import opened Outages

  /** The listed members but those in `out`. */
  function Without(mids: seq<nat>, out: set<nat>): seq<nat> {
    if mids == [] then [] else (if mids[0] in out then [] else [mids[0]]) + Without(mids[1..], out)
  }

  function Passes(cx: Context, mids: seq<nat>): seq<Move> {
    seq(|mids|, i requires 0 <= i < |mids| => Pass(cx, mids[i]))
  }

  /** The provider could not tell about this monitored member. */
  predicate CannotTell(cx: Context, db: Db, mid: nat) {
    OutagePass(World(db, [], ZERO), Pass(cx, mid))
  }

  lemma PassKeepsSubjects(cx: Context, db: Db, mid: nat)
    requires mid < |db.memberships| && MemberPass(cx, db, mid).Done?
    ensures SameSubjects(db, MemberPass(cx, db, mid).db)
    ensures MemberPass(cx, db, mid).db.memberships == db.memberships[mid := RowAfter(cx, db, mid)]
  {
    hide Evaluate, Decide, FirstAccount, FirstSubscription;
  }

  /** What the provider tells about one member does not depend on the others' passes. */
  lemma StillCannotTell(cx: Context, db: Db, mid: nat, x: nat)
    requires mid < |db.memberships| && MemberPass(cx, db, mid).Done? && x != mid && CannotTell(cx, db, x)
    ensures CannotTell(cx, MemberPass(cx, db, mid).db, x)
  {
    hide MemberPass, RowAfter, Evaluate;
    PassKeepsSubjects(cx, db, mid);
    FindStable(cx, db, MemberPass(cx, db, mid).db, x);
  }

  lemma OutageIsOfTheTables(w: World, move: Move)
    ensures OutagePass(w, move) <==> OutagePass(World(w.db, [], ZERO), move)
  {
  }

  /** Leaving them out of the list is dropping their passes. */
  lemma {:induction false} LeftOutIsDropped(w: World, cx: Context, mids: seq<nat>, out: set<nat>)
    requires AllRun(w, Passes(cx, mids)) && Distinct(mids)
    requires forall x | x in mids && x in out :: CannotTell(cx, w.db, x)
    ensures WithOutages(w, Passes(cx, Without(mids, out)), Passes(cx, mids))
    decreases |mids|
  {
    hide Feasible, Make, CannotTell, OutagePass;
    if mids != [] {
      var all, rest := Passes(cx, mids), Passes(cx, mids[1..]);
      assert all[0] == Pass(cx, mids[0]) && all[1..] == rest;
      PassMade(w, cx, mids[0]);
      var next := Make(w, all[0]);
      assert mids[0] !in mids[1..];
      forall x | x in mids[1..] && x in out
        ensures CannotTell(cx, next.db, x)
      {
        StillCannotTell(cx, w.db, mids[0], x);
      }
      LeftOutIsDropped(next, cx, mids[1..], out);
      if mids[0] in out {
        TellsOutage(w, cx, mids[0]);
        assert Passes(cx, Without(mids, out)) == Passes(cx, Without(mids[1..], out));
      } else {
        var thin := Passes(cx, Without(mids, out));
        assert thin[0] == all[0] && thin[1..] == Passes(cx, Without(mids[1..], out));
      }
    }
  }

  lemma TellsOutage(w: World, cx: Context, mid: nat)
    requires CannotTell(cx, w.db, mid)
    ensures OutagePass(w, Pass(cx, mid))
  {
    OutageIsOfTheTables(w, Pass(cx, mid));
  }

  lemma PassMade(w: World, cx: Context, mid: nat)
    requires Feasible(w, Pass(cx, mid))
    ensures mid < |w.db.memberships| && MemberPass(cx, w.db, mid).Done?
            && Make(w, Pass(cx, mid)).db == MemberPass(cx, w.db, mid).db
  {
  }

  // One run.

  /** The run with the members of `out` left off its list. */
  function ThinRun(s: Settings, db: Db, now: Time, out: set<nat>): RunOutcome {
    var start := PeriodStart(now, s.period);
    if start in db.jobs then StoodDown
    else
      var claimed := Claim(db, start);
      var mids := Without(MonitoredIds(db.memberships), out);
      if !InRange(claimed, mids) then Aborted([])
      else
        match SweepOver(ContextFor(s, now), claimed, mids)
        case Raised(e) => Aborted(e)
        case Done(d, e, t) => Completed(d.(jobs := d.jobs[start := JobRow(t)]), e, t)
  }

  lemma {:induction false} WithoutInRange(db: Db, mids: seq<nat>, out: set<nat>)
    requires InRange(db, mids)
    ensures InRange(db, Without(mids, out))
  {
    if mids != [] {
      assert InRange(db, mids[1..]) by { assert forall i | 0 <= i < |mids| - 1 :: mids[1..][i] == mids[i + 1]; }
      WithoutInRange(db, mids[1..], out);
    }
  }

  lemma ClaimedAlike(a: Db, b: Db, start: Time)
    requires TablesAlike(a, b)
    ensures TablesAlike(Claim(a, start), Claim(b, start))
  {
    hide AccountsAlike;
  }

  lemma FinishedAlike(a: Db, b: Db, start: Time, x: Tally, y: Tally)
    requires TablesAlike(a, b) && ReportsAlike(x, y)
    ensures TablesAlike(a.(jobs := a.jobs[start := JobRow(x)]), b.(jobs := b.jobs[start := JobRow(y)]))
  {
    hide AccountsAlike;
  }

  lemma SweepIsItsPasses(w: World, cx: Context, mids: seq<nat>)
    requires InRange(w.db, mids)
    ensures var o := SweepOver(cx, w.db, mids);
            && (o.Done? <==> AllRun(w, Passes(cx, mids)))
            && (o.Done? ==> MakeAll(w, Passes(cx, mids)) == World(o.db, w.log + o.effects, w.tally.Plus(o.tally)))
  {
    hide SweepOver, AllRun, MakeAll;
    SweepAsPasses(w, cx, mids);
    assert Passes(cx, mids) == seq(|mids|, i requires 0 <= i < |mids| => Pass(cx, mids[i]));
  }

  /** Dropping the passes from one world, and from an alike one. */
  lemma PassesAlike(wa: World, wb: World, cx: Context, mids: seq<nat>, out: set<nat>)
    requires Alike(wa, wb) && AllRun(wb, Passes(cx, mids)) && Distinct(mids)
    requires forall x | x in mids && x in out :: CannotTell(cx, wb.db, x)
    ensures AllRun(wa, Passes(cx, Without(mids, out)))
    ensures Alike(MakeAll(wa, Passes(cx, Without(mids, out))), MakeAll(wb, Passes(cx, mids)))
  {
    hide Alike, AllRun, MakeAll, CannotTell, WithOutages, Passes, Without, AccountsAlike, ReportsAlike;
    var thin := Passes(cx, Without(mids, out));
    LeftOutIsDropped(wb, cx, mids, out);
    OutagesAreInvisible(wb, thin, Passes(cx, mids));
    AlikeHistories(wa, wb, thin);
    AlikeTransitive(MakeAll(wa, thin), MakeAll(wb, thin), MakeAll(wb, Passes(cx, mids)));
  }

  /** Sweeping the thinned list beside sweeping the whole one. */
  lemma SweepsAlike(cx: Context, a: Db, b: Db, mids: seq<nat>, out: set<nat>)
    requires TablesAlike(a, b) && InRange(b, mids) && Distinct(mids) && SweepOver(cx, b, mids).Done?
    requires forall x | x in mids && x in out :: CannotTell(cx, b, x)
    ensures InRange(a, Without(mids, out))
    ensures var o, p := SweepOver(cx, a, Without(mids, out)), SweepOver(cx, b, mids);
            && o.Done? && o.effects == p.effects && TablesAlike(o.db, p.db) && ReportsAlike(o.tally, p.tally)
  {
    WithoutInRange(b, mids, out);
    SameCounts(a, b);
    assert InRange(a, Without(mids, out));
    hide SweepOver, TablesAlike, AllRun, MakeAll, CannotTell, Passes, Without, ReportsAlike, InRange, Distinct, Alike;
    var wa, wb := World(a, [], ZERO), World(b, [], ZERO);
    FreshWorlds(a, b);
    SweepIsItsPasses(wb, cx, mids);
    SweepIsItsPasses(wa, cx, Without(mids, out));
    PassesAlike(wa, wb, cx, mids, out);
    EndWorlds(SweepOver(cx, a, Without(mids, out)), SweepOver(cx, b, mids));
  }

  lemma FreshWorlds(a: Db, b: Db)
    requires TablesAlike(a, b)
    ensures Alike(World(a, [], ZERO), World(b, [], ZERO))
  {
    SameReport(ZERO);
  }

  lemma EndWorlds(o: Outcome, p: Outcome)
    requires o.Done? && p.Done?
    requires Alike(World(o.db, [] + o.effects, ZERO.Plus(o.tally)), World(p.db, [] + p.effects, ZERO.Plus(p.tally)))
    ensures o.effects == p.effects && TablesAlike(o.db, p.db) && ReportsAlike(o.tally, p.tally)
  {
    hide TablesAlike;
    assert [] + o.effects == o.effects && [] + p.effects == p.effects;
    PlusZero(o.tally);
    PlusZero(p.tally);
  }

  lemma SameReport(t: Tally)
    ensures ReportsAlike(t, t)
  {
  }

  lemma PlusZero(t: Tally)
    ensures ZERO.Plus(t) == t
  {
  }

  lemma SameCounts(a: Db, b: Db)
    requires TablesAlike(a, b)
    ensures |a.memberships| == |b.memberships| && a.memberships == b.memberships && a.jobs.Keys == b.jobs.Keys
  {
  }

  /** Members the run cannot tell about, on the tables it starts from. */
  ghost predicate AllOut(s: Settings, db: Db, now: Time, out: set<nat>) {
    forall x | x in MonitoredIds(db.memberships) && x in out ::
        CannotTell(ContextFor(s, now), Claim(db, PeriodStart(now, s.period)), x)
  }

  lemma RunsAlike(s: Settings, a: Db, b: Db, now: Time, out: set<nat>)
    requires TablesAlike(a, b) && AllOut(s, b, now, out) && !RunMonitor(s, b, now).Aborted?
    ensures var x, y := ThinRun(s, a, now, out), RunMonitor(s, b, now);
            && (x.StoodDown? <==> y.StoodDown?) && !x.Aborted?
            && (y.Completed? ==> x.Completed? && x.effects == y.effects && TablesAlike(x.db, y.db))
  {
    hide SweepOver, TablesAlike, CannotTell, PeriodStart;
    var start := PeriodStart(now, s.period);
    SameCounts(a, b);
    ListIsDistinct(b);
    if start !in b.jobs {
      ClaimedAlike(a, b, start);
      var cx, ids := ContextFor(s, now), MonitoredIds(b.memberships);
      SweepsAlike(cx, Claim(a, start), Claim(b, start), ids, out);
      var o, p := SweepOver(cx, Claim(a, start), Without(ids, out)), SweepOver(cx, Claim(b, start), ids);
      FinishedAlike(o.db, p.db, start, o.tally, p.tally);
    }
  }

  // Whole histories.

  /** A step, and the members left out of its run. */
  datatype Thinned = Thinned(step: E.Step, out: set<nat>)

  function Steps(ts: seq<Thinned>): seq<E.Step> {
    seq(|ts|, i requires 0 <= i < |ts| => ts[i].step)
  }

  function ThinApply(db: Db, t: Thinned): Db {
    match t.step
    case Sweeping(settings, now, serves) =>
      var r := ThinRun(settings, db, now, t.out);
      if r.Completed? && !RunRaises(r, serves) then r.db else db
    case _ => E.Apply(db, t.step)
  }

  function ThinAfter(db: Db, ts: seq<Thinned>): Db {
    if ts == [] then db else ThinApply(ThinAfter(db, ts[..|ts| - 1]), ts[|ts| - 1])
  }

  /** What a step has Telegram do, up to where Telegram stops answering. */
  function Messages(db: Db, step: E.Step): seq<Effect> {
    match step
    case Onboard(raw, rq, serves) => Delivered(Submit(db, raw, rq).effects, serves)
    case Sweeping(settings, now, serves) =>
      var r := RunMonitor(settings, db, now);
      if r.StoodDown? then [] else Delivered(r.effects, serves)
    case Join(_, _) => []
  }

  function ThinMessages(db: Db, t: Thinned): seq<Effect> {
    if !t.step.Sweeping? then Messages(db, t.step)
    else
      var r := ThinRun(t.step.settings, db, t.step.now, t.out);
      if r.StoodDown? then [] else Delivered(r.effects, t.step.serves)
  }

  function Log(db: Db, steps: seq<E.Step>): seq<Effect> {
    if steps == [] then []
    else
      var n := |steps| - 1;
      Log(db, steps[..n]) + Messages(E.After(db, steps[..n]), steps[n])
  }

  function ThinLog(db: Db, ts: seq<Thinned>): seq<Effect> {
    if ts == [] then []
    else
      var n := |ts| - 1;
      ThinLog(db, ts[..n]) + ThinMessages(ThinAfter(db, ts[..n]), ts[n])
  }

  /** Only members the provider could not tell about are left out, of runs that do
      not abort of themselves. */
  ghost predicate OnlyOutages(db: Db, t: Thinned) {
    t.step.Sweeping? ==>
      AllOut(t.step.settings, db, t.step.now, t.out) && !RunMonitor(t.step.settings, db, t.step.now).Aborted?
  }

  ghost predicate AllOnlyOutages(db: Db, ts: seq<Thinned>) {
    forall k: nat | k < |ts| :: OnlyOutages(E.After(db, Steps(ts)[..k]), ts[k])
  }

  lemma StepsAlike(a: Db, b: Db, t: Thinned)
    requires TablesAlike(a, b) && OnlyOutages(b, t)
    ensures TablesAlike(ThinApply(a, t), E.Apply(b, t.step)) && ThinMessages(a, t) == Messages(b, t.step)
  {
    hide TablesAlike, Submit, AllOut;
    match t.step
    case Onboard(raw, rq, serves) => AlikeSubmit(a, b, raw, rq);
    case Sweeping(settings, now, serves) =>
      RunsAlike(settings, a, b, now, t.out);
      hide RunMonitor, ThinRun;
    case Join(mid, at) =>
      SameCounts(a, b);
      if mid < |a.memberships| { JoinAlike(a, b, mid, at); }
  }

  lemma JoinAlike(a: Db, b: Db, mid: nat, at: Time)
    requires TablesAlike(a, b) && mid < |a.memberships|
    ensures TablesAlike(E.Apply(a, E.Join(mid, at)), E.Apply(b, E.Join(mid, at)))
  {
    hide AccountsAlike, JobsAlike, Next;
  }

  lemma TablesAlikeSelf(db: Db)
    ensures TablesAlike(db, db)
  {
  }

  /** Leave out of every run of a history any members the provider could not tell
      about: memberships, subscriptions, users and every message are the same at
      the end, and so is which periods are on record; accounts differ in check
      fields only, job rows in the members processed and skipped only, by the same
      number. Claims, rollbacks and failures of Telegram fall alike. */
  lemma {:induction false} OutagesAreInvisibleInRuns(db: Db, ts: seq<Thinned>)
    requires AllOnlyOutages(db, ts)
    ensures var thin, full := ThinAfter(db, ts), E.After(db, Steps(ts));
            && ThinLog(db, ts) == Log(db, Steps(ts))
            && thin.memberships == full.memberships && thin.subscriptions == full.subscriptions
               && thin.users == full.users
            && AccountsAlike(thin.accounts, full.accounts) && JobsAlike(thin.jobs, full.jobs)
            && TablesAlike(thin, full)
  {
    hide ThinApply, E.Apply, ThinMessages, Messages, OnlyOutages, AccountsAlike, JobsAlike;
    if ts == [] {
      TablesAlikeSelf(db);
    } else {
      var n := |ts| - 1;
      assert Steps(ts)[..n] == Steps(ts[..n]) && Steps(ts)[n] == ts[n].step;
      forall k: nat | k < n
        ensures OnlyOutages(E.After(db, Steps(ts[..n])[..k]), ts[..n][k])
      {
        assert Steps(ts[..n])[..k] == Steps(ts)[..k];
      }
      OutagesAreInvisibleInRuns(db, ts[..n]);
      StepsAlike(ThinAfter(db, ts[..n]), E.After(db, Steps(ts[..n])), ts[n]);
    }
  }
}
