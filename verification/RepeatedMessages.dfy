/** A reachable log in which one member gets the same warning twice. */
module RepeatedMessages {
  import opened Types
  import opened Eligibility
  import opened Rows
  import opened Compliance
  import opened Lifecycle
  import opened Sweep
  import opened Runs
  import opened Claims
  import opened Serializability
  import opened PeriodLock
  import opened Witnesses
  import E = Engine
  import Uid

  /** Claim, process the one member, commit. */
  function WholeTry(ask: Ask): seq<Move> {
    [Begin(0, ask), TryClaim(0), Work(0), Commit(0)]
  }

  lemma WholeTrySends(s: State, ask: Ask, db: Db)
    requires s.procs == map[] && ask.tenant in s.committed && db == s.committed[ask.tenant] && ask.Start() !in db.jobs
    requires MonitoredIds(db.memberships) == [0] && |db.memberships| > 0
    requires MemberPass(ask.Cx(), Claim(db, ask.Start()), 0).Done?
    ensures var end := Exec(s, WholeTry(ask));
            && end.log == Sent(s, ask.Key(), MemberPass(ask.Cx(), Claim(db, ask.Start()), 0).effects).log
            && ask.tenant in end.committed && ask.Start() in end.committed[ask.tenant].jobs
  {
    var p := Holding(ask, db, Claim(db, ask.Start()), MonitoredIds(db.memberships), 0, ZERO);
    var claimed := s.(procs := map[0 := p]);
    assert Holds(claimed, 0) && NextInRange(p) by { hide MemberPass; }
    hide MemberPass, Exec, PeriodStart, MonitoredIds;
    FourMoves(s, Begin(0, ask), TryClaim(0), Work(0), Commit(0));
    ClaimGranted(s, ask, p);
    WorkThenCommit(claimed, p);
  }

  lemma WorkThenCommit(s: State, p: Proc)
    requires p.Holding? && s.procs == map[0 := p] && |p.list| == 1 && p.done == 0 && NextInRange(p)
    requires p.ask.tenant in s.committed && p.ask.Start() !in p.base.jobs
    requires MemberPass(p.ask.Cx(), p.local, p.list[0]).Done?
    ensures var end := Step(Step(s, Work(0)), Commit(0));
            && end.log == Sent(s, p.ask.Key(), MemberPass(p.ask.Cx(), p.local, p.list[0]).effects).log
            && p.ask.tenant in end.committed && p.ask.Start() in end.committed[p.ask.tenant].jobs
  {
    hide MemberPass, MergeRows, PeriodStart;
    var here := MemberPass(p.ask.Cx(), p.local, p.list[0]);
    var q := p.(local := here.db, done := 1, tally := p.tally.Plus(here.tally));
    var mid := Step(s, Work(0));
    assert Holds(mid, 0) && HolderOf(mid, 0) == q && Commits(mid, Commit(0));
    assert p.ask.Start() in Finished(q).jobs
      && p.ask.Start() in Publish(mid.committed[p.ask.tenant], q.base, Finished(q)).jobs;
  }

  /** What the first sweep past grace has to say to a failing member. */
  function FirstWarning(member: int): Effect {
    Message(member, Warning(1, 3, NotRegistered))
  }

  /** One member, with `n` warnings. */
  predicate Counts(db: Db, n: int) {
    |db.memberships| == 1 && db.memberships[0].warnings == n
  }

  lemma FirstSweepWarns(db: Db, market: Market, uid: string, member: int, period: Period, now: Time)
    requires Watched(db, market, uid) && db.users == [User(member, None)] && member != 0
             && Unsuspecting(db.memberships[0], now)
    requires (0, PeriodStart(now, period)) !in db.snapshots
    ensures var o := MemberPass(ContextFor(Default(period, uid, STRANGER), now), Claim(db, PeriodStart(now, period)),
              0);
            o.Done? && o.effects == [FirstWarning(member)] && o.tally.warned == 1 && Counts(o.db, 1)
  {
    var cx, claimed := ContextFor(Default(period, uid, STRANGER), now), Claim(db, PeriodStart(now, period));
    var m := db.memberships[0];
    assert SweepAt(now, 5 * DAY, 0) == now && Warned(m, now, 5 * DAY, 0) == m;
    WarnedStep(m, now, 5 * DAY, 0);
    hide PeriodStart, DecisionOn, MemberPass, Next;
    FirstOwned(db, market, uid);
    PassOfStranger(cx, claimed, market, uid);
  }

  /** One tenant, one member admitted by a submission, thirty days on. The first
      attempt at the period dies after its message is out; the second commits. The
      member has the same first warning twice, and the row says one. */
  lemma OneWarningTwice(raw: string, member: int, t1: Time, period: Period, now: Time)
    requires Uid.IsValid(Uid.Normalize(raw)) && member != 0 && t1 + 30 * DAY <= now
    ensures var db := E.After(START, [TryIn(raw, Crypto, CLIENT, member, t1)]);
            var ask := Ask(0, Default(period, Uid.Normalize(raw), STRANGER), now);
            var end := Exec(State(map[0 := db], map[], []), AbortedTry(ask) + WholeTry(ask));
            && end.log == [(ask.Key(), FirstWarning(member)), (ask.Key(), FirstWarning(member))]
            && 0 in end.committed && ask.Start() in end.committed[0].jobs
  {
    hide Uid.IsValid, Uid.Normalize;
    var step := TryIn(raw, Crypto, CLIENT, member, t1);
    FirstAdmitted(raw, Crypto, member, t1);
    AfterOne(START, step);
    var db := E.After(START, [step]);
    hide E.After, Exec, PeriodStart;
    var ask := Ask(0, Default(period, Uid.Normalize(raw), STRANGER), now);
    var s := State(map[0 := db], map[], []);
    FirstSweepWarns(db, Crypto, Uid.Normalize(raw), member, period, now);
    OnlyOneListed(db);
    hide MemberPass;
    AbortedTrySends(s, ask, db);
    var again := Exec(s, AbortedTry(ask));
    WholeTrySends(again, ask, db);
    ExecConcat(s, AbortedTry(ask), WholeTry(ask));
    assert Tagged(ask.Key(), [FirstWarning(member)]) == [(ask.Key(), FirstWarning(member))];
  }

  // Two periods at once.

  function Overlapping(a: Ask, b: Ask): seq<Move> {
    [Begin(0, a), TryClaim(0), Begin(1, b), TryClaim(1)]
  }

  function WorkAndCommit(): seq<Move> {
    [Work(0), Work(1), Commit(0), Commit(1)]
  }

  function Opened(ask: Ask, db: Db): Proc {
    Holding(ask, db, Claim(db, ask.Start()), MonitoredIds(db.memberships), 0, ZERO)
  }

  lemma BothClaim(s: State, a: Ask, b: Ask, db: Db)
    requires s.procs == map[] && a.tenant == b.tenant && a.tenant in s.committed && db == s.committed[a.tenant]
    requires a.Start() !in db.jobs && b.Start() !in db.jobs && a.Start() != b.Start()
    ensures Exec(s, Overlapping(a, b)) == s.(procs := map[0 := Opened(a, db), 1 := Opened(b, db)])
  {
    hide PeriodStart, Claim, MonitoredIds, Exec, Step;
    FourMoves(s, Begin(0, a), TryClaim(0), Begin(1, b), TryClaim(1));
    ClaimGranted(s, a, Opened(a, db));
    SecondBegins(s.(procs := map[0 := Opened(a, db)]), b);
    SecondClaims(s, Opened(a, db), b, db);
  }

  lemma SecondBegins(s: State, b: Ask)
    requires 1 !in s.procs && b.tenant in s.committed
    ensures Step(s, Begin(1, b)) == s.(procs := s.procs[1 := Claiming(b)])
  {
  }

  lemma SecondClaims(s: State, first: Proc, b: Ask, db: Db)
    requires first.Holding? && first.ask.Key() != b.Key() && b.tenant in s.committed && db == s.committed[b.tenant]
    requires b.Start() !in db.jobs
    ensures Step(s.(procs := map[0 := first][1 := Claiming(b)]), TryClaim(1)) ==
              s.(procs := map[0 := first, 1 := Opened(b, db)])
  {
    hide PeriodStart, Claim, MonitoredIds;
    var s3 := s.(procs := map[0 := first][1 := Claiming(b)]);
    assert !Blocked(s3, b.Key());
  }

  /** The transaction once its one member is processed. */
  function Worked(p: Proc): Proc
    requires p.Holding? && |p.list| == 1 && p.list[0] < |p.local.memberships| && OnlyPass(p).Done?
  {
    p.(local := OnlyPass(p).db, done := 1, tally := p.tally.Plus(OnlyPass(p).tally))
  }

  lemma OneWorks(s: State, pid: Pid, p: Proc)
    requires pid in s.procs && s.procs[pid] == p && Ready(p)
    ensures Step(s, Work(pid)) == Sent(s, p.ask.Key(), OnlyPass(p).effects).(procs := s.procs[pid := Worked(p)])
  {
    hide MemberPass, OwnJobs;
  }

  lemma OneCommits(s: State, pid: Pid)
    requires Commits(s, Commit(pid)) && OwnJobs(HolderOf(s, pid))
    ensures var next, p := Step(s, Commit(pid)), HolderOf(s, pid);
            && next.log == s.log && next.procs == s.procs - {pid} && next.committed.Keys == s.committed.Keys
            && next.committed[p.ask.tenant].jobs == s.committed[p.ask.tenant].jobs[p.ask.Start() := JobRow(p.tally)]
            && (WarnedFirst(p) && |s.committed[p.ask.tenant].memberships| == 1 ==>
                  Counts(next.committed[p.ask.tenant], 1))
  {
    var p := HolderOf(s, pid);
    PublishedJobs(s.committed[p.ask.tenant], p);
    if WarnedFirst(p) && |s.committed[p.ask.tenant].memberships| == 1 {
      PublishedWarning(s.committed[p.ask.tenant], p);
    }
    hide Publish, Finished, PeriodStart, JobRow, OwnJobs, WarnedFirst, Counts;
  }

  /** The transaction gives its one member the first warning. */
  ghost predicate WarnedFirst(p: Proc) {
    p.Holding? && Counts(p.base, 0) && Counts(p.local, 1)
  }

  lemma PublishedWarning(current: Db, p: Proc)
    requires WarnedFirst(p) && |current.memberships| == 1
    ensures Counts(Publish(current, p.base, Finished(p)), 1)
  {
    hide PeriodStart, JobRow;
    assert Publish(current, p.base, Finished(p)).memberships[0] ==
        MergeMembership(current.memberships[0], p.base.memberships[0], p.local.memberships[0]);
  }

  /** An opened run with one member to process. */
  ghost predicate Ready(p: Proc) {
    p.Holding? && p.done == 0 && p.tally == ZERO && |p.list| == 1 && NextInRange(p) && OwnJobs(p)
    && MemberPass(p.ask.Cx(), p.local, p.list[0]).Done?
  }

  function OnlyPass(p: Proc): Outcome
    requires p.Holding? && |p.list| == 1 && p.list[0] < |p.local.memberships|
  {
    MemberPass(p.ask.Cx(), p.local, p.list[0])
  }

  lemma WorkedIsDone(p: Proc)
    requires Ready(p)
    ensures Worked(p).Holding? && Worked(p).ask == p.ask && Worked(p).tally == ZERO.Plus(OnlyPass(p).tally)
    ensures OwnJobs(Worked(p)) && Worked(p).done == |Worked(p).list|
    ensures Counts(p.base, 0) && Counts(OnlyPass(p).db, 1) ==> WarnedFirst(Worked(p))
  {
    hide MemberPass, PeriodStart;
    PassKeepsJobs(p.ask.Cx(), p.local, p.list[0]);
  }

  lemma BothWork(s: State, p: Proc, q: Proc)
    requires Ready(p) && Ready(q) && s.procs == map[0 := p, 1 := q]
    ensures Step(Step(s, Work(0)), Work(1)) ==
              State(s.committed, map[0 := Worked(p), 1 := Worked(q)],
                    s.log + Tagged(p.ask.Key(), OnlyPass(p).effects) + Tagged(q.ask.Key(), OnlyPass(q).effects))
  {
    hide MemberPass, Step, Tagged, OwnJobs, PeriodStart, MonitoredIds;
    OneWorks(s, 0, p);
    var s1 := Sent(s, p.ask.Key(), OnlyPass(p).effects).(procs := s.procs[0 := Worked(p)]);
    OneWorks(s1, 1, q);
    assert s1.procs[1 := Worked(q)] == map[0 := Worked(p), 1 := Worked(q)];
  }

  lemma BothCommit(s: State, p: Proc, q: Proc)
    requires s.procs == map[0 := p, 1 := q] && p.Holding? && q.Holding? && p.ask.tenant == q.ask.tenant
    requires OwnJobs(p) && OwnJobs(q) && p.done == |p.list| && q.done == |q.list| && p.ask.tenant in s.committed
    requires WarnedFirst(p) && WarnedFirst(q) && |s.committed[p.ask.tenant].memberships| == 1
    ensures var end := Step(Step(s, Commit(0)), Commit(1));
            && end.log == s.log && p.ask.tenant in end.committed
            && end.committed[p.ask.tenant].jobs ==
                 s.committed[p.ask.tenant].jobs[p.ask.Start() := JobRow(p.tally)][q.ask.Start() := JobRow(q.tally)]
            && Counts(end.committed[p.ask.tenant], 1)
  {
    hide WarnedFirst, Step, OwnJobs, JobRow, PeriodStart;
    OneCommits(s, 0);
    var next := Step(s, Commit(0));
    assert next.procs == map[1 := q];
    OneCommits(next, 1);
  }

  lemma BothWorkAndCommit(s: State, p: Proc, q: Proc)
    requires Ready(p) && Ready(q) && s.procs == map[0 := p, 1 := q] && p.ask.tenant == q.ask.tenant
    requires p.ask.tenant in s.committed && |s.committed[p.ask.tenant].memberships| == 1
    requires Counts(p.base, 0) && Counts(OnlyPass(p).db, 1) && Counts(q.base, 0) && Counts(OnlyPass(q).db, 1)
    ensures var end := Exec(s, WorkAndCommit());
            && end.log == s.log + Tagged(p.ask.Key(), OnlyPass(p).effects) + Tagged(q.ask.Key(), OnlyPass(q).effects)
            && p.ask.tenant in end.committed
            && end.committed[p.ask.tenant].jobs ==
                 s.committed[p.ask.tenant].jobs[p.ask.Start() := JobRow(ZERO.Plus(OnlyPass(p).tally))]
                                               [q.ask.Start() := JobRow(ZERO.Plus(OnlyPass(q).tally))]
            && Counts(end.committed[p.ask.tenant], 1)
  {
    WorkedIsDone(p);
    WorkedIsDone(q);
    BothWork(s, p, q);
    hide OnlyPass, Worked, Exec, PeriodStart, Step, Tagged, OwnJobs, JobRow, WarnedFirst, Counts;
    FourMoves(s, Work(0), Work(1), Commit(0), Commit(1));
    BothCommit(Step(Step(s, Work(0)), Work(1)), Worked(p), Worked(q));
  }

  /** What one period's job row says was warned. */
  function WarnedOn(db: Db, start: Time): int {
    if start in db.jobs then db.jobs[start].warned else 0
  }

  lemma OpenedIsReady(ask: Ask, db: Db, member: int, uid: string, period: Period, now: Time)
    requires ask == Ask(0, Default(period, uid, STRANGER), now)
    requires Watched(db, Crypto, uid) && db.users == [User(member, None)] && member != 0
    requires Unsuspecting(db.memberships[0], now)
    requires db.jobs == map[] && db.snapshots == map[]
    ensures Ready(Opened(ask, db)) && OnlyPass(Opened(ask, db)).effects == [FirstWarning(member)]
    ensures OnlyPass(Opened(ask, db)).tally.warned == 1 && Counts(OnlyPass(Opened(ask, db)).db, 1)
  {
    OnlyOneListed(db);
    FirstSweepWarns(db, Crypto, uid, member, period, now);
    hide MemberPass, PeriodStart, MonitoredIds, Ready, OnlyPass;
    SoloIsReady(ask, db);
  }

  lemma SoloIsReady(ask: Ask, db: Db)
    requires |db.memberships| == 1 && MonitoredIds(db.memberships) == [0] && ask.Start() !in db.jobs
    requires MemberPass(ask.Cx(), Claim(db, ask.Start()), 0).Done?
    ensures Ready(Opened(ask, db)) && OnlyPass(Opened(ask, db)) == MemberPass(ask.Cx(), Claim(db, ask.Start()), 0)
  {
    hide MemberPass, PeriodStart, MonitoredIds;
  }

  lemma TagOne(key: Key, e: Effect)
    ensures Tagged(key, [e]) == [(key, e)]
  {
  }

  lemma OverlapRun(s: State, a: Ask, b: Ask, db: Db, member: int)
    requires s.procs == map[] && s.log == [] && a.tenant == b.tenant && a.tenant in s.committed
    requires db == s.committed[a.tenant] && db.jobs == map[] && a.Start() != b.Start()
    requires Ready(Opened(a, db)) && OnlyPass(Opened(a, db)).effects == [FirstWarning(member)]
    requires Ready(Opened(b, db)) && OnlyPass(Opened(b, db)).effects == [FirstWarning(member)]
    requires OnlyPass(Opened(a, db)).tally.warned == OnlyPass(Opened(b, db)).tally.warned == 1 && Counts(db, 0)
    requires Counts(OnlyPass(Opened(a, db)).db, 1) && Counts(OnlyPass(Opened(b, db)).db, 1)
    ensures var end := Exec(s, Overlapping(a, b) + WorkAndCommit());
            && end.log == [(a.Key(), FirstWarning(member)), (b.Key(), FirstWarning(member))]
            && a.tenant in end.committed && WarnedOn(end.committed[a.tenant], a.Start()) == 1
            && WarnedOn(end.committed[a.tenant], b.Start()) == 1 && Counts(end.committed[a.tenant], 1)
  {
    hide MemberPass, OnlyPass, Exec, PeriodStart, Ready, MonitoredIds, Overlapping, WorkAndCommit, Tagged, FirstWarning;
    BothClaim(s, a, b, db);
    BothWorkAndCommit(Exec(s, Overlapping(a, b)), Opened(a, db), Opened(b, db));
    ExecConcat(s, Overlapping(a, b), WorkAndCommit());
    TagOne(a.Key(), FirstWarning(member));
    TagOne(b.Key(), FirstWarning(member));
  }

  /** Why runs of different periods must not overlap. Whatever their two instants,
      there is a member for whom it goes wrong: both open at once, each gives the
      first warning and puts it in its job row, and the membership counts one. One
      after the other, in either order, the second keeps silent if the five days have
      not passed, and counts two if they have; so what the two leave is not what any
      serial execution leaves. */
  lemma OverlapWarnsTwice(raw: string, member: int, t1: Time, period: Period, now: Time, later: Time)
    requires Uid.IsValid(Uid.Normalize(raw)) && member != 0 && t1 + 30 * DAY <= now && t1 + 30 * DAY <= later
    requires PeriodStart(now, period) != PeriodStart(later, period)
    ensures var db := E.After(START, [TryIn(raw, Crypto, CLIENT, member, t1)]);
            var settings := Default(period, Uid.Normalize(raw), STRANGER);
            var a, b := Ask(0, settings, now), Ask(0, settings, later);
            var end := Exec(State(map[0 := db], map[], []), Overlapping(a, b) + WorkAndCommit());
            var ab, ba := Serial(map[0 := db], [a, b]), Serial(map[0 := db], [b, a]);
            && end.log == [(a.Key(), FirstWarning(member)), (b.Key(), FirstWarning(member))]
            && 0 in end.committed && WarnedOn(end.committed[0], a.Start()) == WarnedOn(end.committed[0], b.Start()) == 1
            && Counts(end.committed[0], 1)
            && 0 in ab && ab[0] != end.committed[0] && 0 in ba && ba[0] != end.committed[0]
            && (if later < now + 5 * DAY then WarnedOn(ab[0], b.Start()) == 0 else Counts(ab[0], 2))
            && (if now < later + 5 * DAY then WarnedOn(ba[0], a.Start()) == 0 else Counts(ba[0], 2))
  {
    hide Uid.IsValid, Uid.Normalize;
    var step := TryIn(raw, Crypto, CLIENT, member, t1);
    FirstAdmitted(raw, Crypto, member, t1);
    AfterOne(START, step);
    var db := E.After(START, [step]);
    hide E.After, Exec, PeriodStart;
    var uid := Uid.Normalize(raw);
    var a, b := Ask(0, Default(period, uid, STRANGER), now), Ask(0, Default(period, uid, STRANGER), later);
    var s := State(map[0 := db], map[], []);
    assert Unsuspecting(db.memberships[0], now) && Unsuspecting(db.memberships[0], later) && Counts(db, 0);
    hide Unsuspecting, Serial, OnlyPass, Ready, Opened, Overlapping, WorkAndCommit;
    OpenedIsReady(a, db, member, uid, period, now);
    OpenedIsReady(b, db, member, uid, period, later);
    OverlapRun(s, a, b, db, member);
    SecondDiffers(db, uid, period, now, later);
    SecondDiffers(db, uid, period, later, now);
  }

  lemma TooEarlyAgain(m: Membership, first: Time, second: Time)
    requires Unsuspecting(m, first) && Unsuspecting(m, second) && second < first + 5 * DAY
    ensures DecisionOn(Warned(m, first, 5 * DAY, 1), Failing(second)).action == NoAction
  {
    assert SweepAt(first, 5 * DAY, 0) == first;
  }

  /** The second of two runs, alone on what the first left. */
  lemma SecondDiffers(db: Db, uid: string, period: Period, first: Time, second: Time)
    requires Watched(db, Crypto, uid) && Unsuspecting(db.memberships[0], first)
    requires Unsuspecting(db.memberships[0], second) && db.jobs == map[] && db.snapshots == map[]
    requires PeriodStart(first, period) != PeriodStart(second, period)
    ensures var settings := Default(period, uid, STRANGER);
            var end := Serial(map[0 := db], [Ask(0, settings, first), Ask(0, settings, second)]);
            && 0 in end
            && if second < first + 5 * DAY then WarnedOn(end[0], PeriodStart(second, period)) == 0
               else Counts(end[0], 2)
  {
    var settings := Default(period, uid, STRANGER);
    hide PeriodStart, Kept, RunMonitor, Watched, Unsuspecting, Serial, Default, WarnedOn, Counts;
    var next := Kept(settings, db, first, 3);
    SecondRun(db, uid, period, first, second);
    var end := RunMonitor(settings, next, second).db;
    SerialTwo(map[0 := db], Ask(0, settings, first), Ask(0, settings, second), next, end);
  }

  lemma SecondRun(db: Db, uid: string, period: Period, first: Time, second: Time)
    requires Watched(db, Crypto, uid) && Unsuspecting(db.memberships[0], first)
    requires Unsuspecting(db.memberships[0], second) && db.jobs == map[] && db.snapshots == map[]
    requires PeriodStart(first, period) != PeriodStart(second, period)
    ensures var settings := Default(period, uid, STRANGER);
            var one := RunMonitor(settings, db, first);
            var two := RunMonitor(settings, Kept(settings, db, first, 3), second);
            && one.Completed? && one.db == Kept(settings, db, first, 3) && two.Completed?
            && if second < first + 5 * DAY then WarnedOn(two.db, PeriodStart(second, period)) == 0
               else Counts(two.db, 2)
  {
    var settings := Default(period, uid, STRANGER);
    assert settings.period == period;
    hide PeriodStart, Kept, RunMonitor, Watched, Monitored, Unsuspecting, Default, WarnedOn, Counts, DecisionOn;
    var next := Kept(settings, db, first, 3);
    if second < first + 5 * DAY {
      SecondFindsTooEarly(db, uid, period, first, second);
      SilentRun(next, uid, period, second);
    } else {
      FirstWarned(db, uid, period, first, second);
      SecondWarned(next, db.memberships[0], uid, period, first, second);
      KeptIsTheRun(settings, next, second, 3);
    }
    KeptIsTheRun(settings, db, first, 3);
  }

  lemma FirstWarned(db: Db, uid: string, period: Period, first: Time, second: Time)
    requires Watched(db, Crypto, uid) && Unsuspecting(db.memberships[0], first)
    requires second >= first + 5 * DAY && db.jobs == map[] && db.snapshots == map[]
    requires PeriodStart(first, period) != PeriodStart(second, period)
    ensures var next := Kept(Default(period, uid, STRANGER), db, first, 3);
            && Watched(next, Crypto, uid)
            && next.memberships == [Warned(db.memberships[0], first, second - first, 1)]
            && PeriodStart(first, period) in next.jobs && PeriodStart(second, period) !in next.jobs
            && (forall k | k in next.snapshots :: k.1 in next.jobs)
  {
    var m, d := db.memberships[0], second - first;
    assert SweepAt(first, d, 0) == first && Warned(m, first, d, 0) == m;
    WarnedStep(m, first, d, 0);
    hide PeriodStart, DecisionOn, Next, Kept, Watched, Warned;
    SweptOnce(db, Crypto, uid, period, first);
  }

  lemma SecondWarned(db: Db, m: Membership, uid: string, period: Period, first: Time, second: Time)
    requires Watched(db, Crypto, uid) && Unsuspecting(m, first) && second >= first + 5 * DAY
    requires db.memberships == [Warned(m, first, second - first, 1)]
    requires PeriodStart(second, period) !in db.jobs && forall k | k in db.snapshots :: k.1 in db.jobs
    ensures var end := Kept(Default(period, uid, STRANGER), db, second, 3);
            PeriodStart(second, period) in end.jobs && Counts(end, 2)
  {
    var d := second - first;
    assert SweepAt(first, d, 1) == second;
    WarnedStep(m, first, d, 1);
    assert Monitored(db.memberships[0].status);
    hide PeriodStart, DecisionOn, Next, Kept, Watched;
    SweptOnce(db, Crypto, uid, period, second);
  }

  lemma SecondFindsTooEarly(db: Db, uid: string, period: Period, first: Time, second: Time)
    requires Watched(db, Crypto, uid) && Unsuspecting(db.memberships[0], first)
    requires Unsuspecting(db.memberships[0], second)
    requires second < first + 5 * DAY && db.jobs == map[] && db.snapshots == map[]
    requires PeriodStart(first, period) != PeriodStart(second, period)
    ensures var next := Kept(Default(period, uid, STRANGER), db, first, 3);
            && Watched(next, Crypto, uid) && Monitored(next.memberships[0].status)
            && DecisionOn(next.memberships[0], Failing(second)).action == NoAction
            && PeriodStart(first, period) in next.jobs && PeriodStart(second, period) !in next.jobs
            && (0, PeriodStart(second, period)) !in next.snapshots
  {
    var m := db.memberships[0];
    assert SweepAt(first, 5 * DAY, 0) == first && Warned(m, first, 5 * DAY, 0) == m;
    WarnedStep(m, first, 5 * DAY, 0);
    TooEarlyAgain(m, first, second);
    hide PeriodStart, DecisionOn, Next, Kept, Watched;
    SweptOnce(db, Crypto, uid, period, first);
  }

  lemma KeptIsTheRun(settings: Settings, db: Db, now: Time, serves: nat)
    requires PeriodStart(now, settings.period) !in db.jobs
    requires PeriodStart(now, settings.period) in Kept(settings, db, now, serves).jobs
    ensures var r := RunMonitor(settings, db, now); r.Completed? && r.db == Kept(settings, db, now, serves)
  {
  }

  lemma SerialTwo(committed: map<TenantId, Db>, a: Ask, b: Ask, mid: Db, end: Db)
    requires a.tenant == b.tenant && a.tenant in committed
    requires var r := RunMonitor(a.settings, committed[a.tenant], a.now); r.Completed? && r.db == mid
    requires var r := RunMonitor(b.settings, mid, b.now); r.Completed? && r.db == end
    ensures Serial(committed, [a, b]) == committed[a.tenant := end]
  {
    hide RunMonitor;
    assert [a, b][..1] == [a] && [a][..0] == [];
    assert Serial(committed, []) == committed;
    assert Serial(committed, [a]) == committed[a.tenant := mid];
    assert committed[a.tenant := mid][a.tenant := end] == committed[a.tenant := end];
  }

  lemma SilentRun(db: Db, uid: string, period: Period, now: Time)
    requires Watched(db, Crypto, uid) && Monitored(db.memberships[0].status)
    requires DecisionOn(db.memberships[0], Failing(now)).action == NoAction
    requires PeriodStart(now, period) !in db.jobs && (0, PeriodStart(now, period)) !in db.snapshots
    ensures var r := RunMonitor(Default(period, uid, STRANGER), db, now);
            r.Completed? && r.effects == [] && WarnedOn(r.db, PeriodStart(now, period)) == 0
  {
    hide PeriodStart, DecisionOn, Next, MemberPass, SweepOver;
    var cx, claimed := ContextFor(Default(period, uid, STRANGER), now), Claim(db, PeriodStart(now, period));
    OnlyOneListed(db);
    FirstOwned(claimed, Crypto, uid);
    PassOfStranger(cx, claimed, Crypto, uid);
    SweepOfOne(cx, claimed);
  }
}
