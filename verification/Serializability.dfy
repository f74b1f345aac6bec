/** Interleaved runs leave what the same runs leave one after another. */
module Serializability {
  import opened Types
  import opened Rows
  import opened Eligibility
  import opened Compliance
  import opened Lifecycle
  import opened PeriodLock
  import opened Sweep
  import opened Runs
  import opened Claims

  /** No tenant has two runs (of different periods) open at once. */
  ghost predicate Apart(s: State) {
    forall p, q | Holds(s, p) && Holds(s, q) && p != q :: HolderOf(s, p).ask.tenant != HolderOf(s, q).ask.tenant
  }

  ghost predicate NeverOverlap(s: State, moves: seq<Move>)
    decreases |moves|
  {
    Apart(Exec(s, moves)) && (moves != [] ==> NeverOverlap(s, moves[..|moves| - 1]))
  }

  /** What a transaction only adds to or updates in place. */
  ghost predicate Extends(a: Db, b: Db) {
    && a.users == b.users && a.configs == b.configs && a.channels == b.channels
    && |a.accounts| == |b.accounts| && |a.subscriptions| == |b.subscriptions| && |a.memberships| == |b.memberships|
    && a.jobs == b.jobs
    && (forall k | k in a.snapshots :: k in b.snapshots && b.snapshots[k] == a.snapshots[k])
  }

  lemma PassExtends(cx: Context, db: Db, mid: nat)
    requires mid < |db.memberships| && MemberPass(cx, db, mid).Done?
    ensures Extends(db, MemberPass(cx, db, mid).db)
  {
    hide Decide, Decided, Effects, Evaluate;
  }

  lemma {:induction false} SweepExtends(cx: Context, db: Db, mids: seq<nat>)
    requires InRange(db, mids) && SweepOver(cx, db, mids).Done?
    ensures Extends(db, SweepOver(cx, db, mids).db)
  {
    hide MemberPass;
    if mids != [] {
      var n := |mids| - 1;
      SweepExtends(cx, db, mids[..n]);
      PassExtends(cx, SweepOver(cx, db, mids[..n]).db, mids[n]);
    }
  }

  /** The transaction stands where a run of its ask alone on `db` would stand after
      `done` members. */
  ghost predicate Progress(p: Proc, db: Db)
    requires p.Holding?
  {
    && p.base == db && p.ask.Start() !in db.jobs && p.list == MonitoredIds(db.memberships) && p.done <= |p.list|
    && InRange(Claim(db, p.ask.Start()), p.list[..p.done])
    && var o := SweepOver(p.ask.Cx(), Claim(db, p.ask.Start()), p.list[..p.done]);
       o.Done? && o.db == p.local && o.tally == p.tally
  }

  ghost predicate SerialInv(s: State, start: map<TenantId, Db>, asks: seq<Ask>) {
    && s.committed == Serial(start, asks)
    && forall p | Holds(s, p) ::
         HolderOf(s, p).ask.tenant in s.committed && Progress(HolderOf(s, p), s.committed[HolderOf(s, p).ask.tenant])
  }

  lemma UntouchedRowsMerge<T>(base: seq<T>, local: seq<T>, merge: (T, T, T) -> T)
    requires |base| == |local| && forall x, y :: merge(x, x, y) == y
    ensures MergeRows(base, base, local, merge) == local
  {
  }

  /** With nobody else writing the tenant, publishing puts the whole view in place. */
  lemma PublishWhole(p: Proc)
    requires p.Holding? && Extends(Claim(p.base, p.ask.Start()), p.local) && p.ask.Start() !in p.base.jobs
    ensures Publish(p.base, p.base, Finished(p)) == Finished(p)
  {
    var f := Finished(p);
    UntouchedRowsMerge(p.base.accounts, f.accounts, MergeAccount);
    UntouchedRowsMerge(p.base.subscriptions, f.subscriptions, MergeSubscription);
    UntouchedRowsMerge(p.base.memberships, f.memberships, MergeMembership);
    assert p.base.snapshots + (f.snapshots - p.base.snapshots.Keys) == f.snapshots;
    assert p.base.jobs + (f.jobs - p.base.jobs.Keys) == f.jobs;
  }

  lemma FinishedIsTheRun(p: Proc, db: Db)
    requires p.Holding? && Progress(p, db) && p.done == |p.list|
    ensures var r := RunMonitor(p.ask.settings, db, p.ask.now);
            r.Completed? && r.db == Finished(p) && Publish(db, p.base, Finished(p)) == Finished(p)
  {
    hide SweepOver, Publish;
    assert p.list[..p.done] == p.list;
    SweepExtends(p.ask.Cx(), Claim(db, p.ask.Start()), p.list);
    PublishWhole(p);
  }

  lemma CommitIsSerial(s: State, start: map<TenantId, Db>, asks: seq<Ask>, move: Move)
    requires SerialInv(s, start, asks) && Apart(s) && Commits(s, move)
    ensures SerialInv(Step(s, move), start, asks + [HolderOf(s, move.pid).ask])
  {
    hide Progress, Publish, Finished, RunMonitor;
    var p := HolderOf(s, move.pid);
    var t := p.ask.tenant;
    var next := Step(s, move);
    FinishedIsTheRun(p, s.committed[t]);
    SerialSnoc(start, asks, p.ask);
    assert next.committed == s.committed[t := Finished(p)];
    forall q | Holds(next, q)
      ensures HolderOf(next, q).ask.tenant in next.committed
      ensures Progress(HolderOf(next, q), next.committed[HolderOf(next, q).ask.tenant])
    {
      assert Holds(s, q) && q != move.pid && HolderOf(next, q) == HolderOf(s, q) && HolderOf(s, q).ask.tenant != t;
    }
  }

  lemma SerialSnoc(start: map<TenantId, Db>, asks: seq<Ask>, a: Ask)
    ensures var before := Serial(start, asks);
            a.tenant in before && RunMonitor(a.settings, before[a.tenant], a.now).Completed? ==>
              Serial(start, asks + [a]) == before[a.tenant := RunMonitor(a.settings, before[a.tenant], a.now).db]
  {
    assert (asks + [a])[..|asks|] == asks;
  }

  lemma WorkProgresses(p: Proc, db: Db)
    requires p.Holding? && Progress(p, db) && NextInRange(p) && MemberPass(p.ask.Cx(), p.local, p.list[p.done]).Done?
    ensures var o := MemberPass(p.ask.Cx(), p.local, p.list[p.done]);
            Progress(p.(local := o.db, done := p.done + 1, tally := p.tally.Plus(o.tally)), db)
  {
    hide MemberPass;
    var claimed := Claim(db, p.ask.Start());
    ListIsDistinct(db);
    SweepSnoc(p.ask.Cx(), claimed, p.list, p.done, SweepOver(p.ask.Cx(), claimed, p.list[..p.done]),
        MemberPass(p.ask.Cx(), p.local, p.list[p.done]));
  }

  lemma OthersSerial(s: State, start: map<TenantId, Db>, asks: seq<Ask>, move: Move)
    requires SerialInv(s, start, asks) && !Commits(s, move)
    ensures SerialInv(Step(s, move), start, asks)
  {
    hide MemberPass, Progress, Blocked;
    var next := Step(s, move);
    assert next.committed == s.committed;
    forall q | Holds(next, q)
      ensures HolderOf(next, q).ask.tenant in next.committed
      ensures Progress(HolderOf(next, q), next.committed[HolderOf(next, q).ask.tenant])
    {
      if Holds(s, q) && HolderOf(next, q) == HolderOf(s, q) {
      } else if move.Work? {
        WorkProgresses(HolderOf(s, q), s.committed[HolderOf(s, q).ask.tenant]);
      } else {
        FirstProgress(HolderOf(next, q), s.committed[HolderOf(next, q).ask.tenant]);
      }
    }
  }

  lemma FirstProgress(p: Proc, db: Db)
    requires p.Holding? && p == Holding(p.ask, db, Claim(db, p.ask.Start()), MonitoredIds(db.memberships), 0, ZERO)
    requires p.ask.Start() !in db.jobs
    ensures Progress(p, db)
  {
    assert p.list[..0] == [];
  }

  lemma {:induction false} RunsAreSerial(s: State, moves: seq<Move>)
    requires (forall p :: p !in s.procs) && NeverOverlap(s, moves)
    ensures SerialInv(Exec(s, moves), s.committed, Committed(s, moves))
    decreases |moves|
  {
    hide Step, SerialInv, Apart;
    if moves == [] {
      NoneHolds(s);
    } else {
      var n := |moves| - 1;
      RunsAreSerial(s, moves[..n]);
      var before := Exec(s, moves[..n]);
      assert NeverOverlap(s, moves[..n]);
      if Commits(before, moves[n]) {
        CommitIsSerial(before, s.committed, Committed(s, moves[..n]), moves[n]);
      } else {
        OthersSerial(before, s.committed, Committed(s, moves[..n]), moves[n]);
        assert Committed(s, moves) == Committed(s, moves[..n]);
      }
    }
  }

  lemma NoneHolds(s: State)
    requires forall p :: p !in s.procs
    ensures SerialInv(s, s.committed, [])
  {
  }

  /** Any interleaving of any number of instances, with crashes and rollbacks
      anywhere, leaves the committed rows of a serial execution of the runs that
      committed, each (tenant, period) among them at most once; and of these,
      at most ceil(l / period) + 1 for one tenant and period length have their
      instant in any window of length `l`. */
  lemma InterleavingsAreSerial(s: State, moves: seq<Move>)
    requires (forall p :: p !in s.procs) && NeverOverlap(s, moves)
    ensures var asks := Committed(s, moves);
            && Exec(s, moves).committed == Serial(s.committed, asks)
            && DistinctKeys(asks)
            && forall tenant, period: Period, w, l | l > 0 ::
                 |InWindow(asks, tenant, period, w, l)| <= CeilDiv(l, period) + 1
  {
    hide Exec, Serial, Committed;
    RunsAreSerial(s, moves);
    AtMostOncePerKey(s, moves);
    var asks := Committed(s, moves);
    forall tenant, period: Period, w, l | l > 0
      ensures |InWindow(asks, tenant, period, w, l)| <= CeilDiv(l, period) + 1
    {
      WindowIsDistinct(asks, tenant, period, w, l);
      assert WindowHolds(asks, InWindow(asks, tenant, period, w, l), tenant, period, w, l);
      ClaimsInWindow(InWindow(asks, tenant, period, w, l), w, l, period);
    }
  }

  /** The instants, in a window, of one tenant's runs with one period length. */
  function InWindow(asks: seq<Ask>, tenant: TenantId, period: Time, w: Time, l: int): seq<Time> {
    if asks == [] then []
    else
      var a := asks[|asks| - 1];
      InWindow(asks[..|asks| - 1], tenant, period, w, l)
      + if a.tenant == tenant && a.settings.period == period && w <= a.now < w + l then [a.now] else []
  }

  ghost predicate WindowHolds(asks: seq<Ask>, ts: seq<Time>, tenant: TenantId, period: Period, w: Time, l: int) {
    && (forall i | 0 <= i < |ts| :: w <= ts[i] < w + l)
    && (forall i | 0 <= i < |ts| :: KeyAmong(asks, (tenant, PeriodStart(ts[i], period))))
    && (forall i, j | 0 <= i < j < |ts| :: PeriodStart(ts[i], period) != PeriodStart(ts[j], period))
  }

  lemma {:induction false} WindowIsDistinct(asks: seq<Ask>, tenant: TenantId, period: Period, w: Time, l: int)
    requires DistinctKeys(asks)
    ensures WindowHolds(asks, InWindow(asks, tenant, period, w, l), tenant, period, w, l)
  {
    hide KeyAmong;
    if asks != [] {
      var n := |asks| - 1;
      var a := asks[n];
      WindowIsDistinct(asks[..n], tenant, period, w, l);
      var before := InWindow(asks[..n], tenant, period, w, l);
      assert asks == asks[..n] + [a];
      forall i | 0 <= i < |before|
        ensures KeyAmong(asks, (tenant, PeriodStart(before[i], period)))
        ensures (tenant, PeriodStart(before[i], period)) != a.Key()
      {
        KeyAmongGrows(asks[..n], a, (tenant, PeriodStart(before[i], period)));
        LastKeyIsNew(asks);
      }
      KeyAmongGrows(asks[..n], a, a.Key());
    }
  }

  lemma LastKeyIsNew(asks: seq<Ask>)
    requires DistinctKeys(asks) && asks != []
    ensures !KeyAmong(asks[..|asks| - 1], asks[|asks| - 1].Key())
  {
  }

  lemma {:induction false} ExecConcat(s: State, a: seq<Move>, b: seq<Move>)
    ensures Exec(s, a + b) == Exec(Exec(s, a), b)
    decreases |b|
  {
    if b == [] {
      assert a + b == a;
    } else {
      var n := |b| - 1;
      ExecConcat(s, a, b[..n]);
      assert (a + b)[..|a| + n] == a + b[..n];
    }
  }

  /** One attempt: claim, process the first member, then die. */
  function AbortedTry(ask: Ask): seq<Move> {
    [Begin(0, ask), TryClaim(0), Work(0), Abort(0, 0)]
  }

  lemma AbortSendsNothing(s: State)
    requires Holds(s, 0)
    ensures Step(s, Abort(0, 0)) == Gone(s, 0)
  {
    hide MemberPass;
    assert forall x: seq<(Key, Effect)> :: x + [] == x;
    assert Sent(s, HolderOf(s, 0).ask.Key(), []) == s;
  }

  lemma WorkSends(s: State)
    requires Holds(s, 0) && NextInRange(HolderOf(s, 0))
    requires MemberPass(HolderOf(s, 0).ask.Cx(), HolderOf(s, 0).local, HolderOf(s, 0).list[HolderOf(s, 0).done]).Done?
    ensures var p := HolderOf(s, 0);
            var here := MemberPass(p.ask.Cx(), p.local, p.list[p.done]);
            && Holds(Step(s, Work(0)), 0)
            && Gone(Step(s, Work(0)), 0) == Gone(Sent(s, p.ask.Key(), here.effects), 0)
  {
    hide MemberPass;
  }

  lemma ClaimGranted(s: State, ask: Ask, p: Proc)
    requires s.procs == map[] && ask.tenant in s.committed && ask.Start() !in s.committed[ask.tenant].jobs
    requires var db := s.committed[ask.tenant];
             p == Holding(ask, db, Claim(db, ask.Start()), MonitoredIds(db.memberships), 0, ZERO)
    ensures Step(Step(s, Begin(0, ask)), TryClaim(0)) == s.(procs := map[0 := p])
  {
    assert Step(s, Begin(0, ask)) == s.(procs := map[0 := Claiming(ask)]);
  }

  lemma FourMoves(s: State, a: Move, b: Move, c: Move, d: Move)
    ensures Exec(s, [a, b, c, d]) == Step(Step(Step(Step(s, a), b), c), d)
  {
    hide Step;
    assert [a, b, c, d][..3] == [a, b, c] && [a, b, c][..2] == [a, b] && [a, b][..1] == [a] && [a][..0] == [];
    assert Exec(s, [a]) == Step(Exec(s, []), a);
    assert Exec(s, [a, b]) == Step(Exec(s, [a]), b);
    assert Exec(s, [a, b, c]) == Step(Exec(s, [a, b]), c);
  }

  lemma AbortedTrySends(s: State, ask: Ask, db: Db)
    requires s.procs == map[] && ask.tenant in s.committed && db == s.committed[ask.tenant] && ask.Start() !in db.jobs
    requires MonitoredIds(db.memberships) != [] && MonitoredIds(db.memberships)[0] < |db.memberships|
    requires MemberPass(ask.Cx(), Claim(db, ask.Start()), MonitoredIds(db.memberships)[0]).Done?
    ensures var here := MemberPass(ask.Cx(), Claim(db, ask.Start()), MonitoredIds(db.memberships)[0]);
            Exec(s, AbortedTry(ask)) == Sent(s, ask.Key(), here.effects)
  {
    hide MemberPass, Exec, Step;
    var p := Holding(ask, db, Claim(db, ask.Start()), MonitoredIds(db.memberships), 0, ZERO);
    var claimed := s.(procs := map[0 := p]);
    FourMoves(s, Begin(0, ask), TryClaim(0), Work(0), Abort(0, 0));
    ClaimGranted(s, ask, p);
    WorkSends(claimed);
    AbortSendsNothing(Step(claimed, Work(0)));
  }

  /** Only committed rows are protected: a run that dies after its first member
      and is tried again sends that member's messages twice, and changes no row. */
  lemma AbortedRunsRepeatMessages(s: State, ask: Ask, db: Db)
    requires s.procs == map[] && ask.tenant in s.committed && db == s.committed[ask.tenant] && ask.Start() !in db.jobs
    requires MonitoredIds(db.memberships) != [] && MonitoredIds(db.memberships)[0] < |db.memberships|
    requires MemberPass(ask.Cx(), Claim(db, ask.Start()), MonitoredIds(db.memberships)[0]).Done?
    ensures var here := MemberPass(ask.Cx(), Claim(db, ask.Start()), MonitoredIds(db.memberships)[0]);
            Exec(s, AbortedTry(ask) + AbortedTry(ask)) ==
                Sent(Sent(s, ask.Key(), here.effects), ask.Key(), here.effects)
  {
    hide MemberPass, Exec;
    var here := MemberPass(ask.Cx(), Claim(db, ask.Start()), MonitoredIds(db.memberships)[0]);
    AbortedTrySends(s, ask, db);
    AbortedTrySends(Sent(s, ask.Key(), here.effects), ask, db);
    ExecConcat(s, AbortedTry(ask), AbortedTry(ask));
  }
}
