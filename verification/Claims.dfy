/** Many instances, one period: the claim protocol as a machine whose moves
    interleave freely, with crashes and rollbacks at any point. */
module Claims {
  import opened Types
  import opened Rows
  import opened PeriodLock
  import opened Sweep
  import opened Runs

  /** The unique key of a claim, and the mark of every message sent under it. */
  type Key = (TenantId, Time)

  type Pid = nat

  datatype Ask = Ask(tenant: TenantId, settings: Settings, now: Time) {
    function Start(): Time { PeriodStart(now, settings.period) }
    function Key(): Key { (tenant, Start()) }
    function Cx(): Context { ContextFor(settings, now) }
  }

  /** An instance's transaction: about to insert its claim, or holding it with
      `done` of the listed members processed on its own view `local`. */
  datatype Proc =
    | Claiming(ask: Ask)
    | Holding(ask: Ask, base: Db, local: Db, list: seq<nat>, done: nat, tally: Tally)

  datatype State = State(committed: map<TenantId, Db>, procs: map<Pid, Proc>, log: seq<(Key, Effect)>)

  datatype Move =
    | Begin(pid: Pid, ask: Ask)
    | TryClaim(pid: Pid)
    | Work(pid: Pid)
    | Commit(pid: Pid)
    | Abort(pid: Pid, sent: nat)   // rollback or crash, `sent` effects into the next member

  predicate Holds(s: State, pid: Pid) {
    pid in s.procs && s.procs[pid].Holding?
  }

  function HolderOf(s: State, pid: Pid): Proc
    requires Holds(s, pid)
  {
    s.procs[pid]
  }

  /** Another open transaction has inserted this key: the unique index makes an
      insert wait for its outcome. */
  ghost predicate Blocked(s: State, key: Key) {
    exists q :: Holds(s, q) && HolderOf(s, q).ask.Key() == key
  }

  function Gone(s: State, pid: Pid): State {
    s.(procs := s.procs - {pid})
  }

  function Sent(s: State, key: Key, effects: seq<Effect>): State {
    s.(log := s.log + Tagged(key, effects))
  }

  /** Publishing a transaction's writes: the columns it changed, the rows it added. */
  ghost function Column<F>(current: F, base: F, local: F): F {
    if local != base then local else current
  }

  ghost function MergeAccount(c: Account, b: Account, l: Account): Account {
    Account(Column(c.user, b.user, l.user), Column(c.provider, b.provider, l.provider),
            Column(c.market, b.market, l.market), Column(c.uid, b.uid, l.uid), Column(c.status, b.status, l.status),
            Column(c.compliance, b.compliance, l.compliance), Column(c.balance, b.balance, l.balance),
            Column(c.lastChecked, b.lastChecked, l.lastChecked), Column(c.verifiedAt, b.verifiedAt, l.verifiedAt),
            Column(c.rejection, b.rejection, l.rejection))
  }

  ghost function MergeSubscription(c: Subscription, b: Subscription, l: Subscription): Subscription {
    Subscription(Column(c.user, b.user, l.user), Column(c.market, b.market, l.market),
                 Column(c.status, b.status, l.status), Column(c.startsAt, b.startsAt, l.startsAt),
                 Column(c.endsAt, b.endsAt, l.endsAt))
  }

  ghost function MergeMembership(c: Membership, b: Membership, l: Membership): Membership {
    Membership(Column(c.user, b.user, l.user), Column(c.channel, b.channel, l.channel),
               Column(c.subscription, b.subscription, l.subscription), Column(c.status, b.status, l.status),
               Column(c.link, b.link, l.link), Column(c.issuedAt, b.issuedAt, l.issuedAt),
               Column(c.createdAt, b.createdAt, l.createdAt), Column(c.joinedAt, b.joinedAt, l.joinedAt),
               Column(c.revokedAt, b.revokedAt, l.revokedAt),
               Column(c.revocationReason, b.revocationReason, l.revocationReason),
               Column(c.warnings, b.warnings, l.warnings), Column(c.lastWarning, b.lastWarning, l.lastWarning))
  }

  ghost function MergeRows<T>(current: seq<T>, base: seq<T>, local: seq<T>, merge: (T, T, T) -> T): seq<T> {
    seq(|current|, i requires 0 <= i < |current| =>
      if i < |base| && i < |local| then merge(current[i], base[i], local[i]) else current[i])
  }

  ghost function Publish(current: Db, base: Db, local: Db): Db {
    current.(accounts := MergeRows(current.accounts, base.accounts, local.accounts, MergeAccount),
             subscriptions := MergeRows(current.subscriptions, base.subscriptions, local.subscriptions,
               MergeSubscription),
             memberships := MergeRows(current.memberships, base.memberships, local.memberships,
               MergeMembership),
             snapshots := current.snapshots + (local.snapshots - base.snapshots.Keys),
             jobs := current.jobs + (local.jobs - base.jobs.Keys))
  }

  /** A transaction publishes over others' commits only what it changed itself: a row
      it left alone keeps what the others made of it, and a row it only warned keeps
      every other column. */
  lemma OnlyOwnChangesArePublished(current: Db, base: Db, local: Db, i: nat, number: int, at: Time)
    requires |current.memberships| == |base.memberships| == |local.memberships|
    requires |current.accounts| == |base.accounts| == |local.accounts|
    requires |current.subscriptions| == |base.subscriptions| == |local.subscriptions|
    ensures var next := Publish(current, base, local);
            && (i < |base.memberships| && local.memberships[i] == base.memberships[i] ==>
                  next.memberships[i] == current.memberships[i])
            && (i < |base.accounts| && local.accounts[i] == base.accounts[i] ==>
                  next.accounts[i] == current.accounts[i])
            && (i < |base.subscriptions| && local.subscriptions[i] == base.subscriptions[i] ==>
                  next.subscriptions[i] == current.subscriptions[i])
            && (i < |base.memberships|
                && local.memberships[i] == base.memberships[i].(warnings := number, lastWarning := Some(at))
                && base.memberships[i].warnings != number && base.memberships[i].lastWarning != Some(at) ==>
                  next.memberships[i] == current.memberships[i].(warnings := number, lastWarning := Some(at)))
  {
    var next := Publish(current, base, local);
    if i < |base.memberships| {
      assert next.memberships[i] == MergeMembership(current.memberships[i], base.memberships[i], local.memberships[i]);
    }
    if i < |base.accounts| {
      assert next.accounts[i] == MergeAccount(current.accounts[i], base.accounts[i], local.accounts[i]);
    }
    if i < |base.subscriptions| {
      assert next.subscriptions[i] ==
          MergeSubscription(current.subscriptions[i], base.subscriptions[i], local.subscriptions[i]);
    }
  }

  predicate NextInRange(p: Proc)
    requires p.Holding?
  {
    p.done < |p.list| && p.list[p.done] < |p.local.memberships|
  }

  function Finished(p: Proc): Db
    requires p.Holding?
  {
    p.local.(jobs := p.local.jobs[p.ask.Start() := JobRow(p.tally)])
  }

  /** A commit that can happen: the loop is over. */
  predicate Commits(s: State, move: Move) {
    move.Commit? && Holds(s, move.pid) && HolderOf(s, move.pid).done == |HolderOf(s, move.pid).list|
    && HolderOf(s, move.pid).ask.tenant in s.committed
  }

  /** One move; a move that is not enabled changes nothing. */
  ghost function Step(s: State, move: Move): State {
    match move
    case Begin(pid, ask) =>
      if pid in s.procs || ask.tenant !in s.committed then s else s.(procs := s.procs[pid := Claiming(ask)])
    case TryClaim(pid) =>
      if pid !in s.procs || !s.procs[pid].Claiming? || s.procs[pid].ask.tenant !in s.committed then s
      else
        var ask := s.procs[pid].ask;
        var db := s.committed[ask.tenant];
        if ask.Start() in db.jobs then Gone(s, pid)
        else if Blocked(s, ask.Key()) then s
        else s.(procs := s.procs[pid := Holding(ask, db, Claim(db, ask.Start()), MonitoredIds(db.memberships), 0,
            ZERO)])
    case Work(pid) =>
      if !Holds(s, pid) || !NextInRange(HolderOf(s, pid)) then s
      else
        var p := HolderOf(s, pid);
        (match MemberPass(p.ask.Cx(), p.local, p.list[p.done])
         case Raised(effects) => Gone(Sent(s, p.ask.Key(), effects), pid)
         case Done(db, effects, tally) =>
           Sent(s, p.ask.Key(), effects).(procs := s.procs[pid :=
               p.(local := db, done := p.done + 1, tally := p.tally.Plus(tally))]))
    case Commit(pid) =>
      if !Commits(s, move) then s
      else
        var p := HolderOf(s, pid);
        Gone(s, pid).(committed := s.committed[p.ask.tenant := Publish(s.committed[p.ask.tenant], p.base, Finished(p))])
    case Abort(pid, sent) =>
      if !Holds(s, pid) then s
      else
        var p := HolderOf(s, pid);
        var effects := if NextInRange(p) then MemberPass(p.ask.Cx(), p.local, p.list[p.done]).effects else [];
        Gone(Sent(s, p.ask.Key(), Delivered(effects, sent)), pid)
  }

  /** One attempt to claim: the key on record ends it, another's open claim makes it
      wait, and otherwise it holds the key on the tables as they are. Nothing is sent
      and nothing committed in any case. */
  lemma ClaimIff(s: State, pid: Pid)
    requires pid in s.procs && s.procs[pid].Claiming? && s.procs[pid].ask.tenant in s.committed
    ensures var ask, next := s.procs[pid].ask, Step(s, TryClaim(pid));
            var db := s.committed[ask.tenant];
            && (pid !in next.procs <==> ask.Start() in db.jobs)
            && (Holds(next, pid) <==> ask.Start() !in db.jobs && !Blocked(s, ask.Key()))
            && (Holds(next, pid) ==>
                  HolderOf(next, pid) ==
                    Holding(ask, db, Claim(db, ask.Start()), MonitoredIds(db.memberships), 0, ZERO))
            && (pid in next.procs && next.procs[pid].Claiming? ==> next == s)
            && next.committed == s.committed && next.log == s.log && next.procs - {pid} == s.procs - {pid}
  {
    hide PeriodStart, MonitoredIds;
  }

  ghost function Exec(s: State, moves: seq<Move>): State {
    if moves == [] then s else Step(Exec(s, moves[..|moves| - 1]), moves[|moves| - 1])
  }

  /** The runs that committed, in commit order. */
  ghost function Committed(s: State, moves: seq<Move>): seq<Ask> {
    if moves == [] then []
    else
      var n := |moves| - 1;
      var before := Exec(s, moves[..n]);
      Committed(s, moves[..n]) + if Commits(before, moves[n]) then [HolderOf(before, moves[n].pid).ask] else []
  }

  /** The same runs one after another, each alone. */
  function Serial(committed: map<TenantId, Db>, asks: seq<Ask>): map<TenantId, Db> {
    if asks == [] then committed
    else
      var n := |asks| - 1;
      var before := Serial(committed, asks[..n]);
      var a := asks[n];
      if a.tenant !in before then before
      else
        var r := RunMonitor(a.settings, before[a.tenant], a.now);
        if r.Completed? then before[a.tenant := r.db] else before
  }

  ghost predicate DistinctKeys(asks: seq<Ask>) {
    forall i, j | 0 <= i < j < |asks| :: asks[i].Key() != asks[j].Key()
  }

  // Exclusion per key, with no assumption about the schedule.

  ghost predicate KeyFree(s: State, key: Key) {
    key.0 in s.committed && key.1 !in s.committed[key.0].jobs
  }

  /** Open claims are on distinct keys none of which is committed; committed keys
      are the initial ones and those of the committed runs, each once. */
  ghost predicate ExclusionInv(s: State, start: map<TenantId, Db>, asks: seq<Ask>) {
    && s.committed.Keys == start.Keys
    && (forall p | Holds(s, p) :: KeyFree(s, HolderOf(s, p).ask.Key()))
    && (forall p | Holds(s, p) :: OwnJobs(HolderOf(s, p)))
    && (forall p, q | Holds(s, p) && Holds(s, q) && p != q :: HolderOf(s, p).ask.Key() != HolderOf(s, q).ask.Key())
    && DistinctKeys(asks)
    && (forall t, k | t in s.committed :: k in s.committed[t].jobs <==> k in start[t].jobs || KeyAmong(asks, (t, k)))
    && (forall i | 0 <= i < |asks| :: asks[i].tenant in start && asks[i].Start() !in start[asks[i].tenant].jobs)
  }

  /** A transaction writes the one job row it claimed. */
  ghost predicate OwnJobs(p: Proc)
    requires p.Holding?
  {
    p.ask.Start() !in p.base.jobs && p.local.jobs.Keys == p.base.jobs.Keys + {p.ask.Start()}
  }

  ghost predicate KeyAmong(asks: seq<Ask>, key: Key) {
    exists i :: 0 <= i < |asks| && asks[i].Key() == key
  }

  lemma PassKeepsJobs(cx: Context, db: Db, mid: nat)
    requires mid < |db.memberships|
    ensures var o := MemberPass(cx, db, mid); o.Done? ==> o.db.jobs == db.jobs && |o.db.memberships| == |db.memberships|
  {
  }

  lemma KeyAmongGrows(asks: seq<Ask>, a: Ask, key: Key)
    ensures KeyAmong(asks + [a], key) <==> KeyAmong(asks, key) || a.Key() == key
  {
    var all := asks + [a];
    assert all[|asks|] == a && forall i | 0 <= i < |asks| :: all[i] == asks[i];
    if KeyAmong(asks, key) {
      var i :| 0 <= i < |asks| && asks[i].Key() == key;
      assert all[i].Key() == key;
    }
  }

  lemma PublishedJobs(current: Db, p: Proc)
    requires p.Holding? && OwnJobs(p)
    ensures Publish(current, p.base, Finished(p)).jobs == current.jobs[p.ask.Start() := JobRow(p.tally)]
  {
    hide MergeRows, PeriodStart, JobRow;
    OneRowAdded(current.jobs, p.base.jobs, p.local.jobs, p.ask.Start(), JobRow(p.tally));
  }

  lemma OneRowAdded<V>(current: map<Time, V>, base: map<Time, V>, local: map<Time, V>, k: Time, v: V)
    requires k !in base && local.Keys == base.Keys + {k}
    ensures current + (local[k := v] - base.Keys) == current[k := v]
  {
    assert local[k := v] - base.Keys == map[k := v];
  }

  lemma CommitExcludes(s: State, start: map<TenantId, Db>, asks: seq<Ask>, move: Move)
    requires ExclusionInv(s, start, asks) && Commits(s, move)
    ensures ExclusionInv(Step(s, move), start, asks + [HolderOf(s, move.pid).ask])
  {
    hide MemberPass, Publish, Finished, OwnJobs;
    var p := HolderOf(s, move.pid);
    var t := p.ask.tenant;
    var next := Step(s, move);
    assert OwnJobs(p) && KeyFree(s, p.ask.Key());
    PublishedJobs(s.committed[t], p);
    assert next.committed[t].jobs.Keys == s.committed[t].jobs.Keys + {p.ask.Start()};
    forall u, k | u in next.committed
      ensures k in next.committed[u].jobs <==> k in start[u].jobs || KeyAmong(asks + [p.ask], (u, k))
    {
      KeyAmongGrows(asks, p.ask, (u, k));
    }
    forall i | 0 <= i < |asks|
      ensures asks[i].Key() != p.ask.Key()
    {
      assert KeyAmong(asks, asks[i].Key());
    }
    assert forall q | Holds(next, q) :: Holds(s, q) && q != move.pid && HolderOf(s, q) == HolderOf(next, q);
    forall q | Holds(next, q)
      ensures KeyFree(next, HolderOf(next, q).ask.Key())
    {
      assert KeyFree(s, HolderOf(s, q).ask.Key()) && HolderOf(s, q).ask.Key() != p.ask.Key();
    }
  }

  /** The holders of `next` are holders of `s` on the same asks. */
  ghost predicate HoldersKept(s: State, next: State) {
    && next.committed == s.committed
    && forall q | Holds(next, q) ::
         Holds(s, q) && HolderOf(next, q).ask == HolderOf(s, q).ask
         && (OwnJobs(HolderOf(s, q)) ==> OwnJobs(HolderOf(next, q)))
  }

  lemma KeptHoldersExclude(s: State, next: State, start: map<TenantId, Db>, asks: seq<Ask>)
    requires ExclusionInv(s, start, asks) && HoldersKept(s, next)
    ensures ExclusionInv(next, start, asks)
  {
    hide OwnJobs;
    forall q | Holds(next, q)
      ensures KeyFree(next, HolderOf(next, q).ask.Key()) && OwnJobs(HolderOf(next, q))
    {
      assert OwnJobs(HolderOf(s, q)) && KeyFree(s, HolderOf(s, q).ask.Key());
    }
  }

  lemma GrantExcludes(s: State, start: map<TenantId, Db>, asks: seq<Ask>, pid: Pid)
    requires ExclusionInv(s, start, asks) && pid in s.procs
    requires s.procs[pid].Claiming? && s.procs[pid].ask.tenant in s.committed
    requires KeyFree(s, s.procs[pid].ask.Key()) && !Blocked(s, s.procs[pid].ask.Key())
    ensures ExclusionInv(Step(s, TryClaim(pid)), start, asks)
  {
    var next := Step(s, TryClaim(pid));
    assert OwnJobs(HolderOf(next, pid));
    hide OwnJobs, Blocked;
    forall q | Holds(next, q) && q != pid
      ensures Holds(s, q) && HolderOf(next, q) == HolderOf(s, q)
      ensures HolderOf(next, q).ask.Key() != HolderOf(next, pid).ask.Key()
    {
      NotBlocked(s, s.procs[pid].ask.Key(), q);
    }
    forall q | Holds(next, q)
      ensures KeyFree(next, HolderOf(next, q).ask.Key()) && OwnJobs(HolderOf(next, q))
    {
      if q != pid { assert OwnJobs(HolderOf(s, q)) && KeyFree(s, HolderOf(s, q).ask.Key()); }
    }
  }

  lemma NotBlocked(s: State, key: Key, q: Pid)
    requires !Blocked(s, key)
    ensures Holds(s, q) ==> HolderOf(s, q).ask.Key() != key
  {
  }

  lemma WorkKeepsHolders(s: State, pid: Pid)
    ensures HoldersKept(s, Step(s, Work(pid)))
  {
    hide MemberPass;
    if Holds(s, pid) && NextInRange(HolderOf(s, pid)) {
      var p := HolderOf(s, pid);
      PassKeepsJobs(p.ask.Cx(), p.local, p.list[p.done]);
    }
  }

  lemma OthersExclude(s: State, start: map<TenantId, Db>, asks: seq<Ask>, move: Move)
    requires ExclusionInv(s, start, asks) && !Commits(s, move)
    ensures ExclusionInv(Step(s, move), start, asks)
  {
    hide MemberPass, ExclusionInv, OwnJobs, Blocked;
    match move
    case Work(pid) =>
      WorkKeepsHolders(s, pid);
      KeptHoldersExclude(s, Step(s, move), start, asks);
    case TryClaim(pid) =>
      if pid in s.procs && s.procs[pid].Claiming? && s.procs[pid].ask.tenant in s.committed
         && KeyFree(s, s.procs[pid].ask.Key()) && !Blocked(s, s.procs[pid].ask.Key()) {
        GrantExcludes(s, start, asks, pid);
      } else {
        KeptHoldersExclude(s, Step(s, move), start, asks);
      }
    case _ =>
      KeptHoldersExclude(s, Step(s, move), start, asks);
  }

  /** However instances interleave, crash and roll back, no key is ever held by two
      of them, and each (tenant, period) commits at most one run. */
  lemma {:induction false} AtMostOncePerKey(s: State, moves: seq<Move>)
    requires forall p :: p !in s.procs
    ensures ExclusionInv(Exec(s, moves), s.committed, Committed(s, moves))
  {
    hide Step, ExclusionInv;
    if moves == [] {
      NothingYet(s);
    } else {
      var n := |moves| - 1;
      AtMostOncePerKey(s, moves[..n]);
      var before := Exec(s, moves[..n]);
      if Commits(before, moves[n]) {
        CommitExcludes(before, s.committed, Committed(s, moves[..n]), moves[n]);
      } else {
        OthersExclude(before, s.committed, Committed(s, moves[..n]), moves[n]);
        assert Committed(s, moves) == Committed(s, moves[..n]);
      }
    }
  }

  lemma NothingYet(s: State)
    requires forall p :: p !in s.procs
    ensures ExclusionInv(s, s.committed, [])
  {
  }
}
