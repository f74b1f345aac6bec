/** Outages are invisible: a member pass whose verdict is "we could not tell" can be
    removed from a history without later effect; and what it takes to insert one. */
module Outages {
  import opened Types
  import opened Eligibility
  import opened Compliance
  import opened Rows
  import opened Lifecycle
  import opened Sweep
  import opened SweepLaws
  import opened Onboarding
  import Uid

  /** The finest steps: one member of a pass, one submission, one join. */
  datatype Move = Pass(cx: Context, mid: nat) | Submitted(rawUid: string, rq: Request) | Join(mid: nat, at: Time)

  /** The tables, the messages sent and the figures reported so far. */
  datatype World = World(db: Db, log: seq<Effect>, tally: Tally)

  /** The move can be made: its row exists and no insert of it raises. */
  predicate Feasible(w: World, move: Move) {
    match move
    case Pass(cx, mid) => mid < |w.db.memberships| && MemberPass(cx, w.db, mid).Done?
    case Submitted(_, _) => true
    case Join(mid, _) => mid < |w.db.memberships|
  }

  function Make(w: World, move: Move): World
    requires Feasible(w, move)
  {
    match move
    case Pass(cx, mid) =>
      var o := MemberPass(cx, w.db, mid);
      World(o.db, w.log + o.effects, w.tally.Plus(o.tally))
    case Submitted(raw, rq) =>
      var s := Submit(w.db, raw, rq);
      World(s.db, w.log + s.effects, w.tally)
    case Join(mid, at) =>
      World(w.db.(memberships := w.db.memberships[mid := Next(w.db.memberships[mid], Joined(at))]), w.log, w.tally)
  }

  predicate AllRun(w: World, moves: seq<Move>)
    decreases |moves|
  {
    moves == [] || (Feasible(w, moves[0]) && AllRun(Make(w, moves[0]), moves[1..]))
  }

  function MakeAll(w: World, moves: seq<Move>): World
    requires AllRun(w, moves)
    decreases |moves|
  {
    if moves == [] then w else MakeAll(Make(w, moves[0]), moves[1..])
  }

  /** Equal but for the accounts' check fields and for members counted as processed
      and skipped, and the left has no snapshot the right lacks. */
  ghost predicate Alike(a: World, b: World) {
    a.log == b.log && TablesAlike(a.db, b.db) && ReportsAlike(a.tally, b.tally)
  }

  /** The same members warned, removed and restored; one may have processed more,
      all of the surplus skipped as outages. */
  ghost predicate ReportsAlike(x: Tally, y: Tally) {
    && x.warned == y.warned && x.revoked == y.revoked && x.restored == y.restored
    && x.processed + y.skipped == y.processed + x.skipped
  }

  ghost predicate JobsAlike(a: map<Time, Job>, b: map<Time, Job>) {
    a.Keys == b.Keys && forall k | k in a :: SameButOutages(a[k], b[k])
  }

  ghost predicate SameButOutages(x: Job, y: Job) {
    x == y.(processed := x.processed, skipped := x.skipped) && x.processed + y.skipped == y.processed + x.skipped
  }

  ghost predicate TablesAlike(a: Db, b: Db) {
    && a.users == b.users && a.subscriptions == b.subscriptions && a.memberships == b.memberships
    && a.configs == b.configs && a.channels == b.channels && JobsAlike(a.jobs, b.jobs)
    && a.snapshots.Keys <= b.snapshots.Keys
    && AccountsAlike(a.accounts, b.accounts)
  }

  ghost predicate AccountsAlike(a: seq<Account>, b: seq<Account>) {
    |a| == |b| && forall j | 0 <= j < |a| :: SameButCheck(a[j], b[j])
  }

  ghost predicate SameButCheck(x: Account, y: Account) {
    x == y.(compliance := x.compliance, lastChecked := x.lastChecked, balance := x.balance)
  }

  /** A pass that could not tell, either because the whole call failed or because
      only the trade count was missing. */
  predicate OutagePass(w: World, move: Move) {
    && move.Pass? && move.mid < |w.db.memberships| && Monitored(w.db.memberships[move.mid].status)
    && var f := Find(move.cx, w.db, move.mid);
       f.Some? && f.value.verdict.reason == ProviderUnavailable
  }

  lemma OutageDecidesNothing(row: Membership, e: Event)
    requires e.Checked? && e.verdict.reason == ProviderUnavailable
    ensures DecisionOn(row, e).action == NoAction && Next(row, e) == row
    ensures Monitored(row.status) ==> DecisionOn(row, e).skip == Some(Outage)
  {
  }

  lemma JobsAlikeSelf(jobs: map<Time, Job>)
    ensures JobsAlike(jobs, jobs)
  {
  }

  lemma OutageLeavesAlike(w: World, move: Move)
    requires OutagePass(w, move) && Feasible(w, move)
    ensures Alike(w, Make(w, move))
  {
    hide Evaluate;
    JobsAlikeSelf(w.db.jobs);
    var f := Find(move.cx, w.db, move.mid).value;
    OutageDecidesNothing(w.db.memberships[move.mid], EventOf(move.cx, f));
  }

  lemma AlikeSubjects(a: World, b: World)
    requires Alike(a, b)
    ensures SameSubjects(a.db, b.db)
  {
    assert forall j | 0 <= j < |a.db.accounts| :: SameButCheck(a.db.accounts[j], b.db.accounts[j]);
  }

  lemma AlikePass(a: World, b: World, cx: Context, mid: nat)
    requires Alike(a, b) && Feasible(b, Pass(cx, mid))
    ensures Feasible(a, Pass(cx, mid)) && Alike(Make(a, Pass(cx, mid)), Make(b, Pass(cx, mid)))
  {
    hide Next, Decide, Evaluate, FirstAccount, FirstSubscription, JobsAlike;
    AlikeSubjects(a, b);
    FindStable(cx, a.db, b.db, mid);
    var found := Find(cx, a.db, mid);
    if found.Some? {
      var f := found.value;
      var m := a.db.memberships[mid];
      var d := DecisionOn(m, EventOf(cx, f));
      EffectsReadOnly(a.db, b.db, m.user, f.market, d, f.policy.maxWarnings);
      assert SameButCheck(a.db.accounts[f.account], b.db.accounts[f.account]);
      assert SameButCheck(CheckedAccount(cx, a.db.accounts[f.account], f),
          CheckedAccount(cx, b.db.accounts[f.account], f));
    }
  }

  lemma AlikeFindUid(a: seq<Account>, b: seq<Account>, provider: Provider, uid: string)
    requires AccountsAlike(a, b)
    ensures FindUid(a, provider, uid) == FindUid(b, provider, uid)
  {
    var i, j := FindUid(a, provider, uid), FindUid(b, provider, uid);
    assert forall k | 0 <= k < |a| :: SameButCheck(a[k], b[k]);
    assert i.Some? && j.Some? ==> !(i.value < j.value) && !(j.value < i.value);
  }

  lemma AlikeAdmit(a: Db, b: Db, user: nat, channel: Channel, rq: Request)
    requires TablesAlike(a, b)
    ensures var s, t := Admit(a, user, channel, rq), Admit(b, user, channel, rq);
            TablesAlike(s.db, t.db) && s == t.(db := s.db)
  {
    hide Issued, Readmitted, AccountsAlike, JobsAlike, FindMembership, FirstSubscription, LiveLink;
  }

  lemma AlikeJudge(a: Db, b: Db, user: nat, uid: string, config: Config, channel: Channel, rq: Request)
    requires TablesAlike(a, b)
    ensures var s, t := Judge(a, user, uid, config, channel, rq), Judge(b, user, uid, config, channel, rq);
            TablesAlike(s.db, t.db) && s.effects == t.effects
  {
    hide Admit, Evaluate, JobsAlike, FindUid;
    AlikeFindUid(a.accounts, b.accounts, rq.provider, uid);
    var check := SignUpCheck(rq, uid);
    var v := Evaluate(check, config.rules, false);
    var (a1, j) := AccountFor(a, user, rq, uid);
    var (b1, k) := AccountFor(b, user, rq, uid);
    var x, y := JudgedAccount(a1.accounts[j], check, v, rq.now), JudgedAccount(b1.accounts[k], check, v, rq.now);
    assert j < |a.accounts| ==> SameButCheck(a.accounts[j], b.accounts[j]);
    assert SameButCheck(x, y);
    AlikeAdmit(a1.(accounts := a1.accounts[j := x]), b1.(accounts := b1.accounts[k := y]), user, channel, rq);
  }

  lemma AlikeSubmit(a: Db, b: Db, raw: string, rq: Request)
    requires TablesAlike(a, b)
    ensures var s, t := Submit(a, raw, rq), Submit(b, raw, rq);
            TablesAlike(s.db, t.db) && s.effects == t.effects
  {
    hide Judge, Uid.IsValid, Uid.Normalize, FindUid, FindUser, JobsAlike;
    var uid := Uid.Normalize(raw);
    var (a1, user) := EnsureUser(a, rq.telegramId);
    var b1 := EnsureUser(b, rq.telegramId).0;
    AlikeFindUid(a1.accounts, b1.accounts, rq.provider, uid);
    var claimed := FindUid(a1.accounts, rq.provider, uid);
    assert claimed.Some? ==> SameButCheck(a1.accounts[claimed.value], b1.accounts[claimed.value]);
    var config, channel := ConfigFor(a, rq.provider, rq.market), ChannelFor(a, rq.market);
    if config.Some? && channel.Some? { AlikeJudge(a1, b1, user, uid, config.value, channel.value, rq); }
  }

  lemma AlikeMove(a: World, b: World, move: Move)
    requires Alike(a, b) && Feasible(b, move)
    ensures Feasible(a, move) && Alike(Make(a, move), Make(b, move))
  {
    hide MemberPass, Submit, Next, JobsAlike, ReportsAlike;
    match move
    case Pass(cx, mid) => AlikePass(a, b, cx, mid);
    case Submitted(raw, rq) => AlikeSubmit(a.db, b.db, raw, rq);
    case Join(_, _) =>
  }

  lemma {:induction false} AlikeHistories(a: World, b: World, moves: seq<Move>)
    requires Alike(a, b) && AllRun(b, moves)
    ensures AllRun(a, moves) && Alike(MakeAll(a, moves), MakeAll(b, moves))
    decreases |moves|
  {
    hide Feasible, Make, Alike;
    if moves != [] {
      AlikeMove(a, b, moves[0]);
      AlikeHistories(Make(a, moves[0]), Make(b, moves[0]), moves[1..]);
    }
  }

  /** `b` is `a` with any number of outage passes inserted anywhere. */
  ghost predicate WithOutages(w: World, a: seq<Move>, b: seq<Move>)
    requires AllRun(w, b)
    decreases |b|
  {
    if b == [] then a == []
    else
      || (OutagePass(w, b[0]) && WithOutages(Make(w, b[0]), a, b[1..]))
      || (a != [] && a[0] == b[0] && WithOutages(Make(w, b[0]), a[1..], b[1..]))
  }

  /** Outages are stuttering steps: drop any number of them from a history that
      runs, and it still runs, with the same memberships, subscriptions, users and
      messages at the end and the same members warned, removed and restored; only
      account check fields, snapshots, and the counts of processed and skipped
      members differ, the last two by the same number. */
  lemma {:induction false} OutagesAreInvisible(w: World, a: seq<Move>, b: seq<Move>)
    requires AllRun(w, b) && WithOutages(w, a, b)
    ensures AllRun(w, a)
    ensures var x, y := MakeAll(w, a), MakeAll(w, b);
            && x.log == y.log && x.db.memberships == y.db.memberships && x.db.subscriptions == y.db.subscriptions
            && x.db.users == y.db.users && ReportsAlike(x.tally, y.tally) && AccountsAlike(x.db.accounts, y.db.accounts)
            && Alike(x, y)
    decreases |b|
  {
    hide Feasible, Make, OutagePass, AccountsAlike;
    if b == [] {
      AlikeSelf(w);
    } else if OutagePass(w, b[0]) && WithOutages(Make(w, b[0]), a, b[1..]) {
      OutagesAreInvisible(Make(w, b[0]), a, b[1..]);
      OutageLeavesAlike(w, b[0]);
      AlikeHistories(w, Make(w, b[0]), a);
      AlikeTransitive(MakeAll(w, a), MakeAll(Make(w, b[0]), a), MakeAll(w, b));
    } else {
      OutagesAreInvisible(Make(w, b[0]), a[1..], b[1..]);
    }
  }

  lemma AlikeSelf(w: World)
    ensures Alike(w, w)
  {
  }

  lemma AlikeTransitive(a: World, b: World, c: World)
    requires Alike(a, b) && Alike(b, c)
    ensures Alike(a, c)
  {
    forall j | 0 <= j < |a.db.accounts|
      ensures SameButCheck(a.db.accounts[j], c.db.accounts[j])
    {
      assert SameButCheck(a.db.accounts[j], b.db.accounts[j]) && SameButCheck(b.db.accounts[j], c.db.accounts[j]);
    }
  }

  /** The passes of a sweep, one by one, are the sweep. */
  lemma {:induction false} SweepAsPasses(w: World, cx: Context, mids: seq<nat>)
    requires InRange(w.db, mids)
    ensures var o := SweepOver(cx, w.db, mids);
            var moves := seq(|mids|, i requires 0 <= i < |mids| => Pass(cx, mids[i]));
            && (o.Done? <==> AllRun(w, moves))
            && (o.Done? ==> MakeAll(w, moves) == World(o.db, w.log + o.effects, w.tally.Plus(o.tally)))
  {
    hide MemberPass;
    var moves := seq(|mids|, i requires 0 <= i < |mids| => Pass(cx, mids[i]));
    if mids == [] {
      assert w.log + [] == w.log;
    } else {
      var n := |mids| - 1;
      SweepAsPasses(w, cx, mids[..n]);
      var init := seq(n, i requires 0 <= i < n => Pass(cx, mids[..n][i]));
      assert moves == init + [moves[n]];
      RunThenMove(w, init, moves[n]);
      var before := SweepOver(cx, w.db, mids[..n]);
      if before.Done? {
        assert w.log + before.effects + MemberPass(cx, before.db, mids[n]).effects ==
            w.log + (before.effects + MemberPass(cx, before.db, mids[n]).effects);
      }
    }
  }

  lemma {:induction false} RunThenMove(w: World, moves: seq<Move>, last: Move)
    ensures AllRun(w, moves + [last]) <==> AllRun(w, moves) && Feasible(MakeAll(w, moves), last)
    ensures AllRun(w, moves + [last]) ==> MakeAll(w, moves + [last]) == Make(MakeAll(w, moves), last)
    decreases |moves|
  {
    hide Feasible, Make;
    var all := moves + [last];
    if moves == [] {
      assert all[1..] == [];
    } else {
      assert all[0] == moves[0] && all[1..] == moves[1..] + [last];
      if Feasible(w, moves[0]) { RunThenMove(Make(w, moves[0]), moves[1..], last); }
    }
  }
}
