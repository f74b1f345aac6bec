/** Reachable histories in which the program does not do what one may expect. All
    run the default policy: three warnings, five days apart, thirty days' grace. */
module Witnesses {
  import opened Types
  import opened Eligibility
  import opened Compliance
  import opened Rows
  import opened Lifecycle
  import opened Sweep
  import opened Runs
  import opened Onboarding
  import opened PeriodLock
  import opened Engine
  import opened Timeline
  import opened Aborts
  import Uid

  /** Two markets set up alike; any registered account qualifies. */
  const PROGRAMME := Config(Rules(0, 0, 7), 30, true, "link")

  const START := Db([], [], [], [],
    map[(Bitunix, Crypto) := PROGRAMME, (Bitunix, Forex) := PROGRAMME],
    map[Crypto := Channel(1, -1001, true), Forex := Channel(2, -1002, true)], map[], map[])

  const STRANGER := Check(false, 0, Some(0))
  const CLIENT := Check(true, 0, Some(0))
  const POLICY := Policy(3, 5, 30)
  const LINK := "t.me/+invite"

  function Asking(uid: string, market: Market, check: Check, member: int, now: Time): Request {
    Request(member, market, Bitunix, map[uid := check], now, DAY, LINK)
  }

  function ChannelId(market: Market): nat {
    if market == Crypto then 1 else 2
  }

  function Invitee(market: Market, sub: nat, now: Time): Membership {
    NewMembership(0, ChannelId(market), sub, now).(link := Some(LINK), issuedAt := Some(now), status := Invited)
  }

  /** The one user is `member`; account `j` is theirs in `market` with this uid. */
  ghost predicate Owns(db: Db, j: nat, market: Market, uid: string) {
    j < |db.accounts| && db.accounts[j].user == 0 && db.accounts[j].provider == Bitunix
    && db.accounts[j].market == market && db.accounts[j].uid == uid
  }

  lemma OnlyUser(member: int, market: Option<Market>)
    ensures FindUser([User(member, market)], member) == Some(0)
  {
    assert [User(member, market)][..0] == [];
  }

  /** A first try in a market, with an account the provider does not know. */
  lemma FirstRejected(raw: string, market: Market, member: int, now: Time)
    requires Uid.IsValid(Uid.Normalize(raw))
    ensures var s := Submit(START, raw, Asking(Uid.Normalize(raw), market, STRANGER, member, now));
            && s.effects == [] && |s.db.accounts| == 1 && Owns(s.db, 0, market, Uid.Normalize(raw))
            && s.db == START.(users := [User(member, None)], accounts := s.db.accounts)
  {
    hide Uid.IsValid, Uid.Normalize, Admit;
  }

  /** A first try that succeeds. */
  lemma FirstAdmitted(raw: string, market: Market, member: int, now: Time)
    requires Uid.IsValid(Uid.Normalize(raw))
    ensures var s := Submit(START, raw, Asking(Uid.Normalize(raw), market, CLIENT, member, now));
            && |s.effects| == 1 && |s.db.accounts| == 1 && Owns(s.db, 0, market, Uid.Normalize(raw))
            && s.db == START.(users := [User(member, None)], accounts := s.db.accounts,
                              subscriptions := [Subscription(0, market, SubActive, Some(now), None)],
                              memberships := [Invitee(market, 0, now)])
  {
    hide Uid.IsValid, Uid.Normalize;
    assert FirstSubscription([], 0, market) == None && FindMembership([], 0, ChannelId(market)) == None;
  }

  /** Another account, in a market where the user has nothing yet. */
  lemma AdmittedNext(db: Db, raw: string, market: Market, member: int, now: Time)
    requires Uid.IsValid(Uid.Normalize(raw)) && |db.accounts| == 1 && db.accounts[0].user == 0
             && db.accounts[0].uid != Uid.Normalize(raw)
    requires db.users == [User(member, None)] && db.configs == START.configs && db.channels == START.channels
    requires FirstSubscription(db.subscriptions, 0, market) == None
             && FindMembership(db.memberships, 0, ChannelId(market)) == None
    ensures var s := Submit(db, raw, Asking(Uid.Normalize(raw), market, CLIENT, member, now));
            && |s.effects| == 1 && |s.db.accounts| == 2 && s.db.accounts[0] == db.accounts[0]
            && s.db == db.(accounts := s.db.accounts,
                           subscriptions := db.subscriptions + [Subscription(0, market, SubActive, Some(now), None)],
                           memberships := db.memberships + [Invitee(market, |db.subscriptions|, now)])
  {
    hide Uid.IsValid, Uid.Normalize;
    OnlyUser(member, None);
    assert FindUid(db.accounts, Bitunix, Uid.Normalize(raw)) == None;
  }

  // Sweeps.

  function Default(period: Period, uid: string, check: Check): Settings {
    Settings(3, 5, period, map[uid := check])
  }

  function Failing(now: Time): Event {
    Checked(POLICY, Verdict(NotRegistered, NonCompliant, 0, 0), now)
  }

  /** Tables with one membership, judged by account 0, about which the provider
      says it does not know it. */
  ghost predicate Watched(db: Db, market: Market, uid: string) {
    && |db.memberships| == 1 && db.memberships[0].user == 0 && Owns(db, 0, market, uid) && |db.users| == 1
    && db.configs == START.configs && db.channels == START.channels
  }

  lemma FirstOwned(db: Db, market: Market, uid: string)
    requires Owns(db, 0, market, uid)
    ensures FirstAccount(db.accounts, 0) == Some(0)
  {
    assert FirstAccount(db.accounts, 0).Some?;
  }

  /** One run: the membership's row makes one step. */
  lemma SweptOnce(db: Db, market: Market, uid: string, period: Period, now: Time)
    requires Watched(db, market, uid) && Monitored(db.memberships[0].status)
    requires PeriodStart(now, period) !in db.jobs && forall k | k in db.snapshots :: k.1 in db.jobs
    ensures var next := Kept(Default(period, uid, STRANGER), db, now, 3);
            var d := DecisionOn(db.memberships[0], Failing(now));
            var sub := FirstSubscription(db.subscriptions, 0, market);
            && Watched(next, market, uid) && next.users == db.users && |next.accounts| == |db.accounts|
            && next.memberships == [Next(db.memberships[0], Failing(now))]
            && next.subscriptions == (if d.action == Revoke && sub.Some?
                                      then db.subscriptions[sub.value := ExpiredAt(db.subscriptions[sub.value], now)]
                                        else db.subscriptions)
            && next.jobs.Keys == db.jobs.Keys + {PeriodStart(now, period)}
            && (forall k | k in next.snapshots :: k.1 in next.jobs)
  {
    hide PeriodStart, FirstAccount, FirstSubscription, DecisionOn, MemberPass, Kept, MonitoredIds;
    var settings := Default(period, uid, STRANGER);
    var start := PeriodStart(now, period);
    var cx, claimed := ContextFor(settings, now), Claim(db, start);
    assert cx.now == now && cx.periodStart == start && claimed.jobs.Keys == db.jobs.Keys + {start};
    FirstOwned(db, market, uid);
    PassOfStranger(cx, claimed, market, uid);
    OnlyOneListed(db);
    KeptOfOne(settings, db, now, 3);
    NextKeepsUser(db.memberships[0], Failing(now));
    hide ContextFor, Next, Failing, Watched, Owns;
    SweptFrom(db, MemberPass(cx, claimed, 0).db, Kept(settings, db, now, 3), market, uid, start);
  }

  /** What the pass leaves, with the job row added, is again under watch. */
  lemma SweptFrom(db: Db, here: Db, next: Db, market: Market, uid: string, start: Time)
    requires Watched(db, market, uid) && forall k | k in db.snapshots :: k.1 in db.jobs
    requires here.users == db.users && here.configs == db.configs && here.channels == db.channels
    requires |here.accounts| == |db.accounts| && Owns(here, 0, market, uid)
    requires |here.memberships| == 1 && here.memberships[0].user == 0
    requires here.snapshots.Keys == db.snapshots.Keys + {(0, start)} && here.jobs.Keys == db.jobs.Keys + {start}
    requires next == here.(jobs := next.jobs) && next.jobs.Keys == here.jobs.Keys + {start}
    ensures Watched(next, market, uid) && next.jobs.Keys == db.jobs.Keys + {start}
    ensures forall k | k in next.snapshots :: k.1 in next.jobs
  {
  }

  lemma NextKeepsUser(m: Membership, e: Event)
    ensures Next(m, e).user == m.user
  {
  }

  lemma OnlyOneListed(db: Db)
    requires |db.memberships| == 1 && Monitored(db.memberships[0].status)
    ensures MonitoredIds(db.memberships) == [0]
  {
    assert db.memberships[..0] == [] && MonitoredIds(db.memberships[..0]) == [];
  }

  /** A run over one listed member keeps that member's pass and adds the job row. */
  lemma KeptOfOne(settings: Settings, db: Db, now: Time, serves: nat)
    requires |db.memberships| > 0 && MonitoredIds(db.memberships) == [0]
             && PeriodStart(now, settings.period) !in db.jobs
    requires var here := MemberPass(ContextFor(settings, now), Claim(db, PeriodStart(now, settings.period)), 0);
             here.Done? && |here.effects| <= serves
    ensures var here := MemberPass(ContextFor(settings, now), Claim(db, PeriodStart(now, settings.period)), 0);
            var next := Kept(settings, db, now, serves);
            next == here.db.(jobs := next.jobs) && next.jobs.Keys ==
                here.db.jobs.Keys + {PeriodStart(now, settings.period)}
  {
    hide MemberPass, SweepOver, PeriodStart;
    SweepOfOne(ContextFor(settings, now), Claim(db, PeriodStart(now, settings.period)));
  }

  lemma PassOfStranger(cx: Context, db: Db, market: Market, uid: string)
    requires Watched(db, market, uid) && cx.maxWarnings == 3 && cx.intervalDays == 5
             && cx.oracle == map[uid := STRANGER]
    requires FirstAccount(db.accounts, 0) == Some(0) && (0, cx.periodStart) !in db.snapshots
    ensures var o, d := MemberPass(cx, db, 0), DecisionOn(db.memberships[0], Failing(cx.now));
            var sub := FirstSubscription(db.subscriptions, 0, market);
            && o.Done? && |o.effects| <= 3 && |o.db.accounts| == |db.accounts| && Owns(o.db, 0, market, uid)
            && o.db == db.(accounts := o.db.accounts, snapshots := o.db.snapshots,
                           memberships := [Next(db.memberships[0], Failing(cx.now))],
                               subscriptions := o.db.subscriptions)
            && o.db.subscriptions == (if d.action == Revoke && sub.Some?
                                      then db.subscriptions[sub.value := ExpiredAt(db.subscriptions[sub.value],
                                          cx.now)] else db.subscriptions)
            && o.db.snapshots.Keys == db.snapshots.Keys + {(0, cx.periodStart)}
            && o.tally == TallyOf(d) && (d.action == NoAction ==> o.effects == [])
            && (d.action == Warn ==> o.effects == Tell(ChatOf(db, 0), Warning(d.warningsAfter, 3, NotRegistered)))
  {
    hide FirstAccount, FirstSubscription;
    assert ConfigFor(db, Bitunix, market) == Some(PROGRAMME);
    var f := Find(cx, db, 0).value;
    assert EventOf(cx, f) == Failing(cx.now);
    WarningsHaveReasons(db.memberships[0], Failing(cx.now));
    hide Decide;
  }

  lemma WarningsHaveReasons(m: Membership, e: Event)
    requires e.Checked?
    ensures var d := DecisionOn(m, e); d.action == Warn ==> d.detail == Some(e.verdict.reason)
  {
  }

  lemma SweepOfOne(cx: Context, db: Db)
    requires |db.memberships| > 0
    ensures var o, here := SweepOver(cx, db, [0]), MemberPass(cx, db, 0);
            o.effects == here.effects && (here.Done? ==> o.Done? && o.db == here.db && o.tally == ZERO.Plus(here.tally))
  {
    hide MemberPass;
    var mids: seq<nat> := [0];
    assert mids[..0] == [];
  }

  /** The instants of the sweeps: grace is over at `first`, then one every `d`. */
  function SweepAt(first: Time, d: Time, i: nat): Time {
    first + i * d
  }

  function Sweeps(uid: string, period: Period, first: Time, d: Time, n: nat): seq<Step> {
    seq(n, i requires 0 <= i < n => Sweeping(Default(period, uid, STRANGER), SweepAt(first, d, i), 3))
  }

  lemma NewPeriods(period: Period, first: Time, d: Time, i: nat)
    requires d >= period
    ensures PeriodStart(SweepAt(first, d, i), period) < PeriodStart(SweepAt(first, d, i + 1), period)
    ensures SweepAt(first, d, i + 1) == SweepAt(first, d, i) + d
  {
    assert (i + 1) * d == i * d + d;
    BoundaryIsTheFloor(SweepAt(first, d, i), period, PeriodStart(SweepAt(first, d, i), period));
    BoundaryIsTheFloor(SweepAt(first, d, i + 1), period, PeriodStart(SweepAt(first, d, i + 1), period));
  }

  /** Tables on which the `i`-th sweep is due. */
  ghost predicate Due(db: Db, period: Period, first: Time, d: Time, i: nat) {
    && (forall k | k in db.jobs :: k < PeriodStart(SweepAt(first, d, i), period))
    && (forall k | k in db.snapshots :: k.1 in db.jobs)
  }

  /** The row after `i` of the sweeps, for at most three. */
  function Warned(m: Membership, first: Time, d: Time, i: nat): Membership {
    m.(warnings := i, lastWarning := if i == 0 then None else Some(SweepAt(first, d, i - 1)))
  }

  /** A newly invited member, thirty days before the first sweep. */
  ghost predicate Unsuspecting(m: Membership, first: Time) {
    m.user == 0 && m.status == Invited && Fresh(m) && Since(m) + 30 * DAY <= first
  }

  lemma WarnedStep(m: Membership, first: Time, d: Time, i: nat)
    requires Unsuspecting(m, first) && d >= 5 * DAY && i <= 3
    ensures var row, e := Warned(m, first, d, i), Failing(SweepAt(first, d, i));
            if i < 3 then DecisionOn(row, e).action == Warn && Next(row, e) == Warned(m, first, d, i + 1)
                          && DecisionOn(row, e).warningsAfter == i + 1
            else DecisionOn(row, e).action == Revoke
                 && Next(row, e) == row.(status := Revoked, revokedAt := Some(SweepAt(first, d, 3)),
                                         revocationReason := Some(NotRegistered), link := None)
  {
    assert i * d >= 0;
    assert i > 0 ==> i * d == (i - 1) * d + d;
    FailingCheck(Warned(m, first, d, i), Failing(SweepAt(first, d, i)));
  }

  lemma SweepsSnoc(db: Db, uid: string, period: Period, first: Time, d: Time, i: nat)
    ensures After(db, Sweeps(uid, period, first, d, i + 1)) ==
            Kept(Default(period, uid, STRANGER), After(db, Sweeps(uid, period, first, d, i)), SweepAt(first, d, i), 3)
  {
    hide Kept;
    var all := Sweeps(uid, period, first, d, i + 1);
    assert all[..i] == Sweeps(uid, period, first, d, i)
      && all[i] == Sweeping(Default(period, uid, STRANGER), SweepAt(first, d, i), 3);
  }

  /** Three sweeps warn three times and change nothing else that matters here. */
  lemma {:induction false} ThreeWarnings(db: Db, m: Membership, market: Market, uid: string, period: Period,
      first: Time, d: Time, i: nat)
    requires Watched(db, market, uid) && db.memberships == [m] && Unsuspecting(m, first) && Due(db, period, first, d, 0)
    requires d >= period && d >= 5 * DAY && i <= 3
    ensures var next := After(db, Sweeps(uid, period, first, d, i));
            && Watched(next, market, uid) && next.users == db.users && |next.accounts| == |db.accounts|
            && next.subscriptions == db.subscriptions && next.memberships == [Warned(m, first, d, i)]
            && Due(next, period, first, d, i)
  {
    hide Next, DecisionOn, PeriodStart, SweepAt, FirstSubscription, Kept;
    if i > 0 {
      ThreeWarnings(db, m, market, uid, period, first, d, i - 1);
      var before := After(db, Sweeps(uid, period, first, d, i - 1));
      SweepsSnoc(db, uid, period, first, d, i - 1);
      WarnedStep(m, first, d, i - 1);
      NewPeriods(period, first, d, i - 1);
      SweptOnce(before, market, uid, period, SweepAt(first, d, i - 1));
    }
  }

  /** The fourth removes, and expires the first subscription of that market. */
  lemma FourthRemoves(db: Db, m: Membership, market: Market, uid: string, period: Period, first: Time, d: Time)
    requires Watched(db, market, uid) && db.memberships == [m] && Unsuspecting(m, first) && Due(db, period, first, d, 0)
    requires d >= period && d >= 5 * DAY
    ensures var next := After(db, Sweeps(uid, period, first, d, 4));
            var sub := FirstSubscription(db.subscriptions, 0, market);
            && Watched(next, market, uid) && next.users == db.users && |next.accounts| == |db.accounts|
            && next.memberships[0] == Warned(m, first, d, 3).(status := Revoked,
                 revokedAt := Some(SweepAt(first, d, 3)),
                                                              revocationReason := Some(NotRegistered), link := None)
            && next.subscriptions == if sub.Some?
               then db.subscriptions[sub.value := ExpiredAt(db.subscriptions[sub.value], SweepAt(first, d, 3))]
                                     else db.subscriptions
  {
    hide Next, DecisionOn, PeriodStart, SweepAt, FirstSubscription, Kept;
    ThreeWarnings(db, m, market, uid, period, first, d, 3);
    SweepsSnoc(db, uid, period, first, d, 3);
    WarnedStep(m, first, d, 3);
    SweptOnce(After(db, Sweeps(uid, period, first, d, 3)), market, uid, period, SweepAt(first, d, 3));
  }

  lemma {:induction false} AfterInTwo(db: Db, a: seq<Step>, b: seq<Step>)
    ensures After(db, a + b) == After(After(db, a), b)
    decreases |b|
  {
    hide Apply;
    if b == [] {
      assert a + b == a;
    } else {
      var n := |b| - 1;
      AfterInTwo(db, a, b[..n]);
      assert (a + b)[..|a| + n] == a + b[..n];
    }
  }

  lemma AfterOne(db: Db, step: Step)
    ensures After(db, [step]) == Apply(db, step)
  {
    assert [step][..0] == [];
  }

  lemma NothingDue(db: Db, period: Period, first: Time, d: Time)
    requires db.jobs == map[] && db.snapshots == map[]
    ensures Due(db, period, first, d, 0)
  {
  }

  // The histories.

  function TryIn(raw: string, market: Market, check: Check, member: int, now: Time): Step {
    Onboard(raw, Asking(Uid.Normalize(raw), market, check, member, now), 1)
  }

  /** Two markets. A rejected try in crypto, an admission in forex, four sweeps of
      the default policy: the membership ends REVOKED, its subscription ACTIVE. */
  lemma RemovedWithActiveSubscription(raw1: string, raw2: string, member: int, t1: Time, t2: Time, period: Period,
      first: Time, d: Time)
    requires Uid.IsValid(Uid.Normalize(raw1)) && Uid.IsValid(Uid.Normalize(raw2))
             && Uid.Normalize(raw1) != Uid.Normalize(raw2)
    requires t2 + 30 * DAY <= first && d >= period && d >= 5 * DAY
    ensures var steps := [TryIn(raw1, Crypto, STRANGER, member, t1), TryIn(raw2, Forex, CLIENT, member, t2)]
                         + Sweeps(Uid.Normalize(raw1), period, first, d, 4);
            var end := After(START, steps);
            && |end.memberships| == 1 && |end.subscriptions| == 1
            && end.memberships[0].status == Revoked && end.memberships[0].subscription == 0
            && end.subscriptions[0].status == SubActive && end.subscriptions[0].endsAt == None
  {
    hide Uid.IsValid, Uid.Normalize, Submit, Kept;
    var a, b := TryIn(raw1, Crypto, STRANGER, member, t1), TryIn(raw2, Forex, CLIENT, member, t2);
    FirstRejected(raw1, Crypto, member, t1);
    var db1 := Apply(START, a);
    AdmittedNext(db1, raw2, Forex, member, t2);
    var db2 := Apply(db1, b);
    assert [a, b] == [a] + [b];
    AfterOne(START, a);
    AfterOne(db1, b);
    AfterInTwo(START, [a], [b]);
    AfterInTwo(START, [a, b], Sweeps(Uid.Normalize(raw1), period, first, d, 4));
    NothingDue(db2, period, first, d);
    assert FirstSubscription(db2.subscriptions, 0, Crypto) == None;
    hide Apply, After, Sweeps;
    FourthRemoves(db2, Invitee(Forex, 0, t2), Crypto, Uid.Normalize(raw1), period, first, d);
  }

  /** The same uid again, after a removal. */
  lemma Readmission(db: Db, raw: string, market: Market, member: int, now: Time)
    requires Watched(db, market, Uid.Normalize(raw)) && Uid.IsValid(Uid.Normalize(raw))
             && db.users == [User(member, None)]
    requires |db.accounts| == 1 && |db.subscriptions| == 1 && db.subscriptions[0].user == 0
             && db.subscriptions[0].market == market
    requires db.memberships[0].channel == ChannelId(market) && db.memberships[0].status == Revoked
    ensures var s := Submit(db, raw, Asking(Uid.Normalize(raw), market, CLIENT, member, now));
            && |s.effects| == 1 && |s.db.subscriptions| == 1 && |s.db.memberships| == 1
            && s.db.subscriptions[0].status == SubActive && s.db.subscriptions[0].endsAt == db.subscriptions[0].endsAt
            && s.db.memberships[0].status == Invited && s.db.memberships[0].createdAt == db.memberships[0].createdAt
            && s.db.memberships[0].joinedAt == db.memberships[0].joinedAt
  {
    hide Uid.IsValid, Uid.Normalize, Admit;
    var rq := Asking(Uid.Normalize(raw), market, CLIENT, member, now);
    OnlyUser(member, None);
    assert FindUid(db.accounts, Bitunix, Uid.Normalize(raw)) == Some(0);
    var check := Some(CLIENT);
    var v := Evaluate(check, PROGRAMME.rules, false);
    var judged := db.(accounts := db.accounts[0 := JudgedAccount(db.accounts[0], check, v, now)]);
    assert Submit(db, raw, rq) == Admit(judged, 0, START.channels[market], rq).(verdict := Some(v));
    hide Submit, Watched;
    AdmittedBack(judged, START.channels[market], rq);
  }

  /** A removed member with an ended subscription is let in again. */
  lemma AdmittedBack(db: Db, channel: Channel, rq: Request)
    requires |db.subscriptions| == 1 && db.subscriptions[0].user == 0 && db.subscriptions[0].market == rq.market
    requires |db.memberships| == 1 && db.memberships[0].user == 0 && db.memberships[0].channel == channel.id
             && db.memberships[0].status == Revoked
    ensures var s := Admit(db, 0, channel, rq);
            && |s.effects| == 1 && |s.db.subscriptions| == 1 && |s.db.memberships| == 1
            && s.db.subscriptions[0].status == SubActive && s.db.subscriptions[0].endsAt == db.subscriptions[0].endsAt
            && s.db.memberships[0].status == Invited && s.db.memberships[0].createdAt == db.memberships[0].createdAt
            && s.db.memberships[0].joinedAt == db.memberships[0].joinedAt
  {
    assert FirstSubscription(db.subscriptions, 0, rq.market) == Some(0);
    assert FindMembership(db.memberships, 0, channel.id) == Some(0);
  }

  /** One market. Admitted, removed by the default policy, and back again: the
      subscription is ACTIVE with an end date in the past, and the member's grace is
      still counted from the first admission. */
  lemma ReturnedWithPastEnd(raw: string, market: Market, member: int, t1: Time, period: Period, first: Time, d: Time,
      t2: Time)
    requires Uid.IsValid(Uid.Normalize(raw)) && t1 + 30 * DAY <= first && d >= period && d >= 5 * DAY
             && t2 > SweepAt(first, d, 3)
    ensures var steps := [TryIn(raw, market, CLIENT, member, t1)] + Sweeps(Uid.Normalize(raw), period, first, d, 4)
                         + [TryIn(raw, market, CLIENT, member, t2)];
            var end := After(START, steps);
            && |end.subscriptions| == 1 && end.subscriptions[0].status == SubActive
            && end.subscriptions[0].endsAt == Some(SweepAt(first, d, 3)) && SweepAt(first, d, 3) < t2
            && |end.memberships| == 1 && end.memberships[0].status == Invited && Since(end.memberships[0]) == t1
  {
    hide Uid.IsValid, Uid.Normalize, Submit, Kept;
    var uid := Uid.Normalize(raw);
    var a, b := TryIn(raw, market, CLIENT, member, t1), TryIn(raw, market, CLIENT, member, t2);
    FirstAdmitted(raw, market, member, t1);
    var db1 := Apply(START, a);
    var db2 := After(db1, Sweeps(uid, period, first, d, 4));
    AfterOne(START, a);
    AfterInTwo(START, [a], Sweeps(uid, period, first, d, 4));
    AfterInTwo(START, [a] + Sweeps(uid, period, first, d, 4), [b]);
    AfterOne(db2, b);
    NothingDue(db1, period, first, d);
    assert FirstSubscription(db1.subscriptions, 0, market) == Some(0);
    hide After, Sweeps, SweepAt;
    FourthRemoves(db1, Invitee(market, 0, t1), market, uid, period, first, d);
    Readmission(db2, raw, market, member, t2);
  }

  /** Two markets. One person admitted in both: while the provider answers about the
      first account, every run aborts of itself. */
  lemma AdmittedTwiceAborts(raw1: string, raw2: string, member: int, t1: Time, t2: Time, settings: Settings, now: Time)
    requires Uid.IsValid(Uid.Normalize(raw1)) && Uid.IsValid(Uid.Normalize(raw2))
             && Uid.Normalize(raw1) != Uid.Normalize(raw2)
    requires Uid.Normalize(raw1) in settings.oracle
    ensures var steps := [TryIn(raw1, Crypto, CLIENT, member, t1), TryIn(raw2, Forex, CLIENT, member, t2)];
            RunMonitor(settings, After(START, steps), now).Aborted?
  {
    hide Uid.IsValid, Uid.Normalize, Submit, RunMonitor, PeriodStart;
    var a, b := TryIn(raw1, Crypto, CLIENT, member, t1), TryIn(raw2, Forex, CLIENT, member, t2);
    FirstAdmitted(raw1, Crypto, member, t1);
    var db1 := Apply(START, a);
    assert FirstSubscription(db1.subscriptions, 0, Forex) == None && FindMembership(db1.memberships, 0, 2) == None;
    AdmittedNext(db1, raw2, Forex, member, t2);
    var db2 := Apply(db1, b);
    assert [a, b] == [a] + [b];
    AfterOne(START, a);
    AfterOne(db1, b);
    AfterInTwo(START, [a], [b]);
    RunsAbortIff(START, [a, b], settings, now);
    BothJudgedByFirst(settings, db2, now, Uid.Normalize(raw1));
  }

  lemma BothJudgedByFirst(settings: Settings, db: Db, now: Time, uid: string)
    requires |db.memberships| == 2 && Owns(db, 0, Crypto, uid) && uid in settings.oracle && db.configs == START.configs
    requires forall x | 0 <= x < 2 :: db.memberships[x].user == 0 && Monitored(db.memberships[x].status)
    ensures ShareAnswered(settings, db, now, 0, 1)
  {
    hide PeriodStart, Evaluate;
    FirstOwned(db, Crypto, uid);
    var ids := MonitoredIds(db.memberships);
    assert 0 in ids && 1 in ids;
  }
}
