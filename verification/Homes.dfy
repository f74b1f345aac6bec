/** Entitlement across markets: for everybody, after any history, whether the
    subscription behind a membership agrees with it. */
module Homes {
  import opened Types
  import opened Eligibility
  import opened Rows
  import opened Lifecycle
  import opened Sweep
  import opened SweepLaws
  import opened SweepTheorems
  import opened Runs
  import opened Onboarding
  import opened PeriodLock
  import opened Engine
  import opened Entitlement
  import opened Aborts
  import Uid

  /** The market of the account that judges a user. */
  function Home(db: Db, user: nat): Option<Market> {
    var j := FirstAccount(db.accounts, user);
    if j.Some? then Some(db.accounts[j.value].market) else None
  }

  ghost predicate DistinctChannels(db: Db) {
    forall a, b | a in db.channels && b in db.channels && a != b :: db.channels[a].id != db.channels[b].id
  }

  /** The row is on its user's own subscription, in the channel of its market; that
      one has ended exactly if the row was removed and its market is the home. */
  ghost predicate Told(db: Db, m: Membership) {
    && m.subscription < |db.subscriptions|
    && var s := db.subscriptions[m.subscription];
       && s.user == m.user && InChannelOf(db, m.channel, s.market) && Home(db, m.user).Some?
       && (m.status == Invited || m.status == Active || m.status == Revoked)
       && s.status == if m.status == Revoked && Home(db, m.user) == Some(s.market) then SubExpired else SubActive
  }

  ghost predicate AllTold(db: Db) {
    forall i | 0 <= i < |db.memberships| :: Told(db, db.memberships[i])
  }

  ghost predicate HomeInv(db: Db) {
    OneSubscriptionEach(db) && OneMembershipEach(db) && DistinctChannels(db) && AllTold(db)
  }

  /** The first account stays first. */
  lemma HomeStays(db: Db, next: Db, user: nat)
    requires RowsKept(db, next) && Home(db, user).Some?
    ensures Home(next, user) == Home(db, user)
  {
    var j, k := FirstAccount(db.accounts, user).value, FirstAccount(next.accounts, user);
    assert next.accounts[j].user == user;
    assert k.Some? && !(j < k.value) && !(k.value < j);
  }

  /** Nothing about this row, its subscription or its user's accounts is new. */
  lemma SameTold(db: Db, next: Db, m: Membership)
    requires RowsKept(db, next) && Told(db, m) && next.subscriptions[m.subscription] == db.subscriptions[m.subscription]
    ensures Told(next, m)
  {
    HomeStays(db, next, m.user);
  }

  // The monitoring pass.

  /** What a removal rests on: an answer about the first account, whose market it is. */
  lemma RemovalIsJudged(cx: Context, db: Db, x: nat)
    requires x < |db.memberships| && ExpiresFor(cx, db, x).Some?
    ensures var s := db.subscriptions[ExpiresFor(cx, db, x).value];
            s.user == db.memberships[x].user && Home(db, s.user) == Some(s.market)
    ensures SnapshotAccount(cx, db, x) == FirstAccount(db.accounts, db.memberships[x].user)
            && SnapshotAccount(cx, db, x).Some?
  {
    hide FirstAccount, FirstSubscription;
  }

  /** One check of a row that is told: it stays, or is removed and then the judging
      account's subscription is looked up. */
  lemma CheckedRow(cx: Context, db: Db, i: nat)
    requires i < |db.memberships| && Told(db, db.memberships[i]) && OneSubscriptionEach(db)
    ensures var m, next := db.memberships[i], RowAfter(cx, db, i);
            && next.user == m.user && next.channel == m.channel && next.subscription == m.subscription
            && (next.status == m.status || (next.status == Revoked && m.status != Revoked))
            && (next.status != m.status && Home(db, m.user) == Some(db.subscriptions[m.subscription].market) ==>
                  ExpiresFor(cx, db, i) == Some(m.subscription))
            && (ExpiresFor(cx, db, i).Some? ==> next.status == Revoked)
  {
    hide FirstAccount, Next, Evaluate;
    var m, f := db.memberships[i], Find(cx, db, i);
    if f.Some? {
      CheckedStatus(m, EventOf(cx, f.value));
      var s := FirstSubscription(db.subscriptions, m.user, f.value.market);
      assert db.subscriptions[m.subscription].market == f.value.market ==> s == Some(m.subscription);
    }
  }

  lemma JobsAside(a: Db, b: Db)
    requires HomeInv(a) && b.(jobs := a.jobs) == a
    ensures HomeInv(b)
  {
    forall i | 0 <= i < |b.memberships|
      ensures Told(b, b.memberships[i])
    {
      assert Told(a, a.memberships[i]);
    }
  }

  /** No two listed members are judged by one answered account. */
  ghost predicate NoClash(cx: Context, db: Db, ids: seq<nat>) {
    forall x: nat, y: nat | x in ids && y in ids && x < |db.memberships| && y < |db.memberships| && x != y ::
      SnapshotAccount(cx, db, x) == None || SnapshotAccount(cx, db, x) != SnapshotAccount(cx, db, y)
  }

  /** So nobody else's removal can end the subscription of a row that stays live. */
  lemma RemovalIsTheOnlyCheck(cx: Context, db: Db, ids: seq<nat>, i: nat, x: nat)
    requires NoClash(cx, db, ids) && i < |db.memberships| && x < |db.memberships| && i in ids && x in ids
    requires db.memberships[i].user == db.memberships[x].user && ExpiresFor(cx, db, x).Some?
    ensures i == x
  {
    hide FirstAccount, FirstSubscription, Evaluate;
    RemovalIsJudged(cx, db, x);
    assert Find(cx, db, i) == Find(cx, db, x);
  }

  /** Whose removals end the subscription of row `i`. */
  lemma EndsTold(cx: Context, db: Db, ids: seq<nat>, i: nat)
    requires InRange(db, ids) && NoClash(cx, db, ids) && i < |db.memberships| && Told(db, db.memberships[i])
    requires OneSubscriptionEach(db)
    requires forall j: nat | j < |db.memberships| && Monitored(db.memberships[j].status) :: j in ids
    ensures var m, row := db.memberships[i], if i in ids then RowAfter(cx, db, i) else db.memberships[i];
            var home := Home(db, m.user) == Some(db.subscriptions[m.subscription].market);
            && (Ends(cx, db, ids, m.subscription) ==> home && row.status == Revoked)
            && (!Ends(cx, db, ids, m.subscription) && home ==> row.status == m.status)
  {
    var m := db.memberships[i];
    CheckedRow(cx, db, i);
    hide RowAfter, ExpiresFor, NoClash, Home, SnapshotAccount, OneSubscriptionEach;
    if Ends(cx, db, ids, m.subscription) {
      var p :| 0 <= p < |ids| && ExpiresFor(cx, db, ids[p]) == Some(m.subscription);
      RemovalIsJudged(cx, db, ids[p]);
      if m.status != Revoked { RemovalIsTheOnlyCheck(cx, db, ids, i, ids[p]); }
    } else if i in ids {
      var p :| 0 <= p < |ids| && ids[p] == i;
      assert ExpiresFor(cx, db, ids[p]) != Some(m.subscription);
    }
  }

  lemma SweptRowTold(cx: Context, db: Db, ids: seq<nat>, i: nat)
    requires InRange(db, ids) && NoClash(cx, db, ids) && i < |db.memberships| && Told(db, db.memberships[i])
    requires OneSubscriptionEach(db) && RowsKept(db, Merged(cx, db, ids))
    requires forall j: nat | j < |db.memberships| && Monitored(db.memberships[j].status) :: j in ids
    ensures Told(Merged(cx, db, ids), Merged(cx, db, ids).memberships[i])
  {
    var m, next := db.memberships[i], Merged(cx, db, ids);
    EndsTold(cx, db, ids, i);
    CheckedRow(cx, db, i);
    HomeStays(db, next, m.user);
    hide RowAfter, ExpiresFor, NoClash, Checks, NewSnapshots, AccountAfter, Home, RowsKept, OneSubscriptionEach,
        SnapshotAccount, Ends;
    assert next.memberships[i] == if i in ids then RowAfter(cx, db, i) else m;
    assert next.subscriptions[m.subscription] ==
        if Ends(cx, db, ids, m.subscription) then ExpiredAt(db.subscriptions[m.subscription], cx.now)
        else db.subscriptions[m.subscription];
    hide Merged;
  }

  lemma MergedKeepsHomes(cx: Context, db: Db, ids: seq<nat>)
    requires HomeInv(db) && InRange(db, ids) && NoClash(cx, db, ids)
    requires forall j: nat | j < |db.memberships| && Monitored(db.memberships[j].status) :: j in ids
    ensures HomeInv(Merged(cx, db, ids))
  {
    MergedKeepsRows(cx, db, ids);
    hide Merged, Told, NoClash;
    var next := Merged(cx, db, ids);
    forall i | 0 <= i < |next.memberships|
      ensures Told(next, next.memberships[i])
    {
      SweptRowTold(cx, db, ids, i);
    }
  }

  lemma CompletedHasNoClash(settings: Settings, db: Db, now: Time)
    requires SnapshotsHaveJobs(db) && RunMonitor(settings, db, now).Completed?
    ensures NoClash(ContextFor(settings, now), Claim(db, PeriodStart(now, settings.period)),
              MonitoredIds(db.memberships))
  {
    hide SnapshotAccount, ShareAnswered;
    AbortsIff(settings, db, now);
    assert PeriodStart(now, settings.period) !in db.jobs;
    hide RunMonitor, PeriodStart, MonitoredIds;
    forall x: nat, y: nat
      ensures !ShareAnswered(settings, db, now, x, y)
    {
    }
    forall x: nat, y: nat | x in MonitoredIds(db.memberships) && y in MonitoredIds(db.memberships)
        && x < |db.memberships| && y < |db.memberships| && x != y
      ensures var cx, claimed := ContextFor(settings, now), Claim(db, PeriodStart(now, settings.period));
              SnapshotAccount(cx, claimed, x) == None || SnapshotAccount(cx, claimed, x) !=
                SnapshotAccount(cx, claimed, y)
    {
      ClaimedShare(settings, db, now, x, y);
    }
  }

  lemma SweepKeepsHomes(settings: Settings, db: Db, now: Time, serves: nat)
    requires HomeInv(db) && SnapshotsHaveJobs(db)
    ensures HomeInv(Kept(settings, db, now, serves))
  {
    hide SweepOver, Merged, PeriodStart, HomeInv, NoClash, SnapshotsHaveJobs;
    var start := PeriodStart(now, settings.period);
    var cx, ids, claimed := ContextFor(settings, now), MonitoredIds(db.memberships), Claim(db, start);
    if RunMonitor(settings, db, now).Completed? {
      ListIsDistinct(db);
      JobsAside(db, claimed);
      CompletedHasNoClash(settings, db, now);
      MergedKeepsHomes(cx, claimed, ids);
      SweepIsParallel(cx, claimed, ids);
      if Kept(settings, db, now, serves) != db {
        JobsAside(Merged(cx, claimed, ids), Kept(settings, db, now, serves));
      }
    }
  }

  // Admission.

  /** Whoever is admitted has an account. */
  lemma JudgedHasHome(db: Db, user: nat, uid: string, config: Config, channel: Channel, rq: Request)
    requires FindUid(db.accounts, rq.provider, uid).Some? ==>
               db.accounts[FindUid(db.accounts, rq.provider, uid).value].user == user
    ensures Home(Judge(db, user, uid, config, channel, rq).db, user).Some?
  {
    hide Admit, FindUid;
    var check := SignUpCheck(rq, uid);
    var v := Evaluate(check, config.rules, false);
    var (db1, j) := AccountFor(db, user, rq, uid);
    var judged := db1.(accounts := db1.accounts[j := JudgedAccount(db1.accounts[j], check, v, rq.now)]);
    AdmitTables(judged, user, channel, rq);
    assert judged.accounts[j].user == user;
  }

  lemma AdmittedHasHome(db: Db, raw: string, rq: Request)
    requires Admits(Submit(db, raw, rq))
    ensures Home(Submit(db, raw, rq).db, EnsureUser(db, rq.telegramId).1).Some?
  {
    hide Uid.IsValid, Uid.Normalize, Judge, FindUser, Home;
    var (db1, user) := EnsureUser(db, rq.telegramId);
    var config, channel := ConfigFor(db, rq.provider, rq.market), ChannelFor(db, rq.market);
    var claimed := FindUid(db1.accounts, rq.provider, Uid.Normalize(raw));
    if config.Some? && channel.Some? && (claimed.Some? ==> db1.accounts[claimed.value].user == user) {
      JudgedHasHome(db1, user, Uid.Normalize(raw), config.value, channel.value, rq);
    }
  }

  /** The subscription an admission revives is nobody else's. */
  lemma OthersSubscription(db: Db, m: Membership, i: nat, user: nat, k: Market)
    requires HomeInv(db) && i < |db.memberships| && m == db.memberships[i] && k in db.channels
    requires m.user != user || m.channel != db.channels[k].id
    ensures db.subscriptions[m.subscription].user != user || db.subscriptions[m.subscription].market != k
  {
    assert Told(db, m);
  }

  lemma OnboardKeepsHomes(db: Db, raw: string, rq: Request)
    requires HomeInv(db)
    ensures HomeInv(Submit(db, raw, rq).db)
  {
    hide Submit, Told;
    var s := Submit(db, raw, rq);
    OnboardKeepsEach(db, raw, rq);
    SubmitKeepsRows(db, raw, rq);
    forall i | 0 <= i < |s.db.memberships|
      ensures Told(s.db, s.db.memberships[i])
    {
      if Admits(s) {
        AdmissionTells(db, raw, rq, i);
      } else {
        SubmitTables(db, raw, rq);
        SubmitRows(db, raw, rq);
        assert Told(db, db.memberships[i]);
        SubscriptionsInRange(db, db.memberships[i]);
        SameTold(db, s.db, s.db.memberships[i]);
      }
    }
  }

  lemma SubscriptionsInRange(db: Db, m: Membership)
    requires Told(db, m)
    ensures m.subscription < |db.subscriptions|
  {
  }

  lemma AdmissionTells(db: Db, raw: string, rq: Request, i: nat)
    requires HomeInv(db) && Admits(Submit(db, raw, rq)) && i < |Submit(db, raw, rq).db.memberships|
    ensures Told(Submit(db, raw, rq).db, Submit(db, raw, rq).db.memberships[i])
  {
    hide Submit, EnsureUser, EnsureSubscription, Told, Home, RowsKept, OneMembershipEach;
    var user := EnsureUser(db, rq.telegramId).1;
    SubmitTables(db, raw, rq);
    SubmitKeepsRows(db, raw, rq);
    SubscriptionReady(db, user, rq.market, rq.now);
    SubmitAdmitsOne(db, raw, rq);
    AdmittedHasHome(db, raw, rq);
    var (mid, sub) := AdmittedIds(db, rq);
    AdmittedTold(db, Submit(db, raw, rq).db, rq.market, user, mid, sub, i);
  }

  lemma AdmittedTold(db: Db, next: Db, k: Market, user: nat, mid: nat, sub: nat, i: nat)
    requires HomeInv(db) && RowsKept(db, next) && k in db.channels && i < |next.memberships|
    requires OneAdmitted(db.memberships, next.memberships, mid, user, db.channels[k].id, sub)
    requires sub < |next.subscriptions| && next.subscriptions[sub].user == user && next.subscriptions[sub].market == k
             && next.subscriptions[sub].status == SubActive && Home(next, user).Some?
    requires forall s | 0 <= s < |db.subscriptions| && s != sub :: next.subscriptions[s] == db.subscriptions[s]
    requires sub < |db.subscriptions| ==> db.subscriptions[sub].user == user && db.subscriptions[sub].market == k
    ensures Told(next, next.memberships[i])
  {
    var m := next.memberships[i];
    if i != mid {
      hide Home;
      assert Told(db, m);
      OthersSubscription(db, m, i, user, k);
      SameTold(db, next, m);
    }
  }

  // Whole histories.

  lemma JoinedRow(m: Membership, at: Time)
    ensures var next := Next(m, Joined(at));
            && next.user == m.user && next.channel == m.channel && next.subscription == m.subscription
            && (next.status == m.status || (m.status == Invited && next.status == Active))
  {
  }

  lemma JoinKeepsHomes(db: Db, mid: nat, at: Time)
    requires HomeInv(db)
    ensures HomeInv(Apply(db, Join(mid, at)))
  {
    hide Next, Home;
    var next := Apply(db, Join(mid, at));
    forall i | 0 <= i < |next.memberships|
      ensures Told(next, next.memberships[i]) && next.memberships[i].user == db.memberships[i].user
              && next.memberships[i].channel == db.memberships[i].channel
    {
      assert Told(db, db.memberships[i]);
      JoinedRow(db.memberships[i], at);
      SameHome(db, next, db.memberships[i].user);
    }
    hide Told, Apply;
  }

  lemma SameHome(db: Db, next: Db, user: nat)
    requires next.accounts == db.accounts
    ensures Home(next, user) == Home(db, user)
  {
  }

  lemma {:induction false} HomesHold(db: Db, steps: seq<Step>)
    requires HomeInv(db) && SnapshotsHaveJobs(db)
    ensures HomeInv(After(db, steps)) && SnapshotsHaveJobs(After(db, steps))
  {
    RecordsHold(db, steps);
    hide SnapshotsHaveJobs, HomeInv, Submit, Kept;
    if steps != [] {
      var n := |steps| - 1;
      var before := After(db, steps[..n]);
      HomesHold(db, steps[..n]);
      match steps[n]
      case Onboard(raw, rq, serves) => OnboardKeepsHomes(before, raw, rq);
      case Sweeping(settings, now, serves) => SweepKeepsHomes(settings, before, now, serves);
      case Join(mid, at) => JoinKeepsHomes(before, mid, at);
    }
  }

  /** After any history, with any number of markets: every membership is on its
      user's own subscription for the market of its channel. While it is live that
      subscription is active. Once it is removed the subscription is expired exactly
      when its market is that of the user's first account, and active otherwise. */
  lemma SubscriptionTellsAccessIff(db: Db, steps: seq<Step>, i: nat)
    requires DistinctChannels(db) && db.accounts == [] && db.subscriptions == [] && db.memberships == []
             && db.snapshots == map[]
    requires i < |After(db, steps).memberships|
    ensures var end := After(db, steps);
            var m := end.memberships[i];
            && m.subscription < |end.subscriptions|
            && var s := end.subscriptions[m.subscription];
               && s.user == m.user && s.market in end.channels && end.channels[s.market].id == m.channel
               && (m.status == Invited || m.status == Active || m.status == Revoked)
               && (s.status == SubActive || s.status == SubExpired)
               && (s.status == SubExpired <==> m.status == Revoked && Home(end, m.user) == Some(s.market))
  {
    HomesHold(db, steps);
    hide After;
    assert Told(After(db, steps), After(db, steps).memberships[i]);
  }

  /** So access and entitlement are out of step exactly for those removed from a
      market other than that of their first account. */
  lemma OutOfStepIff(db: Db, steps: seq<Step>, i: nat)
    requires DistinctChannels(db) && db.accounts == [] && db.subscriptions == [] && db.memberships == []
             && db.snapshots == map[]
    requires i < |After(db, steps).memberships|
    ensures var end := After(db, steps);
            var m := end.memberships[i];
            !Agrees(end, m) <==>
              m.status == Revoked && m.subscription < |end.subscriptions|
              && Home(end, m.user) != Some(end.subscriptions[m.subscription].market)
  {
    hide After;
    SubscriptionTellsAccessIff(db, steps, i);
  }
}
