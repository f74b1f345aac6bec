/** Entitlement and access: does a membership's status agree with the subscription
    it points to? For everyone who stays in one market, always; across markets not. */
module Entitlement {
  import opened Types
  import opened Eligibility
  import opened Compliance
  import opened Rows
  import opened Lifecycle
  import opened Sweep
  import opened SweepLaws
  import opened Runs
  import opened Onboarding
  import opened PeriodLock
  import opened Engine
  import Uid

  ghost predicate OneSubscriptionEach(db: Db) {
    forall i, j | 0 <= i < j < |db.subscriptions| ::
      db.subscriptions[i].user != db.subscriptions[j].user || db.subscriptions[i].market != db.subscriptions[j].market
  }

  ghost predicate OneMembershipEach(db: Db) {
    forall i, j | 0 <= i < j < |db.memberships| ::
      db.memberships[i].user != db.memberships[j].user || db.memberships[i].channel != db.memberships[j].channel
  }

  /** A live row points to its user's active subscription, a removed one to an
      expired one. */
  ghost predicate Agrees(db: Db, m: Membership) {
    && m.subscription < |db.subscriptions| && db.subscriptions[m.subscription].user == m.user
    && (m.status == Invited || m.status == Active || m.status == Revoked)
    && db.subscriptions[m.subscription].status == (if m.status == Revoked then SubExpired else SubActive)
  }

  predicate InChannelOf(db: Db, channel: nat, k: Market) {
    k in db.channels && db.channels[k].id == channel
  }

  /** All of this user's accounts, subscriptions and memberships are in market `k`. */
  ghost predicate InMarket(db: Db, user: nat, k: Market) {
    && (forall j | 0 <= j < |db.accounts| && db.accounts[j].user == user :: db.accounts[j].market == k)
    && (forall s | 0 <= s < |db.subscriptions| && db.subscriptions[s].user == user :: db.subscriptions[s].market == k)
    && (forall i | 0 <= i < |db.memberships| && db.memberships[i].user == user ::
          InChannelOf(db, db.memberships[i].channel, k))
  }

  ghost predicate EntitlementInv(db: Db) {
    && OneSubscriptionEach(db) && OneMembershipEach(db)
    && forall i, k | 0 <= i < |db.memberships| && InMarket(db, db.memberships[i].user, k) ::
         Agrees(db, db.memberships[i])
  }

  /** The rows of `user` in `next` contain those in `db`, in the same places. */
  ghost predicate RowsKept(db: Db, next: Db) {
    && next.channels == db.channels
    && |db.accounts| <= |next.accounts| && |db.subscriptions| <= |next.subscriptions|
       && |db.memberships| <= |next.memberships|
    && (forall j | 0 <= j < |db.accounts| ::
          next.accounts[j].user == db.accounts[j].user && next.accounts[j].market == db.accounts[j].market)
    && (forall s | 0 <= s < |db.subscriptions| ::
          next.subscriptions[s].user == db.subscriptions[s].user
            && next.subscriptions[s].market == db.subscriptions[s].market)
    && (forall i | 0 <= i < |db.memberships| ::
          next.memberships[i].user == db.memberships[i].user
            && next.memberships[i].channel == db.memberships[i].channel)
  }

  /** Nobody ever comes back into one market. */
  lemma InMarketBefore(db: Db, next: Db, user: nat, k: Market)
    requires RowsKept(db, next) && InMarket(next, user, k)
    ensures InMarket(db, user, k)
  {
  }

  // The monitoring pass.

  /** The subscription a removal finds is the member's own. */
  lemma SubscriptionFound(db: Db, k: Market, m: Membership)
    requires OneSubscriptionEach(db) && InMarket(db, m.user, k) && Agrees(db, m)
    ensures FirstSubscription(db.subscriptions, m.user, k) == Some(m.subscription)
  {
    var s := FirstSubscription(db.subscriptions, m.user, k);
    assert db.subscriptions[m.subscription].user == m.user && db.subscriptions[m.subscription].market == k;
  }

  /** What one check does to a live row's status. */
  lemma CheckedStatus(m: Membership, e: Event)
    requires e.Checked? && (m.status == Invited || m.status == Active || m.status == Revoked)
    ensures var next, a := Next(m, e), DecisionOn(m, e).action;
            && next.user == m.user && next.channel == m.channel && next.subscription == m.subscription
            && next.status == (if a == Revoke then Revoked else m.status)
            && (a == Revoke ==> m.status != Revoked)
  {
  }

  lemma RowAfterStatus(cx: Context, db: Db, k: Market, i: nat)
    requires OneSubscriptionEach(db) && i < |db.memberships|
    requires InMarket(db, db.memberships[i].user, k) && Agrees(db, db.memberships[i])
    ensures var m, next := db.memberships[i], RowAfter(cx, db, i);
            && next.user == m.user && next.channel == m.channel && next.subscription == m.subscription
            && next.status == (if ExpiresFor(cx, db, i).Some? then Revoked else m.status)
            && (ExpiresFor(cx, db, i).Some? ==> ExpiresFor(cx, db, i) == Some(m.subscription))
  {
    hide Next, Evaluate;
    SubscriptionFound(db, k, db.memberships[i]);
    var f := Find(cx, db, i);
    if f.Some? { CheckedStatus(db.memberships[i], EventOf(cx, f.value)); }
  }

  /** Whose subscription a removal expires. */
  lemma ExpiresOwnUsers(cx: Context, db: Db, i: nat)
    requires i < |db.memberships|
    ensures var s := ExpiresFor(cx, db, i);
            s.Some? ==> s.value < |db.subscriptions| && db.subscriptions[s.value].user == db.memberships[i].user
  {
  }

  lemma OneRowOfUser(db: Db, k: Market, i: nat, x: nat)
    requires OneMembershipEach(db) && i < |db.memberships| && x < |db.memberships|
    requires db.memberships[i].user == db.memberships[x].user && InMarket(db, db.memberships[i].user, k)
    ensures i == x
  {
    assert InChannelOf(db, db.memberships[i].channel, k) && InChannelOf(db, db.memberships[x].channel, k);
  }

  lemma MergedAgrees(cx: Context, db: Db, k: Market, mids: seq<nat>, i: nat)
    requires OneSubscriptionEach(db) && OneMembershipEach(db) && InRange(db, mids) && i < |db.memberships|
    requires InMarket(db, db.memberships[i].user, k) && Agrees(db, db.memberships[i])
    ensures Agrees(Merged(cx, db, mids), Merged(cx, db, mids).memberships[i])
  {
    hide RowAfter, ExpiresFor, AccountAfter, Checks, NewSnapshots, InMarket;
    var m := db.memberships[i];
    RowAfterStatus(cx, db, k, i);
    if Ends(cx, db, mids, m.subscription) {
      var x :| 0 <= x < |mids| && ExpiresFor(cx, db, mids[x]) == Some(m.subscription);
      ExpiresOwnUsers(cx, db, mids[x]);
      OneRowOfUser(db, k, i, mids[x]);
    } else if i in mids {
      var x :| 0 <= x < |mids| && mids[x] == i;
      assert ExpiresFor(cx, db, mids[x]) != Some(m.subscription);
    }
  }

  lemma ChannelsOfRows(cx: Context, db: Db, i: nat)
    requires i < |db.memberships|
    ensures RowAfter(cx, db, i).channel == db.memberships[i].channel
            && RowAfter(cx, db, i).user == db.memberships[i].user
  {
  }

  lemma MergedKeepsRows(cx: Context, db: Db, mids: seq<nat>)
    requires InRange(db, mids)
    ensures RowsKept(db, Merged(cx, db, mids))
    ensures |Merged(cx, db, mids).memberships| == |db.memberships|
            && |Merged(cx, db, mids).subscriptions| == |db.subscriptions|
  {
    hide RowAfter, ExpiresFor, AccountAfter, Checks, NewSnapshots, Ends;
    MergedSameSubjects(cx, db, mids);
    forall i | 0 <= i < |db.memberships|
      ensures Merged(cx, db, mids).memberships[i].channel == db.memberships[i].channel
    {
      ChannelsOfRows(cx, db, i);
    }
  }

  lemma MergedKeepsEntitlement(cx: Context, db: Db, mids: seq<nat>)
    requires EntitlementInv(db) && InRange(db, mids)
    ensures EntitlementInv(Merged(cx, db, mids))
  {
    var next := Merged(cx, db, mids);
    MergedKeepsRows(cx, db, mids);
    hide Merged, InMarket, Agrees;
    forall i, k | 0 <= i < |next.memberships| && InMarket(next, next.memberships[i].user, k)
      ensures Agrees(next, next.memberships[i])
    {
      InMarketBefore(db, next, next.memberships[i].user, k);
      MergedAgrees(cx, db, k, mids, i);
    }
  }

  lemma JobsAreAside(a: Db, b: Db)
    requires EntitlementInv(a) && b.(jobs := a.jobs) == a
    ensures EntitlementInv(b)
  {
    hide InMarket, Agrees;
    forall i, k | 0 <= i < |b.memberships| && InMarket(b, b.memberships[i].user, k)
      ensures Agrees(b, b.memberships[i])
    {
      InMarketBefore(a, b, b.memberships[i].user, k);
      SameSubscriptions(a, b, b.memberships[i]);
    }
  }

  lemma SweepKeepsEntitlement(settings: Settings, db: Db, now: Time, serves: nat)
    requires EntitlementInv(db)
    ensures EntitlementInv(Kept(settings, db, now, serves)) && RowsKept(db, Kept(settings, db, now, serves))
  {
    hide SweepOver, Merged, EntitlementInv;
    var start := PeriodStart(now, settings.period);
    var cx, ids, claimed := ContextFor(settings, now), MonitoredIds(db.memberships), Claim(db, start);
    ListIsDistinct(db);
    JobsAreAside(db, claimed);
    SweepIsParallel(cx, claimed, ids);
    MergedKeepsEntitlement(cx, claimed, ids);
    MergedKeepsRows(cx, claimed, ids);
    var r := RunMonitor(settings, db, now);
    if r.Completed? && !RunRaises(r, serves) {
      JobsAreAside(Merged(cx, claimed, ids), Kept(settings, db, now, serves));
    }
  }

  // Admission.

  lemma AdmitTables(db: Db, user: nat, channel: Channel, rq: Request)
    ensures var s := Admit(db, user, channel, rq);
            && Admits(s) && s.db.accounts == db.accounts && s.db.channels == db.channels
            && s.db.subscriptions == EnsureSubscription(db, user, rq.market, rq.now).0.subscriptions
  {
    hide Issued, Readmitted;
  }

  /** The accounts of `a`, and perhaps one new one of `user` in `market`. */
  ghost predicate OneMoreAccount(a: seq<Account>, b: seq<Account>, user: nat, market: Market) {
    && |a| <= |b| <= |a| + 1
    && (forall j | 0 <= j < |a| :: b[j].user == a[j].user && b[j].market == a[j].market)
    && (|b| > |a| ==> b[|a|].user == user && b[|a|].market == market)
  }

  lemma JudgeTables(db: Db, user: nat, uid: string, config: Config, channel: Channel, rq: Request)
    ensures var s := Judge(db, user, uid, config, channel, rq);
            && s.db.channels == db.channels && OneMoreAccount(db.accounts, s.db.accounts, user, rq.market)
            && s.db.subscriptions ==
                 if Admits(s) then EnsureSubscription(db, user, rq.market, rq.now).0.subscriptions else db.subscriptions
  {
    hide Admit, FindUid, EnsureSubscription;
    var check := SignUpCheck(rq, uid);
    var v := Evaluate(check, config.rules, false);
    var (db1, j) := AccountFor(db, user, rq, uid);
    var judged := db1.(accounts := db1.accounts[j := JudgedAccount(db1.accounts[j], check, v, rq.now)]);
    AdmitTables(judged, user, channel, rq);
    SubscriptionsDecide(judged, db, user, rq);
  }

  lemma SubscriptionsDecide(a: Db, b: Db, user: nat, rq: Request)
    requires a.subscriptions == b.subscriptions
    ensures EnsureSubscription(a, user, rq.market, rq.now).0.subscriptions ==
              EnsureSubscription(b, user, rq.market, rq.now).0.subscriptions
    ensures EnsureSubscription(a, user, rq.market, rq.now).1 == EnsureSubscription(b, user, rq.market, rq.now).1
  {
  }

  lemma SubmitTables(db: Db, raw: string, rq: Request)
    ensures var s, user := Submit(db, raw, rq), EnsureUser(db, rq.telegramId).1;
            && s.db.channels == db.channels && OneMoreAccount(db.accounts, s.db.accounts, user, rq.market)
            && (|s.db.accounts| > |db.accounts| ==> rq.market in db.channels)
            && s.db.subscriptions ==
                 if Admits(s) then EnsureSubscription(db, user, rq.market, rq.now).0.subscriptions else db.subscriptions
  {
    hide Uid.IsValid, Uid.Normalize, Judge, EnsureSubscription, FindUid, FindUser;
    var (db1, user) := EnsureUser(db, rq.telegramId);
    var config, channel := ConfigFor(db, rq.provider, rq.market), ChannelFor(db, rq.market);
    if config.Some? && channel.Some? { JudgeTables(db1, user, Uid.Normalize(raw), config.value, channel.value, rq); }
    SubscriptionsDecide(db, db1, user, rq);
  }

  /** An admission makes the row live and leaves it on the given subscription. */
  lemma AdmissionStatus(m: Membership, e: Event)
    requires e.Admitted?
    ensures var next := Next(m, e);
            next.user == m.user && next.channel == m.channel && next.subscription == e.subscription
            && (next.status == Invited || next.status == Active)
  {
  }

  /** The subscription table after an admission: at `sub` the user's active one for
      the market, every other row as it was. */
  lemma SubscriptionReady(db: Db, user: nat, k: Market, now: Time)
    requires OneSubscriptionEach(db)
    ensures var (next, sub) := EnsureSubscription(db, user, k, now);
            var subs := next.subscriptions;
            && OneSubscriptionEach(next)
            && subs[sub].user == user && subs[sub].market == k && subs[sub].status == SubActive
            && |db.subscriptions| <= |subs| <= |db.subscriptions| + 1
               && (sub >= |db.subscriptions| ==> sub == |db.subscriptions| < |subs|)
            && (forall s | 0 <= s < |db.subscriptions| && s != sub :: subs[s] == db.subscriptions[s])
            && (sub < |db.subscriptions| ==> |subs| == |db.subscriptions| && db.subscriptions[sub].user == user
                                             && db.subscriptions[sub].market == k)
  {
  }

  lemma SameSubscriptions(a: Db, b: Db, m: Membership)
    requires a.subscriptions == b.subscriptions && Agrees(a, m)
    ensures Agrees(b, m)
  {
  }

  /** The membership table after an admission. */
  ghost predicate OneAdmitted(a: seq<Membership>, b: seq<Membership>, mid: nat, user: nat, channel: nat, sub: nat) {
    && |a| <= |b| && (if mid < |a| then |b| == |a| && a[mid].user == user && a[mid].channel == channel
       else mid == |a| && |b| == |a| + 1)
    && (forall i | 0 <= i < |a| && i != mid :: b[i] == a[i])
    && b[mid].user == user && b[mid].channel == channel && b[mid].subscription == sub
    && (b[mid].status == Invited || b[mid].status == Active)
    && (mid == |a| ==> forall i | 0 <= i < |a| :: a[i].user != user || a[i].channel != channel)
  }

  lemma SubmitAdmitsOne(db: Db, raw: string, rq: Request)
    requires Admits(Submit(db, raw, rq))
    ensures rq.market in db.channels
    ensures var (mid, sub) := AdmittedIds(db, rq);
            var user := EnsureUser(db, rq.telegramId).1;
            && sub == EnsureSubscription(db, user, rq.market, rq.now).1
            && OneAdmitted(db.memberships, Submit(db, raw, rq).db.memberships, mid, user, db.channels[rq.market].id,
                 sub)
  {
    hide Submit, Next, EnsureUser;
    SubmitRows(db, raw, rq);
    var (mid, sub) := AdmittedIds(db, rq);
    var e := Admission(rq, sub);
    AdmissionStatus(if mid < |db.memberships| then db.memberships[mid] else Newcomer(db, rq), e);
  }

  lemma SubmitKeepsRows(db: Db, raw: string, rq: Request)
    requires OneSubscriptionEach(db)
    ensures RowsKept(db, Submit(db, raw, rq).db)
  {
    SubmitTables(db, raw, rq);
    hide Submit, EnsureUser, EnsureSubscription;
    SubscriptionReady(db, EnsureUser(db, rq.telegramId).1, rq.market, rq.now);
    if Admits(Submit(db, raw, rq)) { SubmitAdmitsOne(db, raw, rq); } else { SubmitRows(db, raw, rq); }
  }

  lemma SameChannel(db: Db, user: nat, k: Market, i: nat, j: nat)
    requires InMarket(db, user, k) && i < |db.memberships| && j < |db.memberships|
    requires db.memberships[i].user == user && db.memberships[j].user == user
    ensures db.memberships[i].channel == db.memberships[j].channel
  {
    assert InChannelOf(db, db.memberships[i].channel, k) && InChannelOf(db, db.memberships[j].channel, k);
  }

  lemma AdmittedAgrees(db: Db, next: Db, rq: Request, user: nat, mid: nat, sub: nat, i: nat, k: Market)
    requires EntitlementInv(db) && RowsKept(db, next) && rq.market in db.channels
    requires OneAdmitted(db.memberships, next.memberships, mid, user, db.channels[rq.market].id, sub)
    requires next.subscriptions == EnsureSubscription(db, user, rq.market, rq.now).0.subscriptions
    requires sub == EnsureSubscription(db, user, rq.market, rq.now).1
    requires i < |next.memberships| && InMarket(next, next.memberships[i].user, k)
    ensures Agrees(next, next.memberships[i])
  {
    SubscriptionReady(db, user, rq.market, rq.now);
    hide EnsureSubscription;
    var m := next.memberships[i];
    InMarketBefore(db, next, m.user, k);
    if i != mid {
      assert Agrees(db, m);
      if m.user == user {
        SameChannel(next, user, k, i, mid);
        assert false;
      }
    }
  }

  lemma OnboardKeepsEach(db: Db, raw: string, rq: Request)
    requires OneSubscriptionEach(db) && OneMembershipEach(db)
    ensures var next := Submit(db, raw, rq).db;
            OneSubscriptionEach(next) && OneMembershipEach(next) && next.channels == db.channels
  {
    hide Submit, EnsureUser, EnsureSubscription;
    SubmitTables(db, raw, rq);
    SubscriptionReady(db, EnsureUser(db, rq.telegramId).1, rq.market, rq.now);
    if Admits(Submit(db, raw, rq)) { SubmitAdmitsOne(db, raw, rq); } else { SubmitRows(db, raw, rq); }
  }

  lemma OnboardKeepsEntitlement(db: Db, raw: string, rq: Request)
    requires EntitlementInv(db)
    ensures EntitlementInv(Submit(db, raw, rq).db)
  {
    var s, user := Submit(db, raw, rq), EnsureUser(db, rq.telegramId).1;
    hide Submit, EnsureUser, EnsureSubscription, InMarket, Agrees, FindMembership, FirstSubscription, RowsKept;
    SubmitTables(db, raw, rq);
    SubmitKeepsRows(db, raw, rq);
    OnboardKeepsEach(db, raw, rq);
    if Admits(s) { SubmitAdmitsOne(db, raw, rq); } else { SubmitRows(db, raw, rq); }
    hide OneSubscriptionEach, OneMembershipEach, OneAdmitted;
    forall i, k | 0 <= i < |s.db.memberships| && InMarket(s.db, s.db.memberships[i].user, k)
      ensures Agrees(s.db, s.db.memberships[i])
    {
      if Admits(s) {
        var (mid, sub) := AdmittedIds(db, rq);
        AdmittedAgrees(db, s.db, rq, user, mid, sub, i, k);
      } else {
        InMarketBefore(db, s.db, s.db.memberships[i].user, k);
        SameSubscriptions(db, s.db, s.db.memberships[i]);
      }
    }
  }

  // Whole histories.

  lemma JoinKeepsEntitlement(db: Db, mid: nat, at: Time)
    requires EntitlementInv(db)
    ensures EntitlementInv(Apply(db, Join(mid, at))) && RowsKept(db, Apply(db, Join(mid, at)))
  {
    var next := Apply(db, Join(mid, at));
    assert RowsKept(db, next);
    forall i, k | 0 <= i < |next.memberships| && InMarket(next, next.memberships[i].user, k)
      ensures Agrees(next, next.memberships[i])
    {
      InMarketBefore(db, next, next.memberships[i].user, k);
      assert Agrees(db, db.memberships[i]);
    }
  }

  lemma StepKeepsEntitlement(db: Db, step: Step)
    requires EntitlementInv(db)
    ensures EntitlementInv(Apply(db, step)) && RowsKept(db, Apply(db, step))
  {
    match step
    case Onboard(raw, rq, serves) =>
      OnboardKeepsEntitlement(db, raw, rq);
      SubmitKeepsRows(db, raw, rq);
      hide Submit, EntitlementInv;
    case Sweeping(settings, now, serves) =>
      hide Kept;
      SweepKeepsEntitlement(settings, db, now, serves);
    case Join(mid, at) =>
      JoinKeepsEntitlement(db, mid, at);
  }

  lemma {:induction false} EntitlementHolds(db: Db, steps: seq<Step>)
    requires EntitlementInv(db)
    ensures EntitlementInv(After(db, steps))
  {
    hide Apply, EntitlementInv;
    if steps != [] {
      EntitlementHolds(db, steps[..|steps| - 1]);
      StepKeepsEntitlement(After(db, steps[..|steps| - 1]), steps[|steps| - 1]);
    }
  }

  /** In any tenant, after any history of any users: one subscription per user and
      market, one membership per user and channel; and whoever has stayed in one
      market has at most one of each, live on an active subscription of their own,
      or removed on an expired one. */
  lemma OneMarketUsersAgree(db: Db, steps: seq<Step>, user: nat, k: Market)
    requires db.accounts == [] && db.subscriptions == [] && db.memberships == []
    ensures var end := After(db, steps);
            && OneSubscriptionEach(end) && OneMembershipEach(end)
            && (InMarket(end, user, k) ==>
                  && (forall i, j | 0 <= i < j < |end.memberships| ::
                        !(end.memberships[i].user == user == end.memberships[j].user))
                  && forall i | 0 <= i < |end.memberships| && end.memberships[i].user == user ::
                       var m := end.memberships[i];
                       && m.subscription < |end.subscriptions| && end.subscriptions[m.subscription].user == user
                       && (m.status == Invited || m.status == Active || m.status == Revoked)
                       && end.subscriptions[m.subscription].status == if m.status == Revoked then SubExpired
                          else SubActive)
  {
    hide After, InMarket;
    EntitlementHolds(db, steps);
    var end := After(db, steps);
    if InMarket(end, user, k) {
      forall i, j | 0 <= i < j < |end.memberships|
        ensures !(end.memberships[i].user == user == end.memberships[j].user)
      {
        if end.memberships[i].user == user == end.memberships[j].user { OneRowOfUser(end, k, i, j); }
      }
      assert forall i | 0 <= i < |end.memberships| && end.memberships[i].user == user ::
          Agrees(end, end.memberships[i]);
    }
  }

  // A tenant with one market: everybody stays in it.

  /** The tenant has at most the one market `k`. */
  ghost predicate SingleMarket(db: Db, k: Market) {
    forall m | m in db.channels :: m == k
  }

  ghost predicate AllIn(db: Db, k: Market) {
    && SingleMarket(db, k)
    && (forall j | 0 <= j < |db.accounts| :: db.accounts[j].market == k)
    && (forall s | 0 <= s < |db.subscriptions| :: db.subscriptions[s].market == k)
    && (forall i | 0 <= i < |db.memberships| :: InChannelOf(db, db.memberships[i].channel, k))
  }

  lemma SubmitStaysIn(db: Db, raw: string, rq: Request, k: Market)
    requires OneSubscriptionEach(db) && AllIn(db, k)
    ensures AllIn(Submit(db, raw, rq).db, k)
  {
    hide Submit, EnsureUser, EnsureSubscription, AllIn, OneSubscriptionEach, OneMoreAccount, FindUser;
    var s, user := Submit(db, raw, rq), EnsureUser(db, rq.telegramId).1;
    SubmitTables(db, raw, rq);
    SubscriptionReady(db, user, rq.market, rq.now);
    if Admits(s) {
      SubmitAdmitsOne(db, raw, rq);
      var (mid, sub) := AdmittedIds(db, rq);
      AdmissionStaysIn(db, s.db, k, user, rq, mid, sub);
    } else {
      SubmitRows(db, raw, rq);
      AccountStaysIn(db, s.db, k, user, rq.market);
    }
  }

  lemma AccountStaysIn(db: Db, next: Db, k: Market, user: nat, market: Market)
    requires AllIn(db, k) && next.channels == db.channels && OneMoreAccount(db.accounts, next.accounts, user, market)
    requires |next.accounts| > |db.accounts| ==> market in db.channels
    requires next.subscriptions == db.subscriptions && next.memberships == db.memberships
    ensures AllIn(next, k)
  {
  }

  lemma AdmissionStaysIn(db: Db, next: Db, k: Market, user: nat, rq: Request, mid: nat, sub: nat)
    requires AllIn(db, k) && OneSubscriptionEach(db) && rq.market in db.channels && next.channels == db.channels
    requires OneMoreAccount(db.accounts, next.accounts, user, rq.market)
    requires next.subscriptions == EnsureSubscription(db, user, rq.market, rq.now).0.subscriptions
    requires OneAdmitted(db.memberships, next.memberships, mid, user, db.channels[rq.market].id, sub)
    ensures AllIn(next, k)
  {
    SubscriptionReady(db, user, rq.market, rq.now);
    hide EnsureSubscription, OneSubscriptionEach;
  }

  /** With no row added, everyone stays where they are. */
  lemma KeptRowsStayIn(db: Db, next: Db, k: Market)
    requires AllIn(db, k) && RowsKept(db, next)
    requires |next.accounts| == |db.accounts| && |next.subscriptions| == |db.subscriptions|
             && |next.memberships| == |db.memberships|
    ensures AllIn(next, k)
  {
  }

  lemma StepStaysIn(db: Db, step: Step, k: Market)
    requires EntitlementInv(db) && AllIn(db, k)
    ensures AllIn(Apply(db, step), k)
  {
    StepKeepsEntitlement(db, step);
    match step
    case Onboard(raw, rq, serves) =>
      SubmitStaysIn(db, raw, rq, k);
      hide Submit, EntitlementInv, AllIn;
    case Sweeping(settings, now, serves) =>
      hide Kept, EntitlementInv, AllIn, RowsKept;
      SweepLength(settings, db, now, serves);
      SweepCounts(settings, db, now, serves);
      KeptRowsStayIn(db, Apply(db, step), k);
    case Join(mid, at) =>
      KeptRowsStayIn(db, Apply(db, step), k);
  }

  lemma SweepCounts(settings: Settings, db: Db, now: Time, serves: nat)
    ensures var next := Kept(settings, db, now, serves);
            |next.accounts| == |db.accounts| && |next.subscriptions| == |db.subscriptions|
  {
    hide SweepOver;
    ListIsDistinct(db);
    SweepIsParallel(ContextFor(settings, now), Claim(db, PeriodStart(now, settings.period)),
        MonitoredIds(db.memberships));
  }

  lemma {:induction false} AllStayIn(db: Db, steps: seq<Step>, k: Market)
    requires EntitlementInv(db) && AllIn(db, k)
    ensures EntitlementInv(After(db, steps)) && AllIn(After(db, steps), k)
  {
    hide Apply, EntitlementInv, AllIn;
    if steps != [] {
      AllStayIn(db, steps[..|steps| - 1], k);
      StepKeepsEntitlement(After(db, steps[..|steps| - 1]), steps[|steps| - 1]);
      StepStaysIn(After(db, steps[..|steps| - 1]), steps[|steps| - 1], k);
    }
  }

  /** In a tenant with one market the agreement therefore holds for everybody,
      after any history however many removals and returns it holds. */
  lemma EntitlementAndAccessAgree(db: Db, steps: seq<Step>, k: Market)
    requires SingleMarket(db, k) && db.accounts == [] && db.subscriptions == [] && db.memberships == []
    ensures var end := After(db, steps);
            && OneSubscriptionEach(end)
            && (forall i, j | 0 <= i < j < |end.memberships| :: end.memberships[i].user != end.memberships[j].user)
            && forall i | 0 <= i < |end.memberships| ::
                 var m := end.memberships[i];
                 && m.subscription < |end.subscriptions| && end.subscriptions[m.subscription].user == m.user
                 && (m.status == Invited || m.status == Active ==>
                       end.subscriptions[m.subscription].status == SubActive)
                 && (m.status == Revoked ==> end.subscriptions[m.subscription].status == SubExpired)
  {
    AllStayIn(db, steps, k);
    var end := After(db, steps);
    hide After;
    forall i | 0 <= i < |end.memberships| ensures Agrees(end, end.memberships[i]) {
      assert InMarket(end, end.memberships[i].user, k);
    }
    hide Agrees, InMarket;
    forall i, j | 0 <= i < j < |end.memberships| ensures end.memberships[i].user != end.memberships[j].user {
      assert InChannelOf(end, end.memberships[i].channel, k) && InChannelOf(end, end.memberships[j].channel, k);
    }
  }

  /** Across markets the agreement fails: a removal expires the first subscription
      of the judging account's market and bans from that market's channel, so the
      member's own subscription ends exactly when it is that one. */
  lemma RemovalEndsOwnSubscriptionIff(cx: Context, db: Db, mid: nat)
    requires mid < |db.memberships| && MemberPass(cx, db, mid).Done?
    requires DecisionFor(cx, db, mid).Some? && DecisionFor(cx, db, mid).value.action == Revoke
    requires var sub := db.memberships[mid].subscription;
             sub < |db.subscriptions| && db.subscriptions[sub].status == SubActive
    ensures var m, f, next := db.memberships[mid], Find(cx, db, mid).value, MemberPass(cx, db, mid).db;
            && next.memberships[mid].status == Revoked
            && (next.subscriptions[m.subscription].status == SubExpired
                <==> FirstSubscription(db.subscriptions, m.user, f.market) == Some(m.subscription))
            && (db.subscriptions[m.subscription].market != f.market ==>
                  next.subscriptions[m.subscription].status == SubActive)
            && (ChannelFor(db, f.market).Some? ==>
                  MemberPass(cx, db, mid).effects[0] == Ban(db.channels[f.market].chat, ChatOf(db, m.user)))
  {
  }
}
