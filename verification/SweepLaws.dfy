/** What a whole pass amounts to: every member judged on the state before the
    pass, all at once. Order, raising and bookkeeping follow from that. */
module SweepLaws {
  import opened Types
  import opened Eligibility
  import opened Compliance
  import opened Rows
  import opened Lifecycle
  import opened Sweep

  // The reference form, read off the tables before the pass.

  function RowAfter(cx: Context, db: Db, mid: nat): Membership
    requires mid < |db.memberships|
  {
    var f := Find(cx, db, mid);
    if f == None then db.memberships[mid] else Next(db.memberships[mid], EventOf(cx, f.value))
  }

  function DecisionFor(cx: Context, db: Db, mid: nat): Option<Decision>
    requires mid < |db.memberships|
  {
    var f := Find(cx, db, mid);
    if f == None then None else Some(DecisionOn(db.memberships[mid], EventOf(cx, f.value)))
  }

  function EffectsFor(cx: Context, db: Db, mid: nat): seq<Effect>
    requires mid < |db.memberships|
  {
    var d := DecisionFor(cx, db, mid);
    if d == None then []
    else Effects(db, db.memberships[mid].user, Find(cx, db, mid).value.market, d.value, cx.maxWarnings)
  }

  function TallyFor(cx: Context, db: Db, mid: nat): Tally
    requires mid < |db.memberships|
  {
    var d := DecisionFor(cx, db, mid);
    if d == None then ZERO.(processed := 1) else TallyOf(d.value)
  }

  function ExpiresFor(cx: Context, db: Db, mid: nat): (r: Option<nat>)
    requires mid < |db.memberships|
    ensures r.Some? ==> r.value < |db.subscriptions|
  {
    var d := DecisionFor(cx, db, mid);
    if d == None then None else Expires(db, db.memberships[mid].user, Find(cx, db, mid).value.market, d.value)
  }

  function AccountAfter(cx: Context, db: Db, j: nat): Account
    requires j < |db.accounts|
  {
    var f := Examine(cx, db, j);
    if f == None then db.accounts[j] else CheckedAccount(cx, db.accounts[j], f.value)
  }

  ghost predicate Checks(db: Db, mids: seq<nat>, j: nat)
    requires InRange(db, mids)
  {
    exists i :: 0 <= i < |mids| && FirstAccount(db.accounts, db.memberships[mids[i]].user) == Some(j)
  }

  ghost predicate Ends(cx: Context, db: Db, mids: seq<nat>, s: nat)
    requires InRange(db, mids)
  {
    exists i :: 0 <= i < |mids| && ExpiresFor(cx, db, mids[i]) == Some(s)
  }

  /** The provider answered about account `j`, so a snapshot is due for it. */
  predicate Answered(cx: Context, db: Db, j: nat)
    requires j < |db.accounts|
  {
    var f := Examine(cx, db, j);
    f.Some? && f.value.check.Some?
  }

  ghost function NewSnapshots(cx: Context, db: Db, mids: seq<nat>): map<(nat, Time), Snapshot>
    requires InRange(db, mids)
  {
    map j: nat | j < |db.accounts| && Checks(db, mids, j) && Answered(cx, db, j)
      :: (j, cx.periodStart) := SnapshotOf(cx, Examine(cx, db, j).value)
  }

  ghost function MergedRows(cx: Context, db: Db, mids: seq<nat>): (rows: seq<Membership>)
    requires InRange(db, mids)
    ensures |rows| == |db.memberships|
  {
    seq(|db.memberships|, i requires 0 <= i < |db.memberships| => if i in mids then RowAfter(cx, db, i)
      else db.memberships[i])
  }

  ghost function MergedAccounts(cx: Context, db: Db, mids: seq<nat>): seq<Account>
    requires InRange(db, mids)
  {
    seq(|db.accounts|, j requires 0 <= j < |db.accounts| => if Checks(db, mids, j) then AccountAfter(cx, db, j)
      else db.accounts[j])
  }

  ghost function MergedSubscriptions(cx: Context, db: Db, mids: seq<nat>): seq<Subscription>
    requires InRange(db, mids)
  {
    seq(|db.subscriptions|, s requires 0 <= s < |db.subscriptions| =>
      if Ends(cx, db, mids, s) then ExpiredAt(db.subscriptions[s], cx.now) else db.subscriptions[s])
  }

  /** Every listed member's changes, computed from `db` and applied together. */
  ghost function Merged(cx: Context, db: Db, mids: seq<nat>): Db
    requires InRange(db, mids)
  {
    db.(memberships := MergedRows(cx, db, mids), accounts := MergedAccounts(cx, db, mids),
        subscriptions := MergedSubscriptions(cx, db, mids), snapshots := db.snapshots + NewSnapshots(cx, db, mids))
  }

  ghost function LogOf(cx: Context, db: Db, mids: seq<nat>): seq<Effect>
    requires InRange(db, mids)
  {
    if mids == [] then [] else LogOf(cx, db, mids[..|mids| - 1]) + EffectsFor(cx, db, mids[|mids| - 1])
  }

  ghost function TotalOf(cx: Context, db: Db, mids: seq<nat>): Tally
    requires InRange(db, mids)
  {
    if mids == [] then ZERO else TotalOf(cx, db, mids[..|mids| - 1]).Plus(TallyFor(cx, db, mids[|mids| - 1]))
  }

  // Identity columns never change, so neither does who judges whom.

  ghost predicate SameSubjects(a: Db, b: Db) {
    && a.users == b.users && a.configs == b.configs && a.channels == b.channels
    && |a.memberships| == |b.memberships| && |a.accounts| == |b.accounts| && |a.subscriptions| == |b.subscriptions|
    && (forall i | 0 <= i < |a.memberships| :: a.memberships[i].user == b.memberships[i].user)
    && (forall j | 0 <= j < |a.accounts| ::
          a.accounts[j].user == b.accounts[j].user && a.accounts[j].provider == b.accounts[j].provider
          && a.accounts[j].market == b.accounts[j].market && a.accounts[j].uid == b.accounts[j].uid)
    && (forall s | 0 <= s < |a.subscriptions| ::
          a.subscriptions[s].user == b.subscriptions[s].user && a.subscriptions[s].market == b.subscriptions[s].market)
  }

  lemma MergedSameSubjects(cx: Context, db: Db, mids: seq<nat>)
    requires InRange(db, mids)
    ensures SameSubjects(db, Merged(cx, db, mids))
  {
  }

  lemma FindStable(cx: Context, a: Db, b: Db, mid: nat)
    requires SameSubjects(a, b) && mid < |a.memberships|
    ensures Find(cx, b, mid) == Find(cx, a, mid)
    ensures FirstAccount(b.accounts, b.memberships[mid].user) == FirstAccount(a.accounts, a.memberships[mid].user)
  {
    var user := a.memberships[mid].user;
    var j, k := FirstAccount(a.accounts, user), FirstAccount(b.accounts, user);
    assert j.Some? && k.Some? ==> !(j.value < k.value) && !(k.value < j.value);
  }

  lemma SubscriptionStable(a: Db, b: Db, user: nat, market: Market)
    requires SameSubjects(a, b)
    ensures FirstSubscription(b.subscriptions, user, market) == FirstSubscription(a.subscriptions, user, market)
  {
    var j, k := FirstSubscription(a.subscriptions, user, market), FirstSubscription(b.subscriptions, user, market);
    assert j.Some? && k.Some? ==> !(j.value < k.value) && !(k.value < j.value);
  }

  // One more member on top of a merged state.

  lemma ChecksStep(db: Db, ms: seq<nat>, mid: nat, j: nat)
    requires InRange(db, ms + [mid]) && InRange(db, ms) && mid < |db.memberships|
    ensures Checks(db, ms + [mid], j) <==>
              Checks(db, ms, j) || FirstAccount(db.accounts, db.memberships[mid].user) == Some(j)
  {
    var all := ms + [mid];
    assert forall i | 0 <= i < |ms| :: all[i] == ms[i];
    assert all[|ms|] == mid;
    assert Checks(db, ms, j) ==> Checks(db, all, j);
  }

  lemma EndsStep(cx: Context, db: Db, ms: seq<nat>, mid: nat, s: nat)
    requires InRange(db, ms + [mid]) && InRange(db, ms) && mid < |db.memberships|
    ensures Ends(cx, db, ms + [mid], s) <==> Ends(cx, db, ms, s) || ExpiresFor(cx, db, mid) == Some(s)
  {
    var all := ms + [mid];
    assert forall i | 0 <= i < |ms| :: all[i] == ms[i];
    assert all[|ms|] == mid;
    assert Ends(cx, db, ms, s) ==> Ends(cx, db, all, s);
  }

  lemma RowsStep(cx: Context, db: Db, ms: seq<nat>, mid: nat)
    requires InRange(db, ms + [mid]) && InRange(db, ms) && mid < |db.memberships| && mid !in ms
    ensures MergedRows(cx, db, ms)[mid] == db.memberships[mid]
    ensures MergedRows(cx, db, ms)[mid := RowAfter(cx, db, mid)] == MergedRows(cx, db, ms + [mid])
  {
  }

  lemma AccountsStep(cx: Context, db: Db, ms: seq<nat>, mid: nat)
    requires InRange(db, ms + [mid]) && InRange(db, ms) && mid < |db.memberships|
    ensures var j := FirstAccount(db.accounts, db.memberships[mid].user);
            var before := MergedAccounts(cx, db, ms);
            var f := Find(cx, db, mid);
            MergedAccounts(cx, db, ms + [mid]) ==
              if f.Some? then before[j.value := CheckedAccount(cx, before[j.value], f.value)] else before
  {
    var before, after := MergedAccounts(cx, db, ms), MergedAccounts(cx, db, ms + [mid]);
    forall k: nat | k < |db.accounts|
      ensures Checks(db, ms + [mid], k) <==>
                Checks(db, ms, k) || FirstAccount(db.accounts, db.memberships[mid].user) == Some(k)
    {
      ChecksStep(db, ms, mid, k);
    }
  }

  lemma SubscriptionsStep(cx: Context, db: Db, ms: seq<nat>, mid: nat)
    requires InRange(db, ms + [mid]) && InRange(db, ms) && mid < |db.memberships|
    ensures var s := ExpiresFor(cx, db, mid);
            var before := MergedSubscriptions(cx, db, ms);
            MergedSubscriptions(cx, db, ms + [mid]) ==
              if s.Some? then before[s.value := ExpiredAt(before[s.value], cx.now)] else before
  {
    forall s: nat | s < |db.subscriptions|
      ensures Ends(cx, db, ms + [mid], s) <==> Ends(cx, db, ms, s) || ExpiresFor(cx, db, mid) == Some(s)
    {
      EndsStep(cx, db, ms, mid, s);
    }
  }

  lemma SnapshotKeys(cx: Context, db: Db, mids: seq<nat>, j: nat, t: Time)
    requires InRange(db, mids)
    ensures (j, t) in NewSnapshots(cx, db, mids) <==>
              t == cx.periodStart && j < |db.accounts| && Checks(db, mids, j) && Answered(cx, db, j)
    ensures (j, t) in NewSnapshots(cx, db, mids) ==>
              NewSnapshots(cx, db, mids)[(j, t)] == SnapshotOf(cx, Examine(cx, db, j).value)
  {
  }

  /** The new snapshots once member `mid` has been processed too. */
  ghost function OneMoreSnapshot(cx: Context, db: Db, ms: seq<nat>, mid: nat): map<(nat, Time), Snapshot>
    requires InRange(db, ms) && mid < |db.memberships|
  {
    var f := Find(cx, db, mid);
    if f.Some? && f.value.check.Some?
    then NewSnapshots(cx, db, ms)[(f.value.account, cx.periodStart) := SnapshotOf(cx, f.value)]
    else NewSnapshots(cx, db, ms)
  }

  lemma SnapshotStepAt(cx: Context, db: Db, ms: seq<nat>, mid: nat, j: nat, t: Time)
    requires InRange(db, ms + [mid]) && InRange(db, ms) && mid < |db.memberships|
    ensures var after, expected := NewSnapshots(cx, db, ms + [mid]), OneMoreSnapshot(cx, db, ms, mid);
            && ((j, t) in after <==> (j, t) in expected)
            && ((j, t) in after ==> after[(j, t)] == expected[(j, t)])
  {
    hide Evaluate, FirstAccount, SnapshotOf, NewSnapshots;
    SnapshotKeys(cx, db, ms, j, t);
    SnapshotKeys(cx, db, ms + [mid], j, t);
    ChecksStep(db, ms, mid, j);
  }

  lemma SnapshotsStep(cx: Context, db: Db, ms: seq<nat>, mid: nat)
    requires InRange(db, ms + [mid]) && InRange(db, ms) && mid < |db.memberships|
    ensures NewSnapshots(cx, db, ms + [mid]) == OneMoreSnapshot(cx, db, ms, mid)
  {
    hide NewSnapshots, OneMoreSnapshot;
    var after, expected := NewSnapshots(cx, db, ms + [mid]), OneMoreSnapshot(cx, db, ms, mid);
    forall j: nat, t: Time
      ensures ((j, t) in after <==> (j, t) in expected) && ((j, t) in after ==> after[(j, t)] == expected[(j, t)])
    {
      SnapshotStepAt(cx, db, ms, mid, j, t);
    }
    assert forall k | k in after :: (k.0, k.1) == k && k in expected;
    assert forall k | k in expected :: (k.0, k.1) == k && k in after;
  }

  lemma MergedSnapshotsStep(cx: Context, db: Db, ms: seq<nat>, mid: nat)
    requires InRange(db, ms + [mid]) && InRange(db, ms) && mid < |db.memberships|
    ensures var f := Find(cx, db, mid);
            var before := db.snapshots + NewSnapshots(cx, db, ms);
            db.snapshots + NewSnapshots(cx, db, ms + [mid]) ==
              if f.Some? && f.value.check.Some?
                then before[(f.value.account, cx.periodStart) := SnapshotOf(cx, f.value)] else before
  {
    SnapshotsStep(cx, db, ms, mid);
    var f := Find(cx, db, mid);
    if f.Some? && f.value.check.Some? {
      UpdateOnTheRight(db.snapshots, NewSnapshots(cx, db, ms), (f.value.account, cx.periodStart),
          SnapshotOf(cx, f.value));
    }
  }

  lemma UpdateOnTheRight<K, V>(a: map<K, V>, b: map<K, V>, k: K, v: V)
    ensures a + b[k := v] == (a + b)[k := v]
  {
  }

  lemma PassOnMerged(cx: Context, db: Db, ms: seq<nat>, mid: nat)
    requires InRange(db, ms + [mid]) && InRange(db, ms) && mid < |db.memberships| && mid !in ms
    ensures var here := MemberPass(cx, Merged(cx, db, ms), mid);
            && (here.Raised? ==> here.effects == [])
            && (here.Done? ==> here == Done(Merged(cx, db, ms + [mid]), EffectsFor(cx, db, mid), TallyFor(cx, db, mid)))
  {
    hide Evaluate, FirstAccount, FirstSubscription, NewSnapshots;
    var at := Merged(cx, db, ms);
    MergedSameSubjects(cx, db, ms);
    FindStable(cx, db, at, mid);
    RowsStep(cx, db, ms, mid);
    AccountsStep(cx, db, ms, mid);
    SubscriptionsStep(cx, db, ms, mid);
    MergedSnapshotsStep(cx, db, ms, mid);
    hide RowAfter, MergedRows, MergedAccounts, MergedSubscriptions;
    var f := Find(cx, db, mid);
    if f.Some? {
      SubscriptionStable(db, at, db.memberships[mid].user, f.value.market);
      assert Effects(at, db.memberships[mid].user, f.value.market, DecisionFor(cx, db, mid).value, cx.maxWarnings) ==
          EffectsFor(cx, db, mid);
    } else {
      assert RowAfter(cx, db, mid) == db.memberships[mid];
      assert Merged(cx, db, ms + [mid]) == at;
    }
  }

  ghost predicate Distinct(ids: seq<nat>) {
    forall i, j | 0 <= i < j < |ids| :: ids[i] != ids[j]
  }

  /** A finished pass over distinct rows is the simultaneous application of every
      member's changes to the state before it; its log and its counters are the
      members' own, in list order. */
  lemma {:induction false} SweepIsParallel(cx: Context, db: Db, mids: seq<nat>)
    requires InRange(db, mids) && Distinct(mids)
    ensures var o := SweepOver(cx, db, mids);
            o.Done? ==> o == Done(Merged(cx, db, mids), LogOf(cx, db, mids), TotalOf(cx, db, mids))
  {
    if mids == [] {
      NothingMerged(cx, db);
    } else {
      hide MemberPass, Merged, EffectsFor, TallyFor;
      var n := |mids| - 1;
      SweepIsParallel(cx, db, mids[..n]);
      assert mids[..n] + [mids[n]] == mids;
      assert mids[n] < |db.memberships|;
      PassOnMerged(cx, db, mids[..n], mids[n]);
    }
  }

  lemma NothingMerged(cx: Context, db: Db)
    ensures Merged(cx, db, []) == db
  {
    assert MergedRows(cx, db, []) == db.memberships;
    assert MergedAccounts(cx, db, []) == db.accounts;
    assert MergedSubscriptions(cx, db, []) == db.subscriptions;
    assert NewSnapshots(cx, db, []) == map[];
    assert db.snapshots + map[] == db.snapshots;
  }
}
