/** Whether a pass finishes, that its order is immaterial, and its bookkeeping. */
module SweepTheorems {
  import opened Types
  import opened Eligibility
  import opened Compliance
  import opened Rows
  import opened Sweep
  import opened SweepLaws

  /** The account a snapshot will be written for when this member is processed. */
  function SnapshotAccount(cx: Context, db: Db, mid: nat): Option<nat>
    requires mid < |db.memberships|
  {
    var f := Find(cx, db, mid);
    if f.Some? && f.value.check.Some? then Some(f.value.account) else None
  }

  ghost predicate NoDuplicateSnapshot(cx: Context, db: Db, mids: seq<nat>)
    requires InRange(db, mids)
  {
    && (forall x | x in mids && x < |db.memberships| ::
          SnapshotAccount(cx, db, x).Some? ==> (SnapshotAccount(cx, db, x).value, cx.periodStart) !in db.snapshots)
    && (forall x, y | x in mids && y in mids && x != y && x < |db.memberships| && y < |db.memberships| ::
          SnapshotAccount(cx, db, x).Some? ==> SnapshotAccount(cx, db, x) != SnapshotAccount(cx, db, y))
  }

  /** The snapshot row this member needs is already there. */
  ghost predicate Taken(cx: Context, db: Db, mid: nat)
    requires mid < |db.memberships|
  {
    var a := SnapshotAccount(cx, db, mid);
    a.Some? && (a.value, cx.periodStart) in db.snapshots
  }

  ghost predicate SharedWith(cx: Context, db: Db, ms: seq<nat>, mid: nat)
    requires mid < |db.memberships|
  {
    SnapshotAccount(cx, db, mid).Some?
    && exists x :: x in ms && x < |db.memberships| && SnapshotAccount(cx, db, x) == SnapshotAccount(cx, db, mid)
  }

  lemma RaisesIffTaken(cx: Context, db: Db, mid: nat)
    requires mid < |db.memberships|
    ensures MemberPass(cx, db, mid).Raised? <==> Taken(cx, db, mid)
  {
  }

  lemma TakenOnMerged(cx: Context, db: Db, ms: seq<nat>, mid: nat)
    requires InRange(db, ms) && mid < |db.memberships|
    ensures Taken(cx, Merged(cx, db, ms), mid) <==> Taken(cx, db, mid) || SharedWith(cx, db, ms, mid)
  {
    MergedSameSubjects(cx, db, ms);
    FindStable(cx, db, Merged(cx, db, ms), mid);
    var a := SnapshotAccount(cx, db, mid);
    if a.Some? {
      SnapshotKeys(cx, db, ms, a.value, cx.periodStart);
      ChecksByMembership(db, ms, a.value);
      CheckerNeedsSnapshot(cx, db, ms, mid, a.value);
    }
  }

  lemma CheckerNeedsSnapshot(cx: Context, db: Db, ms: seq<nat>, mid: nat, a: nat)
    requires InRange(db, ms) && mid < |db.memberships| && SnapshotAccount(cx, db, mid) == Some(a)
    ensures SharedWith(cx, db, ms, mid) <==>
              exists x :: x in ms && x < |db.memberships|
                && FirstAccount(db.accounts, db.memberships[x].user) == Some(a)
  {
    forall x: nat | x < |db.memberships|
      ensures SnapshotAccount(cx, db, x) == Some(a) <==> FirstAccount(db.accounts, db.memberships[x].user) == Some(a)
    {
      assert SnapshotAccount(cx, db, mid).value == a;
    }
  }

  lemma NoDuplicateStep(cx: Context, db: Db, ms: seq<nat>, mid: nat)
    requires InRange(db, ms) && mid < |db.memberships| && mid !in ms && InRange(db, ms + [mid])
    ensures NoDuplicateSnapshot(cx, db, ms + [mid]) <==>
              NoDuplicateSnapshot(cx, db, ms) && !Taken(cx, db, mid) && !SharedWith(cx, db, ms, mid)
  {
    var all := ms + [mid];
    assert forall x :: x in all <==> x in ms || x == mid;
  }

  /** A pass finishes exactly when no two listed members, and no listed member and
      an earlier snapshot of this period, need the same snapshot row. */
  lemma {:induction false} SweepFinishesIff(cx: Context, db: Db, mids: seq<nat>)
    requires InRange(db, mids) && Distinct(mids)
    ensures SweepOver(cx, db, mids).Done? <==> NoDuplicateSnapshot(cx, db, mids)
  {
    if mids != [] {
      var n := |mids| - 1;
      var ms, mid := mids[..n], mids[n];
      assert ms + [mid] == mids;
      SweepFinishesIff(cx, db, ms);
      SweepIsParallel(cx, db, ms);
      NoDuplicateStep(cx, db, ms, mid);
      TakenOnMerged(cx, db, ms, mid);
      RaisesIffTaken(cx, Merged(cx, db, ms), mid);
    }
  }

  /** Two monitored memberships of one person, judged by one answered account,
      abort the whole pass in whatever order they are listed. */
  lemma TwoMembershipsOfOneUserAbort(cx: Context, db: Db, mids: seq<nat>, x: nat, y: nat)
    requires InRange(db, mids) && Distinct(mids) && x in mids && y in mids && x != y
    requires x < |db.memberships| && y < |db.memberships| && db.memberships[x].user == db.memberships[y].user
    requires SnapshotAccount(cx, db, x).Some?
    ensures SweepOver(cx, db, mids).Raised?
  {
    assert SnapshotAccount(cx, db, x) == SnapshotAccount(cx, db, y);
    SweepFinishesIff(cx, db, mids);
  }

  // Order.

  lemma Snoc(cx: Context, db: Db, ms: seq<nat>, x: nat)
    requires InRange(db, ms) && x < |db.memberships|
    ensures InRange(db, ms + [x])
    ensures TotalOf(cx, db, ms + [x]) == TotalOf(cx, db, ms).Plus(TallyFor(cx, db, x))
    ensures LogOf(cx, db, ms + [x]) == LogOf(cx, db, ms) + EffectsFor(cx, db, x)
  {
    assert (ms + [x])[..|ms|] == ms;
  }

  lemma {:induction false} TotalsRemove(cx: Context, db: Db, a: seq<nat>, x: nat, b: seq<nat>)
    requires InRange(db, a) && InRange(db, b) && x < |db.memberships|
    ensures InRange(db, a + [x] + b) && InRange(db, a + b)
    ensures TotalOf(cx, db, a + [x] + b) == TotalOf(cx, db, a + b).Plus(TallyFor(cx, db, x))
    ensures multiset(LogOf(cx, db, a + [x] + b)) == multiset(LogOf(cx, db, a + b)) + multiset(EffectsFor(cx, db, x))
    decreases |b|
  {
    hide TotalOf, LogOf, TallyFor, EffectsFor;
    if b == [] {
      assert a + [x] + b == a + [x] && a + b == a;
      Snoc(cx, db, a, x);
    } else {
      var n := |b| - 1;
      TotalsRemove(cx, db, a, x, b[..n]);
      assert a + [x] + b == (a + [x] + b[..n]) + [b[n]] && a + b == (a + b[..n]) + [b[n]];
      Snoc(cx, db, a + [x] + b[..n], b[n]);
      Snoc(cx, db, a + b[..n], b[n]);
    }
  }

  lemma TakeOut(p: seq<nat>, q: seq<nat>) returns (a: seq<nat>, b: seq<nat>)
    requires p != [] && multiset(p) == multiset(q)
    ensures q == a + [p[|p| - 1]] + b && multiset(p[..|p| - 1]) == multiset(a + b)
  {
    var n := |p| - 1;
    var x := p[n];
    assert p == p[..n] + [x];
    assert x in multiset(q);
    var i :| 0 <= i < |q| && q[i] == x;
    a, b := q[..i], q[i + 1..];
    assert q == a + [x] + b;
    assert multiset(q) == multiset(a) + multiset(b) + multiset{x};
    assert multiset(p) == multiset(p[..n]) + multiset{x};
    CancelOne(multiset(p[..n]), multiset(a) + multiset(b), x);
  }

  lemma CancelOne(a: multiset<nat>, b: multiset<nat>, x: nat)
    requires a + multiset{x} == b + multiset{x}
    ensures a == b
  {
    assert a == a + multiset{x} - multiset{x};
    assert b == b + multiset{x} - multiset{x};
  }

  lemma PartsInRange(db: Db, a: seq<nat>, x: nat, b: seq<nat>)
    requires InRange(db, a + [x] + b)
    ensures InRange(db, a) && InRange(db, b) && x < |db.memberships|
  {
    var q := a + [x] + b;
    assert forall i | 0 <= i < |a| :: a[i] == q[i];
    assert forall i | 0 <= i < |b| :: b[i] == q[|a| + 1 + i];
    assert x == q[|a|];
  }

  lemma {:induction false} TotalsPermute(cx: Context, db: Db, p: seq<nat>, q: seq<nat>)
    requires InRange(db, p) && InRange(db, q) && multiset(p) == multiset(q)
    ensures TotalOf(cx, db, p) == TotalOf(cx, db, q)
    ensures multiset(LogOf(cx, db, p)) == multiset(LogOf(cx, db, q))
    decreases |p|
  {
    hide TallyFor, EffectsFor;
    if p == [] {
      assert |multiset(q)| == 0;
    } else {
      var n := |p| - 1;
      var x := p[n];
      var a, b := TakeOut(p, q);
      assert p[..n] + [x] == p && p[..n] + [x] + [] == p;
      PartsInRange(db, p[..n], x, []);
      PartsInRange(db, a, x, b);
      TotalsRemove(cx, db, a, x, b);
      TotalsPermute(cx, db, p[..n], a + b);
      Snoc(cx, db, p[..n], x);
    }
  }

  lemma CountsBeside(p: seq<nat>, i: nat)
    requires i < |p|
    ensures multiset(p)[p[i]] == 1 + multiset(p[..i])[p[i]] + multiset(p[i + 1..])[p[i]]
  {
    assert p == p[..i] + [p[i]] + p[i + 1..];
  }

  lemma DistinctByMultiset(p: seq<nat>)
    ensures Distinct(p) <==> forall x | x in p :: multiset(p)[x] == 1
  {
    forall i, j | 0 <= i < j < |p| && p[i] == p[j]
      ensures multiset(p)[p[i]] >= 2
    {
      assert p[j] in p[i + 1..];
      CountsBeside(p, i);
    }
    if Distinct(p) {
      forall x | x in p
        ensures multiset(p)[x] == 1
      {
        var i :| 0 <= i < |p| && p[i] == x;
        CountsBeside(p, i);
        assert x !in p[..i] && x !in p[i + 1..];
      }
    }
  }

  /** For one oracle, any order of the same list finishes or aborts alike; when it
      finishes, rows and counters are the same and the log is a permutation. */
  lemma OrderIndependence(cx: Context, db: Db, p: seq<nat>, q: seq<nat>)
    requires InRange(db, p) && InRange(db, q) && Distinct(p) && multiset(p) == multiset(q)
    ensures var o, o' := SweepOver(cx, db, p), SweepOver(cx, db, q);
            && (o.Done? <==> o'.Done?)
            && (o.Done? ==> o'.db == o.db && o'.tally == o.tally && multiset(o'.effects) == multiset(o.effects))
  {
    assert forall x :: x in p <==> x in multiset(p);
    assert forall x :: x in q <==> x in multiset(q);
    DistinctByMultiset(p);
    DistinctByMultiset(q);
    SweepFinishesIff(cx, db, p);
    SweepFinishesIff(cx, db, q);
    SweepIsParallel(cx, db, p);
    SweepIsParallel(cx, db, q);
    TotalsPermute(cx, db, p, q);
    MergedPermutes(cx, db, p, q);
  }

  lemma MergedPermutes(cx: Context, db: Db, p: seq<nat>, q: seq<nat>)
    requires InRange(db, p) && InRange(db, q) && forall x :: x in p <==> x in q
    ensures Merged(cx, db, p) == Merged(cx, db, q)
  {
    forall j: nat | j < |db.accounts|
      ensures Checks(db, p, j) <==> Checks(db, q, j)
    {
      ChecksByMembership(db, p, j);
      ChecksByMembership(db, q, j);
    }
    forall s: nat | s < |db.subscriptions|
      ensures Ends(cx, db, p, s) <==> Ends(cx, db, q, s)
    {
      EndsByMembership(cx, db, p, s);
      EndsByMembership(cx, db, q, s);
    }
    assert MergedRows(cx, db, p) == MergedRows(cx, db, q);
    assert MergedAccounts(cx, db, p) == MergedAccounts(cx, db, q);
    assert MergedSubscriptions(cx, db, p) == MergedSubscriptions(cx, db, q);
    assert NewSnapshots(cx, db, p) == NewSnapshots(cx, db, q);
  }

  lemma ChecksByMembership(db: Db, mids: seq<nat>, j: nat)
    requires InRange(db, mids)
    ensures Checks(db, mids, j) <==> exists x ::
              x in mids && x < |db.memberships| && FirstAccount(db.accounts, db.memberships[x].user) == Some(j)
  {
    if x :| x in mids && x < |db.memberships| && FirstAccount(db.accounts, db.memberships[x].user) == Some(j) {
      var i :| 0 <= i < |mids| && mids[i] == x;
      assert FirstAccount(db.accounts, db.memberships[mids[i]].user) == Some(j);
    }
  }

  lemma EndsByMembership(cx: Context, db: Db, mids: seq<nat>, s: nat)
    requires InRange(db, mids)
    ensures Ends(cx, db, mids, s) <==> exists x :: x in mids && x < |db.memberships| && ExpiresFor(cx, db, x) == Some(s)
  {
    if x :| x in mids && x < |db.memberships| && ExpiresFor(cx, db, x) == Some(s) {
      var i :| 0 <= i < |mids| && mids[i] == x;
      assert ExpiresFor(cx, db, mids[i]) == Some(s);
    }
  }

  // Bookkeeping.

  function CountRevoked(rows: seq<Membership>): nat {
    if rows == [] then 0
    else CountRevoked(rows[..|rows| - 1]) + if rows[|rows| - 1].status == Revoked then 1 else 0
  }

  function SumWarnings(rows: seq<Membership>): int {
    if rows == [] then 0 else SumWarnings(rows[..|rows| - 1]) + rows[|rows| - 1].warnings
  }

  /** Warnings standing, before the pass, against the members it restores. */
  function Cleared(cx: Context, db: Db, mids: seq<nat>): int
    requires InRange(db, mids)
  {
    if mids == [] then 0
    else
      var n := |mids| - 1;
      var d := DecisionFor(cx, db, mids[n]);
      Cleared(cx, db, mids[..n]) + if d.Some? && d.value.action == Restore then db.memberships[mids[n]].warnings else 0
  }

  lemma {:induction false} SumsUpdate(rows: seq<Membership>, i: nat, x: Membership)
    requires i < |rows|
    ensures CountRevoked(rows[i := x]) ==
              CountRevoked(rows) - (if rows[i].status == Revoked then 1 else 0) + (if x.status == Revoked then 1 else 0)
    ensures SumWarnings(rows[i := x]) == SumWarnings(rows) - rows[i].warnings + x.warnings
  {
    var n := |rows| - 1;
    if i == n {
      assert rows[i := x][..n] == rows[..n];
    } else {
      assert rows[i := x][..n] == rows[..n][i := x];
      SumsUpdate(rows[..n], i, x);
    }
  }

  /** `log` holds exactly `n` bans, each followed at once by its own unban, and no
      other unban. */
  ghost predicate PairedBans(log: seq<Effect>, n: nat) {
    if log == [] then n == 0
    else
      var k := |log| - 1;
      match log[k]
      case Unban(c, m) => n > 0 && k > 0 && log[k - 1] == Ban(c, m) && PairedBans(log[..k - 1], n - 1)
      case Ban(_, _) => false
      case _ => PairedBans(log[..k], n)
  }

  lemma {:induction false} PairsConcat(a: seq<Effect>, n: nat, b: seq<Effect>, k: nat)
    requires PairedBans(a, n) && PairedBans(b, k)
    ensures PairedBans(a + b, n + k)
    decreases |b|
  {
    if b == [] {
      assert a + b == a;
    } else {
      var l := |b| - 1;
      var all := a + b;
      assert all[|all| - 1] == b[l];
      if b[l].Unban? {
        PairsConcat(a, n, b[..l - 1], k - 1);
        assert all[..|all| - 2] == a + b[..l - 1];
        assert all[|all| - 2] == b[l - 1];
      } else {
        PairsConcat(a, n, b[..l], k);
        assert all[..|all| - 1] == a + b[..l];
      }
    }
  }

  ghost predicate ActiveChannels(db: Db) {
    forall j | 0 <= j < |db.accounts| :: ChannelFor(db, db.accounts[j].market).Some?
  }

  lemma PairsOfOne(cx: Context, db: Db, mid: nat)
    requires mid < |db.memberships| && ActiveChannels(db)
    ensures PairedBans(EffectsFor(cx, db, mid), TallyFor(cx, db, mid).revoked)
  {
    var d := DecisionFor(cx, db, mid);
    if d.Some? {
      var chat := ChatOf(db, db.memberships[mid].user);
      var log := EffectsFor(cx, db, mid);
      if d.value.action == Revoke {
        var f := Find(cx, db, mid).value;
        var c := ChannelFor(db, f.market).value.chat;
        var pair := [Ban(c, chat), Unban(c, chat)];
        assert pair[..0] == [] && PairedBans(pair, 1);
        var t := Tell(chat, Removed(if d.value.detail.Some? then d.value.detail.value else Eligible));
        PairsOfMessages(t);
        assert log == pair + t;
        PairsConcat(pair, 1, t, 0);
      } else {
        PairsOfMessages(log);
      }
    }
  }

  lemma PairsOfMessages(log: seq<Effect>)
    requires |log| <= 1 && forall i | 0 <= i < |log| :: log[i].Message?
    ensures PairedBans(log, 0)
  {
    if |log| == 1 { assert log[..0] == []; }
  }

  lemma RowChange(cx: Context, db: Db, mid: nat)
    requires mid < |db.memberships| && Monitored(db.memberships[mid].status)
    ensures var t, row, d := TallyFor(cx, db, mid), RowAfter(cx, db, mid), DecisionFor(cx, db, mid);
            && t.processed == 1 && t.warned + t.revoked + t.restored + t.skipped <= 1
            && (row.status == Revoked <==> t.revoked == 1)
            && row.warnings == db.memberships[mid].warnings + t.warned
                 - if d.Some? && d.value.action == Restore then db.memberships[mid].warnings else 0
  {
  }

  lemma ClearedSnoc(cx: Context, db: Db, ms: seq<nat>, x: nat)
    requires InRange(db, ms) && x < |db.memberships| && InRange(db, ms + [x])
    ensures var d := DecisionFor(cx, db, x);
            Cleared(cx, db, ms + [x]) ==
              Cleared(cx, db, ms) + if d.Some? && d.value.action == Restore then db.memberships[x].warnings else 0
  {
    assert (ms + [x])[..|ms|] == ms;
  }

  ghost predicate Conserved(cx: Context, db: Db, mids: seq<nat>, rows: seq<Membership>, t: Tally, log: seq<Effect>)
    requires InRange(db, mids)
  {
    && FiguresAddUp(cx, db, mids, rows, t)
    && (ActiveChannels(db) ==> PairedBans(log, t.revoked))
  }

  ghost predicate FiguresAddUp(cx: Context, db: Db, mids: seq<nat>, rows: seq<Membership>, t: Tally)
    requires InRange(db, mids)
  {
    && t.processed == |mids|
    && t.warned + t.revoked + t.restored + t.skipped <= t.processed
    && CountRevoked(rows) == CountRevoked(db.memberships) + t.revoked
    && SumWarnings(rows) == SumWarnings(db.memberships) + t.warned - Cleared(cx, db, mids)
  }

  lemma FiguresStep(cx: Context, db: Db, ms: seq<nat>, mid: nat, rows: seq<Membership>, t: Tally)
    requires InRange(db, ms) && mid < |db.memberships| && InRange(db, ms + [mid]) && |rows| == |db.memberships|
    requires Monitored(db.memberships[mid].status) && rows[mid] == db.memberships[mid]
    requires FiguresAddUp(cx, db, ms, rows, t)
    ensures FiguresAddUp(cx, db, ms + [mid], rows[mid := RowAfter(cx, db, mid)], t.Plus(TallyFor(cx, db, mid)))
  {
    ClearedSnoc(cx, db, ms, mid);
    SumsUpdate(rows, mid, RowAfter(cx, db, mid));
    RowChange(cx, db, mid);
  }

  lemma ConservationStep(cx: Context, db: Db, ms: seq<nat>, mid: nat)
    requires InRange(db, ms) && mid < |db.memberships| && InRange(db, ms + [mid]) && mid !in ms
    requires Monitored(db.memberships[mid].status)
    requires Conserved(cx, db, ms, MergedRows(cx, db, ms), TotalOf(cx, db, ms), LogOf(cx, db, ms))
    ensures Conserved(cx, db, ms + [mid], MergedRows(cx, db, ms + [mid]), TotalOf(cx, db, ms + [mid]),
              LogOf(cx, db, ms + [mid]))
  {
    hide TotalOf, LogOf, TallyFor, EffectsFor, RowAfter, MergedRows, FiguresAddUp;
    Snoc(cx, db, ms, mid);
    RowsStep(cx, db, ms, mid);
    FiguresStep(cx, db, ms, mid, MergedRows(cx, db, ms), TotalOf(cx, db, ms));
    if ActiveChannels(db) {
      PairsOfOne(cx, db, mid);
      PairsConcat(LogOf(cx, db, ms), TotalOf(cx, db, ms).revoked, EffectsFor(cx, db, mid),
          TallyFor(cx, db, mid).revoked);
    }
  }

  lemma {:induction false} Conservation(cx: Context, db: Db, mids: seq<nat>)
    requires InRange(db, mids) && Distinct(mids)
    requires forall i | 0 <= i < |mids| :: Monitored(db.memberships[mids[i]].status)
    ensures Conserved(cx, db, mids, MergedRows(cx, db, mids), TotalOf(cx, db, mids), LogOf(cx, db, mids))
  {
    if mids == [] {
      assert MergedRows(cx, db, mids) == db.memberships;
    } else {
      var n := |mids| - 1;
      assert mids[..n] + [mids[n]] == mids;
      Conservation(cx, db, mids[..n]);
      ConservationStep(cx, db, mids[..n], mids[n]);
    }
  }

  /** The figures of a finished pass over monitored rows account for every change:
      each listed member counts once and in at most one column, removed rows grow
      by `revoked`, standing warnings by `warned` less what restores cleared, and
      with active channels the log holds `revoked` ban-then-unban pairs. */
  lemma SweepConservation(cx: Context, db: Db, mids: seq<nat>)
    requires InRange(db, mids) && Distinct(mids)
    requires forall i | 0 <= i < |mids| :: Monitored(db.memberships[mids[i]].status)
    requires SweepOver(cx, db, mids).Done?
    ensures var o := SweepOver(cx, db, mids);
            Conserved(cx, db, mids, o.db.memberships, o.tally, o.effects)
  {
    SweepIsParallel(cx, db, mids);
    Conservation(cx, db, mids);
  }
}
