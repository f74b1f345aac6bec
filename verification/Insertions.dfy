/** Putting outage passes into a history: when it still runs. */
module Insertions {
  import opened Types
  import opened Eligibility
  import opened Compliance
  import opened Rows
  import opened Lifecycle
  import opened Sweep
  import opened SweepLaws
  import opened SweepTheorems
  import opened Onboarding
  import opened Outages

  type SnapshotKey = (nat, Time)

  /** The snapshot row a move writes: the provider answered. */
  function KeyOf(w: World, move: Move): Option<SnapshotKey> {
    if move.Pass? && move.mid < |w.db.memberships| && SnapshotAccount(move.cx, w.db, move.mid).Some?
    then Some((SnapshotAccount(move.cx, w.db, move.mid).value, move.cx.periodStart)) else None
  }

  /** A pass for which the whole call failed. */
  predicate Silent(w: World, move: Move) {
    OutagePass(w, move) && KeyOf(w, move) == None
  }

  /** A move on an existing row runs exactly when its snapshot row is not there yet. */
  lemma RunsIff(w: World, move: Move)
    requires move.Pass? ==> move.mid < |w.db.memberships|
    requires move.Join? ==> move.mid < |w.db.memberships|
    ensures Feasible(w, move) <==> KeyOf(w, move).None? || KeyOf(w, move).value !in w.db.snapshots
  {
    if move.Pass? {
      hide MemberPass;
      RaisesIffTaken(move.cx, w.db, move.mid);
    }
  }

  lemma KeysWritten(w: World, move: Move)
    requires Feasible(w, move)
    ensures Make(w, move).db.snapshots.Keys == w.db.snapshots.Keys + if KeyOf(w, move).Some?
            then {KeyOf(w, move).value} else {}
  {
    match move
    case Pass(cx, mid) =>
      hide MemberPass, SnapshotAccount;
      PassKeys(cx, w.db, mid);
    case Submitted(raw, rq) =>
      hide Submit;
      SubmitKeepsSnapshots(w.db, raw, rq);
    case Join(_, _) =>
  }

  lemma PassKeys(cx: Context, db: Db, mid: nat)
    requires mid < |db.memberships| && MemberPass(cx, db, mid).Done?
    ensures var a := SnapshotAccount(cx, db, mid);
            MemberPass(cx, db, mid).db.snapshots.Keys == db.snapshots.Keys + if a.Some?
              then {(a.value, cx.periodStart)} else {}
  {
    hide Evaluate, Decide, FirstAccount, FirstSubscription;
  }

  lemma SubmitKeepsSnapshots(db: Db, raw: string, rq: Request)
    ensures Submit(db, raw, rq).db.snapshots == db.snapshots
  {
    hide Issued, Readmitted, JudgedAccount;
  }

  // A pass that writes a snapshot.

  /** Alike, and the right has exactly one snapshot more. */
  ghost predicate Extra(a: World, b: World, key: SnapshotKey) {
    Alike(a, b) && key !in a.db.snapshots && b.db.snapshots.Keys == a.db.snapshots.Keys + {key}
  }

  /** No move of the history writes this snapshot row. */
  ghost predicate NobodyNeeds(w: World, moves: seq<Move>, key: SnapshotKey)
    requires AllRun(w, moves)
    decreases |moves|
  {
    moves == [] || (KeyOf(w, moves[0]) != Some(key) && NobodyNeeds(Make(w, moves[0]), moves[1..], key))
  }

  lemma SameKey(a: World, b: World, move: Move)
    requires Alike(a, b)
    ensures KeyOf(a, move) == KeyOf(b, move)
  {
    AlikeSubjects(a, b);
    if move.Pass? && move.mid < |a.db.memberships| {
      hide Find, Evaluate;
      FindStable(move.cx, a.db, b.db, move.mid);
    }
  }

  lemma ExtraStep(a: World, b: World, key: SnapshotKey, move: Move)
    requires Extra(a, b, key) && Feasible(a, move)
    ensures Feasible(b, move) <==> KeyOf(a, move) != Some(key)
    ensures Feasible(b, move) ==> Extra(Make(a, move), Make(b, move), key)
  {
    AlikeSubjects(a, b);
    SameKey(a, b, move);
    RunsIff(a, move);
    RunsIff(b, move);
    hide KeyOf, Feasible, Alike, Make;
    if Feasible(b, move) {
      AlikeMove(a, b, move);
      KeysWritten(a, move);
      KeysWritten(b, move);
    }
  }

  lemma {:induction false} ExtraHistory(a: World, b: World, key: SnapshotKey, moves: seq<Move>)
    requires Extra(a, b, key) && AllRun(a, moves)
    ensures AllRun(b, moves) <==> NobodyNeeds(a, moves, key)
    decreases |moves|
  {
    hide KeyOf, Feasible, Extra, Make;
    if moves != [] {
      ExtraStep(a, b, key, moves[0]);
      if Feasible(b, moves[0]) { ExtraHistory(Make(a, moves[0]), Make(b, moves[0]), key, moves[1..]); }
    }
  }

  lemma OutageAddsKey(w: World, p: Move, key: SnapshotKey)
    requires OutagePass(w, p) && KeyOf(w, p) == Some(key) && Feasible(w, p)
    ensures Extra(w, Make(w, p), key)
  {
    RunsIff(w, p);
    KeysWritten(w, p);
    hide KeyOf, Feasible, Alike, Make, OutagePass;
    OutageLeavesAlike(w, p);
  }

  lemma {:induction false} RunsInTwo(w: World, x: seq<Move>, y: seq<Move>)
    ensures AllRun(w, x + y) <==> AllRun(w, x) && AllRun(MakeAll(w, x), y)
    decreases |x|
  {
    hide Feasible, Make;
    if x == [] {
      assert x + y == y;
    } else {
      assert (x + y)[0] == x[0] && (x + y)[1..] == x[1..] + y;
      if Feasible(w, x[0]) { RunsInTwo(Make(w, x[0]), x[1..], y); }
    }
  }

  /** Inserting, anywhere in a history that runs, an outage pass for which only the
      trade count was missing: the history still runs exactly when the account has
      no snapshot for that period yet and no later move writes one. */
  lemma MissingTradesInsertIff(w: World, x: seq<Move>, p: Move, y: seq<Move>)
    requires AllRun(w, x + y) && AllRun(w, x) && OutagePass(MakeAll(w, x), p) && KeyOf(MakeAll(w, x), p).Some?
    ensures AllRun(MakeAll(w, x), y)
    ensures var here := MakeAll(w, x);
            var key := KeyOf(here, p).value;
            AllRun(w, x + ([p] + y)) <==> key !in here.db.snapshots && NobodyNeeds(here, y, key)
  {
    var here := MakeAll(w, x);
    var key := KeyOf(here, p).value;
    RunsInTwo(w, x, y);
    RunsInTwo(w, x, [p] + y);
    RunsIff(here, p);
    assert ([p] + y)[0] == p && ([p] + y)[1..] == y;
    hide KeyOf, Feasible, Make, OutagePass, NobodyNeeds;
    if key !in here.db.snapshots {
      OutageAddsKey(here, p, key);
      ExtraHistory(here, Make(here, p), key, y);
    }
  }

  // Passes for which the whole call failed.

  ghost predicate Mirror(a: World, b: World) {
    Alike(a, b) && Alike(b, a)
  }

  lemma SilentMirrors(w: World, p: Move)
    requires Silent(w, p)
    ensures Feasible(w, p) && Mirror(w, Make(w, p))
  {
    RunsIff(w, p);
    KeysWritten(w, p);
    hide KeyOf, Feasible, Make, OutagePass;
    OutageLeavesAlike(w, p);
    AlikeBack(w, Make(w, p));
  }

  lemma AlikeBack(a: World, b: World)
    requires Alike(a, b) && a.db.snapshots.Keys == b.db.snapshots.Keys
    ensures Alike(b, a)
  {
    assert forall j | 0 <= j < |a.db.accounts| :: SameButCheck(a.db.accounts[j], b.db.accounts[j]);
    assert forall k | k in a.db.jobs :: SameButOutages(a.db.jobs[k], b.db.jobs[k]);
  }

  /** `b` is `a` with any number of such passes inserted anywhere; nothing is said
      about whether its moves can be made. */
  ghost predicate WithSilence(w: World, a: seq<Move>, b: seq<Move>)
    decreases |b|
  {
    if b == [] then a == []
    else
      || (Silent(w, b[0]) && Feasible(w, b[0]) && WithSilence(Make(w, b[0]), a, b[1..]))
      || (a != [] && a[0] == b[0] && (Feasible(w, b[0]) ==> WithSilence(Make(w, b[0]), a[1..], b[1..])))
  }

  /** Inserting them always runs, and changes nothing that counts. */
  lemma {:induction false} SilentInsertsAlwaysRun(w: World, a: seq<Move>, b: seq<Move>)
    requires AllRun(w, a) && WithSilence(w, a, b)
    ensures AllRun(w, b) && Alike(MakeAll(w, a), MakeAll(w, b))
    decreases |b|
  {
    hide Feasible, Make, Silent, Alike;
    if b == [] {
      AlikeSelf(w);
    } else if Silent(w, b[0]) && Feasible(w, b[0]) && WithSilence(Make(w, b[0]), a, b[1..]) {
      SilentMirrors(w, b[0]);
      AlikeHistories(Make(w, b[0]), w, a);
      AlikeHistories(w, Make(w, b[0]), a);
      SilentInsertsAlwaysRun(Make(w, b[0]), a, b[1..]);
      AlikeTransitive(MakeAll(w, a), MakeAll(Make(w, b[0]), a), MakeAll(w, b));
    } else {
      SilentInsertsAlwaysRun(Make(w, b[0]), a[1..], b[1..]);
    }
  }

  // An insertion that does not run.

  const MEMBER := World(
    Db([User(7, None)], [Account(0, Bitunix, Crypto, "123456789", Verified, Compliant, None, None, None, None)],
       [Subscription(0, Crypto, SubActive, Some(0), None)], [NewMembership(0, 1, 0, 0).(status := Invited)],
       map[(Bitunix, Crypto) := Config(Rules(0, 1, 7), 30, true, "link")], map[Crypto := Channel(1, -1001, true)],
           map[], map[]),
    [], ZERO)

  function Checking(trades: Option<int>): Move {
    Pass(Context(3, 5, 0, 7 * DAY, DAY, map["123456789" := Check(true, 0, trades)]), 0)
  }

  /** A pass that could not see the trades runs, and so does one of the same period
      that can; but the first takes the snapshot row the second needs. */
  lemma OutagePassCanBlockALaterOne()
    ensures var p, q := Checking(None), Checking(Some(1));
            OutagePass(MEMBER, p) && AllRun(MEMBER, [p]) && AllRun(MEMBER, [q]) && !AllRun(MEMBER, [p, q])
  {
    var p, q := Checking(None), Checking(Some(1));
    var key: SnapshotKey := (0, 0);
    assert FirstAccount(MEMBER.db.accounts, 0) == Some(0) by { assert MEMBER.db.accounts[..0] == []; }
    assert KeyOf(MEMBER, p) == Some(key) && KeyOf(MEMBER, q) == Some(key) && OutagePass(MEMBER, p);
    RunsIff(MEMBER, p);
    RunsIff(MEMBER, q);
    hide KeyOf, Feasible, Make, OutagePass;
    assert [p][1..] == [] && [q][1..] == [] && [p] + [q] == [p, q] && [] + [q] == [q] && [] + [p, q] == [p, q];
    MissingTradesInsertIff(MEMBER, [], p, [q]);
  }
}
