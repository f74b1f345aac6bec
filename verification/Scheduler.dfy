/** The sweep over all tenants: each in its own session and transaction, most
    failures contained. */
module Scheduler {
  import opened Types
  import opened Rows
  import opened Runs
  import opened Sessions
  import opened Monitor
  import opened PeriodLock

  /** What building a tenant's providers comes to. A missing credential is caught
      and the tenant skipped; a stored secret that does not decrypt is not. */
  datatype Setup = Ready(turn: Turn) | NoCredential | BadSecret

  function SetupOf(setups: map<TenantId, Setup>, t: TenantId): Setup {
    if t in setups then setups[t] else NoCredential
  }

  /** What a tenant's own run leaves of its tables, and sends. */
  function OwnRun(db: Db, setup: Setup): Db {
    if setup.Ready? then Kept(setup.turn.settings, db, setup.turn.now, setup.turn.serves) else db
  }

  function OwnLog(db: Db, setup: Setup): seq<Effect> {
    if !setup.Ready? then []
    else
      var r := RunMonitor(setup.turn.settings, db, setup.turn.now);
      if r.StoodDown? then [] else Delivered(r.effects, setup.turn.serves)
  }

  /** A turn commits a completed run whole and nothing of any other; it sends what the
      run planned up to the call Telegram did not answer. A tenant whose providers
      cannot be built changes nothing and sends nothing. */
  lemma OwnRunIff(db: Db, setup: Setup)
    ensures !setup.Ready? ==> OwnRun(db, setup) == db && OwnLog(db, setup) == []
    ensures setup.Ready? ==>
              var turn := setup.turn;
              var r := RunMonitor(turn.settings, db, turn.now);
              match r
              case StoodDown => OwnRun(db, setup) == db && OwnLog(db, setup) == []
              case Aborted(effects) =>
                OwnRun(db, setup) == db && OwnLog(db, setup) <= effects
                && |OwnLog(db, setup)| == (if |effects| <= turn.serves then |effects| else turn.serves)
              case Completed(next, effects, _) =>
                && OwnRun(db, setup) == (if |effects| <= turn.serves then next else db) && OwnLog(db, setup) <= effects
                && |OwnLog(db, setup)| == (if |effects| <= turn.serves then |effects| else turn.serves)
  {
    hide RunMonitor;
  }

  /** Committed tables, messages sent, and whether an exception left the loop. */
  datatype Fleet = Fleet(committed: map<TenantId, Db>, sent: seq<(TenantId, Effect)>, raised: bool)

  predicate AllKnown(fleet: Fleet, tenants: seq<TenantId>) {
    forall i | 0 <= i < |tenants| :: tenants[i] in fleet.committed
  }

  function SweepOne(fleet: Fleet, t: TenantId, setup: Setup): Fleet
    requires t in fleet.committed
  {
    var db := fleet.committed[t];
    Fleet(fleet.committed[t := OwnRun(db, setup)], fleet.sent + Tagged(t, OwnLog(db, setup)), setup.BadSecret?)
  }

  /** The loop over the listed tenants, up to the first exception. */
  function SweepAll(fleet: Fleet, tenants: seq<TenantId>, setups: map<TenantId, Setup>): (end: Fleet)
    requires AllKnown(fleet, tenants)
    ensures end.committed.Keys == fleet.committed.Keys
  {
    if tenants == [] then fleet
    else
      var n := |tenants| - 1;
      assert AllKnown(fleet, tenants[..n]);
      var before := SweepAll(fleet, tenants[..n], setups);
      if before.raised then before else SweepOne(before, tenants[n], SetupOf(setups, tenants[n]))
  }

  /** A tenant before position `j` whose secret does not decrypt. */
  predicate Barred(tenants: seq<TenantId>, setups: map<TenantId, Setup>, j: nat) {
    exists i | 0 <= i < j && i < |tenants| :: SetupOf(setups, tenants[i]).BadSecret?
  }

  ghost predicate Listed(tenants: seq<TenantId>) {
    forall i, j | 0 <= i < j < |tenants| :: tenants[i] != tenants[j]
  }

  /** The messages of the tenants whose turn comes, in list order. */
  function LogsOf(committed: map<TenantId, Db>, tenants: seq<TenantId>, setups: map<TenantId, Setup>)
    : seq<(TenantId, Effect)>
    requires forall i | 0 <= i < |tenants| :: tenants[i] in committed
  {
    if tenants == [] then []
    else
      var n := |tenants| - 1;
      var t := tenants[n];
      assert forall i | 0 <= i < n :: tenants[..n][i] in committed;
      if Barred(tenants, setups, n) then LogsOf(committed, tenants[..n], setups)
      else LogsOf(committed, tenants[..n], setups) + Tagged(t, OwnLog(committed[t], SetupOf(setups, t)))
  }

  lemma BarredPrefix(tenants: seq<TenantId>, setups: map<TenantId, Setup>, j: nat)
    requires j < |tenants|
    ensures Barred(tenants[..|tenants| - 1], setups, j) <==> Barred(tenants, setups, j)
    ensures Barred(tenants, setups, |tenants|)
            <==> Barred(tenants, setups, |tenants| - 1) || SetupOf(setups, tenants[|tenants| - 1]).BadSecret?
  {
    var n := |tenants| - 1;
    assert forall i | 0 <= i < n :: tenants[..n][i] == tenants[i];
  }

  /** A tenant's turn comes exactly when nobody before it is barred; then it ends
      as its own run alone leaves it, and otherwise it is not touched. */
  lemma {:induction false} TurnOf(fleet: Fleet, tenants: seq<TenantId>, setups: map<TenantId, Setup>, t: TenantId)
    requires AllKnown(fleet, tenants) && Listed(tenants) && !fleet.raised && t in fleet.committed
    ensures var end := SweepAll(fleet, tenants, setups);
            && (end.raised <==> Barred(tenants, setups, |tenants|))
            && (t !in tenants ==> end.committed[t] == fleet.committed[t])
            && (forall j | 0 <= j < |tenants| && tenants[j] == t ::
                  end.committed[t] ==
                    if Barred(tenants, setups, j) then fleet.committed[t]
                    else OwnRun(fleet.committed[t], SetupOf(setups, t)))
  {
    hide OwnRun, OwnLog, Barred, SweepOne, SetupOf;
    if tenants == [] {
      NobodyBefore(tenants, setups);
    } else {
      var n := |tenants| - 1;
      assert AllKnown(fleet, tenants[..n]) && tenants[n] !in tenants[..n];
      TurnOf(fleet, tenants[..n], setups, t);
      WhatOneTurnDoes(SweepAll(fleet, tenants[..n], setups), tenants[n], SetupOf(setups, tenants[n]));
      BarredPrefix(tenants, setups, n);
      forall j | 0 <= j < n && tenants[j] == t
        ensures tenants[..n][j] == t && (Barred(tenants[..n], setups, j) <==> Barred(tenants, setups, j))
      {
        BarredPrefix(tenants, setups, j);
      }
    }
  }

  /** And the messages are those of the tenants whose turn comes. */
  lemma {:induction false} LogsOfTurns(fleet: Fleet, tenants: seq<TenantId>, setups: map<TenantId, Setup>)
    requires AllKnown(fleet, tenants) && Listed(tenants) && !fleet.raised
    ensures SweepAll(fleet, tenants, setups).sent == fleet.sent + LogsOf(fleet.committed, tenants, setups)
  {
    hide OwnRun, OwnLog, Barred, SweepOne, SetupOf, Tagged;
    if tenants == [] {
      assert fleet.sent + [] == fleet.sent;
    } else {
      var n := |tenants| - 1;
      assert AllKnown(fleet, tenants[..n]) && tenants[n] !in tenants[..n];
      LogsOfTurns(fleet, tenants[..n], setups);
      TurnOf(fleet, tenants[..n], setups, tenants[n]);
      WhatOneTurnDoes(SweepAll(fleet, tenants[..n], setups), tenants[n], SetupOf(setups, tenants[n]));
      BarredPrefix(tenants, setups, n);
    }
  }

  lemma TurnsThatCome(fleet: Fleet, tenants: seq<TenantId>, setups: map<TenantId, Setup>)
    requires AllKnown(fleet, tenants) && Listed(tenants) && !fleet.raised
    ensures var end := SweepAll(fleet, tenants, setups);
            && (end.raised <==> Barred(tenants, setups, |tenants|))
            && end.sent == fleet.sent + LogsOf(fleet.committed, tenants, setups)
            && (forall t | t in fleet.committed && t !in tenants :: end.committed[t] == fleet.committed[t])
            && (forall j | 0 <= j < |tenants| ::
                  end.committed[tenants[j]] ==
                    if Barred(tenants, setups, j) then fleet.committed[tenants[j]]
                    else OwnRun(fleet.committed[tenants[j]], SetupOf(setups, tenants[j])))
  {
    hide OwnRun, Barred, SweepAll, SetupOf, LogsOf;
    LogsOfTurns(fleet, tenants, setups);
    forall t | t in fleet.committed && t !in tenants
      ensures SweepAll(fleet, tenants, setups).committed[t] == fleet.committed[t]
    {
      TurnOf(fleet, tenants, setups, t);
    }
    forall j | 0 <= j < |tenants|
      ensures SweepAll(fleet, tenants, setups).committed[tenants[j]] ==
              if Barred(tenants, setups, j) then fleet.committed[tenants[j]]
              else OwnRun(fleet.committed[tenants[j]], SetupOf(setups, tenants[j]))
    {
      TurnOf(fleet, tenants, setups, tenants[j]);
    }
    if tenants == [] {
      NobodyBefore(tenants, setups);
      EmptyList(fleet, setups);
    } else {
      TurnOf(fleet, tenants, setups, tenants[0]);
    }
  }

  lemma EmptyList(fleet: Fleet, setups: map<TenantId, Setup>)
    ensures SweepAll(fleet, [], setups) == fleet
  {
  }

  lemma WhatOneTurnDoes(fleet: Fleet, t: TenantId, setup: Setup)
    requires t in fleet.committed
    ensures var next := SweepOne(fleet, t, setup);
            && next.committed == fleet.committed[t := OwnRun(fleet.committed[t], setup)]
            && next.sent == fleet.sent + Tagged(t, OwnLog(fleet.committed[t], setup)) && next.raised == setup.BadSecret?
  {
  }

  lemma NobodyBefore(tenants: seq<TenantId>, setups: map<TenantId, Setup>)
    ensures !Barred(tenants, setups, 0)
  {
  }

  /** The tenant at `j` has something to commit, and an earlier one is barred. */
  ghost predicate Starved(fleet: Fleet, tenants: seq<TenantId>, setups: map<TenantId, Setup>, i: nat, j: nat)
    requires AllKnown(fleet, tenants)
  {
    && i < j < |tenants| && SetupOf(setups, tenants[i]).BadSecret?
    && OwnRun(fleet.committed[tenants[j]], SetupOf(setups, tenants[j])) != fleet.committed[tenants[j]]
  }

  /** Every listed tenant ends as its own run alone leaves it, whatever became of
      the others, exactly when no secret that fails to decrypt stands in the list
      before a tenant that has something to commit. */
  lemma FailuresAreContainedIff(fleet: Fleet, tenants: seq<TenantId>, setups: map<TenantId, Setup>)
    requires AllKnown(fleet, tenants) && Listed(tenants) && !fleet.raised
    ensures var end := SweepAll(fleet, tenants, setups);
            (forall j | 0 <= j < |tenants| ::
               end.committed[tenants[j]] == OwnRun(fleet.committed[tenants[j]], SetupOf(setups, tenants[j])))
            <==> !exists i: nat, j: nat :: Starved(fleet, tenants, setups, i, j)
  {
    hide OwnRun, SweepAll;
    TurnsThatCome(fleet, tenants, setups);
    var end := SweepAll(fleet, tenants, setups);
    forall i: nat, j: nat | Starved(fleet, tenants, setups, i, j)
      ensures end.committed[tenants[j]] != OwnRun(fleet.committed[tenants[j]], SetupOf(setups, tenants[j]))
    {
      assert Barred(tenants, setups, j);
    }
    forall j | 0 <= j < |tenants|
      ensures end.committed[tenants[j]] == OwnRun(fleet.committed[tenants[j]], SetupOf(setups, tenants[j]))
              || exists i: nat :: Starved(fleet, tenants, setups, i, j)
    {
      if Barred(tenants, setups, j) {
        var i :| 0 <= i < j && i < |tenants| && SetupOf(setups, tenants[i]).BadSecret?;
        assert end.committed[tenants[j]] == OwnRun(fleet.committed[tenants[j]], SetupOf(setups, tenants[j]))
               || Starved(fleet, tenants, setups, i, j);
      }
    }
  }

  /** Without secrets that fail to decrypt all other failures stay contained. */
  lemma FailuresAreContained(fleet: Fleet, tenants: seq<TenantId>, setups: map<TenantId, Setup>)
    requires AllKnown(fleet, tenants) && Listed(tenants) && !fleet.raised
    requires forall t | t in setups :: !setups[t].BadSecret?
    ensures var end := SweepAll(fleet, tenants, setups);
            && !end.raised
            && forall t | t in fleet.committed ::
                 end.committed[t] == if t in tenants then OwnRun(fleet.committed[t], SetupOf(setups, t))
                   else fleet.committed[t]
  {
    hide OwnRun, SweepAll;
    TurnsThatCome(fleet, tenants, setups);
  }

  /** One tenant's bad secret, and the tenant listed after it misses its period:
      the run that was due would have put its job row on record. */
  lemma OneBadSecretStopsTheRest(broken: Db, due: Db, turn: Turn)
    requires due.memberships == [] && PeriodStart(turn.now, turn.settings.period) !in due.jobs
    ensures var fleet := Fleet(map[0 := broken, 1 := due], [], false);
            var setups := map[0 := BadSecret, 1 := Ready(turn)];
            && SweepAll(fleet, [0, 1], setups) == Fleet(fleet.committed, [], true)
            && PeriodStart(turn.now, turn.settings.period) in OwnRun(due, Ready(turn)).jobs
            && PeriodStart(turn.now, turn.settings.period) in SweepAll(fleet, [1, 0], setups).committed[1].jobs
  {
    hide Kept, RunMonitor, PeriodStart;
    DueRunCommits(due, turn);
    var fleet := Fleet(map[0 := broken, 1 := due], [], false);
    var setups := map[0 := BadSecret, 1 := Ready(turn)];
    assert fleet.committed[0 := broken] == fleet.committed;
    TwoTurns(fleet, 0, 1, setups);
    TwoTurns(fleet, 1, 0, setups);
  }

  lemma TwoTurns(fleet: Fleet, a: TenantId, b: TenantId, setups: map<TenantId, Setup>)
    requires a in fleet.committed && b in fleet.committed && !fleet.raised
    ensures var first := SweepOne(fleet, a, SetupOf(setups, a));
            SweepAll(fleet, [a, b], setups) == if first.raised then first else SweepOne(first, b, SetupOf(setups, b))
  {
    hide SweepOne;
    assert [a, b][..1] == [a] && [a][..0] == [];
    assert SweepAll(fleet, [a], setups) == SweepOne(fleet, a, SetupOf(setups, a));
  }

  lemma DueRunCommits(due: Db, turn: Turn)
    requires due.memberships == [] && PeriodStart(turn.now, turn.settings.period) !in due.jobs
    ensures PeriodStart(turn.now, turn.settings.period) in Kept(turn.settings, due, turn.now, turn.serves).jobs
  {
    hide PeriodStart;
  }

  class Deployment {
    var committed: map<TenantId, Db>
    var sent: seq<(TenantId, Effect)>

    /** Append one run's messages to what has left the building. */
    method Post(tenant: TenantId, log: seq<Effect>)
      modifies this`sent
      ensures sent == old(sent) + Tagged(tenant, log)
    {
      sent := sent + Tagged(tenant, log);
    }

    /** One tenant's session: run, then commit or roll back. */
    method SweepTenant(tenant: TenantId, turn: Turn)
      requires tenant in committed
      modifies this
      ensures committed == old(committed)[tenant := OwnRun(old(committed[tenant]), Ready(turn))]
      ensures sent == old(sent) + Tagged(tenant, OwnLog(old(committed[tenant]), Ready(turn)))
      ensures var r := RunMonitor(turn.settings, old(committed[tenant]), turn.now);
              committed[tenant] == if r.Completed? && |r.effects| <= turn.serves then r.db else old(committed[tenant])
    {
      hide RunMonitor;
      var session := new Session(committed[tenant]);
      var bot := new Bot(turn.serves, "");
      var monitor := new MembershipMonitor(session, bot, turn.settings);
      var report, raised := monitor.Run(turn.now);
      if raised { session.Rollback(); } else { session.Commit(); }
      committed := committed[tenant := session.saved];
      Post(tenant, bot.log);
    }

    /** The job. `raised`: an exception left it, and the rest had no turn. */
    method RunComplianceSweep(tenants: seq<TenantId>, setups: map<TenantId, Setup>) returns (raised: bool)
      requires forall i | 0 <= i < |tenants| :: tenants[i] in committed
      modifies this
      ensures Fleet(committed, sent, raised) == SweepAll(Fleet(old(committed), old(sent), false), tenants, setups)
    {
      hide OwnRun, OwnLog;
      raised := false;
      ghost var start := Fleet(committed, sent, false);
      for i := 0 to |tenants|
        invariant AllKnown(start, tenants[..i]) && !raised
        invariant Fleet(committed, sent, false) == SweepAll(start, tenants[..i], setups)
      {
        assert tenants[..i + 1][..i] == tenants[..i];
        var setup := SetupOf(setups, tenants[i]);
        ghost var before := Fleet(committed, sent, false);
        StepOfLoop(start, tenants, setups, i);
        match setup {
          case NoCredential =>
            QuietStep(before, tenants[i], setup);
            continue;
          case BadSecret =>
            QuietStep(before, tenants[i], setup);
            raised := true;
            StaysRaised(start, tenants, setups, i + 1);
            return;
          case Ready(turn) =>
            SweepTenant(tenants[i], turn);
        }
      }
      assert tenants[..|tenants|] == tenants;
    }
  }

  lemma StepOfLoop(fleet: Fleet, tenants: seq<TenantId>, setups: map<TenantId, Setup>, i: nat)
    requires AllKnown(fleet, tenants) && i < |tenants| && AllKnown(fleet, tenants[..i])
             && !SweepAll(fleet, tenants[..i], setups).raised
    ensures AllKnown(fleet, tenants[..i + 1])
    ensures SweepAll(fleet, tenants[..i + 1], setups) ==
            SweepOne(SweepAll(fleet, tenants[..i], setups), tenants[i], SetupOf(setups, tenants[i]))
  {
    hide SweepOne;
    assert tenants[..i + 1][..i] == tenants[..i];
  }

  lemma QuietStep(fleet: Fleet, t: TenantId, setup: Setup)
    requires t in fleet.committed && !setup.Ready?
    ensures SweepOne(fleet, t, setup) == fleet.(raised := setup.BadSecret?)
  {
    assert fleet.committed[t := fleet.committed[t]] == fleet.committed;
    assert fleet.sent + [] == fleet.sent;
  }

  lemma {:induction false} StaysRaised(fleet: Fleet, tenants: seq<TenantId>, setups: map<TenantId, Setup>, i: nat)
    requires AllKnown(fleet, tenants) && i <= |tenants| && AllKnown(fleet, tenants[..i])
             && SweepAll(fleet, tenants[..i], setups).raised
    ensures SweepAll(fleet, tenants, setups) == SweepAll(fleet, tenants[..i], setups)
    decreases |tenants|
  {
    hide SweepOne;
    var n := |tenants| - 1;
    if i == |tenants| {
      assert tenants[..i] == tenants;
    } else {
      assert tenants[..n][..i] == tenants[..i];
      StaysRaised(fleet, tenants[..n], setups, i);
    }
  }
}
