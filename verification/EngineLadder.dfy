/** The ladder's guarantees, stated of the tables after any history. */
module EngineLadder {
  import opened Types
  import opened Eligibility
  import opened Compliance
  import opened Rows
  import opened Lifecycle
  import opened Sweep
  import opened Runs
  import opened Onboarding
  import opened Ladder
  import opened PeriodLock
  import Uid
  import opened Engine

  /** Tables in which nobody has a warning record or has been removed yet. */
  ghost predicate CleanStart(db: Db) {
    forall i | 0 <= i < |db.memberships| :: Fresh(db.memberships[i]) && db.memberships[i].status != Revoked
  }

  lemma {:induction false} OriginIsFresh(db: Db, steps: seq<Step>, mid: nat)
    requires CleanStart(db) && mid < |After(db, steps).memberships|
    ensures Fresh(Origin(db, steps, mid)) && Origin(db, steps, mid).status != Revoked
  {
    hide Apply;
    if steps != [] {
      var n := |steps| - 1;
      if mid < |After(db, steps[..n]).memberships| { OriginIsFresh(db, steps[..n], mid); }
    }
  }

  /** One policy throughout: every run is configured with its timing, every
      programme with its grace. */
  ghost predicate OnePolicy(db: Db, steps: seq<Step>, p: Policy) {
    && (forall k | k in db.configs :: db.configs[k].graceDays == p.graceDays)
    && (forall i | 0 <= i < |steps| && steps[i].Sweeping? ::
          steps[i].settings.maxWarnings == p.maxWarnings && steps[i].settings.intervalDays == p.intervalDays)
  }

  lemma SubmitKeepsConfigs(db: Db, raw: string, rq: Request)
    ensures Submit(db, raw, rq).db.configs == db.configs
  {
    hide Uid.IsValid, Uid.Normalize, Issued, Readmitted, JudgedAccount, FindUid, FindUser, FindMembership,
        FirstSubscription;
  }

  lemma StepKeepsConfigs(db: Db, step: Step)
    ensures Apply(db, step).configs == db.configs
  {
    match step
    case Onboard(raw, rq, serves) =>
      hide Submit;
      SubmitKeepsConfigs(db, raw, rq);
    case Sweeping(settings, now, serves) =>
      hide SweepOver;
      ListIsDistinct(db);
      SweepKeepsJobs(ContextFor(settings, now), Claim(db, PeriodStart(now, settings.period)),
          MonitoredIds(db.memberships));
    case Join(_, _) =>
  }

  lemma {:induction false} ConfigsStay(db: Db, steps: seq<Step>)
    ensures After(db, steps).configs == db.configs
  {
    hide Apply;
    if steps != [] {
      ConfigsStay(db, steps[..|steps| - 1]);
      StepKeepsConfigs(After(db, steps[..|steps| - 1]), steps[|steps| - 1]);
    }
  }

  lemma StepPolicy(db: Db, step: Step, mid: nat, p: Policy)
    requires mid < |db.memberships| && OnePolicy(db, [step], p)
    ensures FixedPolicy(StepEvents(db, step, mid), p)
  {
    hide Submit, RunMonitor, Evaluate, MonitoredIds;
    assert [step][0] == step;
  }

  lemma {:induction false} StoryHasPolicy(db: Db, steps: seq<Step>, mid: nat, p: Policy)
    requires OnePolicy(db, steps, p) && mid < |After(db, steps).memberships|
    ensures FixedPolicy(Story(db, steps, mid), p)
  {
    hide Apply, StepEvents;
    if steps != [] {
      var n := |steps| - 1;
      var before := After(db, steps[..n]);
      assert OnePolicy(db, steps[..n], p);
      if mid < |before.memberships| {
        StoryHasPolicy(db, steps[..n], mid, p);
        ConfigsStay(db, steps[..n]);
        assert OnePolicy(before, [steps[n]], p);
        StepPolicy(before, steps[n], mid, p);
      } else {
        NewRow(before, steps[n]);
      }
    }
  }

  /** The removal a REVOKED row is standing under: it has been REVOKED ever since. */
  lemma {:induction false} RemovedByARevoke(m: Membership, es: seq<Event>, n: nat) returns (r: nat)
    requires n <= |es| && m.status != Revoked && RowAt(m, es, n).status == Revoked
    ensures r < n && ActionAt(m, es, r) == Revoke && forall k | r < k <= n :: RowAt(m, es, k).status == Revoked
  {
    if RowAt(m, es, n - 1).status == Revoked { r := RemovedByARevoke(m, es, n - 1); } else { r := n - 1; }
  }

  /** Whatever submissions, runs, joins, outages and rollbacks came before, under
      one policy: a membership found REVOKED has been so ever since a check that
      ended a full, properly spaced ladder and rests on definite verdicts only; and
      a membership's counter is zero exactly when it carries no warning time. */
  lemma NoRemovalWithoutLadder(db: Db, steps: seq<Step>, mid: nat, p: Policy)
    requires CleanStart(db) && mid < |After(db, steps).memberships|
    ensures var m, es, row := Origin(db, steps, mid), Story(db, steps, mid), After(db, steps).memberships[mid];
            && (row.warnings == 0 <==> row.lastWarning == None)
            && (OnePolicy(db, steps, p) ==> row.warnings <= p.maxWarnings)
            && (OnePolicy(db, steps, p) && row.status == Revoked ==>
                  exists r: nat ::
                    && r < |es| && ActionAt(m, es, r) == Revoke && FullLadder(m, es, p, r) && Evidence(m, es, p, r)
                    && forall k | r < k <= |es| :: RowAt(m, es, k).status == Revoked)
  {
    hide Next, Apply, FullLadder, Evidence, Story, Origin, OnePolicy, After;
    var m, es := Origin(db, steps, mid), Story(db, steps, mid);
    OriginIsFresh(db, steps, mid);
    StoryTellsTheRow(db, steps, mid);
    CountMatchesClock(m, es, |es|);
    if OnePolicy(db, steps, p) {
      StoryHasPolicy(db, steps, mid, p);
      LadderHolds(m, es, p, |es|);
      if RowAt(m, es, |es|).status == Revoked {
        var r := RemovedByARevoke(m, es, |es|);
        RevocationEndsFullLadder(m, es, p, r);
        RevocationEvidence(m, es, p, r);
      }
    }
  }
}
