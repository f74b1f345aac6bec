/** What is on record about an account is what the provider last said: an outage
    never overwrites it. */
module Records {
  import opened Types
  import opened Eligibility
  import opened Rows
  import opened Sweep
  import opened SweepLaws
  import opened SweepTheorems
  import opened Runs
  import opened Onboarding
  import opened PeriodLock
  import opened Engine
  import opened Admissions
  import Uid

  /** A submission that got as far as asking the provider about account `j`. */
  ghost predicate Asked(db: Db, raw: string, rq: Request, j: nat) {
    && Submit(db, raw, rq).answer !in {AnswerInvalidUid, AnswerNotConfigured, AnswerClaimed}
    && FindUid(db.accounts, rq.provider, Uid.Normalize(raw)) == Some(j)
  }

  /** The provider's answer about account `j` that a step commits, if any. */
  ghost function Answer(db: Db, step: Step, j: nat): Option<Check>
    requires j < |db.accounts|
  {
    var uid := db.accounts[j].uid;
    match step
    case Onboard(raw, rq, serves) =>
      if |Submit(db, raw, rq).effects| <= serves && Asked(db, raw, rq, j) then SignUpCheck(rq, uid) else None
    case Sweeping(settings, now, serves) =>
      var r := RunMonitor(settings, db, now);
      if r.Completed? && !RunRaises(r, serves) && Checks(db, MonitoredIds(db.memberships), j)
         && ConfigFor(db, db.accounts[j].provider, db.accounts[j].market).Some? && uid in settings.oracle
      then Some(settings.oracle[uid]) else None
    case Join(_, _) => None
  }

  /** The deposit in the last committed answer about account `j`; what a new row
      was created with, until there is one. */
  ghost function LastDeposit(db: Db, steps: seq<Step>, j: nat): Option<Amount>
    requires j < |After(db, steps).accounts|
  {
    if steps == [] then db.accounts[j].balance
    else
      var n := |steps| - 1;
      var before := After(db, steps[..n]);
      if j < |before.accounts| then
        var answer := Answer(before, steps[n], j);
        if answer.Some? then Some(answer.value.deposit) else LastDeposit(db, steps[..n], j)
      else if steps[n].Onboard? && After(db, steps).accounts[j].uid in steps[n].rq.oracle then
        Some(steps[n].rq.oracle[After(db, steps).accounts[j].uid].deposit)
      else None
  }

  lemma VerdictCarriesDeposit(check: Option<Check>, rules: Rules, trading: bool)
    ensures check.Some? ==> Evaluate(check, rules, trading).balance == check.value.deposit
  {
  }

  lemma JudgedBalance(db: Db, user: nat, uid: string, config: Config, channel: Channel, rq: Request)
    ensures var s := Judge(db, user, uid, config, channel, rq);
            var (db1, j) := AccountFor(db, user, rq, uid);
            && |s.db.accounts| == |db1.accounts| && s.answer !in {AnswerInvalidUid, AnswerNotConfigured, AnswerClaimed}
            && (forall i | 0 <= i < |db1.accounts| && i != j :: s.db.accounts[i] == db1.accounts[i])
            && s.db.accounts[j].uid == db1.accounts[j].uid
            && s.db.accounts[j].balance ==
                 if uid in rq.oracle then Some(rq.oracle[uid].deposit) else db1.accounts[j].balance
  {
    hide Admit, AccountFor;
    var (db1, j) := AccountFor(db, user, rq, uid);
    var v := Evaluate(SignUpCheck(rq, uid), config.rules, false);
    VerdictCarriesDeposit(SignUpCheck(rq, uid), config.rules, false);
    AdmitFrame(db1.(accounts := db1.accounts[j := JudgedAccount(db1.accounts[j], SignUpCheck(rq, uid), v, rq.now)]),
        user, channel, rq);
  }

  lemma SubmitBalance(db: Db, raw: string, rq: Request, j: nat)
    requires j < |Submit(db, raw, rq).db.accounts|
    ensures var s, uid := Submit(db, raw, rq), Uid.Normalize(raw);
            if j < |db.accounts| then
              s.db.accounts[j].balance ==
                if Asked(db, raw, rq, j) && uid in rq.oracle then Some(rq.oracle[uid].deposit)
                  else db.accounts[j].balance
            else
              && s.db.accounts[j].uid == uid
              && s.db.accounts[j].balance == (if uid in rq.oracle then Some(rq.oracle[uid].deposit) else None)
  {
    hide Judge, Uid.IsValid, Uid.Normalize, FindUid, FindUser;
    var uid := Uid.Normalize(raw);
    var (db1, user) := EnsureUser(db, rq.telegramId);
    var config, channel := ConfigFor(db, rq.provider, rq.market), ChannelFor(db, rq.market);
    if config.Some? && channel.Some? { JudgedBalance(db1, user, uid, config.value, channel.value, rq); }
  }

  lemma SweepBalance(settings: Settings, db: Db, now: Time, serves: nat, j: nat)
    requires j < |db.accounts|
    ensures var answer := Answer(db, Sweeping(settings, now, serves), j);
            var next := Kept(settings, db, now, serves);
            && |next.accounts| == |db.accounts|
            && next.accounts[j].balance == if answer.Some? then Some(answer.value.deposit) else db.accounts[j].balance
  {
    hide SweepOver, MergedRows, MergedSubscriptions, NewSnapshots, Checks;
    var start := PeriodStart(now, settings.period);
    var cx, ids, claimed := ContextFor(settings, now), MonitoredIds(db.memberships), Claim(db, start);
    ListIsDistinct(db);
    SweepIsParallel(cx, claimed, ids);
    assert Checks(claimed, ids, j) <==> Checks(db, ids, j) by { ChecksIgnoreJobs(db, start, ids, j); }
    var r := RunMonitor(settings, db, now);
    if r.Completed? && !RunRaises(r, serves) {
      var f := Examine(cx, claimed, j);
      if f.Some? {
        var config := ConfigFor(db, db.accounts[j].provider, db.accounts[j].market).value;
        VerdictCarriesDeposit(f.value.check, config.rules, true);
      }
    }
  }

  lemma ChecksIgnoreJobs(db: Db, start: Time, ids: seq<nat>, j: nat)
    requires InRange(db, ids)
    ensures Checks(Claim(db, start), ids, j) <==> Checks(db, ids, j)
  {
  }

  /** Over any history the balance on record is the deposit in the last committed
      answer; attempts the provider could not answer, and runs that were rolled
      back, leave it standing. */
  lemma {:induction false} BalanceIsLastAnswer(db: Db, steps: seq<Step>, j: nat)
    requires j < |After(db, steps).accounts|
    ensures After(db, steps).accounts[j].balance == LastDeposit(db, steps, j)
  {
    hide Submit, Kept, Answer;
    if steps != [] {
      var n := |steps| - 1;
      var before := After(db, steps[..n]);
      if j < |before.accounts| { BalanceIsLastAnswer(db, steps[..n], j); }
      StepBalance(before, steps[n], j);
    }
  }

  lemma StepBalance(db: Db, step: Step, j: nat)
    requires j < |Apply(db, step).accounts|
    ensures var row := Apply(db, step).accounts[j];
            row.balance ==
              if j < |db.accounts| then
                (if Answer(db, step, j).Some? then Some(Answer(db, step, j).value.deposit) else db.accounts[j].balance)
              else if step.Onboard? && row.uid in step.rq.oracle then Some(step.rq.oracle[row.uid].deposit)
              else None
  {
    match step
    case Onboard(raw, rq, serves) =>
      hide Submit, Uid.Normalize, FindUid;
      if |Submit(db, raw, rq).effects| <= serves { SubmitBalance(db, raw, rq, j); }
      if j < |db.accounts| { FoundUid(db.accounts, rq.provider, Uid.Normalize(raw), j); }
    case Sweeping(settings, now, serves) =>
      hide Kept, RunMonitor, Answer;
      SweepAccounts(settings, db, now, serves);
      SweepBalance(settings, db, now, serves, j);
    case Join(_, _) =>
  }

  lemma FoundUid(accounts: seq<Account>, provider: Provider, uid: string, j: nat)
    ensures FindUid(accounts, provider, uid) == Some(j) ==> j < |accounts| && accounts[j].uid == uid
  {
  }

  /** What the monitoring rules make of an answer, or of none. */
  function StateOnRecord(answer: Option<Check>, rules: Rules): ComplianceState {
    if answer == None then Unavailable
    else if !answer.value.registered || answer.value.deposit < rules.minimumBalance then NonCompliant
    else if answer.value.trades == None then Unavailable
    else if answer.value.trades.value < rules.minimumTrades then NonCompliant
    else Compliant
  }

  lemma VerdictTellsState(answer: Option<Check>, rules: Rules)
    ensures Evaluate(answer, rules, true).state == StateOnRecord(answer, rules)
  {
    ReasonIff(answer, rules, true);
  }

  /** The same about account `j`, under the programme of its market. */
  function VerdictState(db: Db, j: nat, check: Check): ComplianceState
    requires j < |db.accounts|
  {
    var config := ConfigFor(db, db.accounts[j].provider, db.accounts[j].market);
    if config.Some? then StateOnRecord(Some(check), config.value.rules) else Unavailable
  }

  /** The account as a check leaves it. */
  ghost predicate CheckedRow(before: Account, after: Account, oracle: map<string, Check>, rules: Rules, now: Time) {
    var answer := if before.uid in oracle then Some(oracle[before.uid]) else None;
    after == before.(compliance := StateOnRecord(answer, rules), lastChecked := Some(now),
                     balance := if answer.Some? then Some(answer.value.deposit) else before.balance)
  }

  /** A committed run writes the instant and the state of the check on exactly the
      accounts that judge a monitored member and have a programme, the balance if the
      provider told one, and nothing else on any account. */
  lemma AccountsTellTheAnswers(settings: Settings, db: Db, now: Time, serves: nat, j: nat)
    requires j < |db.accounts|
    ensures var r, next := RunMonitor(settings, db, now), Kept(settings, db, now, serves);
            var key := (db.accounts[j].provider, db.accounts[j].market);
            && |next.accounts| == |db.accounts|
            && if r.Completed? && !RunRaises(r, serves) && Checks(db, MonitoredIds(db.memberships), j)
                  && key in db.configs
                 then CheckedRow(db.accounts[j], next.accounts[j], settings.oracle, db.configs[key].rules, now)
               else next.accounts[j] == db.accounts[j]
  {
    hide SweepOver, MergedRows, MergedSubscriptions, NewSnapshots, Checks, Evaluate, PeriodStart;
    var start := PeriodStart(now, settings.period);
    var cx, ids, claimed := ContextFor(settings, now), MonitoredIds(db.memberships), Claim(db, start);
    var key := (db.accounts[j].provider, db.accounts[j].market);
    ListIsDistinct(db);
    SweepIsParallel(cx, claimed, ids);
    ChecksIgnoreJobs(db, start, ids, j);
    var r := RunMonitor(settings, db, now);
    if r.Completed? && !RunRaises(r, serves) {
      assert Kept(settings, db, now, serves).accounts == MergedAccounts(cx, claimed, ids);
      if key in db.configs {
        var f := Examine(cx, claimed, j).value;
        VerdictTellsState(f.check, db.configs[key].rules);
        VerdictCarriesDeposit(f.check, db.configs[key].rules, true);
      }
    }
  }

  /** A committed run adds one snapshot per account it checked and got an answer
      about, saying what the answer said, and overwrites none. */
  lemma SnapshotsTellTheAnswers(settings: Settings, db: Db, now: Time, serves: nat)
    ensures var r, next, start := RunMonitor(settings, db, now), Kept(settings, db, now, serves),
              PeriodStart(now, settings.period);
            && (forall k | k in db.snapshots :: k in next.snapshots && next.snapshots[k] == db.snapshots[k])
            && (forall k | k in next.snapshots && k !in db.snapshots ::
                  k.1 == start && k.0 < |db.accounts| && Answer(db, Sweeping(settings, now, serves), k.0).Some?
                  && var c := Answer(db, Sweeping(settings, now, serves), k.0).value;
                     var s := next.snapshots[k];
                     s.end == start + settings.period && s.balance == c.deposit && s.registered == c.registered
                     && s.trades == (if c.trades.Some? then c.trades.value else 0)
                     && s.state == VerdictState(db, k.0, c))
            && (forall j: nat | j < |db.accounts| && Answer(db, Sweeping(settings, now, serves), j).Some? ::
                  (j, start) in next.snapshots && (j, start) !in db.snapshots)
  {
    var start := PeriodStart(now, settings.period);
    var cx, ids, claimed := ContextFor(settings, now), MonitoredIds(db.memberships), Claim(db, start);
    var r := RunMonitor(settings, db, now);
    if r.Completed? && !RunRaises(r, serves) {
      CommittedSnapshots(settings, db, now, serves);
      forall j: nat | j < |db.accounts|
        ensures Answer(db, Sweeping(settings, now, serves), j).Some? <==>
                  Checks(claimed, ids, j) && Answered(cx, claimed, j)
        ensures Answered(cx, claimed, j) && Checks(claimed, ids, j) ==>
                  Examine(cx, claimed, j).value.check == Answer(db, Sweeping(settings, now, serves), j)
                  && Examine(cx, claimed, j).value.verdict.state ==
                       VerdictState(db, j, Examine(cx, claimed, j).value.check.value)
      {
        AnswerIsExamined(settings, db, now, serves, j);
      }
      hide RunMonitor, Answer, Examine, Checks, Kept, NoDuplicateSnapshot, PeriodStart, VerdictState;
      forall j: nat | j < |db.accounts| && Answer(db, Sweeping(settings, now, serves), j).Some?
        ensures (j, start) !in db.snapshots
      {
        FirstSnapshot(cx, claimed, ids, j);
      }
    } else {
      assert forall j: nat | j < |db.accounts| :: Answer(db, Sweeping(settings, now, serves), j) == None;
    }
  }

  lemma CommittedSnapshots(settings: Settings, db: Db, now: Time, serves: nat)
    requires RunMonitor(settings, db, now).Completed? && !RunRaises(RunMonitor(settings, db, now), serves)
    ensures var cx, ids, claimed := ContextFor(settings, now), MonitoredIds(db.memberships),
              Claim(db, PeriodStart(now, settings.period));
            && InRange(claimed, ids) && NoDuplicateSnapshot(cx, claimed, ids)
            && Kept(settings, db, now, serves).snapshots == db.snapshots + NewSnapshots(cx, claimed, ids)
  {
    hide SweepOver, MergedRows, MergedSubscriptions, MergedAccounts, NewSnapshots, NoDuplicateSnapshot;
    var cx, ids, claimed := ContextFor(settings, now), MonitoredIds(db.memberships),
        Claim(db, PeriodStart(now, settings.period));
    ListIsDistinct(db);
    SweepIsParallel(cx, claimed, ids);
    SweepFinishesIff(cx, claimed, ids);
  }

  lemma AnswerIsExamined(settings: Settings, db: Db, now: Time, serves: nat, j: nat)
    requires j < |db.accounts| && RunMonitor(settings, db, now).Completed?
             && !RunRaises(RunMonitor(settings, db, now), serves)
    requires InRange(db, MonitoredIds(db.memberships))
    ensures var cx, ids, claimed := ContextFor(settings, now), MonitoredIds(db.memberships),
              Claim(db, PeriodStart(now, settings.period));
            var answer := Answer(db, Sweeping(settings, now, serves), j);
            && (answer.Some? <==> Checks(claimed, ids, j) && Answered(cx, claimed, j))
            && (answer.Some? ==> Examine(cx, claimed, j).value.check == answer
                                 && Examine(cx, claimed, j).value.verdict.state == VerdictState(db, j, answer.value))
  {
    hide RunMonitor, Checks, Evaluate, StateOnRecord;
    ChecksIgnoreJobs(db, PeriodStart(now, settings.period), MonitoredIds(db.memberships), j);
    var config := ConfigFor(db, db.accounts[j].provider, db.accounts[j].market);
    var uid := db.accounts[j].uid;
    if config.Some? && uid in settings.oracle { VerdictTellsState(Some(settings.oracle[uid]), config.value.rules); }
  }

  /** An account that a finished pass gets an answer about had no snapshot yet. */
  lemma FirstSnapshot(cx: Context, db: Db, ids: seq<nat>, j: nat)
    requires InRange(db, ids) && NoDuplicateSnapshot(cx, db, ids) && Checks(db, ids, j) && j < |db.accounts|
             && Answered(cx, db, j)
    ensures (j, cx.periodStart) !in db.snapshots
  {
    var i :| 0 <= i < |ids| && FirstAccount(db.accounts, db.memberships[ids[i]].user) == Some(j);
    assert SnapshotAccount(cx, db, ids[i]) == Some(j);
  }
}
