/** Who may hold a membership, and what it says about entitlement: laws of every
    history of submissions, monitoring runs and joins. */
module Admissions {
  import opened Types
  import opened Eligibility
  import opened Rows
  import opened Lifecycle
  import opened Sweep
  import opened SweepLaws
  import opened Runs
  import opened Onboarding
  import opened PeriodLock
  import opened Engine
  import Uid

  // One exchange account backs one person.

  type Credential = (Provider, string)

  ghost predicate Backed(db: Db, user: nat) {
    exists j :: 0 <= j < |db.accounts| && db.accounts[j].user == user && db.accounts[j].verifiedAt.Some?
  }

  /** No uid twice; every holder has a verified account; every verified account's
      uid is one the provider once found eligible. */
  ghost predicate OneUidInv(db: Db, eligible: set<Credential>) {
    && DistinctUids(db.accounts)
    && (forall i | 0 <= i < |db.memberships| :: Backed(db, db.memberships[i].user))
    && VerifiedAmong(db.accounts, eligible)
  }

  ghost predicate DistinctUids(accounts: seq<Account>) {
    forall i, j | 0 <= i < j < |accounts| ::
        accounts[i].provider != accounts[j].provider || accounts[i].uid != accounts[j].uid
  }

  ghost predicate VerifiedAmong(accounts: seq<Account>, eligible: set<Credential>) {
    forall j | 0 <= j < |accounts| && accounts[j].verifiedAt.Some? ::
        (accounts[j].provider, accounts[j].uid) in eligible
  }

  /** Owners, providers and uids of existing accounts are kept. */
  ghost predicate OwnersKept(a: Db, b: Db) {
    |a.accounts| <= |b.accounts|
    && forall j | 0 <= j < |a.accounts| ::
         a.accounts[j].user == b.accounts[j].user && a.accounts[j].provider == b.accounts[j].provider
           && a.accounts[j].uid == b.accounts[j].uid
         && (a.accounts[j].verifiedAt.Some? ==> b.accounts[j].verifiedAt.Some?)
  }

  /** The provider's own answer meets the sign-up rule. */
  predicate Qualifies(check: Check, rules: Rules) {
    check.registered && check.deposit >= rules.minimumBalance
  }

  /** The uids the provider reported eligible when they were submitted. */
  function EligibleSeen(db: Db, step: Step): set<Credential> {
    if !step.Onboard? then {}
    else
      var uid := Uid.Normalize(step.rawUid);
      var config := ConfigFor(db, step.rq.provider, step.rq.market);
      if uid in step.rq.oracle && config.Some? && Qualifies(step.rq.oracle[uid], config.value.rules)
      then {(step.rq.provider, uid)} else {}
  }

  function EligibleUids(db: Db, steps: seq<Step>): set<Credential> {
    if steps == [] then {}
    else
      var n := |steps| - 1;
      EligibleUids(db, steps[..n]) + EligibleSeen(After(db, steps[..n]), steps[n])
  }

  ghost predicate OwnRow(before: Account, row: Account) {
    before.user == row.user && before.provider == row.provider && before.uid == row.uid
    && (before.verifiedAt.Some? ==> row.verifiedAt.Some?)
  }

  lemma AdmitFrame(db: Db, user: nat, channel: Channel, rq: Request)
    ensures var s := Admit(db, user, channel, rq); Admits(s) && s.db.accounts == db.accounts
  {
    hide Issued, Readmitted;
  }

  lemma JudgeAccounts(db: Db, user: nat, uid: string, config: Config, channel: Channel, rq: Request)
    ensures var s := Judge(db, user, uid, config, channel, rq);
            var (db1, j) := AccountFor(db, user, rq, uid);
            && s.verdict.Some? && s.answer !in {AnswerInvalidUid, AnswerNotConfigured, AnswerClaimed}
            && s.db.accounts == db1.accounts[j := JudgedAccount(db1.accounts[j], SignUpCheck(rq, uid),
                 s.verdict.value, rq.now)]
            && (Admits(s) <==> s.verdict.value.reason == Eligible)
  {
    hide Admit;
    var check := SignUpCheck(rq, uid);
    var v := Evaluate(check, config.rules, false);
    var (db1, j) := AccountFor(db, user, rq, uid);
    AdmitFrame(db1.(accounts := db1.accounts[j := JudgedAccount(db1.accounts[j], check, v, rq.now)]), user, channel,
        rq);
  }

  /** What a submission does to the accounts: nothing, or one row of the submitting
      user's own, at `j`, is added or judged again. */
  lemma SubmitAccounts(db: Db, raw: string, rq: Request) returns (j: nat, row: Account)
    ensures var s := Submit(db, raw, rq);
            || (s.db.accounts == db.accounts && !Admits(s))
            || (&& j <= |db.accounts|
                && s.db.accounts == (if j < |db.accounts| then db.accounts[j := row] else db.accounts + [row])
                && row.user == EnsureUser(db, rq.telegramId).1 && row.provider == rq.provider
                   && row.uid == Uid.Normalize(raw)
                && (if j < |db.accounts| then OwnRow(db.accounts[j], row)
                    else FindUid(db.accounts, rq.provider, row.uid).None?)
                && (Admits(s) ==> row.verifiedAt.Some?)
                && (row.verifiedAt.Some? ==> Admits(s) || (j < |db.accounts| && db.accounts[j].verifiedAt.Some?)))
  {
    hide Uid.IsValid, Uid.Normalize, Judge;
    var s := Submit(db, raw, rq);
    var uid := Uid.Normalize(raw);
    var (db1, user) := EnsureUser(db, rq.telegramId);
    var db2 := AccountFor(db1, user, rq, uid).0;
    j := AccountFor(db1, user, rq, uid).1;
    row := db2.accounts[j];
    var config, channel := ConfigFor(db, rq.provider, rq.market), ChannelFor(db, rq.market);
    if config.Some? && channel.Some? { JudgeAccounts(db1, user, uid, config.value, channel.value, rq); }
    if s.answer !in {AnswerInvalidUid, AnswerNotConfigured, AnswerClaimed} {
      row := JudgedAccount(row, SignUpCheck(rq, uid), s.verdict.value, rq.now);
      if FindUid(db.accounts, rq.provider, uid) == None {
        assert db2.accounts[j := row] == db.accounts + [row];
      }
    } else {
      assert s.db.accounts == db.accounts;
    }
  }

  // The invariant, step by step.

  lemma AccountsGrow(a: Db, b: Db, user: nat)
    requires OwnersKept(a, b) && Backed(a, user)
    ensures Backed(b, user)
  {
    var j :| 0 <= j < |a.accounts| && a.accounts[j].user == user && a.accounts[j].verifiedAt.Some?;
    assert b.accounts[j].user == user && b.accounts[j].verifiedAt.Some?;
  }

  lemma MergedKeepsOwners(cx: Context, db: Db, mids: seq<nat>)
    requires InRange(db, mids)
    ensures var next := Merged(cx, db, mids);
            && |next.accounts| == |db.accounts| && OwnersKept(db, next)
            && (forall j | 0 <= j < |db.accounts| :: next.accounts[j].verifiedAt == db.accounts[j].verifiedAt)
            && |next.memberships| == |db.memberships|
            && (forall i | 0 <= i < |db.memberships| :: next.memberships[i].user == db.memberships[i].user)
  {
    hide Find, Checks, RowAfter, NewSnapshots, MergedSubscriptions;
    MergedSameSubjects(cx, db, mids);
  }

  lemma SweepAccounts(settings: Settings, db: Db, now: Time, serves: nat)
    ensures var next := Kept(settings, db, now, serves);
            && |next.accounts| == |db.accounts| && OwnersKept(db, next)
            && (forall j | 0 <= j < |db.accounts| :: next.accounts[j].verifiedAt == db.accounts[j].verifiedAt)
            && |next.memberships| == |db.memberships|
            && (forall i | 0 <= i < |db.memberships| :: next.memberships[i].user == db.memberships[i].user)
  {
    hide SweepOver, Merged;
    var start := PeriodStart(now, settings.period);
    var cx, ids, claimed := ContextFor(settings, now), MonitoredIds(db.memberships), Claim(db, start);
    ListIsDistinct(db);
    SweepIsParallel(cx, claimed, ids);
    MergedKeepsOwners(cx, claimed, ids);
  }

  /** Adding a row for a new uid, or judging an existing one again. */
  lemma OneRowChange(a: seq<Account>, j: nat, row: Account, b: seq<Account>, eligible: set<Credential>)
    requires DistinctUids(a) && VerifiedAmong(a, eligible) && j <= |a|
    requires b == if j < |a| then a[j := row] else a + [row]
    requires if j < |a| then OwnRow(a[j], row) else FindUid(a, row.provider, row.uid).None?
    requires row.verifiedAt.Some? ==> (row.provider, row.uid) in eligible || (j < |a| && a[j].verifiedAt.Some?)
    ensures DistinctUids(b) && VerifiedAmong(b, eligible)
  {
  }

  lemma OneRowKeepsOwners(a: Db, j: nat, row: Account, b: Db)
    requires j <= |a.accounts| && b.accounts == if j < |a.accounts| then a.accounts[j := row] else a.accounts + [row]
    requires j < |a.accounts| ==> OwnRow(a.accounts[j], row)
    ensures OwnersKept(a, b)
  {
  }

  lemma OnboardKeepsOneUid(db: Db, raw: string, rq: Request, eligible: set<Credential>)
    requires OneUidInv(db, eligible)
    ensures var s := Submit(db, raw, rq);
            && OwnersKept(db, s.db)
            && OneUidInv(s.db, eligible + if Admits(s) then {(rq.provider, Uid.Normalize(raw))} else {})
  {
    hide Submit, Uid.Normalize, EnsureUser, FindUid, FindMembership, FirstSubscription, Next, DistinctUids,
        VerifiedAmong, OwnersKept, OwnRow;
    var s := Submit(db, raw, rq);
    var j, row := SubmitAccounts(db, raw, rq);
    var more := eligible + if Admits(s) then {(rq.provider, Uid.Normalize(raw))} else {};
    MoreEligible(db.accounts, eligible, more);
    if s.db.accounts == db.accounts {
      assert OwnersKept(db, s.db) by { SameAccountsKeepOwners(db, s.db); }
    } else {
      OneRowChange(db.accounts, j, row, s.db.accounts, more);
      OneRowKeepsOwners(db, j, row, s.db);
    }
    forall user | Backed(db, user)
      ensures Backed(s.db, user)
    {
      AccountsGrow(db, s.db, user);
    }
    SubmitRows(db, raw, rq);
    if Admits(s) {
      assert s.db.accounts[j] == row;
      assert Backed(s.db, EnsureUser(db, rq.telegramId).1);
      AdmittedUser(db, rq);
    }
  }

  lemma MoreEligible(accounts: seq<Account>, eligible: set<Credential>, more: set<Credential>)
    requires VerifiedAmong(accounts, eligible) && eligible <= more
    ensures VerifiedAmong(accounts, more)
  {
  }

  lemma SameAccountsKeepOwners(a: Db, b: Db)
    requires a.accounts == b.accounts
    ensures OwnersKept(a, b)
  {
  }

  /** The row an admission works on belongs to the submitting user. */
  lemma AdmittedUser(db: Db, rq: Request)
    requires rq.market in db.channels
    ensures var mid := AdmittedIds(db, rq).0;
            && (mid < |db.memberships| ==>
                  Next(db.memberships[mid], Admission(rq, AdmittedIds(db, rq).1)).user ==
                    EnsureUser(db, rq.telegramId).1)
            && Next(Newcomer(db, rq), Admission(rq, AdmittedIds(db, rq).1)).user == EnsureUser(db, rq.telegramId).1
  {
  }

  lemma SameOwnersKeepOneUid(a: Db, b: Db, eligible: set<Credential>)
    requires OneUidInv(a, eligible) && OwnersKept(a, b)
    requires |a.accounts| == |b.accounts| && |a.memberships| == |b.memberships|
    requires forall j | 0 <= j < |a.accounts| :: b.accounts[j].verifiedAt == a.accounts[j].verifiedAt
    requires forall i | 0 <= i < |a.memberships| :: b.memberships[i].user == a.memberships[i].user
    ensures OneUidInv(b, eligible + {})
  {
    assert eligible + {} == eligible;
    forall i | 0 <= i < |b.memberships|
      ensures Backed(b, b.memberships[i].user)
    {
      AccountsGrow(a, b, b.memberships[i].user);
    }
  }

  lemma OneUidMonotone(db: Db, eligible: set<Credential>, more: set<Credential>)
    requires OneUidInv(db, eligible)
    ensures OneUidInv(db, eligible + more)
  {
  }

  lemma AdmittedQualified(db: Db, raw: string, rq: Request, serves: nat)
    requires Admits(Submit(db, raw, rq))
    ensures (rq.provider, Uid.Normalize(raw)) in EligibleSeen(db, Onboard(raw, rq, serves))
  {
    hide Uid.IsValid, Uid.Normalize, Admit, FindUid, FindUser, JudgedAccount;
    var uid := Uid.Normalize(raw);
    var (db1, user) := EnsureUser(db, rq.telegramId);
    var config, channel := ConfigFor(db, rq.provider, rq.market), ChannelFor(db, rq.market);
    JudgeAccounts(db1, user, uid, config.value, channel.value, rq);
  }

  lemma NobodySeen(db: Db, step: Step)
    requires !step.Onboard?
    ensures EligibleSeen(db, step) == {}
  {
  }

  lemma StepKeepsOneUid(db: Db, step: Step, eligible: set<Credential>)
    requires OneUidInv(db, eligible)
    ensures OwnersKept(db, Apply(db, step)) && OneUidInv(Apply(db, step), eligible + EligibleSeen(db, step))
  {
    hide Submit, Kept, Uid.Normalize, OneUidInv, EligibleSeen;
    match step
    case Onboard(raw, rq, serves) =>
      OneUidMonotone(db, eligible, EligibleSeen(db, step));
      OnboardKeepsOneUid(db, raw, rq, eligible);
      if Admits(Submit(db, raw, rq)) {
        AdmittedQualified(db, raw, rq, serves);
        var one := {(rq.provider, Uid.Normalize(raw))};
        OneUidMonotone(Submit(db, raw, rq).db, eligible + one, EligibleSeen(db, step));
        assert eligible + one + EligibleSeen(db, step) == eligible + EligibleSeen(db, step);
      } else {
        assert eligible + {} == eligible;
        OneUidMonotone(Submit(db, raw, rq).db, eligible, EligibleSeen(db, step));
      }
    case Sweeping(settings, now, serves) =>
      SweepAccounts(settings, db, now, serves);
      NobodySeen(db, step);
      SameOwnersKeepOneUid(db, Apply(db, step), eligible);
    case Join(mid, at) =>
      NobodySeen(db, step);
      SameOwnersKeepOneUid(db, Apply(db, step), eligible);
  }

  lemma {:induction false} OneUidHolds(db: Db, steps: seq<Step>)
    requires OneUidInv(db, {})
    ensures OneUidInv(After(db, steps), EligibleUids(db, steps))
  {
    hide Apply, OneUidInv, EligibleSeen;
    if steps != [] {
      var n := |steps| - 1;
      OneUidHolds(db, steps[..n]);
      StepKeepsOneUid(After(db, steps[..n]), steps[n], EligibleUids(db, steps[..n]));
    }
  }

  lemma {:induction false} OwnersNeverChange(db: Db, steps: seq<Step>, more: seq<Step>)
    requires OneUidInv(db, {})
    ensures OwnersKept(After(db, steps), After(db, steps + more))
    decreases |more|
  {
    hide Apply, OneUidInv, EligibleSeen;
    if more == [] {
      assert steps + more == steps;
    } else {
      var n := |more| - 1;
      var all := steps + more;
      OwnersNeverChange(db, steps, more[..n]);
      assert all[..|all| - 1] == steps + more[..n] && all[|all| - 1] == more[n];
      OneUidHolds(db, steps + more[..n]);
      StepKeepsOneUid(After(db, steps + more[..n]), more[n], EligibleUids(db, steps + more[..n]));
    }
  }

  ghost function Holders(db: Db): set<nat> {
    set i | 0 <= i < |db.memberships| :: db.memberships[i].user
  }

  /** The account that backs a holder: its first verified one. */
  ghost function Backing(db: Db, user: nat): (j: nat)
    requires Backed(db, user)
    ensures j < |db.accounts| && db.accounts[j].user == user && db.accounts[j].verifiedAt.Some?
  {
    var j :| 0 <= j < |db.accounts| && db.accounts[j].user == user && db.accounts[j].verifiedAt.Some?;
    j
  }

  ghost function CredentialOf(db: Db, user: nat): Credential
    requires Backed(db, user)
  {
    (db.accounts[Backing(db, user)].provider, db.accounts[Backing(db, user)].uid)
  }

  lemma {:induction false} InjectionBounds(db: Db, users: set<nat>, eligible: set<Credential>)
    requires forall u | u in users :: Backed(db, u) && CredentialOf(db, u) in eligible
    requires forall u, v | u in users && v in users && u != v :: CredentialOf(db, u) != CredentialOf(db, v)
    ensures |users| <= |eligible|
    decreases users
  {
    if users != {} {
      var u :| u in users;
      InjectionBounds(db, users - {u}, eligible - {CredentialOf(db, u)});
    }
  }

  /** In every reachable state no uid appears twice, the people holding a
      membership map injectively into the uids the provider once reported
      eligible, and so there are no more of them than of those. */
  lemma OneUidBacksOnePerson(db: Db, steps: seq<Step>)
    requires OneUidInv(db, {})
    ensures var end, eligible := After(db, steps), EligibleUids(db, steps);
            && (forall i, j | 0 <= i < j < |end.accounts| ::
                  end.accounts[i].provider != end.accounts[j].provider || end.accounts[i].uid != end.accounts[j].uid)
            && (forall u | u in Holders(end) :: Backed(end, u) && CredentialOf(end, u) in eligible)
            && (forall u, v | u in Holders(end) && v in Holders(end) && u != v ::
                  CredentialOf(end, u) != CredentialOf(end, v))
            && |Holders(end)| <= |eligible|
  {
    hide After, EligibleUids;
    OneUidHolds(db, steps);
    var end := After(db, steps);
    forall u, v | u in Holders(end) && v in Holders(end) && u != v
      ensures CredentialOf(end, u) != CredentialOf(end, v)
    {
      var i, j := Backing(end, u), Backing(end, v);
      assert i != j;
      assert if i < j
        then end.accounts[i].provider != end.accounts[j].provider || end.accounts[i].uid != end.accounts[j].uid
             else end.accounts[j].provider != end.accounts[i].provider || end.accounts[j].uid != end.accounts[i].uid;
    }
    InjectionBounds(end, Holders(end), EligibleUids(db, steps));
  }
}
