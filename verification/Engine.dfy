/** Whole histories of one tenant: submissions, monitoring runs and joins, each a
    committed or rolled-back transaction, in any order and number. */
module Engine {
  import opened Types
  import opened Eligibility
  import opened Rows
  import opened Lifecycle
  import opened Sweep
  import opened SweepLaws
  import opened Runs
  import opened Onboarding
  import opened PeriodLock

  datatype Step =
    | Onboard(rawUid: string, rq: Request, serves: nat)
    | Sweeping(settings: Settings, now: Time, serves: nat)
    | Join(mid: nat, at: Time)

  function Apply(db: Db, step: Step): Db {
    match step
    case Onboard(raw, rq, serves) =>
      var s := Submit(db, raw, rq);
      if |s.effects| > serves then db else s.db
    case Sweeping(settings, now, serves) => Kept(settings, db, now, serves)
    case Join(mid, at) =>
      if mid < |db.memberships| then db.(memberships := db.memberships[mid := Next(db.memberships[mid], Joined(at))])
        else db
  }

  function After(db: Db, steps: seq<Step>): Db {
    if steps == [] then db else Apply(After(db, steps[..|steps| - 1]), steps[|steps| - 1])
  }

  // What a step means for one membership row.

  /** The membership and subscription an admission would work on. */
  function AdmittedIds(db: Db, rq: Request): (nat, nat)
    requires rq.market in db.channels
  {
    var user := EnsureUser(db, rq.telegramId).1;
    var mid := FindMembership(db.memberships, user, db.channels[rq.market].id);
    var sub := FirstSubscription(db.subscriptions, user, rq.market);
    (if mid.Some? then mid.value else |db.memberships|, if sub.Some? then sub.value else |db.subscriptions|)
  }

  predicate Admits(s: Submission) {
    s.answer == AnswerInvited || s.answer == AnswerAlreadyMember
  }

  function Admission(rq: Request, sub: nat): Event {
    Admitted(sub, rq.now, rq.ttl, rq.minted)
  }

  function Newcomer(db: Db, rq: Request): Membership
    requires rq.market in db.channels
  {
    NewMembership(EnsureUser(db, rq.telegramId).1, db.channels[rq.market].id, AdmittedIds(db, rq).1, rq.now)
  }

  lemma AdmitRows(db: Db, user: nat, channel: Channel, rq: Request)
    ensures var s := Admit(db, user, channel, rq);
            var sub := FirstSubscription(db.subscriptions, user, rq.market);
            var e := Admission(rq, if sub.Some? then sub.value else |db.subscriptions|);
            var found := FindMembership(db.memberships, user, channel.id);
            Admits(s) && s.db.memberships ==
              if found.Some? then db.memberships[found.value := Next(db.memberships[found.value], e)]
              else db.memberships + [Next(NewMembership(user, channel.id, e.subscription, rq.now), e)]
  {
    var found := FindMembership(db.memberships, user, channel.id);
    if found == None {
      var (db1, sub) := EnsureSubscription(db, user, rq.market, rq.now);
      var m := NewMembership(user, channel.id, sub, rq.now);
      assert Readmitted(m, sub) == m;
    }
  }

  /** A submission changes memberships only by admitting someone, and then only
      one row: an admission event on it, or on a newcomer's fresh row. */
  lemma SubmitRows(db: Db, raw: string, rq: Request)
    ensures var s := Submit(db, raw, rq);
            if !Admits(s) then s.db.memberships == db.memberships && s.effects == []
            else
              && rq.market in db.channels
              && var (mid, sub) := AdmittedIds(db, rq);
                 s.db.memberships ==
                   if mid < |db.memberships| then db.memberships[mid := Next(db.memberships[mid], Admission(rq, sub))]
                   else db.memberships + [Next(Newcomer(db, rq), Admission(rq, sub))]
  {
    hide Uid.IsValid, Uid.Normalize, Issued, Readmitted, Judge, FindUid, FindMembership, FirstSubscription, FindUser,
        Next, NewMembership;
    var (db1, user) := EnsureUser(db, rq.telegramId);
    var config, channel := ConfigFor(db, rq.provider, rq.market), ChannelFor(db, rq.market);
    if config.Some? && channel.Some? { JudgeRows(db1, user, Uid.Normalize(raw), config.value, channel.value, rq); }
  }

  lemma JudgeRows(db: Db, user: nat, uid: string, config: Config, channel: Channel, rq: Request)
    ensures var s := Judge(db, user, uid, config, channel, rq);
            var sub := FirstSubscription(db.subscriptions, user, rq.market);
            var e := Admission(rq, if sub.Some? then sub.value else |db.subscriptions|);
            var found := FindMembership(db.memberships, user, channel.id);
            && (!Admits(s) ==> s.db.memberships == db.memberships && s.effects == [])
            && (Admits(s) ==>
                  s.db.memberships ==
                    if found.Some? then db.memberships[found.value := Next(db.memberships[found.value], e)]
                    else db.memberships + [Next(NewMembership(user, channel.id, e.subscription, rq.now), e)])
  {
    hide Admit, Next, NewMembership, JudgedAccount;
    var v := Evaluate(SignUpCheck(rq, uid), config.rules, false);
    var (db1, j) := AccountFor(db, user, rq, uid);
    var db2 := db1.(accounts := db1.accounts[j := JudgedAccount(db1.accounts[j], SignUpCheck(rq, uid), v, rq.now)]);
    AdmitRows(db2, user, channel, rq);
  }

  /** The checks of a committed run, as events on the rows it judged. */
  function SweepEvents(db: Db, settings: Settings, now: Time, serves: nat, mid: nat): seq<Event>
    requires mid < |db.memberships|
  {
    var r := RunMonitor(settings, db, now);
    var f := Find(ContextFor(settings, now), db, mid);
    if r.Completed? && !RunRaises(r, serves) && mid in MonitoredIds(db.memberships) && f.Some?
    then [EventOf(ContextFor(settings, now), f.value)]
    else []
  }

  function StepEvents(db: Db, step: Step, mid: nat): seq<Event>
    requires mid < |db.memberships|
  {
    match step
    case Onboard(raw, rq, serves) =>
      var s := Submit(db, raw, rq);
      if Admits(s) && |s.effects| <= serves && rq.market in db.channels && AdmittedIds(db, rq).0 == mid
      then [Admission(rq, AdmittedIds(db, rq).1)] else []
    case Sweeping(settings, now, serves) => SweepEvents(db, settings, now, serves, mid)
    case Join(joined, at) => if joined == mid then [Joined(at)] else []
  }

  function Told(m: Membership, es: seq<Event>): Membership {
    RowAt(m, es, |es|)
  }

  lemma TellOne(m: Membership, e: Event)
    ensures Told(m, [e]) == Next(m, e) && Told(m, []) == m
  {
    assert RowAt(m, [e], 0) == m;
  }

  lemma SweepRows(settings: Settings, db: Db, now: Time, serves: nat, mid: nat)
    requires mid < |db.memberships|
    ensures |Kept(settings, db, now, serves).memberships| == |db.memberships|
    ensures Kept(settings, db, now, serves).memberships[mid] ==
              Told(db.memberships[mid], SweepEvents(db, settings, now, serves, mid))
  {
    hide Find, Next, Effects;
    var start := PeriodStart(now, settings.period);
    var cx, ids := ContextFor(settings, now), MonitoredIds(db.memberships);
    var claimed := Claim(db, start);
    ListIsDistinct(db);
    SweepIsParallel(cx, claimed, ids);
    FindStable(cx, db, claimed, mid);
    var r := RunMonitor(settings, db, now);
    if r.Completed? && !RunRaises(r, serves) {
      assert r.db.memberships == MergedRows(cx, claimed, ids);
      var f := Find(cx, db, mid);
      if f.Some? { TellOne(db.memberships[mid], EventOf(cx, f.value)); }
    }
  }

  /** Every step moves each existing row by the events it means for that row, and
      adds at most one row, which is an admitted newcomer. */
  lemma StepRows(db: Db, step: Step, mid: nat)
    requires mid < |db.memberships|
    ensures |db.memberships| <= |Apply(db, step).memberships| <= |db.memberships| + 1
    ensures Apply(db, step).memberships[mid] == Told(db.memberships[mid], StepEvents(db, step, mid))
  {
    match step
    case Onboard(raw, rq, serves) =>
      hide Next, Submit;
      SubmitRows(db, raw, rq);
      if Admits(Submit(db, raw, rq)) { TellOne(db.memberships[mid], Admission(rq, AdmittedIds(db, rq).1)); }
    case Sweeping(settings, now, serves) =>
      SweepRows(settings, db, now, serves, mid);
    case Join(joined, at) =>
      TellOne(db.memberships[mid], Joined(at));
  }

  lemma NewRow(db: Db, step: Step)
    requires |Apply(db, step).memberships| > |db.memberships|
    ensures step.Onboard? && step.rq.market in db.channels
    ensures var n := |db.memberships|;
            |Apply(db, step).memberships| == n + 1
            && Apply(db, step).memberships[n] == Next(Newcomer(db, step.rq),
                 Admission(step.rq, AdmittedIds(db, step.rq).1))
  {
    match step
    case Onboard(raw, rq, serves) =>
      hide Next, Submit;
      SubmitRows(db, raw, rq);
    case Sweeping(settings, now, serves) =>
      SweepLength(settings, db, now, serves);
    case Join(_, _) =>
  }

  lemma SweepLength(settings: Settings, db: Db, now: Time, serves: nat)
    ensures |Kept(settings, db, now, serves).memberships| == |db.memberships|
  {
    hide SweepOver;
    var start := PeriodStart(now, settings.period);
    ListIsDistinct(db);
    SweepIsParallel(ContextFor(settings, now), Claim(db, start), MonitoredIds(db.memberships));
  }

  // The life story of a row over a whole history.

  function Origin(db: Db, steps: seq<Step>, mid: nat): Membership
    requires mid < |After(db, steps).memberships|
  {
    if steps == [] then db.memberships[mid]
    else
      var n := |steps| - 1;
      var before := After(db, steps[..n]);
      if mid < |before.memberships| then Origin(db, steps[..n], mid)
      else
        NewRow(before, steps[n]);
        Newcomer(before, steps[n].rq)
  }

  function Story(db: Db, steps: seq<Step>, mid: nat): seq<Event>
    requires mid < |After(db, steps).memberships|
  {
    if steps == [] then []
    else
      var n := |steps| - 1;
      var before := After(db, steps[..n]);
      if mid < |before.memberships| then Story(db, steps[..n], mid) + StepEvents(before, steps[n], mid)
      else
        NewRow(before, steps[n]);
        [Admission(steps[n].rq, AdmittedIds(before, steps[n].rq).1)]
  }

  /** Seen from one row, any history of the engine is a history of the
      one-membership machine. */
  lemma {:induction false} StoryTellsTheRow(db: Db, steps: seq<Step>, mid: nat)
    requires mid < |After(db, steps).memberships|
    ensures After(db, steps).memberships[mid] == Told(Origin(db, steps, mid), Story(db, steps, mid))
  {
    hide Next, StepEvents, Apply;
    if steps != [] {
      var n := |steps| - 1;
      var before := After(db, steps[..n]);
      if mid < |before.memberships| {
        StoryTellsTheRow(db, steps[..n], mid);
        StepRows(before, steps[n], mid);
        var m, es, more := Origin(db, steps[..n], mid), Story(db, steps[..n], mid), StepEvents(before, steps[n], mid);
        RowAtConcat(m, es, more, |more|);
      } else {
        NewRow(before, steps[n]);
        TellOne(Newcomer(before, steps[n].rq), Admission(steps[n].rq, AdmittedIds(before, steps[n].rq).1));
      }
    }
  }
}
