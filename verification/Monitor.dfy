/** The monitor as the program has it: objects whose fields change step by step,
    each method tied to the functions of Sweep and Runs. */
module Monitor {
  import opened Types
  import opened Eligibility
  import opened Compliance
  import opened Rows
  import opened Lifecycle
  import opened PeriodLock
  import opened Sweep
  import opened Runs
  import opened Sessions

  class MonitorReport {
    var claimed: bool
    var processed: nat
    var warned: nat
    var revoked: nat
    var restored: nat
    var skipped: nat

    function Figures(): Tally
      reads this
    {
      Tally(processed, warned, revoked, restored, skipped)
    }

    constructor (claimed: bool)
      ensures this.claimed == claimed && Figures() == ZERO
    {
      this.claimed := claimed;
      processed, warned, revoked, restored, skipped := 0, 0, 0, 0, 0;
    }
  }

  class MembershipMonitor {
    const session: Session
    const bot: Bot
    const settings: Settings

    constructor (session: Session, bot: Bot, settings: Settings)
      ensures this.session == session && this.bot == bot && this.settings == settings
    {
      this.session, this.bot, this.settings := session, bot, settings;
    }

    /** Send to a known, non-zero chat. */
    method Send(chat: int, text: Text) returns (raised: bool)
      modifies bot
      ensures raised <==> |Tell(chat, text)| > old(bot.serves)
      ensures bot.log == old(bot.log) + Delivered(Tell(chat, text), old(bot.serves))
      ensures bot.serves == if raised then 0 else old(bot.serves) - |Tell(chat, text)|
    {
      raised := false;
      if chat != 0 {
        var up := bot.Call(Message(chat, text));
        raised := !up;
      }
    }

    method ApplyRestore(mid: nat, d: Decision, now: Time, report: MonitorReport, chat: int) returns (raised: bool)
      requires mid < |session.memberships| && d.action == Restore
      modifies session`memberships, bot, report`restored
      ensures session.memberships == old(session.memberships)[mid := Decided(old(session.memberships[mid]), d, now)]
      ensures report.restored == old(report.restored) + 1
      ensures raised <==> |Tell(chat, Restored)| > old(bot.serves)
      ensures bot.log == old(bot.log) + Delivered(Tell(chat, Restored), old(bot.serves))
      ensures !raised ==> bot.serves == old(bot.serves) - |Tell(chat, Restored)|
    {
      var m := session.memberships[mid];
      m := m.(warnings := 0, lastWarning := None);
      if m.status == Suspended { m := m.(status := Active); }
      session.memberships := session.memberships[mid := m];
      report.restored := report.restored + 1;
      raised := Send(chat, Restored);
    }

    method ApplyWarn(mid: nat, d: Decision, now: Time, report: MonitorReport, chat: int,
            text: Text) returns (raised: bool)
      requires mid < |session.memberships| && d.action == Warn
      modifies session`memberships, bot, report`warned
      ensures session.memberships == old(session.memberships)[mid := Decided(old(session.memberships[mid]), d, now)]
      ensures report.warned == old(report.warned) + 1
      ensures raised <==> |Tell(chat, text)| > old(bot.serves)
      ensures bot.log == old(bot.log) + Delivered(Tell(chat, text), old(bot.serves))
      ensures !raised ==> bot.serves == old(bot.serves) - |Tell(chat, text)|
    {
      var m := session.memberships[mid];
      session.memberships := session.memberships[mid := m.(warnings := d.warningsAfter, lastWarning := Some(now))];
      report.warned := report.warned + 1;
      raised := Send(chat, text);
    }

    /** Telegram's ban is sticky, so every ban is followed by its unban. */
    method Expel(channel: Option<Channel>, chat: int) returns (raised: bool)
      modifies bot
      ensures var planned := Expulsion(channel, chat);
              && (raised <==> |planned| > old(bot.serves))
              && bot.log == old(bot.log) + Delivered(planned, old(bot.serves))
              && (!raised ==> bot.serves == old(bot.serves) - |planned|)
    {
      raised := false;
      if channel.Some? {
        var up := bot.Call(Ban(channel.value.chat, chat));
        if up { up := bot.Call(Unban(channel.value.chat, chat)); }
        raised := !up;
      }
    }

    method Removal(mid: nat, market: Market, d: Decision, now: Time, report: MonitorReport)
      requires mid < |session.memberships| && d.action == Revoke
      modifies session`memberships, session`subscriptions, report`revoked
      ensures session.memberships == old(session.memberships)[mid := Decided(old(session.memberships[mid]), d, now)]
      ensures var sub := FirstSubscription(old(session.subscriptions), old(session.memberships[mid].user), market);
              session.subscriptions ==
                if sub.Some?
                  then old(session.subscriptions)[sub.value := ExpiredAt(old(session.subscriptions)[sub.value], now)]
                else old(session.subscriptions)
      ensures report.revoked == old(report.revoked) + 1
    {
      var m := session.memberships[mid];
      m := m.(status := Revoked, revokedAt := Some(now));
      m := m.(revocationReason := d.detail, link := None);
      session.memberships := session.memberships[mid := m];
      report.revoked := report.revoked + 1;
      var sub := FirstSubscription(session.subscriptions, m.user, market);
      if sub.Some? {
        var row := session.subscriptions[sub.value];
        session.subscriptions := session.subscriptions[sub.value := row.(status := SubExpired, endsAt := Some(now))];
      }
    }

    /** The whole removal: out of the channel, off the rows, and told so. */
    method ApplyRevoke(mid: nat, market: Market, d: Decision, now: Time, report: MonitorReport, chat: int,
            text: Text) returns (raised: bool)
      requires mid < |session.memberships| && d.action == Revoke
      modifies session`memberships, session`subscriptions, bot, report`revoked
      ensures var planned := Expulsion(ChannelFor(old(session.View()), market), chat) + Tell(chat, text);
              && (raised <==> |planned| > old(bot.serves))
              && bot.log == old(bot.log) + Delivered(planned, old(bot.serves))
              && (!raised ==> bot.serves == old(bot.serves) - |planned|)
      ensures !raised ==> session.View() == Applied(old(session.View()), mid, market, d, now)
      ensures !raised ==> report.revoked == old(report.revoked) + 1
    {
      var channel := ChannelFor(session.View(), market);
      DeliveredInTwo(Expulsion(channel, chat), Tell(chat, text), bot.serves);
      raised := Expel(channel, chat);
      if !raised {
        Removal(mid, market, d, now, report);
        raised := Send(chat, text);
      }
    }

    /** Carry a decision out: effects and row updates in the program's order. */
    method Apply(mid: nat, market: Market, d: Decision, now: Time, report: MonitorReport,
            policy: Policy) returns (raised: bool)
      requires mid < |session.memberships|
      modifies session`memberships, session`subscriptions, bot
      modifies report`warned, report`revoked, report`restored, report`skipped
      ensures var planned := Effects(old(session.View()), old(session.memberships[mid].user), market, d,
                policy.maxWarnings);
              && (raised <==> |planned| > old(bot.serves))
              && bot.log == old(bot.log) + Delivered(planned, old(bot.serves))
              && (!raised ==> bot.serves == old(bot.serves) - |planned|)
      ensures !raised ==> session.View() == Applied(old(session.View()), mid, market, d, now)
      ensures !raised ==> report.Figures() == old(report.Figures()).Plus(TallyOf(d).(processed := 0))
    {
      raised := false;
      var user := session.memberships[mid].user;
      var chat := if user < |session.users| then session.users[user].telegramId else 0;
      var reason := if d.detail.Some? then d.detail.value else Eligible;
      if d.action == NoAction {
        if d.skip == Some(Outage) { report.skipped := report.skipped + 1; }
      } else if d.action == Restore {
        raised := ApplyRestore(mid, d, now, report, chat);
      } else if d.action == Warn {
        raised := ApplyWarn(mid, d, now, report, chat, Warning(d.warningsAfter, policy.maxWarnings, reason));
      } else {
        raised := ApplyRevoke(mid, market, d, now, report, chat, Removed(reason));
      }
    }

    /** Write the check down: account fields and, when the provider answered, the
        period's snapshot, whose key may already be taken. */
    method Record(cx: Context, f: Finding) returns (raised: bool)
      requires f.account < |session.accounts| && !session.broken
      modifies session`accounts, session`snapshots, session`broken
      ensures raised == session.broken == Collides(cx, old(session.View()), f)
      ensures !raised ==> session.snapshots == Recorded(cx, old(session.View()), f)
      ensures !raised ==>
                session.accounts == old(session.accounts)[f.account :=
                  CheckedAccount(cx, old(session.accounts[f.account]), f)]
    {
      raised := false;
      var account := session.accounts[f.account];
      account := account.(compliance := f.verdict.state, lastChecked := Some(cx.now));
      if f.check.Some? {
        account := account.(balance := Some(f.verdict.balance));
        session.InsertSnapshot((f.account, cx.periodStart), SnapshotOf(cx, f));
        raised := session.broken;
      }
      session.accounts := session.accounts[f.account := account];
    }

    /** Look the member's account and programme up and ask the provider. */
    method Check(cx: Context, mid: nat) returns (found: Option<Finding>)
      requires mid < |session.memberships|
      requires cx.maxWarnings == settings.maxWarnings
      requires cx.intervalDays == settings.intervalDays && cx.oracle == settings.oracle
      ensures found == Find(cx, session.View(), mid)
    {
      var j := FirstAccount(session.accounts, session.memberships[mid].user);
      if j == None { return None; }
      var account := session.accounts[j.value];
      var config := ConfigFor(session.View(), account.provider, account.market);
      if config == None { return None; }
      var check := if account.uid in settings.oracle then Some(settings.oracle[account.uid]) else None;
      var policy := Policy(settings.maxWarnings, settings.intervalDays, config.value.graceDays);
      found := Some(Finding(j.value, account.market, policy, check, Evaluate(check, config.value.rules, true)));
    }

    /** Check one member and act on the verdict. */
    method Process(cx: Context, mid: nat, report: MonitorReport) returns (raised: bool)
      requires mid < |session.memberships| && !session.broken
      requires cx.maxWarnings == settings.maxWarnings
      requires cx.intervalDays == settings.intervalDays && cx.oracle == settings.oracle
      modifies session`accounts, session`snapshots, session`memberships, session`subscriptions, session`broken, bot
      modifies report`processed, report`warned, report`revoked, report`restored, report`skipped
      ensures var o := MemberPass(cx, old(session.View()), mid);
              && (raised <==> o.Raised? || |o.effects| > old(bot.serves))
              && bot.log == old(bot.log) + Delivered(o.effects, old(bot.serves))
              && (!raised ==> bot.serves == old(bot.serves) - |o.effects|)
              && (!raised ==> session.View() == o.db && !session.broken)
              && (!raised ==> report.Figures() == old(report.Figures()).Plus(o.tally))
    {
      raised := false;
      report.processed := report.processed + 1;
      var found := Check(cx, mid);
      if found.Some? {
        var f := found.value;
        ghost var db := session.View();
        raised := Record(cx, f);
        if !raised {
          EffectsReadOnly(db, session.View(), db.memberships[mid].user, f.market,
              DecisionOn(db.memberships[mid], EventOf(cx, f)), f.policy.maxWarnings);
          var d := Decide(StateOf(session.memberships[mid]), f.verdict, f.policy, cx.now);
          raised := Apply(mid, f.market, d, cx.now, report, f.policy);
        }
      }
    }

    /** The session, the bot and the report stand where `done` says they do. */
    ghost predicate At(done: Outcome, log0: seq<Effect>, serves0: nat, report: MonitorReport)
      reads session, bot, report
    {
      && done.Done? && !session.broken && session.View() == done.db && report.Figures() == done.tally
      && bot.log == log0 + done.effects && |done.effects| <= serves0 && bot.serves == serves0 - |done.effects|
    }

    /** One turn of the loop, on top of the members already done. */
    method Advance(cx: Context, mids: seq<nat>, i: nat, report: MonitorReport,
                   ghost db: Db, ghost done: Outcome, ghost log0: seq<Effect>, ghost serves0: nat)
      returns (raised: bool, ghost next: Outcome)
      requires InRange(db, mids) && i < |mids| && InRange(db, mids[..i]) && done == SweepOver(cx, db, mids[..i])
      requires At(done, log0, serves0, report)
      requires cx.maxWarnings == settings.maxWarnings
      requires cx.intervalDays == settings.intervalDays && cx.oracle == settings.oracle
      modifies session`accounts, session`snapshots, session`memberships, session`subscriptions, session`broken, bot
      modifies report`processed, report`warned, report`revoked, report`restored, report`skipped
      ensures raised ==> var o := SweepOver(cx, db, mids);
                         (o.Raised? || |o.effects| > serves0) && bot.log == log0 + Delivered(o.effects, serves0)
      ensures !raised ==>
                InRange(db, mids[..i + 1]) && next == SweepOver(cx, db, mids[..i + 1])
                && At(next, log0, serves0, report)
    {
      hide MemberPass, SweepOver;
      ghost var here := MemberPass(cx, done.db, mids[i]);
      raised := Process(cx, mids[i], report);
      if raised {
        StoppedAt(cx, db, mids, i, serves0, done, here);
        assert bot.log == log0 + (done.effects + Delivered(here.effects, serves0 - |done.effects|));
        next := done;
      } else {
        SweepSnoc(cx, db, mids, i, done, here);
        assert bot.log == log0 + (done.effects + here.effects);
        next := Done(here.db, done.effects + here.effects, done.tally.Plus(here.tally));
      }
    }

    /** The loop over the listed members; stops at the first exception. */
    method SweepMembers(cx: Context, mids: seq<nat>, report: MonitorReport) returns (raised: bool)
      requires !session.broken && report.Figures() == ZERO && InRange(session.View(), mids)
      requires cx.maxWarnings == settings.maxWarnings
      requires cx.intervalDays == settings.intervalDays && cx.oracle == settings.oracle
      modifies session`accounts, session`snapshots, session`memberships, session`subscriptions, session`broken, bot
      modifies report`processed, report`warned, report`revoked, report`restored, report`skipped
      ensures var o := SweepOver(cx, old(session.View()), mids);
              && (raised <==> o.Raised? || |o.effects| > old(bot.serves))
              && bot.log == old(bot.log) + Delivered(o.effects, old(bot.serves))
              && (!raised ==> session.View() == o.db && !session.broken && report.Figures() == o.tally)
    {
      raised := false;
      ghost var db, log0, serves0 := session.View(), bot.log, bot.serves;
      ghost var done := Done(db, [], ZERO);
      for i := 0 to |mids|
        invariant InRange(db, mids[..i]) && done == SweepOver(cx, db, mids[..i])
        invariant At(done, log0, serves0, report)
      {
        raised, done := Advance(cx, mids, i, report, db, done, log0, serves0);
        if raised { return; }
      }
      assert mids[..|mids|] == mids;
    }

    /** Claim the period, sweep the listed members, record the run. On an exception
        the job row is marked failed and the exception goes on to the caller. */
    method Run(now: Time) returns (report: MonitorReport, raised: bool)
      requires !session.broken
      modifies session, bot
      ensures fresh(report) && session.saved == old(session.saved)
      ensures var r := RunMonitor(settings, old(session.View()), now);
              && report.claimed == !r.StoodDown?
              && (r.StoodDown? ==>
                    !raised && session.View() == old(session.View()) && bot.log == old(bot.log)
                    && bot.serves == old(bot.serves))
              && (!r.StoodDown? ==>
                    && (raised <==> RunRaises(r, old(bot.serves)))
                    && bot.log == old(bot.log) + Delivered(r.effects, old(bot.serves))
                    && (!raised ==> session.View() == r.db && report.Figures() == r.tally)
                    && (raised ==> PeriodStart(now, settings.period) in session.jobs
                                   && session.jobs[PeriodStart(now, settings.period)].state == Failed))
      ensures !raised ==> !session.broken
    {
      raised := false;
      var start := PeriodStart(now, settings.period);
      var granted := session.ClaimPeriod(start);
      report := new MonitorReport(granted);
      if granted {
        raised := SweepMembers(ContextFor(settings, now), MonitoredIds(session.memberships), report);
        session.Finish(start, if raised then Job(Failed, 0, 0, 0, 0)
                              else Job(Succeeded, report.processed, report.warned, report.revoked, report.skipped));
      }
    }
  }
}
