/** Who is told what by a monitoring pass, and why: read off the tables and the
    provider's own answers. */
module Notices {
  import opened Types
  import opened Eligibility
  import opened Compliance
  import opened Rows
  import opened Lifecycle
  import opened Sweep
  import opened SweepLaws

  /** Everything in the log is addressed to this Telegram id. */
  ghost predicate Addressed(log: seq<Effect>, id: int) {
    forall e | e in log ::
      match e
      case Message(chat, _) => chat == id
      case Ban(_, member) => member == id
      case Unban(_, member) => member == id
      case Mint(_, _) => false
  }

  ghost predicate NoMessage(log: seq<Effect>) {
    forall e | e in log :: !e.Message?
  }

  /** The first account of the member's user, the programme of that account's
      market, and the provider's answer about it. */
  ghost predicate JudgedBy(cx: Context, db: Db, x: nat, a: Account, rules: Rules, c: Check)
    requires x < |db.memberships|
  {
    && (exists j :: FirstAccount(db.accounts, db.memberships[x].user) == Some(j) && j < |db.accounts|
          && db.accounts[j] == a)
    && (a.provider, a.market) in db.configs && db.configs[(a.provider, a.market)].rules == rules
    && a.uid in cx.oracle && cx.oracle[a.uid] == c
  }

  /** The answer breaks the rule that the reason names, and none before it. */
  predicate Breaks(c: Check, rules: Rules, reason: Reason) {
    match reason
    case NotRegistered => !c.registered
    case InsufficientBalance => c.registered && c.deposit < rules.minimumBalance
    case InsufficientTrading =>
      c.registered && c.deposit >= rules.minimumBalance && c.trades.Some? && c.trades.value < rules.minimumTrades
    case _ => false
  }

  /** The answer meets every rule. */
  predicate Meets(c: Check, rules: Rules) {
    c.registered && c.deposit >= rules.minimumBalance && c.trades.Some? && c.trades.value >= rules.minimumTrades
  }

  ghost predicate FoundCompliant(cx: Context, db: Db, x: nat)
    requires x < |db.memberships|
  {
    exists a, rules, c :: JudgedBy(cx, db, x, a, rules, c) && Meets(c, rules)
  }

  /** The reason given is true of the answer about the account that judges `x`. */
  ghost predicate TrueReason(cx: Context, db: Db, x: nat, reason: Reason)
    requires x < |db.memberships|
  {
    exists a, rules, c :: JudgedBy(cx, db, x, a, rules, c) && Breaks(c, rules, reason)
  }

  /** Out of the channel of the judging account's market, if it is switched on. */
  ghost predicate Expels(db: Db, x: nat, log: seq<Effect>, id: int)
    requires x < |db.memberships|
  {
    exists j :: FirstAccount(db.accounts, db.memberships[x].user) == Some(j) && j < |db.accounts|
      && var k := db.accounts[j].market;
         log == if k in db.channels && db.channels[k].active
           then [Ban(db.channels[k].chat, id), Unban(db.channels[k].chat, id)] else []
  }

  /** What a member is told is what happened to the row, with its true reason;
      silence means nothing happened. */
  ghost predicate Tells(cx: Context, db: Db, x: nat, log: seq<Effect>, after: Membership)
    requires x < |db.memberships|
  {
    var before := db.memberships[x];
    if log == [] then after == before
    else
      var last := log[|log| - 1];
      last.Message?
      && match last.text
         case Warning(number, of, reason) =>
           |log| == 1 && number == before.warnings + 1 <= of == cx.maxWarnings && TrueReason(cx, db, x, reason)
             && after == before.(warnings := number, lastWarning := Some(cx.now))
         case Removed(reason) =>
           TrueReason(cx, db, x, reason) && Expels(db, x, log[..|log| - 1], last.chat)
             && after == before.(status := Revoked, revokedAt := Some(cx.now), revocationReason := Some(reason),
                                 link := None)
         case Restored =>
           |log| == 1 && FoundCompliant(cx, db, x) && after == before.(warnings := 0, lastWarning := None,
                                          status := if before.status == Suspended then Active else before.status)
  }

  /** Without a chat to write to: no message, and nothing at all unless the member
      was removed. */
  ghost predicate Unheard(db: Db, x: nat, log: seq<Effect>, after: Membership)
    requires x < |db.memberships|
  {
    NoMessage(log) && Addressed(log, 0)
    && (log != [] ==> after.status == Revoked != db.memberships[x].status)
    && (after.status == Revoked != db.memberships[x].status ==> Expels(db, x, log, 0))
  }

  ghost predicate Heard(cx: Context, db: Db, x: nat, log: seq<Effect>, after: Membership)
    requires x < |db.memberships|
  {
    var user := db.memberships[x].user;
    if user < |db.users| && db.users[user].telegramId != 0
      then Addressed(log, db.users[user].telegramId) && Tells(cx, db, x, log, after)
    else Unheard(db, x, log, after)
  }

  lemma ReasonsAreTrue(check: Option<Check>, rules: Rules)
    ensures var r := Evaluate(check, rules, true).reason;
            && (r != Eligible && r != ProviderUnavailable ==> check.Some? && Breaks(check.value, rules, r))
            && (r == Eligible ==> check.Some? && Meets(check.value, rules))
  {
  }

  lemma DecisionsCarryReasons(m: Membership, e: Event)
    requires e.Checked?
    ensures var d := DecisionOn(m, e);
            && (d.action == Revoke || d.action == Warn ==>
                  d.detail == Some(e.verdict.reason) && Definite(e.verdict.reason))
            && (d.action == Warn ==> d.warningsAfter == m.warnings + 1 <= e.policy.maxWarnings)
            && (d.action == Revoke ==> Monitored(m.status))
            && (d.action == Restore ==> e.verdict.reason == Eligible)
  {
  }

  lemma FindingIsTrue(cx: Context, db: Db, x: nat)
    requires x < |db.memberships| && Find(cx, db, x).Some?
    ensures Definite(Find(cx, db, x).value.verdict.reason) ==>
              TrueReason(cx, db, x, Find(cx, db, x).value.verdict.reason)
    ensures Find(cx, db, x).value.verdict.reason == Eligible ==> FoundCompliant(cx, db, x)
  {
    var f := Find(cx, db, x).value;
    var a := db.accounts[f.account];
    var rules := db.configs[(a.provider, a.market)].rules;
    ReasonsAreTrue(f.check, rules);
    if f.verdict.reason != ProviderUnavailable {
      assert FirstAccount(db.accounts, db.memberships[x].user) == Some(f.account);
      assert JudgedBy(cx, db, x, a, rules, cx.oracle[a.uid]);
    }
  }

  lemma ExpulsionIsHis(cx: Context, db: Db, x: nat, id: int)
    requires x < |db.memberships| && Find(cx, db, x).Some?
    ensures Expels(db, x, Expulsion(ChannelFor(db, Find(cx, db, x).value.market), id), id)
  {
    var f := Find(cx, db, x).value;
    assert FirstAccount(db.accounts, db.memberships[x].user) == Some(f.account);
  }

  lemma MemberHears(cx: Context, db: Db, x: nat)
    requires x < |db.memberships|
    ensures Heard(cx, db, x, EffectsFor(cx, db, x), RowAfter(cx, db, x))
  {
    hide JudgedBy, Breaks, Meets, Definite;
    var f := Find(cx, db, x);
    if f.Some? {
      var d := DecisionFor(cx, db, x).value;
      var id := ChatOf(db, db.memberships[x].user);
      DecisionsCarryReasons(db.memberships[x], EventOf(cx, f.value));
      FindingIsTrue(cx, db, x);
      ExpulsionIsHis(cx, db, x, id);
      hide Decide, Find, TrueReason, FoundCompliant, Expels, StateOf;
      var log, out := EffectsFor(cx, db, x), Expulsion(ChannelFor(db, f.value.market), id);
      if d.action == Revoke {
        if id == 0 { assert log == out; } else { assert log[..|log| - 1] == out; }
      }
    }
  }

  /** A finished pass sends each listed member's own messages, in list order and
      nothing else. Each goes to the Telegram id of that member's user, says what
      became of that member's row, and gives a reason that is true of the provider's
      answer; a member without an id hears nothing. */
  lemma EveryoneIsTold(cx: Context, db: Db, mids: seq<nat>)
    requires InRange(db, mids) && Distinct(mids) && SweepOver(cx, db, mids).Done?
    ensures var o := SweepOver(cx, db, mids);
            && o.effects == LogOf(cx, db, mids)
            && forall x | x in mids && x < |db.memberships| ::
                 x < |o.db.memberships| && Heard(cx, db, x, EffectsFor(cx, db, x), o.db.memberships[x])
  {
    hide EffectsFor, RowAfter, Heard, SweepOver;
    SweepIsParallel(cx, db, mids);
    forall x | x in mids && x < |db.memberships|
      ensures Heard(cx, db, x, EffectsFor(cx, db, x), RowAfter(cx, db, x))
    {
      MemberHears(cx, db, x);
    }
  }

  // Who counts as skipped.

  /** The provider could not tell: no answer at all, or one that meets the other rules
      and is silent about trades. */
  ghost predicate Untold(cx: Context, db: Db, x: nat) {
    x < |db.memberships| && Monitored(db.memberships[x].status)
    && exists j :: FirstAccount(db.accounts, db.memberships[x].user) == Some(j) && j < |db.accounts|
         && var a := db.accounts[j];
            && (a.provider, a.market) in db.configs
            && (a.uid !in cx.oracle
                || var c := cx.oracle[a.uid];
                   c.registered && c.deposit >= db.configs[(a.provider, a.market)].rules.minimumBalance
                   && c.trades == None)
  }

  /** What became of a row, as its columns show it. */
  datatype Fate = WasRemoved | WasWarned | WasRestored | WasLeft

  function FateOf(before: Membership, after: Membership): Fate {
    if after == before then WasLeft
    else if after.status == Revoked && before.status != Revoked then WasRemoved
    else if after.lastWarning.Some? then WasWarned
    else WasRestored
  }

  function One(p: bool): nat {
    if p then 1 else 0
  }

  lemma OneMembersFigures(cx: Context, db: Db, x: nat)
    requires x < |db.memberships|
    ensures var t, f := TallyFor(cx, db, x), FateOf(db.memberships[x], RowAfter(cx, db, x));
            t == Tally(1, One(f == WasWarned), One(f == WasRemoved), One(f == WasRestored), One(Untold(cx, db, x)))
  {
    var j := FirstAccount(db.accounts, db.memberships[x].user);
    if j.Some? { assert FirstAccount(db.accounts, db.memberships[x].user) == Some(j.value); }
  }

  ghost function WithFate(mids: seq<nat>, before: seq<Membership>, after: seq<Membership>, f: Fate): set<nat> {
    set x | x in mids && x < |before| && x < |after| && FateOf(before[x], after[x]) == f
  }

  lemma WithFateSnoc(ms: seq<nat>, x: nat, before: seq<Membership>, after: seq<Membership>, f: Fate)
    requires x !in ms && x < |before| && x < |after|
    ensures |WithFate(ms + [x], before, after, f)| ==
              |WithFate(ms, before, after, f)| + One(FateOf(before[x], after[x]) == f)
  {
    hide FateOf;
    assert WithFate(ms + [x], before, after, f) ==
        WithFate(ms, before, after, f) + if FateOf(before[x], after[x]) == f then {x} else {};
  }

  ghost function UntoldAmong(cx: Context, db: Db, mids: seq<nat>): set<nat> {
    set x | x in mids && Untold(cx, db, x)
  }

  lemma UntoldSnoc(cx: Context, db: Db, ms: seq<nat>, x: nat)
    requires x !in ms
    ensures |UntoldAmong(cx, db, ms + [x])| == |UntoldAmong(cx, db, ms)| + One(Untold(cx, db, x))
  {
    hide Untold;
    assert UntoldAmong(cx, db, ms + [x]) == UntoldAmong(cx, db, ms) + if Untold(cx, db, x) then {x} else {};
  }

  /** The figures, member by member: `after` are the rows once the pass is over. */
  ghost predicate FiguresTell(cx: Context, db: Db, mids: seq<nat>, after: seq<Membership>, t: Tally) {
    && t.processed == |mids|
    && t.warned == |WithFate(mids, db.memberships, after, WasWarned)|
    && t.revoked == |WithFate(mids, db.memberships, after, WasRemoved)|
    && t.restored == |WithFate(mids, db.memberships, after, WasRestored)|
    && t.skipped == |UntoldAmong(cx, db, mids)|
  }

  lemma FiguresSnoc(cx: Context, db: Db, ms: seq<nat>, x: nat, after: seq<Membership>, t: Tally)
    requires x !in ms && x < |db.memberships| && |after| == |db.memberships| && after[x] == RowAfter(cx, db, x)
    requires FiguresTell(cx, db, ms, after, t)
    ensures FiguresTell(cx, db, ms + [x], after, t.Plus(TallyFor(cx, db, x)))
  {
    hide Untold, TallyFor, RowAfter, FateOf, WithFate, UntoldAmong;
    OneMembersFigures(cx, db, x);
    WithFateSnoc(ms, x, db.memberships, after, WasWarned);
    WithFateSnoc(ms, x, db.memberships, after, WasRemoved);
    WithFateSnoc(ms, x, db.memberships, after, WasRestored);
    UntoldSnoc(cx, db, ms, x);
  }

  lemma {:induction false} FiguresAdd(cx: Context, db: Db, mids: seq<nat>, after: seq<Membership>)
    requires InRange(db, mids) && Distinct(mids) && |after| == |db.memberships|
    requires forall x | x in mids && x < |after| :: after[x] == RowAfter(cx, db, x)
    ensures FiguresTell(cx, db, mids, after, TotalOf(cx, db, mids))
  {
    hide TallyFor, RowAfter;
    if mids != [] {
      hide FiguresTell;
      var n := |mids| - 1;
      FiguresAdd(cx, db, mids[..n], after);
      assert mids == mids[..n] + [mids[n]] && mids[n] !in mids[..n] && mids[n] in mids;
      FiguresSnoc(cx, db, mids[..n], mids[n], after, TotalOf(cx, db, mids[..n]));
    }
  }

  /** The figures of a finished pass are counts of what its rows show: the members
      warned, removed and restored, and those the provider could not tell about; other
      reasons to do nothing are in none of them. */
  lemma FiguresAreCounts(cx: Context, db: Db, mids: seq<nat>)
    requires InRange(db, mids) && Distinct(mids) && SweepOver(cx, db, mids).Done?
    ensures var o := SweepOver(cx, db, mids); FiguresTell(cx, db, mids, o.db.memberships, o.tally)
  {
    hide RowAfter, SweepOver, TotalOf, FiguresTell;
    SweepIsParallel(cx, db, mids);
    FiguresAdd(cx, db, mids, MergedRows(cx, db, mids));
  }
}
