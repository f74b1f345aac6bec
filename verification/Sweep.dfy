/** The monitoring pass as a function of the tables: one member, then the list. */
module Sweep {
  import opened Types
  import opened Eligibility
  import opened Compliance
  import opened Rows
  import opened Lifecycle

  /** What is fixed for one pass: the ladder's timing, the period being claimed
      and the provider's answers; a uid without an answer is an outage. */
  datatype Context = Context(
    maxWarnings: nat, intervalDays: int, periodStart: Time, periodEnd: Time, now: Time, oracle: map<string, Check>)

  datatype Tally = Tally(processed: nat, warned: nat, revoked: nat, restored: nat, skipped: nat) {
    function Plus(t: Tally): Tally {
      Tally(processed + t.processed, warned + t.warned, revoked + t.revoked, restored + t.restored, skipped + t.skipped)
    }
  }

  const ZERO := Tally(0, 0, 0, 0, 0)

  datatype Finding = Finding(account: nat, market: Market, policy: Policy, check: Option<Check>, verdict: Verdict)

  /** What checking account `j` finds; nothing without a configured programme. */
  function Examine(cx: Context, db: Db, j: nat): (f: Option<Finding>)
    requires j < |db.accounts|
    ensures f.Some? ==> f.value.account == j && f.value.market == db.accounts[j].market
  {
    var a := db.accounts[j];
    var config := ConfigFor(db, a.provider, a.market);
    if config == None then None
    else
      var check := if a.uid in cx.oracle then Some(cx.oracle[a.uid]) else None;
      Some(Finding(j, a.market, Policy(cx.maxWarnings, cx.intervalDays, config.value.graceDays), check,
                   Evaluate(check, config.value.rules, true)))
  }

  /** A member is judged by the first account of its user, whatever its market. */
  function Find(cx: Context, db: Db, mid: nat): (f: Option<Finding>)
    requires mid < |db.memberships|
    ensures f.Some? ==> FirstAccount(db.accounts, db.memberships[mid].user) == Some(f.value.account)
  {
    var j := FirstAccount(db.accounts, db.memberships[mid].user);
    if j == None then None else Examine(cx, db, j.value)
  }

  function EventOf(cx: Context, f: Finding): Event {
    Checked(f.policy, f.verdict, cx.now)
  }

  function CheckedAccount(cx: Context, a: Account, f: Finding): Account {
    a.(compliance := f.verdict.state, lastChecked := Some(cx.now),
       balance := if f.check.Some? then Some(f.verdict.balance) else a.balance)
  }

  function SnapshotOf(cx: Context, f: Finding): Snapshot
    requires f.check.Some?
  {
    Snapshot(cx.periodEnd, if f.check.value.trades.Some? then f.check.value.trades.value else 0,
             f.check.value.deposit, f.check.value.registered, f.verdict.state)
  }

  function ChatOf(db: Db, user: nat): int {
    if user < |db.users| then db.users[user].telegramId else 0
  }

  /** Messages go only to a known, non-zero chat. */
  function Tell(chat: int, text: Text): seq<Effect> {
    if chat == 0 then [] else [Message(chat, text)]
  }

  /** Telegram's ban is sticky, so a removal lifts it again at once. */
  function Expulsion(channel: Option<Channel>, chat: int): seq<Effect> {
    if channel.Some? then [Ban(channel.value.chat, chat), Unban(channel.value.chat, chat)] else []
  }

  function Effects(db: Db, user: nat, market: Market, d: Decision, maxWarnings: nat): seq<Effect> {
    var chat := ChatOf(db, user);
    match d.action
    case NoAction => []
    case Restore => Tell(chat, Restored)
    case Warn => Tell(chat, Warning(d.warningsAfter, maxWarnings, if d.detail.Some? then d.detail.value else Eligible))
    case Revoke =>
      Expulsion(ChannelFor(db, market), chat) + Tell(chat, Removed(if d.detail.Some? then d.detail.value else Eligible))
  }

  lemma EffectsReadOnly(a: Db, b: Db, user: nat, market: Market, d: Decision, maxWarnings: nat)
    requires a.users == b.users && a.channels == b.channels
    ensures Effects(a, user, market, d, maxWarnings) == Effects(b, user, market, d, maxWarnings)
  {
  }

  function TallyOf(d: Decision): Tally {
    Tally(1, if d.action == Warn then 1 else 0, if d.action == Revoke then 1 else 0,
          if d.action == Restore then 1 else 0, if d.action == NoAction && d.skip == Some(Outage) then 1 else 0)
  }

  datatype Outcome = Done(db: Db, effects: seq<Effect>, tally: Tally) | Raised(effects: seq<Effect>)

  /** The snapshot key of a finding is already taken: the insert will raise. */
  predicate Collides(cx: Context, db: Db, f: Finding) {
    f.check.Some? && (f.account, cx.periodStart) in db.snapshots
  }

  function Recorded(cx: Context, db: Db, f: Finding): map<(nat, Time), Snapshot> {
    if f.check.Some? then db.snapshots[(f.account, cx.periodStart) := SnapshotOf(cx, f)] else db.snapshots
  }

  /** A removal expires the user's first subscription in the *account's* market. */
  function Expires(db: Db, user: nat, market: Market, d: Decision): (r: Option<nat>)
    ensures r.Some? ==> r.value < |db.subscriptions| && d.action == Revoke
  {
    if d.action == Revoke then FirstSubscription(db.subscriptions, user, market) else None
  }

  function ExpiredAt(s: Subscription, now: Time): Subscription {
    s.(status := SubExpired, endsAt := Some(now))
  }

  /** The row updates a decision brings. */
  function Applied(db: Db, mid: nat, market: Market, d: Decision, now: Time): Db
    requires mid < |db.memberships|
  {
    var m := db.memberships[mid];
    var sub := Expires(db, m.user, market, d);
    db.(memberships := db.memberships[mid := Decided(m, d, now)],
        subscriptions := if sub.Some? then db.subscriptions[sub.value := ExpiredAt(db.subscriptions[sub.value], now)]
                         else db.subscriptions)
  }

  function MemberPass(cx: Context, db: Db, mid: nat): Outcome
    requires mid < |db.memberships|
  {
    var m := db.memberships[mid];
    var found := Find(cx, db, mid);
    if found == None then Done(db, [], ZERO.(processed := 1))
    else
      var f := found.value;
      if Collides(cx, db, f) then Raised([])
      else
        var d := DecisionOn(m, EventOf(cx, f));
        var checked := db.(accounts := db.accounts[f.account := CheckedAccount(cx, db.accounts[f.account], f)],
            snapshots := Recorded(cx, db, f));
        Done(Applied(checked, mid, f.market, d, cx.now), Effects(db, m.user, f.market, d, f.policy.maxWarnings),
            TallyOf(d))
  }

  predicate InRange(db: Db, mids: seq<nat>) {
    forall i | 0 <= i < |mids| :: mids[i] < |db.memberships|
  }

  /** The loop over the listed members, one after the other. */
  function SweepOver(cx: Context, db: Db, mids: seq<nat>): (o: Outcome)
    requires InRange(db, mids)
    ensures o.Done? ==> |o.db.memberships| == |db.memberships|
  {
    if mids == [] then Done(db, [], ZERO)
    else
      var n := |mids| - 1;
      var before := SweepOver(cx, db, mids[..n]);
      if before.Raised? then before
      else
        var here := MemberPass(cx, before.db, mids[n]);
        if here.Raised? then Raised(before.effects + here.effects)
        else Done(here.db, before.effects + here.effects, before.tally.Plus(here.tally))
  }

  lemma SweepSnoc(cx: Context, db: Db, mids: seq<nat>, i: nat, before: Outcome, here: Outcome)
    requires i < |mids| && InRange(db, mids) && InRange(db, mids[..i])
    requires before == SweepOver(cx, db, mids[..i]) && before.Done?
    requires here == MemberPass(cx, before.db, mids[i]) && here.Done?
    ensures InRange(db, mids[..i + 1])
    ensures SweepOver(cx, db, mids[..i + 1]) ==
              Done(here.db, before.effects + here.effects, before.tally.Plus(here.tally))
  {
    var through := mids[..i + 1];
    assert through[..i] == mids[..i] && through[i] == mids[i];
  }
}
