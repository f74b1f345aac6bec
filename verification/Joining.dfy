/** What joining does to the ladder's promise: exactly when a member who accepts
    the invite keeps the full bound counted from the day of joining. */
module Joining {
  import opened Types
  import opened Eligibility
  import opened Compliance
  import opened Rows
  import opened Lifecycle
  import opened Ladder

  /** The history that starts with joining. */
  function FromJoining(at: Time, es: seq<Event>): seq<Event> {
    [Joined(at)] + es
  }

  ghost predicate FirstRemoval(m: Membership, es: seq<Event>, r: nat) {
    r < |es| && ActionAt(m, es, r) == Revoke && forall i | 0 <= i < r :: ActionAt(m, es, i) != Revoke
  }

  /** Joining at `at`, then `es`: the first removal comes before grace and all the
      intervals have passed since the instant the row shows. */
  ghost predicate TooSoon(m: Membership, p: Policy, at: Time, es: seq<Event>, r: nat) {
    var all := FromJoining(at, es);
    && FixedPolicy(all, p) && FirstRemoval(m, all, r)
    && Instant(all[r]) < Since(RowAt(m, all, r)) + p.Grace() + p.maxWarnings * p.Interval()
  }

  /** The row is INVITED, as some history under the policy leaves it. */
  ghost predicate InvitedAfter(m: Membership, origin: Membership, es: seq<Event>, p: Policy) {
    && Fresh(origin) && FixedPolicy(es, p) && m == RowAt(origin, es, |es|) && m.status == Invited
  }

  lemma InvitedFacts(m: Membership, origin: Membership, es: seq<Event>, p: Policy)
    requires InvitedAfter(m, origin, es, p)
    ensures 0 <= m.warnings <= p.maxWarnings && (m.warnings == 0 <==> m.lastWarning == None)
  {
    LadderHolds(origin, es, p, |es|);
    CountMatchesClock(origin, es, |es|);
  }

  // With a clean record the bound is kept.

  lemma OneStepActive(m: Membership, e: Event)
    requires m.status == Active && (e.Checked? ==> DecisionOn(m, e).action != Revoke)
    ensures Next(m, e).status == Active
  {
  }

  lemma {:induction false} ActiveUntilRemoved(m: Membership, at: Time, es: seq<Event>, n: nat)
    requires m.status == Invited && 0 < n <= |es| + 1
    requires forall i | 0 <= i < n :: ActionAt(m, FromJoining(at, es), i) != Revoke
    ensures RowAt(m, FromJoining(at, es), n).status == Active
  {
    var all := FromJoining(at, es);
    if n == 1 {
      assert RowAt(m, all, 0) == m;
    } else {
      ActiveUntilRemoved(m, at, es, n - 1);
      ActionIs(m, all, n - 1);
      OneStepActive(RowAt(m, all, n - 1), all[n - 1]);
    }
  }

  lemma {:induction false} StreakStartsAfter(m: Membership, es: seq<Event>, n: nat)
    requires 0 < n <= |es| && ActionAt(m, es, 0) != Warn
    ensures forall k | k in Streak(m, es, n) :: 0 < k < n
  {
    hide ActionAt, Resets;
    if n > 1 { StreakStartsAfter(m, es, n - 1); }
  }

  lemma CleanRecordKeepsBound(m: Membership, p: Policy, at: Time, es: seq<Event>, r: nat)
    requires m.status == Invited && Fresh(m)
    ensures !TooSoon(m, p, at, es, r)
  {
    var all := FromJoining(at, es);
    if FixedPolicy(all, p) && FirstRemoval(m, all, r) {
      assert r > 0;
      StreakStartsAfter(m, all, r);
      forall k | 0 < k < r
        ensures NoJoin(m, all, k)
      {
        ActiveUntilRemoved(m, at, es, k);
      }
      var k := Streak(m, all, r);
      assert k != [] ==> k[0] in k;
      BoundFromTheRow(m, all, p, r);
    }
  }

  lemma NoIntervalKeepsBound(m: Membership, p: Policy, at: Time, es: seq<Event>, r: nat)
    requires p.Interval() <= 0
    ensures !TooSoon(m, p, at, es, r)
  {
    var all := FromJoining(at, es);
    if FixedPolicy(all, p) && FirstRemoval(m, all, r) {
      hide RowAt, FromJoining;
      ActionIs(m, all, r);
      RevokeFacts(RowAt(m, all, r), all[r]);
      TimesNothing(p.maxWarnings, p.Interval());
      hide ActionAt;
    }
  }

  lemma TimesNothing(n: nat, d: int)
    requires d <= 0
    ensures n * d <= 0
  {
  }

  // With a standing warning it can be broken.

  const FAILING := Verdict(NotRegistered, NonCompliant, 0, 0)

  /** Grace counted from joining ends no sooner than the next rung is due. */
  predicate LateEnough(m: Membership, p: Policy, at: Time) {
    m.lastWarning.Some? && at + p.Grace() >= m.lastWarning.value + p.Interval()
  }

  /** The failing checks that follow: the first when grace ends, then one an interval. */
  function CheckAt(p: Policy, at: Time, i: nat): Time {
    at + p.Grace() + i * p.Interval()
  }

  function Unlucky(m: Membership, p: Policy, at: Time): seq<Event>
    requires m.warnings <= p.maxWarnings
  {
    var n := p.maxWarnings - m.warnings + 1;
    seq(n, i requires 0 <= i < n => Checked(p, FAILING, CheckAt(p, at, i)))
  }

  lemma CheckTimes(p: Policy, at: Time, i: nat)
    requires p.Interval() > 0
    ensures CheckAt(p, at, 0) == at + p.Grace()
    ensures CheckAt(p, at, i) >= at + p.Grace()
    ensures CheckAt(p, at, i + 1) == CheckAt(p, at, i) + p.Interval()
  {
    assert (i + 1) * p.Interval() == i * p.Interval() + p.Interval();
    assert i * p.Interval() >= 0;
  }

  lemma FailingAt(row: Membership, p: Policy, now: Time)
    requires row.status == Active && now >= Since(row) + p.Grace()
    requires row.lastWarning.Some? ==> now >= row.lastWarning.value + p.Interval()
    ensures var e := Checked(p, FAILING, now);
            if row.warnings < p.maxWarnings then
              DecisionOn(row, e).action == Warn
              && Next(row, e) == row.(warnings := row.warnings + 1, lastWarning := Some(now))
            else DecisionOn(row, e).action == Revoke
  {
  }

  /** The row after joining and `i` of the checks. */
  function Grown(m: Membership, p: Policy, at: Time, i: nat): Membership {
    m.(status := Active, joinedAt := Some(at), warnings := m.warnings + i,
       lastWarning := if i == 0 then m.lastWarning else Some(CheckAt(p, at, i - 1)))
  }

  lemma GrownStep(m: Membership, p: Policy, at: Time, i: nat)
    requires LateEnough(m, p, at) && p.Interval() > 0 && m.warnings + i <= p.maxWarnings
    ensures var e := Checked(p, FAILING, CheckAt(p, at, i));
            if m.warnings + i < p.maxWarnings
              then DecisionOn(Grown(m, p, at, i), e).action == Warn
                && Next(Grown(m, p, at, i), e) == Grown(m, p, at, i + 1)
            else DecisionOn(Grown(m, p, at, i), e).action == Revoke
  {
    hide CheckAt;
    CheckTimes(p, at, i);
    if i > 0 { CheckTimes(p, at, i - 1); }
    FailingAt(Grown(m, p, at, i), p, CheckAt(p, at, i));
  }

  lemma {:induction false} RecordGrows(m: Membership, p: Policy, at: Time, i: nat)
    requires m.status == Invited && LateEnough(m, p, at) && p.Interval() > 0 && 0 <= m.warnings
             && m.warnings + i <= p.maxWarnings
    ensures var all := FromJoining(at, Unlucky(m, p, at));
            && |all| == p.maxWarnings - m.warnings + 2
            && all[i + 1] == Checked(p, FAILING, CheckAt(p, at, i))
            && RowAt(m, all, i + 1) == Grown(m, p, at, i)
            && ActionAt(m, all, i + 1) == if m.warnings + i < p.maxWarnings then Warn else Revoke
  {
    var all := FromJoining(at, Unlucky(m, p, at));
    assert all[i + 1] == Unlucky(m, p, at)[i];
    if i == 0 {
      assert RowAt(m, all, 0) == m;
      JoinedRow(m, p, at);
    } else {
      RecordGrows(m, p, at, i - 1);
      GrownStep(m, p, at, i - 1);
    }
    hide Grown, CheckAt, DecisionOn, Next, LateEnough;
    GrownStep(m, p, at, i);
  }

  lemma JoinedRow(m: Membership, p: Policy, at: Time)
    requires m.status == Invited
    ensures Next(m, Joined(at)) == Grown(m, p, at, 0)
  {
  }

  lemma BoundPassed(m: Membership, p: Policy, at: Time)
    requires 0 < m.warnings <= p.maxWarnings && p.Interval() > 0
    ensures CheckAt(p, at, p.maxWarnings - m.warnings) < at + p.Grace() + p.maxWarnings * p.Interval()
  {
    var n: nat := p.maxWarnings - m.warnings;
    assert p.maxWarnings * p.Interval() == n * p.Interval() + m.warnings * p.Interval();
    assert m.warnings * p.Interval() > 0;
  }

  /** Whenever the member joins late enough, and keeps failing: the standing
      warnings are not given again, so the removal comes too soon. */
  lemma StandingWarningBreaksBound(m: Membership, p: Policy, at: Time)
    requires m.status == Invited && 0 < m.warnings <= p.maxWarnings && LateEnough(m, p, at) && p.Interval() > 0
    ensures TooSoon(m, p, at, Unlucky(m, p, at), p.maxWarnings - m.warnings + 1)
    ensures p.Grace() >= 0 ==> InOrder(at, Unlucky(m, p, at))
  {
    var n: nat := p.maxWarnings - m.warnings;
    var all := FromJoining(at, Unlucky(m, p, at));
    assert Since(Grown(m, p, at, n)) == at;
    if p.Grace() >= 0 { InTurn(m, p, at); }
    hide Grown, CheckAt, RowAt, ActionAt, LateEnough, InOrder;
    RecordGrows(m, p, at, n);
    forall i | 0 <= i < n + 1
      ensures ActionAt(m, all, i) != Revoke
    {
      if i > 0 { RecordGrows(m, p, at, i - 1); } else { ActionIs(m, all, 0); }
    }
    BoundPassed(m, p, at);
  }

  /** A wall clock can produce the history: no event comes before joining, nor one
      before another. */
  ghost predicate InOrder(at: Time, es: seq<Event>) {
    var all := FromJoining(at, es);
    forall i, j | 0 <= i < j < |all| :: Instant(all[i]) <= Instant(all[j])
  }

  lemma {:induction false} CheckTimesGrow(p: Policy, at: Time, i: nat, j: nat)
    requires p.Interval() > 0 && i <= j
    ensures CheckAt(p, at, i) <= CheckAt(p, at, j)
  {
    hide CheckAt;
    if i < j {
      CheckTimesGrow(p, at, i, j - 1);
      CheckTimes(p, at, j - 1);
    }
  }

  lemma InTurn(m: Membership, p: Policy, at: Time)
    requires m.warnings <= p.maxWarnings && p.Interval() > 0 && p.Grace() >= 0
    ensures InOrder(at, Unlucky(m, p, at))
  {
    hide CheckAt;
    var all := FromJoining(at, Unlucky(m, p, at));
    forall i, j | 0 <= i < j < |all|
      ensures Instant(all[i]) <= Instant(all[j])
    {
      assert Instant(all[j]) == CheckAt(p, at, j - 1);
      if i == 0 { CheckTimes(p, at, j - 1); } else { CheckTimesGrow(p, at, i - 1, j - 1); }
    }
  }

  /** No join at `from` or later, and nothing that happens then, removes too soon. */
  ghost predicate SafeFrom(m: Membership, p: Policy, from: Time) {
    forall at: Time, more: seq<Event>, r: nat | at >= from :: !TooSoon(m, p, at, more, r)
  }

  /** The same for events in the order of a wall clock. */
  ghost predicate SafeInOrderFrom(m: Membership, p: Policy, from: Time) {
    forall at: Time, more: seq<Event>, r: nat | at >= from && InOrder(at, more) :: !TooSoon(m, p, at, more, r)
  }

  /** Whether joining is safe can be read off the row beforehand. Take any instant,
      however late after what happened so far: every continuation that joins then or
      later gives the member grace and all the intervals, counted from joining,
      before the first removal, exactly when the row carries no warning (or warnings
      need no spacing). Where grace is not negative, histories in the order of a
      wall clock decide it alike. */
  lemma JoiningKeepsBoundIff(m: Membership, origin: Membership, es: seq<Event>, p: Policy, from: Time)
    requires InvitedAfter(m, origin, es, p)
    ensures SafeFrom(m, p, from) <==> m.warnings == 0 || p.Interval() <= 0
    ensures p.Grace() >= 0 ==> (SafeInOrderFrom(m, p, from) <==> m.warnings == 0 || p.Interval() <= 0)
  {
    hide TooSoon, RowAt, InOrder;
    InvitedFacts(m, origin, es, p);
    if m.warnings == 0 {
      forall at: Time, more: seq<Event>, r: nat
        ensures !TooSoon(m, p, at, more, r)
      {
        CleanRecordKeepsBound(m, p, at, more, r);
      }
    } else if p.Interval() <= 0 {
      forall at: Time, more: seq<Event>, r: nat
        ensures !TooSoon(m, p, at, more, r)
      {
        NoIntervalKeepsBound(m, p, at, more, r);
      }
    } else {
      var due := m.lastWarning.value + p.Interval() - p.Grace();
      StandingWarningBreaksBound(m, p, if from >= due then from else due);
    }
  }
}
