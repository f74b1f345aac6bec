/** The warning ladder over whole histories of one membership. */
module Ladder {
  import opened Types
  import opened Eligibility
  import opened Compliance
  import opened Rows
  import opened Lifecycle

  /** Does event `i` wipe the warning record? A restore does, and so does the
      re-admission of a removed member. */
  predicate Resets(m: Membership, es: seq<Event>, i: nat)
    requires i < |es|
  {
    ActionAt(m, es, i) == Restore
    || (es[i].Admitted? && RowAt(m, es, i).status in {Revoked, Expired})
  }

  /** The warnings still standing after `n` events, read off the history alone:
      the positions of the WARNs since the last reset. */
  function Streak(m: Membership, es: seq<Event>, n: nat): seq<nat>
    requires n <= |es|
  {
    if n == 0 then []
    else if Resets(m, es, n - 1) then []
    else if ActionAt(m, es, n - 1) == Warn then Streak(m, es, n - 1) + [n - 1]
    else Streak(m, es, n - 1)
  }

  ghost predicate FixedPolicy(es: seq<Event>, p: Policy) {
    forall i | 0 <= i < |es| && es[i].Checked? :: es[i].policy == p
  }

  predicate DefiniteFailure(es: seq<Event>, i: int) {
    0 <= i < |es| && es[i].Checked? && Definite(es[i].verdict.reason)
  }

  function Instants(es: seq<Event>): (ts: seq<Time>)
    ensures |ts| == |es| && forall i | 0 <= i < |es| :: ts[i] == Instant(es[i])
  {
    seq(|es|, i requires 0 <= i < |es| => Instant(es[i]))
  }

  function Warns(m: Membership, es: seq<Event>): (ws: seq<bool>)
    ensures |ws| == |es| && forall i | 0 <= i < |es| :: ws[i] == (ActionAt(m, es, i) == Warn)
  {
    seq(|es|, i requires 0 <= i < |es| => ActionAt(m, es, i) == Warn)
  }

  /** `k` lists, in order, every warning from its first entry up to `n`, and
      consecutive entries are at least `gap` apart. */
  ghost predicate Spaced(warns: seq<bool>, at: seq<Time>, gap: Time, n: nat, k: seq<nat>)
    requires n <= |warns| == |at|
  {
    && (forall j | 0 <= j < |k| :: k[j] < n && warns[k[j]])
    && (forall j, l | 0 <= j < l < |k| && l == j + 1 :: k[j] < k[l] && at[k[l]] >= at[k[j]] + gap)
    && (k != [] ==> forall i | k[0] <= i < n && warns[i] :: i in k)
  }

  ghost predicate NoEligibleBetween(es: seq<Event>, a: int, b: int) {
    forall i | a <= i < b && 0 <= i < |es| && es[i].Checked? :: es[i].verdict.reason != Eligible
  }

  /** The record on the row is exactly the streak in the history. */
  ghost predicate LadderInv(row: Membership, k: seq<nat>, warns: seq<bool>, es: seq<Event>, p: Policy, n: nat)
    requires n <= |es| == |warns|
  {
    && Spaced(warns, Instants(es), p.Interval(), n, k)
    && row.warnings == |k| <= p.maxWarnings
    && (k == [] ==> row.lastWarning == None)
    && (k != [] ==> row.lastWarning == Some(Instants(es)[k[|k| - 1]]))
    && (row.status == Pending ==> k == [])
    && (k != [] && Monitored(row.status) ==> NoEligibleBetween(es, k[0], n))
  }

  lemma SpacedGrows(warns: seq<bool>, at: seq<Time>, gap: Time, n: nat, k: seq<nat>)
    requires n < |warns| == |at| && Spaced(warns, at, gap, n, k) && warns[n]
    requires k != [] ==> at[n] >= at[k[|k| - 1]] + gap
    ensures Spaced(warns, at, gap, n + 1, k + [n])
  {
    var k' := k + [n];
    forall i | k'[0] <= i < n + 1 && warns[i]
      ensures i in k'
    {
      if i == n { assert k'[|k|] == i; }
    }
  }

  /** What a WARN tells about the row it was decided on, and what it leaves. */
  lemma WarnFacts(row: Membership, e: Event)
    requires e.Checked? && DecisionOn(row, e).action == Warn
    ensures Definite(e.verdict.reason) && Monitored(row.status) && row.warnings < e.policy.maxWarnings
    ensures e.now >= Since(row) + e.policy.Grace()
    ensures row.lastWarning.Some? ==> e.now >= row.lastWarning.value + e.policy.Interval()
    ensures Next(row, e) == row.(warnings := row.warnings + 1, lastWarning := Some(e.now))
  {
  }

  lemma RevokeFacts(row: Membership, e: Event)
    requires e.Checked? && DecisionOn(row, e).action == Revoke
    ensures Definite(e.verdict.reason) && Monitored(row.status) && row.warnings >= e.policy.maxWarnings
    ensures e.now >= Since(row) + e.policy.Grace()
    ensures row.lastWarning.Some? ==> e.now >= row.lastWarning.value + e.policy.Interval()
  {
  }

  /** Events that neither warn nor reset leave the record alone, and bring a row
      under monitoring only from PENDING. */
  lemma QuietFacts(row: Membership, e: Event)
    requires e.Checked? ==> DecisionOn(row, e).action !in {Warn, Restore}
    requires e.Admitted? ==> row.status !in {Revoked, Expired}
    ensures var next := Next(row, e);
            && next.warnings == row.warnings && next.lastWarning == row.lastWarning
            && (next.status == Pending ==> row.status == Pending)
            && (Monitored(next.status) ==> Monitored(row.status) || row.status == Pending)
            && (e.Checked? && Monitored(next.status) ==> e.verdict.reason != Eligible || row.warnings <= 0)
  {
  }

  lemma ResetFacts(row: Membership, e: Event)
    requires (e.Checked? && DecisionOn(row, e).action == Restore) || (e.Admitted? && row.status in {Revoked, Expired})
    ensures Next(row, e).warnings == 0 && Next(row, e).lastWarning == None && Next(row, e).status != Pending
  {
  }

  lemma InvGrows(row: Membership, next: Membership, k: seq<nat>, warns: seq<bool>, es: seq<Event>, p: Policy, n: nat)
    requires n < |es| == |warns| && LadderInv(row, k, warns, es, p, n) && warns[n]
    requires DefiniteFailure(es, n) && Monitored(row.status) && next.status == row.status
    requires row.warnings < p.maxWarnings && next.warnings == row.warnings + 1 && next.lastWarning == Some(es[n].now)
    requires row.lastWarning.Some? ==> es[n].now >= row.lastWarning.value + p.Interval()
    ensures LadderInv(next, k + [n], warns, es, p, n + 1)
  {
    SpacedGrows(warns, Instants(es), p.Interval(), n, k);
    assert NoEligibleBetween(es, (k + [n])[0], n + 1);
  }

  lemma InvStays(row: Membership, next: Membership, k: seq<nat>, warns: seq<bool>, es: seq<Event>, p: Policy, n: nat)
    requires n < |es| == |warns| && LadderInv(row, k, warns, es, p, n) && !warns[n]
    requires next.warnings == row.warnings && next.lastWarning == row.lastWarning
    requires next.status == Pending ==> row.status == Pending
    requires Monitored(next.status) ==> Monitored(row.status) || row.status == Pending
    requires es[n].Checked? && Monitored(next.status) ==> es[n].verdict.reason != Eligible || row.warnings <= 0
    ensures LadderInv(next, k, warns, es, p, n + 1)
  {
  }

  lemma InvClears(next: Membership, warns: seq<bool>, es: seq<Event>, p: Policy, n: nat)
    requires n < |es| == |warns| && next.warnings == 0 && next.lastWarning == None
    ensures LadderInv(next, [], warns, es, p, n + 1)
  {
  }

  lemma LadderStep(m: Membership, es: seq<Event>, p: Policy, n: nat, row: Membership, next: Membership, k: seq<nat>)
    requires n < |es| && FixedPolicy(es, p) && row == RowAt(m, es, n)
    requires next == Next(row, es[n]) && k == Streak(m, es, n)
    requires LadderInv(row, k, Warns(m, es), es, p, n)
    ensures LadderInv(next, Streak(m, es, n + 1), Warns(m, es), es, p, n + 1)
  {
    if Resets(m, es, n) {
      ResetFacts(row, es[n]);
      InvClears(next, Warns(m, es), es, p, n);
    } else if ActionAt(m, es, n) == Warn {
      WarnFacts(row, es[n]);
      InvGrows(row, next, k, Warns(m, es), es, p, n);
    } else {
      QuietFacts(row, es[n]);
      InvStays(row, next, k, Warns(m, es), es, p, n);
    }
  }

  lemma {:induction false} LadderHolds(m: Membership, es: seq<Event>, p: Policy, n: nat)
    requires n <= |es| && Fresh(m) && FixedPolicy(es, p)
    ensures LadderInv(RowAt(m, es, n), Streak(m, es, n), Warns(m, es), es, p, n)
  {
    if n == 0 {
      assert Streak(m, es, n) == [];
    } else {
      LadderHolds(m, es, p, n - 1);
      LadderStep(m, es, p, n - 1, RowAt(m, es, n - 1), RowAt(m, es, n), Streak(m, es, n - 1));
    }
  }

  /** On every history, whatever the policies: no warnings exactly when no
      warning time is recorded. */
  lemma {:induction false} CountMatchesClock(m: Membership, es: seq<Event>, n: nat)
    requires n <= |es| && Fresh(m)
    ensures var row := RowAt(m, es, n);
            row.warnings >= 0 && (row.warnings == 0 <==> row.lastWarning == None)
  {
    if n > 0 {
      CountMatchesClock(m, es, n - 1);
    }
  }

  /** Spacing adds up: from entry `j` on, each further step costs a gap. */
  lemma {:induction false} SpacingAddsUp(warns: seq<bool>, at: seq<Time>, gap: Time, n: nat, k: seq<nat>, j: nat,
          l: nat)
    requires n <= |warns| == |at| && Spaced(warns, at, gap, n, k) && j <= l < |k|
    ensures at[k[l]] >= at[k[j]] + (l - j) * gap && (j < l ==> k[j] < k[l])
  {
    if j < l {
      SpacingAddsUp(warns, at, gap, n, k, j, l - 1);
      assert k[l - 1] < k[l] && at[k[l]] >= at[k[l - 1]] + gap;
      assert (l - j) * gap == (l - 1 - j) * gap + gap;
    }
  }

  lemma RungBound(m: Membership, es: seq<Event>, p: Policy, r: nat, k: seq<nat>, j: nat)
    requires FixedPolicy(es, p) && r < |es| && j < |k| && Spaced(Warns(m, es), Instants(es), p.Interval(), r, k)
    requires Instant(es[r]) >= Instants(es)[k[|k| - 1]] + p.Interval()
    ensures Instant(es[r]) >= Since(RowAt(m, es, k[j])) + p.Grace() + (|k| - j) * p.Interval()
  {
    hide Spaced, ActionAt, DecisionOn, RowAt;
    SpacingAddsUp(Warns(m, es), Instants(es), p.Interval(), r, k, j, |k| - 1);
    RungIsWarning(m, es, p, r, k, j);
    assert (|k| - j) * p.Interval() == (|k| - 1 - j) * p.Interval() + p.Interval();
  }

  lemma RungIsWarning(m: Membership, es: seq<Event>, p: Policy, r: nat, k: seq<nat>, j: nat)
    requires FixedPolicy(es, p) && r < |es| && j < |k| && Spaced(Warns(m, es), Instants(es), p.Interval(), r, k)
    ensures k[j] < r && Instants(es)[k[j]] >= Since(RowAt(m, es, k[j])) + p.Grace()
  {
    assert Warns(m, es)[k[j]];
    WarnFacts(RowAt(m, es, k[j]), es[k[j]]);
  }

  /** Behind removal `r` stands a streak of exactly `maxWarnings` warnings, properly
      spaced. Measured from any rung `j` of it, the member had the grace that
      applied at that rung and then a full interval for each rung still to go. */
  ghost predicate FullLadder(m: Membership, es: seq<Event>, p: Policy, r: nat)
    requires r < |es|
  {
    var k := Streak(m, es, r);
    && |k| == p.maxWarnings
    && Spaced(Warns(m, es), Instants(es), p.Interval(), r, k)
    && Instant(es[r]) >= Since(RowAt(m, es, r)) + p.Grace()
    && (k != [] ==> Instant(es[r]) >= Instants(es)[k[|k| - 1]] + p.Interval())
    && forall j | 0 <= j < |k| ::
         Instant(es[r]) >= Since(RowAt(m, es, k[j])) + p.Grace() + (p.maxWarnings - j) * p.Interval()
  }

  /** Behind removal `r` stand `maxWarnings + 1` definite failing verdicts, itself
      included and none an outage, with no eligible verdict in between. */
  ghost predicate Evidence(m: Membership, es: seq<Event>, p: Policy, r: nat)
    requires r < |es|
  {
    var proof := Streak(m, es, r) + [r];
    && |proof| == p.maxWarnings + 1
    && (forall j | 0 <= j < |proof| :: DefiniteFailure(es, proof[j]))
    && (forall i, j | 0 <= i < j < |proof| :: proof[i] < proof[j])
    && NoEligibleBetween(es, proof[0], r + 1)
  }

  /** On every history under one policy, with no monotone clock assumed. */
  lemma RevocationEndsFullLadder(m: Membership, es: seq<Event>, p: Policy, r: nat)
    requires Fresh(m) && FixedPolicy(es, p) && r < |es| && ActionAt(m, es, r) == Revoke
    ensures FullLadder(m, es, p, r)
  {
    hide Next, ActionAt;
    LadderHolds(m, es, p, r);
    ActionIs(m, es, r);
    RevokeFacts(RowAt(m, es, r), es[r]);
    var k := Streak(m, es, r);
    assert k != [] ==> Instant(es[r]) >= Instants(es)[k[|k| - 1]] + p.Interval();
    forall j | 0 <= j < |k|
      ensures Instant(es[r]) >= Since(RowAt(m, es, k[j])) + p.Grace() + (p.maxWarnings - j) * p.Interval()
    {
      RungBound(m, es, p, r, k, j);
    }
  }

  lemma RevocationEvidence(m: Membership, es: seq<Event>, p: Policy, r: nat)
    requires Fresh(m) && FixedPolicy(es, p) && r < |es| && ActionAt(m, es, r) == Revoke
    ensures Evidence(m, es, p, r)
  {
    hide Next, ActionAt;
    LadderHolds(m, es, p, r);
    ActionIs(m, es, r);
    RevokeFacts(RowAt(m, es, r), es[r]);
    var k := Streak(m, es, r);
    forall j | 0 <= j < |k|
      ensures DefiniteFailure(es, k[j]) && k[j] < r
    {
      assert Warns(m, es)[k[j]];
      ActionIs(m, es, k[j]);
      WarnFacts(RowAt(m, es, k[j]), es[k[j]]);
    }
    forall i, j | 0 <= i < j < |k|
      ensures k[i] < k[j]
    {
      SpacingAddsUp(Warns(m, es), Instants(es), p.Interval(), r, k, i, j);
    }
  }

  lemma ActionIs(m: Membership, es: seq<Event>, i: nat)
    requires i < |es|
    ensures ActionAt(m, es, i) == if es[i].Checked? then DecisionOn(RowAt(m, es, i), es[i]).action else NoAction
  {
  }

  /** No one joins at `i`; a join event on a row that is not INVITED is none. */
  predicate NoJoin(m: Membership, es: seq<Event>, i: nat)
    requires i < |es|
  {
    es[i].Joined? ==> RowAt(m, es, i).status != Invited
  }

  /** The instant grace is counted from moves only by joining: neither removal nor
      a return brings fresh grace. */
  lemma {:induction false} SinceMovesOnlyByJoining(m: Membership, es: seq<Event>, i: nat, n: nat)
    requires i <= n <= |es| && forall k | i <= k < n :: NoJoin(m, es, k)
    ensures Since(RowAt(m, es, n)) == Since(RowAt(m, es, i))
  {
    hide Next;
    if i < n {
      SinceMovesOnlyByJoining(m, es, i, n - 1);
      assert NoJoin(m, es, n - 1);
      SinceStays(RowAt(m, es, n - 1), es[n - 1]);
    }
  }

  lemma SinceStays(row: Membership, e: Event)
    requires e.Joined? ==> row.status != Invited
    ensures Since(Next(row, e)) == Since(row)
  {
  }

  /** A member who did not join during the streak is removed no sooner than
      grace and then one full interval for every warning, counted from the
      instant the row itself shows. */
  lemma BoundFromTheRow(m: Membership, es: seq<Event>, p: Policy, r: nat)
    requires Fresh(m) && FixedPolicy(es, p) && r < |es| && ActionAt(m, es, r) == Revoke
    requires Streak(m, es, r) != [] ==> forall k | Streak(m, es, r)[0] <= k < r :: NoJoin(m, es, k)
    ensures Instant(es[r]) >= Since(RowAt(m, es, r)) + p.Grace() + p.maxWarnings * p.Interval()
  {
    hide RowAt, ActionAt, Spaced;
    RevocationEndsFullLadder(m, es, p, r);
    var k := Streak(m, es, r);
    if k != [] {
      assert k[0] < r by { RungIsWarning(m, es, p, r, k, 0); }
      SinceMovesOnlyByJoining(m, es, k[0], r);
      assert (p.maxWarnings - 0) * p.Interval() == p.maxWarnings * p.Interval();
    }
  }

  /** Joining in mid-streak moves the reference instant, so the bound counted
      from the *latest* reference instant is not a law: invited on day 0, warned
      on days 30 and 35, joined on day 36, warned on day 66, removed on day 71,
      which is 35 days after joining and not 30 + 3 * 5. */
  lemma JoiningMidStreakShortensTheLatestBound()
    ensures exists m: Membership, es: seq<Event>, p: Policy, r: nat ::
              && Fresh(m) && FixedPolicy(es, p) && r < |es| && ActionAt(m, es, r) == Revoke
              && es[r].now < Since(RowAt(m, es, r)) + p.Grace() + p.maxWarnings * p.Interval()
  {
    var p := Policy(3, 5, 30);
    var m := NewMembership(0, 0, 0, 0).(status := Invited);
    var v := Verdict(NotRegistered, NonCompliant, 0, 0);
    var es := [Checked(p, v, 30 * DAY), Checked(p, v, 35 * DAY), Joined(36 * DAY), Checked(p, v, 66 * DAY),
        Checked(p, v, 71 * DAY)];
    var m1 := m.(warnings := 1, lastWarning := Some(30 * DAY));
    var m2 := m.(warnings := 2, lastWarning := Some(35 * DAY));
    var m3 := m2.(status := Active, joinedAt := Some(36 * DAY));
    var m4 := m3.(warnings := 3, lastWarning := Some(66 * DAY));
    assert RowAt(m, es, 0) == m;
    assert RowAt(m, es, 1) == m1;
    assert RowAt(m, es, 2) == m2;
    assert RowAt(m, es, 3) == m3;
    assert RowAt(m, es, 4) == m4;
    assert ActionAt(m, es, 4) == Revoke;
    assert FixedPolicy(es, p);
  }
}
