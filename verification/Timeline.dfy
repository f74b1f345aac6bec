/** When warnings and the removal fall, for a member who keeps failing. */
module Timeline {
  import opened Types
  import opened Eligibility
  import opened Compliance
  import opened Rows
  import opened Lifecycle

  /** Histories made of failing checks only, all past the member's grace. */
  ghost predicate AlwaysFailing(m: Membership, es: seq<Event>, p: Policy) {
    && Fresh(m) && Monitored(m.status)
    && forall i | 0 <= i < |es| ::
         es[i].Checked? && es[i].policy == p && Definite(es[i].verdict.reason) && es[i].now >= Since(m) + p.Grace()
  }

  /** One failing check past grace, in terms of the three facts that matter. */
  lemma FailingCheck(row: Membership, e: Event)
    requires e.Checked? && Definite(e.verdict.reason) && Monitored(row.status) && e.now >= Since(row) + e.policy.Grace()
    ensures var a := DecisionOn(row, e).action;
            if row.lastWarning.Some? && e.now < row.lastWarning.value + e.policy.Interval() then
              a == NoAction && Next(row, e) == row
            else if row.warnings < e.policy.maxWarnings then
              a == Warn && Next(row, e) == row.(warnings := row.warnings + 1, lastWarning := Some(e.now))
            else a == Revoke && Next(row, e).status == Revoked
  {
  }

  lemma {:induction false} RemovedStaysRemoved(m: Membership, es: seq<Event>, p: Policy, r: nat, n: nat)
    requires AlwaysFailing(m, es, p) && r < n <= |es| && ActionAt(m, es, r) == Revoke
    ensures RowAt(m, es, n).status == Revoked && (n < |es| ==> ActionAt(m, es, n) == NoAction)
  {
    if n > r + 1 { RemovedStaysRemoved(m, es, p, r, n - 1); }
  }

  // Regular passes: every `d`, starting past grace.

  /** The number of passes between warnings: max(1, ceil(interval / d)). */
  function Stride(interval: Time, d: Time): (s: int)
    requires d > 0
    ensures s >= 1
  {
    if interval <= d then 1 else -((-interval) / d)
  }

  lemma StrideFacts(interval: Time, d: Time)
    requires d > 0
    ensures var s := Stride(interval, d); s * d >= interval && (s > 1 ==> (s - 1) * d < interval)
  {
    if interval > d {
      CeilingBounds(interval, d);
      assert (Stride(interval, d) - 1) * d == Ceiling(interval, d) - d;
    }
  }

  ghost predicate EveryD(es: seq<Event>, t0: Time, d: Time) {
    forall i | 0 <= i < |es| && es[i].Checked? :: es[i].now == t0 + i * d
  }

  /** Just before pass q * s + r: `q` rungs are complete and, inside a stride,
      rung q + 1 has been given at its first pass. */
  ghost predicate OnSchedule(row: Membership, m: Membership, t0: Time, d: Time, s: int, q: nat, r: nat) {
    var given := if r == 0 then q else q + 1;
    row == m.(warnings := given, lastWarning := if given == 0 then None else Some(t0 + ((given - 1) * s) * d))
  }

  lemma GapInside(s: int, q: nat, r: nat, d: Time, interval: Time)
    requires d > 0 && s == Stride(interval, d) && 0 < r < s
    ensures (q * s + r) * d < (q * s) * d + interval
  {
    StrideFacts(interval, d);
    assert (q * s + r) * d == (q * s) * d + r * d;
    TimesMonotone(r, s - 1, d);
  }

  lemma GapAtRung(s: int, q: nat, d: Time, interval: Time)
    requires d > 0 && s == Stride(interval, d) && q > 0
    ensures (q * s) * d >= ((q - 1) * s) * d + interval
  {
    StrideFacts(interval, d);
    assert q * s == (q - 1) * s + s;
    assert ((q - 1) * s + s) * d == ((q - 1) * s) * d + s * d;
  }

  lemma ScheduleStep(m: Membership, es: seq<Event>, p: Policy, t0: Time, d: Time, q: nat, r: nat)
    requires AlwaysFailing(m, es, p) && d > 0 && EveryD(es, t0, d)
    requires var s := Stride(p.Interval(), d);
             r < s && q * s + r < |es| && (q < p.maxWarnings || (q == p.maxWarnings && r == 0))
             && OnSchedule(RowAt(m, es, q * s + r), m, t0, d, s, q, r)
    ensures var s := Stride(p.Interval(), d);
            var i := q * s + r;
            && ActionAt(m, es, i) == (if r != 0 then NoAction else if q < p.maxWarnings then Warn else Revoke)
            && (q < p.maxWarnings ==>
                  if r + 1 < s then OnSchedule(RowAt(m, es, i + 1), m, t0, d, s, q, r + 1)
                  else OnSchedule(RowAt(m, es, i + 1), m, t0, d, s, q + 1, 0))
  {
    var s := Stride(p.Interval(), d);
    var i := q * s + r;
    var row := RowAt(m, es, i);
    assert es[i].now == t0 + i * d;
    assert Since(row) == Since(m);
    FailingCheck(row, es[i]);
    if r != 0 {
      GapInside(s, q, r, d, p.Interval());
      assert (q + 1 - 1) * s == q * s;
    } else if q > 0 {
      GapAtRung(s, q, d, p.Interval());
    }
    assert (q + 1 - 1) * s == q * s;
  }

  lemma {:induction false} ScheduleHolds(m: Membership, es: seq<Event>, p: Policy, t0: Time, d: Time, q: nat, r: nat)
    requires AlwaysFailing(m, es, p) && d > 0 && EveryD(es, t0, d)
    requires var s := Stride(p.Interval(), d);
             r < s && q * s + r < |es| && (q < p.maxWarnings || (q == p.maxWarnings && r == 0))
    ensures OnSchedule(RowAt(m, es, q * Stride(p.Interval(), d) + r), m, t0, d, Stride(p.Interval(), d), q, r)
    decreases q, r
  {
    hide AlwaysFailing, EveryD, ActionAt, RowAt, OnSchedule, Stride;
    var s := Stride(p.Interval(), d);
    if r > 0 {
      ScheduleHolds(m, es, p, t0, d, q, r - 1);
      ScheduleStep(m, es, p, t0, d, q, r - 1);
    } else if q > 0 {
      assert (q - 1) * s + (s - 1) + 1 == q * s;
      ScheduleHolds(m, es, p, t0, d, q - 1, s - 1);
      ScheduleStep(m, es, p, t0, d, q - 1, s - 1);
    } else {
      ScheduleBegins(m, es, p, t0, d);
    }
  }

  lemma ScheduleBegins(m: Membership, es: seq<Event>, p: Policy, t0: Time, d: Time)
    requires AlwaysFailing(m, es, p) && d > 0
    ensures OnSchedule(RowAt(m, es, 0), m, t0, d, Stride(p.Interval(), d), 0, 0)
  {
  }

  /** With passes every `d` and a member who keeps failing past grace, the
      warnings fall on passes 0, s, 2s, ... and the removal on pass
      maxWarnings * s, where s is the stride; nothing happens on any other. */
  lemma ExactTimeline(m: Membership, es: seq<Event>, p: Policy, t0: Time, d: Time, i: nat)
    requires AlwaysFailing(m, es, p) && d > 0 && EveryD(es, t0, d) && i < |es|
    ensures var s := Stride(p.Interval(), d);
            ActionAt(m, es, i) ==
              if i > p.maxWarnings * s then NoAction
              else if i == p.maxWarnings * s then Revoke
              else if i % s == 0 then Warn
              else NoAction
  {
    hide AlwaysFailing, EveryD, ActionAt, Stride;
    var s := Stride(p.Interval(), d);
    var q, r := i / s, i % s;
    SplitPass(i, s, p.maxWarnings);
    if q < p.maxWarnings {
      BeforeRemoval(m, es, p, t0, d, q, r);
    } else {
      FromRemovalOn(m, es, p, t0, d, i);
    }
  }

  lemma SplitPass(i: nat, s: int, k: nat)
    requires s > 0
    ensures i == (i / s) * s + i % s && (i / s < k <==> i < k * s)
  {
    var q := i / s;
    if q < k {
      ScaleUp(q + 1, k, s);
      assert (q + 1) * s == q * s + s;
    } else {
      ScaleUp(k, q, s);
    }
  }

  lemma BeforeRemoval(m: Membership, es: seq<Event>, p: Policy, t0: Time, d: Time, q: nat, r: nat)
    requires AlwaysFailing(m, es, p) && d > 0 && EveryD(es, t0, d)
    requires r < Stride(p.Interval(), d) && q * Stride(p.Interval(), d) + r < |es| && q < p.maxWarnings
    ensures ActionAt(m, es, q * Stride(p.Interval(), d) + r) == if r == 0 then Warn else NoAction
  {
    ScheduleHolds(m, es, p, t0, d, q, r);
    ScheduleStep(m, es, p, t0, d, q, r);
  }

  lemma FromRemovalOn(m: Membership, es: seq<Event>, p: Policy, t0: Time, d: Time, i: nat)
    requires AlwaysFailing(m, es, p) && d > 0 && EveryD(es, t0, d) && i < |es|
    requires i >= p.maxWarnings * Stride(p.Interval(), d)
    ensures ActionAt(m, es, i) == if i == p.maxWarnings * Stride(p.Interval(), d) then Revoke else NoAction
  {
    hide AlwaysFailing, EveryD, ActionAt, RowAt, OnSchedule, Stride;
    var last := p.maxWarnings * Stride(p.Interval(), d);
    ScheduleHolds(m, es, p, t0, d, p.maxWarnings, 0);
    ScheduleStep(m, es, p, t0, d, p.maxWarnings, 0);
    if i > last { RemovedStaysRemoved(m, es, p, last, i); }
  }

  // Irregular passes: consecutive ones at most `g` apart, in any direction.

  ghost predicate GapAtMost(es: seq<Event>, g: Time) {
    forall i, j | 0 <= i < j < |es| && j == i + 1 :: Instant(es[j]) <= Instant(es[i]) + g
  }

  /** Not yet removed just before pass n: the last warning came in time, and the
      previous pass was that warning or fell short of its interval. */
  ghost predicate InTime(row: Membership, m: Membership, es: seq<Event>, p: Policy, g: Time, n: nat)
    requires 0 < n <= |es|
  {
    && row == m.(warnings := row.warnings, lastWarning := row.lastWarning)
    && 1 <= row.warnings <= p.maxWarnings && row.lastWarning.Some?
    && row.lastWarning.value <= Instant(es[0]) + (row.warnings - 1) * (p.Interval() + g)
    && Instant(es[n - 1]) <= row.lastWarning.value + p.Interval()
  }

  lemma InTimeStep(m: Membership, es: seq<Event>, p: Policy, g: Time, n: nat, row: Membership)
    requires AlwaysFailing(m, es, p) && GapAtMost(es, g) && g >= 0 && p.Interval() >= 0 && 0 < n < |es|
    requires row == RowAt(m, es, n) && InTime(row, m, es, p, g, n)
    ensures Instant(es[n]) <= Instant(es[0]) + p.maxWarnings * (p.Interval() + g)
    ensures ActionAt(m, es, n) == Revoke || InTime(RowAt(m, es, n + 1), m, es, p, g, n + 1)
  {
    hide DecisionOn, Next;
    FailingCheck(row, es[n]);
    var c := p.Interval() + g;
    assert Instant(es[n]) <= Instant(es[n - 1]) + g;
    assert row.warnings * c == (row.warnings - 1) * c + c;
    ScaleUp(row.warnings, p.maxWarnings, c);
  }

  lemma ScaleUp(a: int, b: int, c: int)
    requires c >= 0 && a <= b
    ensures a * c <= b * c
  {
  }

  lemma {:induction false} InTimeUntilRemoved(m: Membership, es: seq<Event>, p: Policy, g: Time, n: nat)
    requires AlwaysFailing(m, es, p) && GapAtMost(es, g) && g >= 0
    requires p.Interval() >= 0 && p.maxWarnings > 0 && 0 < n <= |es|
    requires forall i | 0 <= i < n :: ActionAt(m, es, i) != Revoke
    ensures InTime(RowAt(m, es, n), m, es, p, g, n)
  {
    if n == 1 {
      assert RowAt(m, es, 0) == m;
      FailingCheck(m, es[0]);
    } else {
      InTimeUntilRemoved(m, es, p, g, n - 1);
      InTimeStep(m, es, p, g, n - 1, RowAt(m, es, n - 1));
    }
  }

  /** Passes at most `g` apart remove a member who keeps failing no later than
      maxWarnings * (interval + g) after the first warning, which is the first
      pass: once any pass lies beyond that instant, the removal has happened. */
  lemma BoundedLiveness(m: Membership, es: seq<Event>, p: Policy, g: Time, i: nat)
    requires AlwaysFailing(m, es, p) && GapAtMost(es, g) && g >= 0 && p.Interval() >= 0
    requires i < |es| && Instant(es[i]) > Instant(es[0]) + p.maxWarnings * (p.Interval() + g)
    ensures exists r: nat :: r < i && ActionAt(m, es, r) == Revoke
                             && Instant(es[r]) <= Instant(es[0]) + p.maxWarnings * (p.Interval() + g)
  {
    hide AlwaysFailing, GapAtMost, ActionAt;
    if p.maxWarnings == 0 {
      NoWarningsToGive(m, es, p);
      assert 0 < i;
    } else {
      var r := FirstRemoval(m, es, i);
      StillInTime(m, es, p, g, r);
      assert r < i;
    }
  }

  lemma NoWarningsToGive(m: Membership, es: seq<Event>, p: Policy)
    requires AlwaysFailing(m, es, p) && p.maxWarnings == 0 && es != []
    ensures ActionAt(m, es, 0) == Revoke
  {
    assert RowAt(m, es, 0) == m;
    FailingCheck(m, es[0]);
  }

  /** As long as nobody is removed, the deadline has not passed. */
  lemma StillInTime(m: Membership, es: seq<Event>, p: Policy, g: Time, n: nat)
    requires AlwaysFailing(m, es, p) && GapAtMost(es, g) && g >= 0 && p.Interval() >= 0 && p.maxWarnings > 0 && n < |es|
    requires forall i | 0 <= i < n :: ActionAt(m, es, i) != Revoke
    ensures Instant(es[n]) <= Instant(es[0]) + p.maxWarnings * (p.Interval() + g)
  {
    if n == 0 {
      ScaleUp(0, p.maxWarnings, p.Interval() + g);
    } else {
      InTimeUntilRemoved(m, es, p, g, n);
      InTimeStep(m, es, p, g, n, RowAt(m, es, n));
    }
  }

  lemma {:induction false} FirstRemoval(m: Membership, es: seq<Event>, n: nat) returns (r: nat)
    requires n <= |es|
    ensures r <= n && (r < n ==> ActionAt(m, es, r) == Revoke)
    ensures forall i | 0 <= i < r :: ActionAt(m, es, i) != Revoke
  {
    if n == 0 {
      r := 0;
    } else {
      r := FirstRemoval(m, es, n - 1);
      if r == n - 1 && ActionAt(m, es, r) != Revoke { r := n; }
    }
  }
}
