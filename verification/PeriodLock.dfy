/** Period boundaries: flooring an instant to a multiple of the period. */
module PeriodLock {
  import opened Types

  /** Division rounding towards minus infinity, for either sign of `b`. */
  function FloorDiv(a: int, b: int): (q: int)
    requires b != 0
    ensures b > 0 ==> q * b <= a < q * b + b
    ensures b < 0 ==> q * b >= a > q * b + b
  {
    if b > 0 || a % b == 0 then a / b else a / b - 1
  }

  /** A usable period; a zero one makes the program raise on division. */
  type Period = p: Time | p > 0 witness 1

  function PeriodStart(now: Time, period: Time): Time
    requires period != 0
  {
    FloorDiv(now, period) * period
  }

  lemma TimesOrder(a: int, b: int, p: int)
    requires p >= 0 && a <= b
    ensures a * p <= b * p
  {
  }

  lemma ProductOrder(a: int, b: int, p: int)
    requires p > 0 && a * p < b * p + p
    ensures a <= b
  {
    assert (b + 1) * p == b * p + p;
    if a > b { TimesOrder(b + 1, a, p); }
  }

  lemma QuotientUnique(a: int, q: int, p: int)
    requires p > 0 && q * p <= a < q * p + p
    ensures FloorDiv(a, p) == q
  {
    ProductOrder(q, FloorDiv(a, p), p);
    ProductOrder(FloorDiv(a, p), q, p);
  }

  /** Before or after the epoch: the boundary is the only multiple of the period
      that is at or before the instant and less than a period away. */
  lemma BoundaryIsTheFloor(now: Time, period: Time, start: Time)
    requires period > 0
    ensures PeriodStart(now, period) == start <==>
              (exists k: int :: start == k * period) && start <= now < start + period
  {
    if exists k: int :: start == k * period && start <= now < start + period {
      var k :| start == k * period && start <= now < start + period;
      QuotientUnique(now, k, period);
    }
  }

  lemma BoundaryLaws(a: Time, b: Time, period: Time)
    requires period > 0
    ensures PeriodStart(a, period) <= a < PeriodStart(a, period) + period
    ensures PeriodStart(PeriodStart(a, period), period) == PeriodStart(a, period)
    ensures a <= b ==> PeriodStart(a, period) <= PeriodStart(b, period)
    ensures PeriodStart(a, period) == PeriodStart(b, period) <==> SamePeriod(a, b, period)
  {
    QuotientUnique(PeriodStart(a, period), FloorDiv(a, period), period);
    if a <= b {
      ProductOrder(FloorDiv(a, period), FloorDiv(b, period), period);
      TimesOrder(FloorDiv(a, period), FloorDiv(b, period), period);
    }
    if SamePeriod(a, b, period) {
      var k: int :| InPeriod(a, k, period) && InPeriod(b, k, period);
      QuotientUnique(a, k, period);
      QuotientUnique(b, k, period);
    } else if PeriodStart(a, period) == PeriodStart(b, period) {
      assert InPeriod(a, FloorDiv(a, period), period) && InPeriod(b, FloorDiv(a, period), period);
    }
  }

  predicate InPeriod(t: Time, k: int, period: Time) {
    k * period <= t < k * period + period
  }

  ghost predicate SamePeriod(a: Time, b: Time, period: Time) {
    exists k: int :: InPeriod(a, k, period) && InPeriod(b, k, period)
  }

  /** ceil(l / p) for positive p. */
  function CeilDiv(l: int, p: int): int
    requires p > 0
  {
    -FloorDiv(-l, p)
  }

  lemma SpanOfQuotients(w: Time, t: Time, l: int, period: Time)
    requires period > 0 && w <= t < w + l
    ensures FloorDiv(w, period) <= FloorDiv(t, period) <= FloorDiv(w, period) + CeilDiv(l, period)
  {
    var q, k, c := FloorDiv(w, period), FloorDiv(t, period), CeilDiv(l, period);
    ProductOrder(q, k, period);
    assert FloorDiv(-l, period) * period <= -l;
    assert l <= c * period;
    assert (q + c) * period == q * period + c * period;
    assert t < q * period + period + c * period;
    assert (q + c + 1) * period == q * period + c * period + period;
    ProductOrder(k, q + c, period);
  }

  /** Distinct integers of an interval are no more than the interval holds. */
  lemma {:induction false} Crowding(ks: set<int>, lo: int, size: nat)
    requires forall k | k in ks :: lo <= k < lo + size
    ensures |ks| <= size
    decreases size
  {
    if size == 0 {
      assert forall k :: k !in ks;
    } else {
      Crowding(ks - {lo + size - 1}, lo, size - 1);
    }
  }

  /** However many instants of a window of length `l` are claimed under pairwise
      different boundaries, there are at most ceil(l / period) + 1 of them. */
  lemma ClaimsInWindow(times: seq<Time>, w: Time, l: int, period: Time)
    requires period > 0 && l > 0
    requires forall i | 0 <= i < |times| :: w <= times[i] < w + l
    requires forall i, j | 0 <= i < j < |times| :: PeriodStart(times[i], period) != PeriodStart(times[j], period)
    ensures |times| <= CeilDiv(l, period) + 1
  {
    var lo := FloorDiv(w, period);
    var ks := Quotients(times, period);
    forall i | 0 <= i < |times|
      ensures lo <= FloorDiv(times[i], period) <= lo + CeilDiv(l, period)
    {
      SpanOfQuotients(w, times[i], l, period);
    }
    SpanOfQuotients(w, w, l, period);
    Crowding(ks, lo, CeilDiv(l, period) + 1);
  }

  lemma {:induction false} Quotients(times: seq<Time>, period: Time) returns (ks: set<int>)
    requires period > 0
    requires forall i, j | 0 <= i < j < |times| :: PeriodStart(times[i], period) != PeriodStart(times[j], period)
    ensures |ks| == |times| && forall k | k in ks :: exists i :: 0 <= i < |times| && FloorDiv(times[i], period) == k
  {
    if times == [] {
      ks := {};
    } else {
      var n := |times| - 1;
      var before := Quotients(times[..n], period);
      var k := FloorDiv(times[n], period);
      assert k !in before;
      ks := before + {k};
    }
  }
}
