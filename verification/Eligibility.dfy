/** Who qualifies: the provider's answer and the tenant's thresholds in, a verdict out. */
module Eligibility {
  import opened Types

  /** What the provider said about one account; `None` trades is "not told". */
  datatype Check = Check(registered: bool, deposit: Amount, trades: Option<int>)

  datatype Rules = Rules(minimumBalance: Amount, minimumTrades: int, tradePeriodDays: int)

  datatype Reason = Eligible | NotRegistered | InsufficientBalance | InsufficientTrading | ProviderUnavailable

  datatype Verdict = Verdict(reason: Reason, state: ComplianceState, balance: Amount, shortfall: Amount)

  /** `check == None`: the provider could not be reached. */
  function Evaluate(check: Option<Check>, rules: Rules, requireTrading: bool): Verdict {
    match check
    case None => Verdict(ProviderUnavailable, Unavailable, 0, 0)
    case Some(c) =>
      if !c.registered then Verdict(NotRegistered, NonCompliant, c.deposit, 0)
      else if c.deposit < rules.minimumBalance then
        Verdict(InsufficientBalance, NonCompliant, c.deposit, rules.minimumBalance - c.deposit)
      else if requireTrading && c.trades == None then Verdict(ProviderUnavailable, Unavailable, c.deposit, 0)
      else if requireTrading && c.trades.value < rules.minimumTrades then
        Verdict(InsufficientTrading, NonCompliant, c.deposit, 0)
      else Verdict(Eligible, Compliant, c.deposit, 0)
  }

  /** A verdict that blames the member: neither eligible nor an outage. */
  predicate Definite(r: Reason) {
    r != Eligible && r != ProviderUnavailable
  }

  /** Blame needs evidence: the provider answered, and the answer itself breaks a
      rule. Qualifying for monitoring implies qualifying for sign-up, and more
      money never turns an eligible account away. */
  lemma BlameNeedsEvidence(check: Option<Check>, rules: Rules, trading: bool, extra: Amount)
    requires extra >= 0
    ensures var v := Evaluate(check, rules, trading);
            && (Definite(v.reason) <==>
                  check.Some?
                  && (!check.value.registered || check.value.deposit < rules.minimumBalance
                      || (trading && check.value.trades.Some? && check.value.trades.value < rules.minimumTrades)))
            && (v.reason == Eligible ==> Evaluate(check, rules, false).reason == Eligible)
            && (v.reason == Eligible ==>
                  Evaluate(Some(check.value.(deposit := check.value.deposit + extra)), rules, trading).reason ==
                      Eligible)
  {
  }

  /** Each reason comes exactly on its evidence, the first rule broken before any
      later one; a missing trade count excuses only what trades alone decide. The
      state and the figures say the same. */
  lemma ReasonIff(check: Option<Check>, rules: Rules, trading: bool)
    ensures var v := Evaluate(check, rules, trading);
            && (v.reason == NotRegistered <==> check.Some? && !check.value.registered)
            && (v.reason == InsufficientBalance <==>
                  check.Some? && check.value.registered && check.value.deposit < rules.minimumBalance)
            && (v.reason == InsufficientTrading <==>
                  check.Some? && check.value.registered && check.value.deposit >= rules.minimumBalance && trading
                  && check.value.trades.Some? && check.value.trades.value < rules.minimumTrades)
            && (v.reason == Eligible <==>
                  check.Some? && check.value.registered && check.value.deposit >= rules.minimumBalance
                  && (trading ==> check.value.trades.Some? && check.value.trades.value >= rules.minimumTrades))
            && (v.state == Compliant <==> v.reason == Eligible)
            && (v.state == Unavailable <==> v.reason == ProviderUnavailable)
            && (v.state == NonCompliant <==> Definite(v.reason))
            && v.balance == (if check.Some? then check.value.deposit else 0)
            && v.shortfall == if v.reason == InsufficientBalance then rules.minimumBalance - v.balance else 0
  {
  }

  /** Rounding towards plus infinity to a multiple of `quantum`. */
  function Ceiling(x: int, quantum: int): int
    requires quantum > 0
  {
    -((-x) / quantum) * quantum
  }

  /** The numeric value of a formatted amount: `quantum` is 10^-places. */
  function FormatAmount(value: Amount, quantum: Amount): Amount
    requires quantum > 0
  {
    Ceiling(value, quantum)
  }

  lemma CeilingBounds(x: int, q: int)
    requires q > 0
    ensures x <= Ceiling(x, q) < x + q
  {
    assert -x == (-x) / q * q + (-x) % q;
  }

  lemma TimesMonotone(a: int, b: int, q: int)
    requires q > 0
    ensures a <= b ==> a * q <= b * q
  {
  }

  lemma MultiplesAreSparse(k: int, q: int)
    requires q > 0 && -q < k * q < 2 * q
    ensures k == 0 || k == 1
  {
    TimesMonotone(2, k, q);
    TimesMonotone(k, -1, q);
  }

  lemma CeilingOfSum(x: int, y: int, q: int)
    requires q > 0
    ensures var gap := Ceiling(x, q) + Ceiling(y, q) - Ceiling(x + y, q);
            gap == 0 || gap == q
  {
    CeilingBounds(x, q);
    CeilingBounds(y, q);
    CeilingBounds(x + y, q);
    var k := (-(x + y)) / q - (-x) / q - (-y) / q;
    assert Ceiling(x, q) + Ceiling(y, q) - Ceiling(x + y, q) == k * q;
    MultiplesAreSparse(k, q);
  }

  /** A deposit closes the gap exactly when it reaches the stated shortfall; the
      rounded figure shown always does and overshoots by less than one quantum;
      the three figures shown disagree by nothing or by one quantum. */
  lemma ShortfallIsHonest(check: Check, rules: Rules, paid: Amount, quantum: Amount)
    requires quantum > 0
    requires Evaluate(Some(check), rules, false).reason == InsufficientBalance
    ensures var v := Evaluate(Some(check), rules, false);
            var shown := FormatAmount(v.shortfall, quantum);
            && (Evaluate(Some(check.(deposit := check.deposit + paid)), rules, false).reason == Eligible <==>
                  paid >= v.shortfall)
            && Evaluate(Some(check.(deposit := check.deposit + shown)), rules, false).reason == Eligible
            && v.shortfall <= shown < v.shortfall + quantum
            && v.balance + v.shortfall == rules.minimumBalance
            && (FormatAmount(v.balance, quantum) + shown - FormatAmount(v.balance + v.shortfall, quantum))
               in {0, quantum}
  {
    var v := Evaluate(Some(check), rules, false);
    CeilingBounds(v.shortfall, quantum);
    CeilingOfSum(v.balance, v.shortfall, quantum);
  }
}
