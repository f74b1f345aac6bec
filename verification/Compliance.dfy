/** What to do about a member who stopped qualifying: state in, decision out. */
module Compliance {
  import opened Types
  import opened Eligibility

  datatype Action = NoAction | Warn | Revoke | Restore

  datatype Skip = StillCompliant | Outage | OnboardingGrace | IntervalNotElapsed | NotActiveMembership

  datatype Policy = Policy(maxWarnings: nat, intervalDays: int, graceDays: int) {
    function Interval(): Time { intervalDays * DAY }
    function Grace(): Time { graceDays * DAY }
  }

  datatype MemberState = MemberState(status: MembershipStatus, since: Time, warnings: int, lastWarning: Option<Time>)

  datatype Decision = Decision(action: Action, skip: Option<Skip>, warningsAfter: int, detail: Option<Reason>)

  function Decide(m: MemberState, verdict: Verdict, policy: Policy, now: Time): Decision {
    if !Monitored(m.status) then Decision(NoAction, Some(NotActiveMembership), m.warnings, None)
    else if verdict.reason == ProviderUnavailable then Decision(NoAction, Some(Outage), m.warnings, None)
    else if verdict.reason == Eligible then
      if m.warnings > 0 || m.status == Suspended then Decision(Restore, None, 0, None)
      else Decision(NoAction, Some(StillCompliant), 0, None)
    else if now < m.since + policy.Grace() then Decision(NoAction, Some(OnboardingGrace), m.warnings, None)
    else if m.lastWarning.Some? && now < m.lastWarning.value + policy.Interval() then
      Decision(NoAction, Some(IntervalNotElapsed), m.warnings, None)
    else if m.warnings >= policy.maxWarnings then Decision(Revoke, None, m.warnings, Some(verdict.reason))
    else Decision(Warn, None, m.warnings + 1, Some(verdict.reason))
  }

  /** The first rung past which a blamed member is acted upon. */
  predicate RungDue(m: MemberState, p: Policy, now: Time) {
    now >= m.since + p.Grace() && (m.lastWarning.Some? ==> now >= m.lastWarning.value + p.Interval())
  }

  /** Each action, and each excuse for none, comes exactly in its case; an action on
      blame carries the reason of the verdict and the count to record. */
  lemma DecisionIff(m: MemberState, v: Verdict, p: Policy, now: Time)
    ensures var d, blamed := Decide(m, v, p, now), Monitored(m.status) && Definite(v.reason);
            && (d.action == Revoke <==> blamed && RungDue(m, p, now) && m.warnings >= p.maxWarnings)
            && (d.action == Warn <==> blamed && RungDue(m, p, now) && m.warnings < p.maxWarnings)
            && (d.action == Restore <==>
                  Monitored(m.status) && v.reason == Eligible && (m.warnings > 0 || m.status == Suspended))
            && (d.skip == Some(NotActiveMembership) <==> !Monitored(m.status))
            && (d.skip == Some(Outage) <==> Monitored(m.status) && v.reason == ProviderUnavailable)
            && (d.skip == Some(StillCompliant) <==>
                  Monitored(m.status) && v.reason == Eligible && m.warnings <= 0 && m.status != Suspended)
            && (d.skip == Some(OnboardingGrace) <==> blamed && now < m.since + p.Grace())
            && (d.skip == Some(IntervalNotElapsed) <==>
                  blamed && now >= m.since + p.Grace() && m.lastWarning.Some?
                  && now < m.lastWarning.value + p.Interval())
            && (d.skip.Some? <==> d.action == NoAction)
            && (d.action in {Warn, Revoke} ==> d.detail == Some(v.reason))
            && (d.action == Warn ==> d.warningsAfter == m.warnings + 1)
  {
  }
}
