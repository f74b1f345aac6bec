/** The vocabulary shared by every layer: states, time and amounts. */
module Types {
  datatype Option<+T> = None | Some(value: T)

  /** An instant or a duration, in microseconds; instants count from 1970-01-01 UTC. */
  type Time = int

  const DAY: Time := 86_400_000_000

  /** A sum of money as a whole number of 10^-8 units, the scale of Numeric(30, 8). */
  type Amount = int

  type TenantId = nat

  datatype Market = Crypto | Forex

  datatype Provider = Bitunix | Eplanet | Telegram

  datatype MembershipStatus = Pending | Invited | Active | Suspended | Expired | Revoked

  datatype SubscriptionStatus = SubPending | SubActive | SubExpired | SubCancelled

  datatype AccountStatus = Unverified | Verified | Rejected

  datatype ComplianceState = Compliant | NonCompliant | Unavailable | VerificationPending

  datatype JobState = Running | Succeeded | Failed

  /** The statuses the monitoring pass lists and acts on. */
  predicate Monitored(s: MembershipStatus) {
    s == Invited || s == Active || s == Suspended
  }
}
