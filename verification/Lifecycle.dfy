/** One membership row through time: the transitions the services perform on it,
    and the machine they form when seen from that row alone. */
module Lifecycle {
  import opened Types
  import opened Eligibility
  import opened Compliance
  import opened Rows

  function Since(m: Membership): Time {
    if m.joinedAt.Some? then m.joinedAt.value else m.createdAt
  }

  function StateOf(m: Membership): MemberState {
    MemberState(m.status, Since(m), m.warnings, m.lastWarning)
  }

  /** The monitoring pass carries a decision out. */
  function Decided(m: Membership, d: Decision, now: Time): Membership {
    match d.action
    case NoAction => m
    case Restore =>
      m.(warnings := 0, lastWarning := None, status := if m.status == Suspended then Active else m.status)
    case Warn => m.(warnings := d.warningsAfter, lastWarning := Some(now))
    case Revoke => m.(status := Revoked, revokedAt := Some(now), revocationReason := d.detail, link := None)
  }

  /** Onboarding meets an existing row: a removed member starts clean. */
  function Readmitted(m: Membership, subscription: nat): Membership {
    var linked := m.(subscription := subscription);
    if m.status == Revoked || m.status == Expired then
      linked.(status := Pending, revokedAt := None, revocationReason := None, warnings := 0, lastWarning := None)
    else linked
  }

  function NewMembership(user: nat, channel: nat, subscription: nat, now: Time): Membership {
    Membership(user, channel, subscription, Pending, None, None, now, None, None, None, 0, None)
  }

  /** The link a call at `now` may hand out again, if there is one. */
  function LiveLink(m: Membership, now: Time, ttl: Time): Option<string> {
    if m.link == None || m.link.value == "" || (m.status != Invited && m.status != Active) then None
    else if m.issuedAt == None || m.issuedAt.value + ttl <= now then None
    else m.link
  }

  /** The row after issuing an invite; `minted` is Telegram's answer if it is asked. */
  function Issued(m: Membership, now: Time, ttl: Time, minted: string): Membership {
    if LiveLink(m, now, ttl).Some? then m
    else m.(link := Some(minted), issuedAt := Some(now), status := if m.status == Active then Active else Invited)
  }

  datatype Event =
    | Checked(policy: Policy, verdict: Verdict, now: Time)
    | Admitted(subscription: nat, now: Time, ttl: Time, minted: string)
    | Joined(at: Time)

  function Instant(e: Event): Time {
    match e
    case Checked(_, _, now) => now
    case Admitted(_, now, _, _) => now
    case Joined(at) => at
  }

  function DecisionOn(m: Membership, e: Event): Decision
    requires e.Checked?
  {
    Decide(StateOf(m), e.verdict, e.policy, e.now)
  }

  function Next(m: Membership, e: Event): Membership {
    match e
    case Checked(_, _, now) => Decided(m, DecisionOn(m, e), now)
    case Admitted(sub, now, ttl, minted) => Issued(Readmitted(m, sub), now, ttl, minted)
    case Joined(at) => if m.status == Invited then m.(status := Active, joinedAt := Some(at)) else m
  }

  /** The row after the first `n` events. */
  function RowAt(m: Membership, es: seq<Event>, n: nat): Membership
    requires n <= |es|
  {
    if n == 0 then m else Next(RowAt(m, es, n - 1), es[n - 1])
  }

  function ActionAt(m: Membership, es: seq<Event>, i: nat): Action
    requires i < |es|
  {
    if es[i].Checked? then DecisionOn(RowAt(m, es, i), es[i]).action else NoAction
  }

  /** A row with a clean warning record, as every new row is. */
  predicate Fresh(m: Membership) {
    m.warnings == 0 && m.lastWarning == None
  }

  lemma {:induction false} RowAtPrefix(m: Membership, es: seq<Event>, more: seq<Event>, n: nat)
    requires n <= |es|
    ensures RowAt(m, es + more, n) == RowAt(m, es, n)
  {
    if n > 0 {
      RowAtPrefix(m, es, more, n - 1);
      assert (es + more)[n - 1] == es[n - 1];
    }
  }

  lemma {:induction false} RowAtConcat(m: Membership, es: seq<Event>, more: seq<Event>, n: nat)
    requires n <= |more|
    ensures RowAt(m, es + more, |es| + n) == RowAt(RowAt(m, es, |es|), more, n)
  {
    if n == 0 {
      RowAtPrefix(m, es, more, |es|);
    } else {
      RowAtConcat(m, es, more, n - 1);
      assert (es + more)[|es| + n - 1] == more[n - 1];
    }
  }
}
