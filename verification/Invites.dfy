/** The invite ledger: what a history of admissions mints and hands out. */
module Invites {
  import opened Types
  import opened Rows
  import opened Lifecycle

  /** Call `i` asks Telegram for a new link. */
  predicate Mints(m: Membership, es: seq<Event>, i: nat)
    requires i < |es|
  {
    es[i].Admitted?
    && LiveLink(Readmitted(RowAt(m, es, i), es[i].subscription), es[i].now, es[i].ttl).None?
  }

  /** The link call `i` returns to the member. */
  function Returned(m: Membership, es: seq<Event>, i: nat): Option<string>
    requires i < |es| && es[i].Admitted?
  {
    Next(RowAt(m, es, i), es[i]).link
  }

  predicate Live(s: MembershipStatus) {
    s == Invited || s == Active
  }

  /** The position of the last mint before `n`, or -1. */
  function LastMint(m: Membership, es: seq<Event>, n: nat): (i: int)
    requires n <= |es|
    ensures -1 <= i < n && (i >= 0 ==> Mints(m, es, i))
    ensures forall k | i < k < n :: !Mints(m, es, k)
  {
    if n == 0 then -1 else if Mints(m, es, n - 1) then n - 1 else LastMint(m, es, n - 1)
  }

  /** Telegram never answers with an empty link. */
  ghost predicate RealLinks(es: seq<Event>) {
    forall i | 0 <= i < |es| && es[i].Admitted? :: es[i].minted != ""
  }

  /** Unbroken membership since position `i`: live at every state after it. */
  ghost predicate LiveSince(m: Membership, es: seq<Event>, i: int, n: nat)
    requires n <= |es|
  {
    forall k: nat | i < k <= n :: Live(RowAt(m, es, k).status)
  }

  /** A live row carries exactly what the last mint recorded, and has been live
      ever since that mint. */
  ghost predicate LedgerInv(row: Membership, m: Membership, es: seq<Event>, n: nat)
    requires n <= |es|
  {
    var i := LastMint(m, es, n);
    && row.status != Suspended
    && (Live(row.status) ==>
          && i >= 0 && row.link == Some(es[i].minted) && row.issuedAt == Some(es[i].now) && LiveSince(m, es, i, n))
  }

  /** What one event does to link, issue time and liveness. */
  lemma EventOnLink(row: Membership, e: Event)
    requires row.status != Suspended
    ensures var next := Next(row, e);
            && next.status != Suspended
            && (e.Admitted? ==>
                  Live(next.status)
                  && (if LiveLink(Readmitted(row, e.subscription), e.now, e.ttl).None?
                      then next.link == Some(e.minted) && next.issuedAt == Some(e.now)
                      else next.link == row.link && next.issuedAt == row.issuedAt && Live(row.status)
                           && row.issuedAt.Some? && e.now < row.issuedAt.value + e.ttl))
            && (!e.Admitted? && Live(next.status) ==>
                  next.link == row.link && next.issuedAt == row.issuedAt && Live(row.status))
  {
  }

  lemma {:induction false} LedgerHolds(m: Membership, es: seq<Event>, n: nat)
    requires n <= |es| && !Live(m.status) && m.status != Suspended
    ensures LedgerInv(RowAt(m, es, n), m, es, n)
  {
    if n > 0 {
      hide Next, LiveLink, Readmitted;
      LedgerHolds(m, es, n - 1);
      var row := RowAt(m, es, n - 1);
      EventOnLink(row, es[n - 1]);
      assert RowAt(m, es, n) == Next(row, es[n - 1]);
    }
  }

  /** The live link, when there is none, in terms of the recorded issue. */
  lemma NoLiveLinkMeans(row: Membership, e: Event)
    requires e.Admitted? && Live(row.status) && row.link.Some? && row.link.value != "" && row.issuedAt.Some?
    requires LiveLink(Readmitted(row, e.subscription), e.now, e.ttl).None?
    ensures e.now >= row.issuedAt.value + e.ttl
  {
  }

  /** Two successive mints for one membership are at least the later call's
      lifetime apart, or the membership stopped being live in between. */
  lemma MintsAreSpaced(m: Membership, es: seq<Event>, j: nat)
    requires !Live(m.status) && m.status != Suspended && RealLinks(es) && j < |es| && Mints(m, es, j)
    ensures var i := LastMint(m, es, j);
            i >= 0 ==> es[j].now >= es[i].now + es[j].ttl || exists k: nat ::
                i < k <= j && !Live(RowAt(m, es, k).status)
  {
    hide Next, LiveLink, Readmitted;
    LedgerHolds(m, es, j);
    var i := LastMint(m, es, j);
    var row := RowAt(m, es, j);
    if i >= 0 && Live(row.status) {
      NoLiveLinkMeans(row, es[j]);
    }
  }

  /** A call that mints nothing returns the last minted link, unexpired, to a
      membership that has been live ever since that mint. */
  lemma ReuseReturnsLastMint(m: Membership, es: seq<Event>, j: nat)
    requires !Live(m.status) && m.status != Suspended && j < |es| && es[j].Admitted? && !Mints(m, es, j)
    ensures var i := LastMint(m, es, j);
            && i >= 0 && Returned(m, es, j) == Some(es[i].minted)
            && es[j].now < es[i].now + es[j].ttl && LiveSince(m, es, i, j)
  {
    hide Next, LiveLink, Readmitted;
    LedgerHolds(m, es, j);
    EventOnLink(RowAt(m, es, j), es[j]);
  }

  /** At every point, a live membership has a link and an issue time on record,
      and they are those of the last mint. */
  lemma InvitedHasLink(m: Membership, es: seq<Event>, n: nat)
    requires !Live(m.status) && m.status != Suspended && n <= |es| && Live(RowAt(m, es, n).status)
    ensures var i, row := LastMint(m, es, n), RowAt(m, es, n);
            i >= 0 && row.link == Some(es[i].minted) && row.issuedAt == Some(es[i].now)
  {
    hide Next;
    LedgerHolds(m, es, n);
  }
}
