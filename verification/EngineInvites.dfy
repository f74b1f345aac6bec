/** The invite ledger, stated of the tables after any history. */
module EngineInvites {
  import opened Types
  import opened Rows
  import opened Lifecycle
  import opened Invites
  import opened Onboarding
  import opened Engine

  ghost predicate NobodyIn(db: Db) {
    forall i | 0 <= i < |db.memberships| :: !Live(db.memberships[i].status) && db.memberships[i].status != Suspended
  }

  lemma {:induction false} OriginIsOutside(db: Db, steps: seq<Step>, mid: nat)
    requires NobodyIn(db) && mid < |After(db, steps).memberships|
    ensures !Live(Origin(db, steps, mid).status) && Origin(db, steps, mid).status != Suspended
  {
    hide Apply;
    if steps != [] {
      var n := |steps| - 1;
      if mid < |After(db, steps[..n]).memberships| { OriginIsOutside(db, steps[..n], mid); }
    }
  }

  /** Telegram never answers with an empty link. */
  ghost predicate AnswersLinks(steps: seq<Step>) {
    forall i | 0 <= i < |steps| && steps[i].Onboard? :: steps[i].rq.minted != ""
  }

  lemma StepLinksAreReal(db: Db, step: Step, mid: nat)
    requires mid < |db.memberships| && (step.Onboard? ==> step.rq.minted != "")
    ensures RealLinks(StepEvents(db, step, mid))
  {
    hide Submit;
  }

  lemma {:induction false} StoryLinksAreReal(db: Db, steps: seq<Step>, mid: nat)
    requires AnswersLinks(steps) && mid < |After(db, steps).memberships|
    ensures RealLinks(Story(db, steps, mid))
  {
    hide Apply, Submit, StepEvents;
    if steps != [] {
      var n := |steps| - 1;
      var before := After(db, steps[..n]);
      if mid < |before.memberships| {
        assert AnswersLinks(steps[..n]);
        StoryLinksAreReal(db, steps[..n], mid);
        StepLinksAreReal(before, steps[n], mid);
      } else {
        NewRow(before, steps[n]);
      }
    }
  }

  /** Over any committed history: two mints for one membership are the link's
      lifetime apart unless it stopped being live in between; every other call
      hands out the last minted link, still unexpired; and a membership that is
      live carries that link and its issue time. */
  lemma InviteLedger(db: Db, steps: seq<Step>, mid: nat, j: nat)
    requires NobodyIn(db) && AnswersLinks(steps) && mid < |After(db, steps).memberships|
    requires j < |Story(db, steps, mid)| && Story(db, steps, mid)[j].Admitted?
    ensures var m, es, row := Origin(db, steps, mid), Story(db, steps, mid), After(db, steps).memberships[mid];
            var i, last := LastMint(m, es, j), LastMint(m, es, |es|);
            && (Mints(m, es, j) && i >= 0 ==>
                  es[j].now >= es[i].now + es[j].ttl || exists k: nat :: i < k <= j && !Live(RowAt(m, es, k).status))
            && (!Mints(m, es, j) ==>
                  i >= 0 && Returned(m, es, j) == Some(es[i].minted) && es[j].now < es[i].now + es[j].ttl)
            && (Live(row.status) ==>
                  last >= 0 && row.link == Some(es[last].minted) && row.issuedAt == Some(es[last].now))
  {
    hide Next, Apply, Story, Origin, After, Mints, Returned;
    var m, es := Origin(db, steps, mid), Story(db, steps, mid);
    OriginIsOutside(db, steps, mid);
    StoryLinksAreReal(db, steps, mid);
    StoryTellsTheRow(db, steps, mid);
    if Mints(m, es, j) { MintsAreSpaced(m, es, j); } else { ReuseReturnsLastMint(m, es, j); }
    if Live(RowAt(m, es, |es|).status) { InvitedHasLink(m, es, |es|); }
  }
}
