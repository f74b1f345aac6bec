/** What the end of a transaction does: a commit publishes what the session saw, a
    rollback leaves no trace of it. */
module Endings {
  import opened Types
  import opened TenantScope
  import opened UniqueKeys
  import opened Repositories
  import TenantIsolation

  /** A version as the commit, or the rollback, of `sid` leaves it. */
  ghost predicate PublishedAs(v: Version, u: Version, sid: Sid) {
    && v.remover != Some(sid) && u.row == v.row && u.remover == v.remover
    && u.author == if v.author == Some(sid) then None else v.author
  }

  ghost predicate RevertedAs(v: Version, u: Version, sid: Sid) {
    && v.author != Some(sid) && u.row == v.row && u.author == v.author
    && u.remover == if v.remover == Some(sid) then None else v.remover
  }

  /** Every version the session did not delete stays, committed if it is the
      session's; nothing else is there. */
  ghost predicate Published(vs: seq<Version>, next: seq<Version>, sid: Sid) {
    && (forall v | v in vs && v.remover != Some(sid) :: exists u :: u in next && PublishedAs(v, u, sid))
    && (forall u | u in next :: exists v :: v in vs && PublishedAs(v, u, sid))
  }

  /** Every version the session did not insert stays, its mark lifted if it is the
      session's; nothing else is there. */
  ghost predicate Reverted(vs: seq<Version>, next: seq<Version>, sid: Sid) {
    && (forall v | v in vs && v.author != Some(sid) :: exists u :: u in next && RevertedAs(v, u, sid))
    && (forall u | u in next :: exists v :: v in vs && RevertedAs(v, u, sid))
  }

  lemma EndOfOne(v: Version, u: Version, sid: Sid)
    ensures u in SettledOne(v, sid) <==> PublishedAs(v, u, sid)
    ensures u in UndoneOne(v, sid) <==> RevertedAs(v, u, sid)
  {
  }

  lemma {:induction false} OnesAreKept(vs: seq<Version>, sid: Sid, v: Version, u: Version)
    requires v in vs
    ensures u in SettledOne(v, sid) ==> u in Settled(vs, sid)
    ensures u in UndoneOne(v, sid) ==> u in Undone(vs, sid)
  {
    hide SettledOne, UndoneOne;
    var n := |vs| - 1;
    if v != vs[n] { OnesAreKept(vs[..n], sid, v, u); }
  }

  lemma SettledIsPublished(vs: seq<Version>, sid: Sid)
    ensures Published(vs, Settled(vs, sid), sid)
  {
    hide Settled, SettledOne, PublishedAs;
    forall v | v in vs && v.remover != Some(sid)
      ensures exists u :: u in Settled(vs, sid) && PublishedAs(v, u, sid)
    {
      var u := SettledAs(v, sid);
      EndOfOne(v, u, sid);
      OnesAreKept(vs, sid, v, u);
    }
    forall u | u in Settled(vs, sid)
      ensures exists v :: v in vs && PublishedAs(v, u, sid)
    {
      InSettled(vs, sid, u);
      var v :| v in vs && u in SettledOne(v, sid);
      EndOfOne(v, u, sid);
    }
  }

  lemma SettledAs(v: Version, sid: Sid) returns (u: Version)
    requires v.remover != Some(sid)
    ensures PublishedAs(v, u, sid)
  {
    u := Version(v.row, if v.author == Some(sid) then None else v.author, v.remover);
  }

  lemma UndoneIsReverted(vs: seq<Version>, sid: Sid)
    ensures Reverted(vs, Undone(vs, sid), sid)
  {
    hide Undone, UndoneOne, RevertedAs;
    forall v | v in vs && v.author != Some(sid)
      ensures exists u :: u in Undone(vs, sid) && RevertedAs(v, u, sid)
    {
      var u := UndoneAs(v, sid);
      EndOfOne(v, u, sid);
      OnesAreKept(vs, sid, v, u);
    }
    forall u | u in Undone(vs, sid)
      ensures exists v :: v in vs && RevertedAs(v, u, sid)
    {
      InSettled(vs, sid, u);
      var v :| v in vs && u in UndoneOne(v, sid);
      EndOfOne(v, u, sid);
    }
  }

  lemma UndoneAs(v: Version, sid: Sid) returns (u: Version)
    requires v.author != Some(sid)
    ensures RevertedAs(v, u, sid)
  {
    u := Version(v.row, v.author, if v.remover == Some(sid) then None else v.remover);
  }

  /** In any state: the end of an open transaction publishes exactly what it wrote if
      it is healthy and committed, and reverts exactly that otherwise. */
  lemma EndingsTell(scope: Scope, s: State, sid: Sid, commit: bool)
    requires sid in s.open
    ensures var next := Take(scope, s, TenantScope.End(sid, commit)).state;
            && sid !in next.open
            && if commit && !s.open[sid].failed then Published(s.versions, next.versions, sid)
               else Reverted(s.versions, next.versions, sid)
  {
    hide Published, Reverted, Settled, Undone;
    SettledIsPublished(s.versions, sid);
    UndoneIsReverted(s.versions, sid);
  }

  // What other statements then read.

  /** `reader` stands to the versions after the commit as `w` stood to those before. */
  lemma {:induction false} CommitShowsAll(vs: seq<Version>, w: Actor, reader: Actor, where: Row -> bool)
    requires reader.policy == w.policy && reader.published == w.published
    requires forall v | v in vs :: v.author != Some(reader.sid) || reader.sid == w.sid
    requires forall v | v in vs :: v.remover != Some(reader.sid) || reader.sid == w.sid
    ensures Seen(Settled(vs, w.sid), reader, where) == Seen(vs, w, where)
  {
    if vs != [] {
      var n := |vs| - 1;
      CommitShowsAll(vs[..n], w, reader, where);
      var before, last := Settled(vs[..n], w.sid), SettledOne(vs[n], w.sid);
      if last == [] {
        assert before + last == before;
      } else {
        assert (before + last)[..|before|] == before && last == [last[0]];
      }
    }
  }

  lemma {:induction false} RollbackWasUnseen(vs: seq<Version>, sid: Sid, reader: Actor, where: Row -> bool)
    requires reader.sid != sid
    ensures Seen(Undone(vs, sid), reader, where) == Seen(vs, reader, where)
  {
    if vs != [] {
      var n := |vs| - 1;
      RollbackWasUnseen(vs[..n], sid, reader, where);
      var before, last := Undone(vs[..n], sid), UndoneOne(vs[n], sid);
      if last == [] {
        assert before + last == before;
      } else {
        assert (before + last)[..|before|] == before && last == [last[0]];
      }
    }
  }

  /** Nothing of this session is pending in the versions. */
  ghost predicate Untouched(vs: seq<Version>, sid: Sid) {
    forall v | v in vs :: v.author != Some(sid) && v.remover != Some(sid)
  }

  lemma UndoneMark(v: Version, w: Actor, where: Row -> bool)
    requires !(Hit(w, where, v) && v.remover.Some?)
    ensures UndoneOne(MarkedOne(v, w, where), w.sid) == UndoneOne(v, w.sid)
  {
    hide Allowed;
  }

  lemma {:induction false} UndoneMarks(vs: seq<Version>, w: Actor, where: Row -> bool)
    requires !Locked(vs, w, where)
    ensures Undone(Marked(vs, w, where), w.sid) == Undone(vs, w.sid)
  {
    hide Hit, UndoneOne, MarkedOne;
    if vs != [] {
      var n := |vs| - 1;
      assert forall v | v in vs[..n] :: v in vs;
      UndoneMarks(vs[..n], w, where);
      UndoneMark(vs[n], w, where);
      var before := Marked(vs[..n], w, where);
      assert (before + [MarkedOne(vs[n], w, where)])[..|before|] == before;
    }
  }

  lemma {:induction false} UndoneAdded(vs: seq<Version>, made: seq<Row>, sid: Sid)
    ensures Undone(vs + Added(made, sid), sid) == Undone(vs, sid)
    decreases |made|
  {
    if made == [] {
      assert vs + Added(made, sid) == vs;
    } else {
      var n := |made| - 1;
      UndoneAdded(vs, made[..n], sid);
      var before := vs + Added(made[..n], sid);
      assert vs + Added(made, sid) == before + [Version(made[n], Some(sid), None)];
      assert (before + [Version(made[n], Some(sid), None)])[..|before|] == before;
    }
  }

  /** Whatever a statement did, a rollback leaves what it would have left before. */
  lemma StatementIsUndone(w: Actor, vs: seq<Version>, st: Statement)
    ensures Undone(Perform(w, vs, st).versions, w.sid) == Undone(vs, w.sid)
  {
    hide Undone, Locked, Taken, Undecided, SelfClash, AllAllowed, Marked;
    if st.Write? && Perform(w, vs, st).result.Wrote? {
      UndoneMarks(vs, w, st.where);
      UndoneAdded(Marked(vs, w, st.where), st.make(Seen(vs, w, st.where)), w.sid);
    }
  }

  /** The steps of one transaction: statements of the session and nothing else. */
  ghost predicate OneTransaction(sid: Sid, steps: seq<Step>) {
    forall i | 0 <= i < |steps| :: steps[i].Execute? && steps[i].sid == sid
  }

  lemma {:induction false} StatementsAreUndone(scope: Scope, s: State, sid: Sid, steps: seq<Step>)
    requires sid in s.open && OneTransaction(sid, steps)
    ensures var end := After(scope, s, steps);
            sid in end.open && end.open[sid].conn == s.open[sid].conn && end.settings == s.settings
            && end.open.Keys == s.open.Keys && Undone(end.versions, sid) == Undone(s.versions, sid)
  {
    hide Undone, Perform, Narrowed;
    if steps != [] {
      var n := |steps| - 1;
      StatementsAreUndone(scope, s, sid, steps[..n]);
      var before := After(scope, s, steps[..n]);
      var st := steps[n].st;
      StatementIsUndone(ActorOf(scope, before, sid), before.versions, Narrowed(scope.Info(sid), st));
    }
  }

  lemma {:induction false} NothingToUndo(vs: seq<Version>, sid: Sid)
    requires Untouched(vs, sid)
    ensures Undone(vs, sid) == vs
  {
    if vs != [] {
      NothingToUndo(vs[..|vs| - 1], sid);
      assert vs == vs[..|vs| - 1] + [vs[|vs| - 1]];
    }
  }

  /** However many statements a transaction made and however they ended, a rollback
      leaves every version as it was before the first of them. So does the commit
      of a transaction that had failed. */
  lemma RollbackLeavesNoTrace(scope: Scope, s: State, sid: Sid, steps: seq<Step>, commit: bool)
    requires sid in s.open && Untouched(s.versions, sid) && OneTransaction(sid, steps)
    requires var end := After(scope, s, steps); sid in end.open && (commit ==> end.open[sid].failed)
    ensures Take(scope, After(scope, s, steps), TenantScope.End(sid, commit)).state.versions == s.versions
  {
    hide After;
    StatementsAreUndone(scope, s, sid, steps);
    NothingToUndo(s.versions, sid);
  }

  // Statements that fail.

  /** A refused row or a used key ends the transaction for all but its rollback:
      every later statement of it is answered ABORTED and changes nothing. */
  lemma {:induction false} FailurePoisons(scope: Scope, s: State, sid: Sid, st: Statement, steps: seq<Step>)
    requires sid in s.open && !s.open[sid].failed && !(st.Write? && st.nested)
    requires Answer(scope, s, sid, st) in {Refused, Duplicate} && OneTransaction(sid, steps)
    ensures var poisoned := Take(scope, s, TenantScope.Execute(sid, st)).state;
            && poisoned.versions == s.versions && poisoned.open[sid].failed
            && After(scope, poisoned, steps) == poisoned
            && forall later :: Answer(scope, poisoned, sid, later) == Aborted
  {
    hide Seen, Locked, Taken, Undecided, SelfClash, AllAllowed, Marked;
    var poisoned := Take(scope, s, TenantScope.Execute(sid, st)).state;
    if steps != [] {
      FailurePoisons(scope, s, sid, st, steps[..|steps| - 1]);
      assert poisoned.open[sid := poisoned.open[sid]] == poisoned.open;
    }
  }

  /** Inside a savepoint the same failure leaves the transaction as it was. */
  lemma SavepointHolds(scope: Scope, s: State, sid: Sid, st: Statement)
    requires sid in s.open && !s.open[sid].failed && st.Write? && st.nested
    requires Answer(scope, s, sid, st) in {Refused, Duplicate, Waits}
    ensures Take(scope, s, TenantScope.Execute(sid, st)).state == s
  {
    hide Seen, Locked, Taken, Undecided, SelfClash, AllAllowed, Marked;
    assert s.open[sid := s.open[sid]] == s.open;
  }

  // One session ends, another reads.

  /** The reader begins a transaction of its own once `sid` has ended. */
  ghost predicate ReadsAfter(scope: Scope, s: State, sid: Sid, commit: bool, reader: Sid, c: Cid) {
    var ended := Take(scope, s, TenantScope.End(sid, commit)).state;
    && sid in s.open && reader !in ended.open && c in ended.settings && !Held(ended, c)
    && scope.Info(reader) == scope.Info(sid)
    && (reader == sid || Untouched(s.versions, reader))
  }

  ghost function ReaderState(scope: Scope, s: State, sid: Sid, commit: bool, reader: Sid, c: Cid): State {
    Take(scope, Take(scope, s, TenantScope.End(sid, commit)).state, TenantScope.Begin(reader, c)).state
  }

  lemma ReaderIsWithin(scope: Scope, s: State, sid: Sid, b: TenantId, commit: bool, reader: Sid, c: Cid)
    requires Within(scope, s, sid, b) && ReadsAfter(scope, s, sid, commit, reader, c)
    ensures Within(scope, ReaderState(scope, s, sid, commit, reader, c), reader, b)
    ensures ReaderState(scope, s, sid, commit, reader, c).versions ==
              Take(scope, s, TenantScope.End(sid, commit)).state.versions
  {
    hide Wired, Unique, Settled, Undone, Held, Untouched;
    var ended := Take(scope, s, TenantScope.End(sid, commit)).state;
    StepKeepsWiring(scope, s, TenantScope.End(sid, commit));
    StepKeepsUnique(scope, s, TenantScope.End(sid, commit));
    StepKeepsWiring(scope, ended, TenantScope.Begin(reader, c));
  }

  /** What a healthy transaction reads just before it commits is what a later one of
      its tenant reads: every select is answered alike. */
  lemma CommitPublishesTheView(scope: Scope, s: State, sid: Sid, b: TenantId, reader: Sid, c: Cid, st: Statement)
    requires Within(scope, s, sid, b) && ReadsAfter(scope, s, sid, true, reader, c) && st.Select?
    ensures Answer(scope, ReaderState(scope, s, sid, true, reader, c), reader, st) == Answer(scope, s, sid, st)
  {
    var after := ReaderState(scope, s, sid, true, reader, c);
    ReaderIsWithin(scope, s, sid, b, true, reader, c);
    TenantIsolation.WiredConn(scope, s, sid);
    TenantIsolation.WiredConn(scope, after, reader);
    hide Wired, Unique, Settled, ReaderState, Held;
    CommitShowsAll(s.versions, ActorOf(scope, s, sid), ActorOf(scope, after, reader),
        Narrowed(scope.Info(sid), st).where);
  }

  /** What a transaction wrote and then took back no other ever saw: its end by
      rollback, or by the commit of a failed one, changes no answer. */
  lemma RollbackIsUnseen(scope: Scope, s: State, sid: Sid, commit: bool, other: Sid, st: Statement)
    requires Wired(scope, s) && sid in s.open && other in s.open && other != sid && st.Select?
    requires commit ==> s.open[sid].failed
    ensures Answer(scope, Take(scope, s, TenantScope.End(sid, commit)).state, other, st) == Answer(scope, s, other, st)
  {
    hide Undone, Settled;
    var next := Take(scope, s, TenantScope.End(sid, commit)).state;
    assert next.open[other] == s.open[other] && next.open[other].conn != s.open[sid].conn;
    assert SettingOf(next, next.open[other].conn) == SettingOf(s, s.open[other].conn);
    RollbackWasUnseen(s.versions, sid, ActorOf(scope, s, other), Narrowed(scope.Info(other), st).where);
  }

  // Save, then the end of the transaction.

  /** The state once `saved` has been inserted. */
  ghost function WithSaved(scope: Scope, s: State, sid: Sid, saved: Row): State {
    Take(scope, s, TenantScope.Execute(sid, Insertion(saved))).state
  }

  /** After save and commit a later session of the tenant finds the row by its id. */
  lemma SavedIsFoundAfterCommit(scope: Scope, s: State, sid: Sid, b: TenantId, table: nat, entity: Row, reader: Sid,
          c: Cid)
    requires Within(scope, s, sid, b)
    requires Answer(scope, s, sid, Insertion(entity.(tenant := b, table := table))).Wrote?
    requires var s1 := WithSaved(scope, s, sid, entity.(tenant := b, table := table));
             ReadsAfter(scope, s1, sid, true, reader, c)
    ensures var saved := entity.(tenant := b, table := table);
            var later := ReaderState(scope, WithSaved(scope, s, sid, saved), sid, true, reader, c);
            OneOrNone(Answer(scope, later, reader, ById(table, b, entity.id))) == Found(saved)
  {
    hide Within, ReadsAfter, ReaderState, Answer;
    var saved := entity.(tenant := b, table := table);
    StepStaysWithin(scope, s, sid, b, Insertion(saved));
    SaveGetDelete(scope, s, sid, b, table, entity);
    CommitPublishesTheView(scope, WithSaved(scope, s, sid, saved), sid, b, reader, c, ById(table, b, entity.id));
  }

  /** The row is committed in these versions, deleted by an open transaction or not. */
  ghost predicate OnRecord(vs: seq<Version>, row: Row) {
    exists v :: v in vs && v.author == None && v.row == row
  }

  lemma UndoneKeepsRecord(vs: seq<Version>, sid: Sid, row: Row)
    ensures OnRecord(Undone(vs, sid), row) <==> OnRecord(vs, row)
  {
    hide Undone;
    UndoneIsReverted(vs, sid);
  }

  lemma SeesTheRecord(s: State, reader: Sid, row: Row)
    requires Untouched(s.versions, reader)
    ensures Sees(s, reader, row) <==> OnRecord(s.versions, row)
  {
  }

  lemma ReaderIsUntouched(s: State, sid: Sid, reader: Sid)
    requires reader == sid || Untouched(s.versions, reader)
    ensures Untouched(Undone(s.versions, sid), reader)
  {
    hide Undone;
    UndoneIsReverted(s.versions, sid);
  }

  lemma SavedIsUndone(scope: Scope, s: State, sid: Sid, saved: Row)
    requires sid in s.open
    ensures Undone(WithSaved(scope, s, sid, saved).versions, sid) == Undone(s.versions, sid)
  {
    hide Perform, Undone;
    StatementIsUndone(ActorOf(scope, s, sid), s.versions, Narrowed(scope.Info(sid), Insertion(saved)));
  }

  /** After save and rollback a later session finds under that id exactly the row
      that was on record before the save, if there was one. */
  lemma SavedIsGoneAfterRollback(scope: Scope, s: State, sid: Sid, b: TenantId, table: nat, entity: Row, reader: Sid,
          c: Cid, row: Row)
    requires Within(scope, s, sid, b)
    requires Answer(scope, s, sid, Insertion(entity.(tenant := b, table := table))).Wrote?
    requires var s1 := WithSaved(scope, s, sid, entity.(tenant := b, table := table));
             ReadsAfter(scope, s1, sid, false, reader, c)
    ensures var saved := entity.(tenant := b, table := table);
            var later := ReaderState(scope, WithSaved(scope, s, sid, saved), sid, false, reader, c);
            OneOrNone(Answer(scope, later, reader, ById(table, b, entity.id))) == Found(row) <==>
              OnRecord(s.versions, row) && row.table == table && row.tenant == b && row.id == entity.id
  {
    var saved := entity.(tenant := b, table := table);
    var s1 := WithSaved(scope, s, sid, saved);
    var later := ReaderState(scope, s1, sid, false, reader, c);
    StepStaysWithin(scope, s, sid, b, Insertion(saved));
    ReaderIsWithin(scope, s1, sid, b, false, reader, c);
    SavedIsUndone(scope, s, sid, saved);
    assert later.versions == Undone(s.versions, sid);
    assert Untouched(later.versions, reader) by { ReaderIsUntouched(s1, sid, reader); }
    hide Within, ReaderState, WithSaved, Undone, Answer, Untouched, ReadsAfter, Held;
    GetByIdFindsOwnRows(scope, later, reader, b, table, b, entity.id, row);
    SeesTheRecord(later, reader, row);
    UndoneKeepsRecord(s.versions, sid, row);
  }

  /** So it finds nothing, unless the rolled-back session had itself deleted the row
      of that id before it saved. */
  lemma NothingIsFoundAfterRollback(scope: Scope, s: State, sid: Sid, b: TenantId, table: nat, entity: Row,
          reader: Sid, c: Cid)
    requires Within(scope, s, sid, b)
    requires Answer(scope, s, sid, Insertion(entity.(tenant := b, table := table))).Wrote?
    requires var s1 := WithSaved(scope, s, sid, entity.(tenant := b, table := table));
             ReadsAfter(scope, s1, sid, false, reader, c)
    ensures var saved := entity.(tenant := b, table := table);
            var later := ReaderState(scope, WithSaved(scope, s, sid, saved), sid, false, reader, c);
            OneOrNone(Answer(scope, later, reader, ById(table, b, entity.id))) == Nothing <==>
              forall v | v in s.versions && v.author == None && v.row.tenant == b ::
                !(v.remover == Some(sid) && v.row.table == table && v.row.id == entity.id)
  {
    var saved := entity.(tenant := b, table := table);
    var s1 := WithSaved(scope, s, sid, saved);
    var later := ReaderState(scope, s1, sid, false, reader, c);
    assert Within(scope, later, reader, b) by {
      StepStaysWithin(scope, s, sid, b, Insertion(saved));
      ReaderIsWithin(scope, s1, sid, b, false, reader, c);
    }
    TakenKeysAreOwn(scope, s, sid, b, saved);
    hide Within, ReaderState, WithSaved, Answer, ReadsAfter, Held, OneOrNone;
    LookupOfRows(scope, later, reader, b, table, entity.id);
    var found := OneOrNone(Answer(scope, later, reader, ById(table, b, entity.id)));
    if found.Found? {
      SavedIsGoneAfterRollback(scope, s, sid, b, table, entity, reader, c, found.row);
    }
    forall v | v in s.versions && v.author == None && v.row.tenant == b
      ensures v.remover == Some(sid) && v.row.table == table && v.row.id == entity.id ==> found == Found(v.row)
    {
      SavedIsGoneAfterRollback(scope, s, sid, b, table, entity, reader, c, v.row);
    }
  }

  /** An insert that was made had its key free: rows of that key were the session's
      to delete. */
  lemma TakenKeysAreOwn(scope: Scope, s: State, sid: Sid, b: TenantId, saved: Row)
    requires Within(scope, s, sid, b) && Answer(scope, s, sid, Insertion(saved)).Wrote?
    ensures forall v | v in s.versions && v.author == None && v.row.table == saved.table && v.row.id == saved.id ::
              v.remover == Some(sid)
  {
    hide Wired, Unique, Seen, Marked, AllAllowed, SelfClash;
    var st := Narrowed(scope.Info(sid), Insertion(saved));
    var w := ActorOf(scope, s, sid);
    assert st == Insertion(saved) && st.make(Seen(s.versions, w, st.where)) == [saved];
    assert saved in [saved];
    assert !Taken(s.versions, w, st.where, [saved]) && !Undecided(s.versions, w, [saved]);
    forall v | v in s.versions && v.author == None && v.row.table == saved.table && v.row.id == saved.id
      ensures v.remover == Some(sid)
    {
      SameIdClashes(v.row, saved);
    }
  }
}
