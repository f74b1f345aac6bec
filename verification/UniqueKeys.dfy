/** Unique indexes under interleaving: no transaction ever sees two rows of one key. */
module UniqueKeys {
  import opened Types
  import opened TenantScope

  /** Whatever becomes of the open transactions, not both versions stay: one is
      deleted by the very transaction that inserted the other. */
  ghost predicate Exclusive(u: Version, v: Version) {
    (u.remover.Some? && u.remover == v.author) || (v.remover.Some? && v.remover == u.author)
  }

  ghost predicate Compatible(u: Version, v: Version) {
    Clash(u.row, v.row) ==> Exclusive(u, v)
  }

  ghost predicate FreeOf(vs: seq<Version>, v: Version) {
    forall u | u in vs :: Compatible(u, v)
  }

  ghost predicate Unique(vs: seq<Version>) {
    vs != [] ==> Unique(vs[..|vs| - 1]) && FreeOf(vs[..|vs| - 1], vs[|vs| - 1])
  }

  lemma Grows(vs: seq<Version>, v: Version)
    ensures Unique(vs + [v]) <==> Unique(vs) && FreeOf(vs, v)
  {
    hide FreeOf;
    assert (vs + [v])[..|vs|] == vs;
  }

  lemma {:induction false} InMarked(vs: seq<Version>, w: Actor, where: Row -> bool, u: Version)
    requires u in Marked(vs, w, where)
    ensures exists v | v in vs :: u == MarkedOne(v, w, where)
  {
    hide MarkedOne;
    var n := |vs| - 1;
    if u in Marked(vs[..n], w, where) {
      InMarked(vs[..n], w, where, u);
      var v :| v in vs[..n] && u == MarkedOne(v, w, where);
    } else {
      assert vs[n] in vs;
    }
  }

  lemma {:induction false} InSettled(vs: seq<Version>, sid: Sid, u: Version)
    ensures u in Settled(vs, sid) ==> exists v | v in vs :: u in SettledOne(v, sid)
    ensures u in Undone(vs, sid) ==> exists v | v in vs :: u in UndoneOne(v, sid)
  {
    hide SettledOne, UndoneOne;
    if vs != [] {
      var n := |vs| - 1;
      InSettled(vs[..n], sid, u);
      assert vs[n] in vs && forall v | v in vs[..n] :: v in vs;
    }
  }

  lemma {:induction false} MarkingKeepsUnique(vs: seq<Version>, w: Actor, where: Row -> bool)
    requires Unique(vs) && !Locked(vs, w, where)
    ensures Unique(Marked(vs, w, where))
  {
    if vs != [] {
      var n := |vs| - 1;
      assert forall v | v in vs[..n] :: v in vs;
      MarkingKeepsUnique(vs[..n], w, where);
      var last := MarkedOne(vs[n], w, where);
      forall u | u in Marked(vs[..n], w, where) ensures Compatible(u, last) {
        InMarked(vs[..n], w, where, u);
        var v :| v in vs[..n] && u == MarkedOne(v, w, where);
        MarkedPair(v, vs[n], w, where);
      }
      Grows(Marked(vs[..n], w, where), last);
    }
  }

  lemma MarkedPair(u: Version, v: Version, w: Actor, where: Row -> bool)
    requires Compatible(u, v) && !(Hit(w, where, u) && u.remover.Some?) && !(Hit(w, where, v) && v.remover.Some?)
    ensures Compatible(MarkedOne(u, w, where), MarkedOne(v, w, where))
  {
    hide Hit, Clash;
  }

  lemma {:induction false} EndingKeepsUnique(vs: seq<Version>, sid: Sid)
    requires Unique(vs)
    ensures Unique(Settled(vs, sid)) && Unique(Undone(vs, sid))
  {
    hide SettledOne, UndoneOne, Compatible;
    if vs != [] {
      var n := |vs| - 1;
      EndingKeepsUnique(vs[..n], sid);
      forall u, v | u in Settled(vs[..n], sid) && v in SettledOne(vs[n], sid) ensures Compatible(u, v) {
        InSettled(vs[..n], sid, u);
        var x :| x in vs[..n] && u in SettledOne(x, sid);
        EndedPair(x, vs[n], sid, u, v);
      }
      forall u, v | u in Undone(vs[..n], sid) && v in UndoneOne(vs[n], sid) ensures Compatible(u, v) {
        InSettled(vs[..n], sid, u);
        var x :| x in vs[..n] && u in UndoneOne(x, sid);
        EndedPair(x, vs[n], sid, u, v);
      }
      OneAtMost(vs[n], sid);
      JoinsOne(Settled(vs[..n], sid), SettledOne(vs[n], sid));
      JoinsOne(Undone(vs[..n], sid), UndoneOne(vs[n], sid));
    }
  }

  lemma OneAtMost(v: Version, sid: Sid)
    ensures |SettledOne(v, sid)| <= 1 && |UndoneOne(v, sid)| <= 1
  {
  }

  lemma JoinsOne(vs: seq<Version>, last: seq<Version>)
    requires Unique(vs) && |last| <= 1 && forall u, v | u in vs && v in last :: Compatible(u, v)
    ensures Unique(vs + last)
  {
    hide Compatible;
    if last == [] {
      assert vs + last == vs;
    } else {
      Grows(vs, last[0]);
      assert last == [last[0]];
    }
  }

  lemma EndedPair(x: Version, y: Version, sid: Sid, u: Version, v: Version)
    requires Compatible(x, y)
    ensures u in SettledOne(x, sid) && v in SettledOne(y, sid) ==> Compatible(u, v)
    ensures u in UndoneOne(x, sid) && v in UndoneOne(y, sid) ==> Compatible(u, v)
  {
    hide Clash;
  }

  lemma {:induction false} AddingKeepsUnique(vs: seq<Version>, made: seq<Row>, sid: Sid)
    requires Unique(vs) && !SelfClash(made)
    requires forall v, f | v in vs && f in made :: Clash(v.row, f) ==> v.remover == Some(sid)
    ensures Unique(vs + Added(made, sid))
    decreases |made|
  {
    hide Clash;
    if made == [] {
      assert vs + Added(made, sid) == vs;
    } else {
      var n := |made| - 1;
      forall i, j | 0 <= i < j < |made| ensures !Clash(made[i], made[j]) {}
      assert forall i, j | 0 <= i < j < n :: !Clash(made[..n][i], made[..n][j]);
      assert forall f | f in made[..n] :: f in made;
      AddingKeepsUnique(vs, made[..n], sid);
      assert made[n] in made;
      var before := vs + Added(made[..n], sid);
      var last := Version(made[n], Some(sid), None);
      forall u | u in before ensures Compatible(u, last) {
        if u in vs {
        } else {
          var i :| 0 <= i < n && u == Added(made[..n], sid)[i];
          assert !Clash(made[i], made[n]);
        }
      }
      Grows(before, last);
      assert vs + Added(made, sid) == before + [last];
    }
  }

  lemma PerformKeepsUnique(w: Actor, vs: seq<Version>, st: Statement)
    requires Unique(vs)
    ensures Unique(Perform(w, vs, st).versions)
  {
    hide SelfClash, AllAllowed;
    if st.Write? && Perform(w, vs, st).result.Wrote? {
      var made := st.make(Seen(vs, w, st.where));
      MarkingKeepsUnique(vs, w, st.where);
      forall u, f | u in Marked(vs, w, st.where) && f in made
        ensures Clash(u.row, f) ==> u.remover == Some(w.sid)
      {
        InMarked(vs, w, st.where, u);
        var v :| v in vs && u == MarkedOne(v, w, st.where);
        ClashIsMarked(vs, w, st.where, made, v, f);
      }
      AddingKeepsUnique(Marked(vs, w, st.where), made, w.sid);
    }
  }

  lemma ClashIsMarked(vs: seq<Version>, w: Actor, where: Row -> bool, made: seq<Row>, v: Version, f: Row)
    requires v in vs && f in made && !Taken(vs, w, where, made) && !Undecided(vs, w, made)
    ensures MarkedOne(v, w, where).row == v.row
    ensures Clash(v.row, f) ==> MarkedOne(v, w, where).remover == Some(w.sid)
  {
    hide Hit, Clash;
  }

  lemma StepKeepsUnique(scope: Scope, s: State, step: Step)
    requires Unique(s.versions)
    ensures Unique(Take(scope, s, step).state.versions)
  {
    hide Unique, Perform, Narrowed, Held;
    match step
    case Begin(sid, c) =>
    case Execute(sid, st) =>
      if sid in s.open { PerformKeepsUnique(ActorOf(scope, s, sid), s.versions, Narrowed(scope.Info(sid), st)); }
    case End(sid, commit) => EndingKeepsUnique(s.versions, sid);
  }

  /** The rows of a list are pairwise different in every unique key. */
  ghost predicate Distinct(rows: seq<Row>) {
    forall i, j | 0 <= i < j < |rows| :: !Clash(rows[i], rows[j])
  }

  lemma {:induction false} SeenIsDistinct(vs: seq<Version>, w: Actor, where: Row -> bool)
    requires Unique(vs)
    ensures Distinct(Seen(vs, w, where))
    ensures forall r | r in Seen(vs, w, where) :: exists v | v in vs :: Hit(w, where, v) && v.row == r
  {
    hide Clash;
    if vs != [] {
      var n := |vs| - 1;
      SeenIsDistinct(vs[..n], w, where);
      forall r | r in Seen(vs[..n], w, where)
        ensures exists v | v in vs :: Hit(w, where, v) && v.row == r
        ensures Hit(w, where, vs[n]) ==> !Clash(r, vs[n].row)
      {
        var v :| v in vs[..n] && Hit(w, where, v) && v.row == r;
        assert v in vs && Compatible(v, vs[n]);
      }
      assert vs[n] in vs;
    }
  }

  /** However transactions interleave, commit and roll back, no statement is ever
      answered with two rows of one primary or unique key. */
  lemma {:induction false} UniqueKeysHold(scope: Scope, s: State, steps: seq<Step>, w: Actor, where: Row -> bool)
    requires Unique(s.versions)
    ensures Unique(After(scope, s, steps).versions)
    ensures Distinct(Seen(After(scope, s, steps).versions, w, where))
  {
    hide Unique, Take, Distinct;
    if steps == [] {
    } else {
      UniqueKeysHold(scope, s, steps[..|steps| - 1], w, where);
      StepKeepsUnique(scope, After(scope, s, steps[..|steps| - 1]), steps[|steps| - 1]);
    }
    SeenIsDistinct(After(scope, s, steps).versions, w, where);
  }
}
