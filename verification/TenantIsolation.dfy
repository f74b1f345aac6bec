/** Non-interference: what a tenant's sessions leave and return is the same
    whether or not anybody else was there. */
module TenantIsolation {
  import opened Types
  import opened TenantScope

  /** An open transaction's marks are on its own tenant's rows. */
  ghost predicate Owned(scope: Scope, vs: seq<Version>) {
    forall v | v in vs :: OwnMark(scope, v.author, v.row) && OwnMark(scope, v.remover, v.row)
  }

  ghost predicate OwnMark(scope: Scope, mark: Option<Sid>, row: Row) {
    mark.Some? ==> scope.Info(mark.value) == Some(row.tenant)
  }

  /** For which tenant each table's primary keys are generated. */
  type Mint = (nat, nat) -> TenantId

  ghost predicate Genuine(mint: Mint, row: Row) {
    mint(row.table, row.id) == row.tenant
  }

  ghost predicate Minted(mint: Mint, vs: seq<Version>) {
    forall v | v in vs :: Genuine(mint, v.row)
  }

  ghost predicate Belong(mint: Mint, t: TenantId, rows: seq<Row>) {
    forall r | r in rows :: r.tenant == t && Genuine(mint, r)
  }

  /** What the callers owe. Keys they generate are fresh across tenants; without
      the row policy, raw statements and writes name their tenant, or a key of its. */
  ghost predicate Lawful(scope: Scope, mint: Mint, sid: Sid, st: Statement) {
    if sid !in scope.bound then scope.policy || st.Select?
    else
      var t := scope.bound[sid];
      && (scope.policy || (st.Select? && st.orm)
          || forall row | st.where(row) && Genuine(mint, row) :: row.tenant == t)
      && (st.Write? ==> forall rs | Belong(mint, t, rs) :: Makes(scope, mint, t, st.make(rs)))
  }

  ghost predicate Makes(scope: Scope, mint: Mint, t: TenantId, made: seq<Row>) {
    forall f | f in made :: (f.tenant == t ==> Genuine(mint, f)) && (scope.policy || f.tenant == t)
  }

  /** What the layers then guarantee: only rows of `t` are hit or made. */
  ghost predicate Confined(mint: Mint, w: Actor, st: Statement, t: TenantId) {
    && (forall row | Allowed(w, row) && st.where(row) && Genuine(mint, row) :: row.tenant == t)
    && (st.Write? ==> forall rs | Belong(mint, t, rs) :: AllAllowed(w, st.make(rs)) ==> Belong(mint, t, st.make(rs)))
  }

  lemma LayersConfine(scope: Scope, mint: Mint, s: State, sid: Sid, st: Statement, t: TenantId)
    requires Wired(scope, s) && sid in s.open && Lawful(scope, mint, sid, st) && (sid in scope.bound || scope.policy)
    requires sid in scope.bound ==> t == scope.bound[sid]
    ensures Confined(mint, ActorOf(scope, s, sid), Narrowed(scope.Info(sid), st), t)
  {
    var w := ActorOf(scope, s, sid);
    var narrowed := Narrowed(scope.Info(sid), st);
    assert scope.policy ==> w.published == scope.Info(sid);
    if st.Write? {
      forall rs | Belong(mint, t, rs)
        ensures AllAllowed(w, st.make(rs)) ==> Belong(mint, t, st.make(rs))
      {
        if sid in scope.bound { assert Makes(scope, mint, t, st.make(rs)); }
      }
    }
  }

  lemma {:induction false} InView(a: TenantId, vs: seq<Version>, v: Version)
    ensures v in View(a, vs) <==> v in vs && v.row.tenant == a
  {
    if vs != [] {
      var n := |vs| - 1;
      InView(a, vs[..n], v);
      assert vs == vs[..n] + [vs[n]];
    }
  }

  lemma {:induction false} ViewAppends(a: TenantId, us: seq<Version>, vs: seq<Version>)
    ensures View(a, us + vs) == View(a, us) + View(a, vs)
  {
    if vs == [] {
      assert us + vs == us;
    } else {
      var n := |vs| - 1;
      ViewAppends(a, us, vs[..n]);
      assert (us + vs)[..|us| + n] == us + vs[..n];
    }
  }

  lemma {:induction false} ViewOfOne(a: TenantId, b: TenantId, vs: seq<Version>)
    requires forall v | v in vs :: v.row.tenant == b
    ensures View(a, vs) == if a == b then vs else []
  {
    if vs != [] { ViewOfOne(a, b, vs[..|vs| - 1]); }
  }

  lemma Snoc(vs: seq<Version>, v: Version, w: Actor, where: Row -> bool, sid: Sid)
    ensures Seen(vs + [v], w, where) == if Hit(w, where, v) then Seen(vs, w, where) + [v.row] else Seen(vs, w, where)
    ensures Marked(vs + [v], w, where) == Marked(vs, w, where) + [MarkedOne(v, w, where)]
    ensures Settled(vs + [v], sid) == Settled(vs, sid) + SettledOne(v, sid)
    ensures Undone(vs + [v], sid) == Undone(vs, sid) + UndoneOne(v, sid)
  {
    hide Hit;
    assert (vs + [v])[..|vs|] == vs;
  }

  lemma {:induction false} SeenBelongs(mint: Mint, vs: seq<Version>, w: Actor, st: Statement, t: TenantId)
    requires Confined(mint, w, st, t) && Minted(mint, vs)
    ensures Belong(mint, t, Seen(vs, w, st.where))
  {
    hide Confined, Hit;
    if vs != [] {
      var n := |vs| - 1;
      SeenBelongs(mint, vs[..n], w, st, t);
      OnlyOwnHits(mint, w, st, t, vs[n]);
    }
  }

  lemma {:induction false} SeenInView(mint: Mint, vs: seq<Version>, w: Actor, st: Statement, t: TenantId)
    requires Confined(mint, w, st, t) && Minted(mint, vs)
    ensures Seen(vs, w, st.where) == Seen(View(t, vs), w, st.where)
  {
    hide Confined, Hit;
    if vs != [] {
      var n := |vs| - 1;
      SeenInView(mint, vs[..n], w, st, t);
      Snoc(View(t, vs[..n]), vs[n], w, st.where, w.sid);
      OnlyOwnHits(mint, w, st, t, vs[n]);
    }
  }

  lemma MarkedView(a: TenantId, v: Version, w: Actor, where: Row -> bool)
    ensures View(a, [MarkedOne(v, w, where)]) == if v.row.tenant == a then [MarkedOne(v, w, where)] else []
    ensures !Hit(w, where, v) ==> MarkedOne(v, w, where) == v
  {
    hide Hit;
    assert [MarkedOne(v, w, where)][..0] == [];
  }

  lemma {:induction false} MarkedInView(mint: Mint, vs: seq<Version>, w: Actor, st: Statement, t: TenantId,
          a: TenantId)
    requires Confined(mint, w, st, t) && Minted(mint, vs)
    ensures View(a, Marked(vs, w, st.where)) == if a == t then Marked(View(t, vs), w, st.where) else View(a, vs)
  {
    hide Confined, Hit;
    if vs != [] {
      var n := |vs| - 1;
      MarkedInView(mint, vs[..n], w, st, t, a);
      Snoc(View(t, vs[..n]), vs[n], w, st.where, w.sid);
      OnlyOwnHits(mint, w, st, t, vs[n]);
      ViewAppends(a, Marked(vs[..n], w, st.where), [MarkedOne(vs[n], w, st.where)]);
      MarkedView(a, vs[n], w, st.where);
    }
  }

  lemma OnlyOwnHits(mint: Mint, w: Actor, st: Statement, t: TenantId, v: Version)
    requires Confined(mint, w, st, t) && Genuine(mint, v.row)
    ensures Hit(w, st.where, v) ==> v.row.tenant == t
  {
  }

  lemma ConflictsInView(mint: Mint, vs: seq<Version>, w: Actor, st: Statement, t: TenantId, made: seq<Row>)
    requires Confined(mint, w, st, t) && Minted(mint, vs) && Belong(mint, t, made)
    ensures Taken(vs, w, st.where, made) == Taken(View(t, vs), w, st.where, made)
    ensures Undecided(vs, w, made) == Undecided(View(t, vs), w, made)
  {
    forall v | v in vs + View(t, vs) ensures v in View(t, vs) <==> v in vs && v.row.tenant == t { InView(t, vs, v); }
    assert forall v, f | v in vs && f in made && Clash(v.row, f) :: v.row.tenant == t && v in View(t, vs);
    assert forall v | v in View(t, vs) :: v in vs;
  }

  lemma LockedInView(mint: Mint, vs: seq<Version>, w: Actor, st: Statement, t: TenantId)
    requires Confined(mint, w, st, t) && Minted(mint, vs)
    ensures Locked(vs, w, st.where) == Locked(View(t, vs), w, st.where)
  {
    forall v | v in vs + View(t, vs) ensures v in View(t, vs) <==> v in vs && v.row.tenant == t { InView(t, vs, v); }
    assert forall v | v in View(t, vs) :: v in vs;
    assert forall v | v in vs && Hit(w, st.where, v) :: v in View(t, vs);
  }

  /** A confined statement reads and writes its tenant's part only. */
  lemma PerformInView(mint: Mint, w: Actor, vs: seq<Version>, st: Statement, t: TenantId, a: TenantId)
    requires Confined(mint, w, st, t) && Minted(mint, vs)
    ensures var p := Perform(w, vs, st);
            if a == t then p.result == Perform(w, View(t, vs), st).result
              && View(t, p.versions) == Perform(w, View(t, vs), st).versions
            else View(a, p.versions) == View(a, vs)
  {
    hide Taken, Undecided, Locked, SelfClash, Clash, Hit, Confined, Minted;
    SeenBelongs(mint, vs, w, st, t);
    SeenInView(mint, vs, w, st, t);
    if st.Write? {
      var made := st.make(Seen(vs, w, st.where));
      LockedInView(mint, vs, w, st, t);
      if AllAllowed(w, made) {
        assert Belong(mint, t, made) by { MadeBelongs(mint, w, st, t, Seen(vs, w, st.where)); }
        ConflictsInView(mint, vs, w, st, t, made);
        MarkedInView(mint, vs, w, st, t, a);
        ViewAppends(a, Marked(vs, w, st.where), Added(made, w.sid));
        ViewOfOne(a, t, Added(made, w.sid));
      }
    }
  }

  lemma MadeBelongs(mint: Mint, w: Actor, st: Statement, t: TenantId, hit: seq<Row>)
    requires Confined(mint, w, st, t) && st.Write? && Belong(mint, t, hit) && AllAllowed(w, st.make(hit))
    ensures Belong(mint, t, st.make(hit))
  {
  }

  lemma OneKeepsTenant(v: Version, sid: Sid)
    ensures forall u | u in SettledOne(v, sid) + UndoneOne(v, sid) :: u.row == v.row
  {
  }

  lemma {:induction false} SettledInView(vs: seq<Version>, sid: Sid, a: TenantId)
    ensures View(a, Settled(vs, sid)) == Settled(View(a, vs), sid)
  {
    hide SettledOne;
    if vs != [] {
      var n := |vs| - 1;
      SettledInView(vs[..n], sid, a);
      Snoc(View(a, vs[..n]), vs[n], Actor(sid, false, None), _ => false, sid);
      ViewAppends(a, Settled(vs[..n], sid), SettledOne(vs[n], sid));
      OneKeepsTenant(vs[n], sid);
      ViewOfOne(a, vs[n].row.tenant, SettledOne(vs[n], sid));
    }
  }

  lemma {:induction false} UndoneInView(vs: seq<Version>, sid: Sid, a: TenantId)
    ensures View(a, Undone(vs, sid)) == Undone(View(a, vs), sid)
  {
    hide UndoneOne;
    if vs != [] {
      var n := |vs| - 1;
      UndoneInView(vs[..n], sid, a);
      Snoc(View(a, vs[..n]), vs[n], Actor(sid, false, None), _ => false, sid);
      ViewAppends(a, Undone(vs[..n], sid), UndoneOne(vs[n], sid));
      OneKeepsTenant(vs[n], sid);
      ViewOfOne(a, vs[n].row.tenant, UndoneOne(vs[n], sid));
    }
  }

  lemma {:induction false} NoMarksNoChange(vs: seq<Version>, sid: Sid)
    requires forall v | v in vs :: v.author != Some(sid) && v.remover != Some(sid)
    ensures Settled(vs, sid) == vs && Undone(vs, sid) == vs
  {
    if vs != [] {
      NoMarksNoChange(vs[..|vs| - 1], sid);
      assert vs == vs[..|vs| - 1] + [vs[|vs| - 1]];
    }
  }

  /** The end of somebody else's transaction leaves a tenant's rows alone. */
  lemma OthersEndElsewhere(scope: Scope, vs: seq<Version>, sid: Sid, a: TenantId)
    requires Owned(scope, vs) && scope.Info(sid) != Some(a)
    ensures View(a, Settled(vs, sid)) == View(a, vs) && View(a, Undone(vs, sid)) == View(a, vs)
  {
    forall v | v in View(a, vs) ensures v.author != Some(sid) && v.remover != Some(sid) {
      InView(a, vs, v);
    }
    SettledInView(vs, sid, a);
    UndoneInView(vs, sid, a);
    NoMarksNoChange(View(a, vs), sid);
  }

  /** The policy fails closed: a session without a tenant reads nothing and
      leaves every version as it was. */
  lemma {:induction false} UnscopedHitsNothing(vs: seq<Version>, w: Actor, where: Row -> bool)
    requires w.policy && w.published == None
    ensures Seen(vs, w, where) == [] && Marked(vs, w, where) == vs
  {
    if vs != [] { UnscopedHitsNothing(vs[..|vs| - 1], w, where); }
  }

  lemma PolicyFailsClosed(w: Actor, vs: seq<Version>, st: Statement)
    requires w.policy && w.published == None
    ensures Perform(w, vs, st).versions == vs
    ensures st.Select? ==> Perform(w, vs, st).result == Rows([])
    ensures st.Write? && st.make([]) != [] ==> Perform(w, vs, st).result == Refused
  {
    UnscopedHitsNothing(vs, w, st.where);
    assert !Locked(vs, w, st.where);
    if st.Write? && st.make([]) != [] {
      assert !Allowed(w, st.make([])[0]);
    }
  }

  // The invariants along a run.

  ghost predicate Tidy(scope: Scope, mint: Mint, vs: seq<Version>) {
    Owned(scope, vs) && Minted(mint, vs)
  }

  lemma TidyOne(scope: Scope, mint: Mint, v: Version, w: Actor, where: Row -> bool, t: TenantId)
    requires Tidy(scope, mint, [v]) && (Hit(w, where, v) ==> scope.Info(w.sid) == Some(v.row.tenant))
    ensures Tidy(scope, mint, [MarkedOne(v, w, where)])
    ensures Tidy(scope, mint, SettledOne(v, w.sid)) && Tidy(scope, mint, UndoneOne(v, w.sid))
  {
    hide Hit;
    assert v in [v];
  }

  lemma TidyJoins(scope: Scope, mint: Mint, us: seq<Version>, vs: seq<Version>)
    ensures Tidy(scope, mint, us + vs) <==> Tidy(scope, mint, us) && Tidy(scope, mint, vs)
  {
    assert forall v | v in us + vs :: v in us || v in vs;
    assert forall v | v in us :: v in us + vs;
    assert forall v | v in vs :: v in us + vs;
  }

  lemma {:induction false} PassesAreTidy(scope: Scope, mint: Mint, vs: seq<Version>, w: Actor,
          st: Statement, t: TenantId)
    requires Tidy(scope, mint, vs) && Confined(mint, w, st, t) && scope.Info(w.sid) == Some(t)
    ensures Tidy(scope, mint, Marked(vs, w, st.where))
  {
    hide Tidy, Confined, Hit, MarkedOne;
    if vs == [] {
      NothingIsTidy(scope, mint);
    } else {
      var n := |vs| - 1;
      assert vs[n] in vs && vs == vs[..n] + [vs[n]];
      TidyJoins(scope, mint, vs[..n], [vs[n]]);
      PassesAreTidy(scope, mint, vs[..n], w, st, t);
      TidyIsGenuine(scope, mint, vs, vs[n]);
      OnlyOwnHits(mint, w, st, t, vs[n]);
      TidyOne(scope, mint, vs[n], w, st.where, t);
      TidyJoins(scope, mint, Marked(vs[..n], w, st.where), [MarkedOne(vs[n], w, st.where)]);
    }
  }

  lemma TidyIsGenuine(scope: Scope, mint: Mint, vs: seq<Version>, v: Version)
    requires Tidy(scope, mint, vs) && v in vs
    ensures Genuine(mint, v.row)
  {
  }

  lemma NothingIsTidy(scope: Scope, mint: Mint)
    ensures Tidy(scope, mint, [])
  {
  }

  lemma {:induction false} EndsAreTidy(scope: Scope, mint: Mint, vs: seq<Version>, sid: Sid)
    requires Tidy(scope, mint, vs)
    ensures Tidy(scope, mint, Settled(vs, sid)) && Tidy(scope, mint, Undone(vs, sid))
  {
    hide Tidy, SettledOne, UndoneOne;
    if vs == [] {
      NothingIsTidy(scope, mint);
    } else {
      var n := |vs| - 1;
      assert vs == vs[..n] + [vs[n]];
      TidyJoins(scope, mint, vs[..n], [vs[n]]);
      EndsAreTidy(scope, mint, vs[..n], sid);
      TidyOne(scope, mint, vs[n], Actor(sid, true, None), _ => false, 0);
      TidyJoins(scope, mint, Settled(vs[..n], sid), SettledOne(vs[n], sid));
      TidyJoins(scope, mint, Undone(vs[..n], sid), UndoneOne(vs[n], sid));
    }
  }

  lemma AddedIsTidy(scope: Scope, mint: Mint, made: seq<Row>, sid: Sid, t: TenantId)
    requires Belong(mint, t, made) && scope.Info(sid) == Some(t)
    ensures Tidy(scope, mint, Added(made, sid))
  {
  }

  lemma PerformIsTidy(scope: Scope, mint: Mint, w: Actor, vs: seq<Version>, st: Statement, t: TenantId)
    requires Tidy(scope, mint, vs) && Confined(mint, w, st, t) && scope.Info(w.sid) == Some(t)
    ensures Tidy(scope, mint, Perform(w, vs, st).versions)
  {
    hide Taken, Undecided, Locked, SelfClash, Hit, Confined, Owned, Minted, Belong;
    if st.Write? && AllAllowed(w, st.make(Seen(vs, w, st.where))) {
      assert Minted(mint, vs);
      SeenBelongs(mint, vs, w, st, t);
      MadeBelongs(mint, w, st, t, Seen(vs, w, st.where));
      var made := st.make(Seen(vs, w, st.where));
      PassesAreTidy(scope, mint, vs, w, st, t);
      AddedIsTidy(scope, mint, made, w.sid, t);
      TidyJoins(scope, mint, Marked(vs, w, st.where), Added(made, w.sid));
    }
  }

  ghost predicate LawfulStep(scope: Scope, mint: Mint, step: Step) {
    step.Execute? ==> Lawful(scope, mint, step.sid, step.st)
  }

  ghost predicate Sound(scope: Scope, mint: Mint, s: State) {
    Wired(scope, s) && Tidy(scope, mint, s.versions)
  }

  lemma StepIsSound(scope: Scope, mint: Mint, s: State, step: Step)
    requires Sound(scope, mint, s) && LawfulStep(scope, mint, step)
    ensures Sound(scope, mint, Take(scope, s, step).state)
  {
    StepKeepsWiring(scope, s, step);
    hide Tidy, Wired, Perform, Narrowed, Held, Lawful;
    match step
    case Begin(sid, c) =>
    case Execute(sid, st) =>
      if sid in s.open && !s.open[sid].failed {
        var w := ActorOf(scope, s, sid);
        var t := if sid in scope.bound then scope.bound[sid] else 0;
        if sid in scope.bound {
          LayersConfine(scope, mint, s, sid, st, t);
          PerformIsTidy(scope, mint, w, s.versions, Narrowed(scope.Info(sid), st), t);
        } else {
          UnscopedChangesNothing(scope, mint, s, sid, st);
        }
      }
    case End(sid, commit) =>
      EndsAreTidy(scope, mint, s.versions, sid);
  }

  lemma UnscopedChangesNothing(scope: Scope, mint: Mint, s: State, sid: Sid, st: Statement)
    requires Wired(scope, s) && sid in s.open && sid !in scope.bound && Lawful(scope, mint, sid, st)
    ensures Perform(ActorOf(scope, s, sid), s.versions, Narrowed(scope.Info(sid), st)).versions == s.versions
  {
    if scope.policy { PolicyFailsClosed(ActorOf(scope, s, sid), s.versions, st); }
  }

  // The run with everybody, beside the run with tenant `a` alone.

  ghost predicate Related(scope: Scope, a: TenantId, full: State, alone: State) {
    && View(a, full.versions) == View(a, alone.versions)
    && full.settings.Keys == alone.settings.Keys
    && (forall x :: x in alone.open <==> x in full.open && scope.Info(x) == Some(a))
    && (forall x | x in alone.open :: alone.open[x] == full.open[x])
  }

  lemma OthersStatement(scope: Scope, mint: Mint, a: TenantId, full: State, sid: Sid, st: Statement)
    requires Sound(scope, mint, full) && Lawful(scope, mint, sid, st) && scope.Info(sid) != Some(a)
    ensures View(a, Take(scope, full, Execute(sid, st)).state.versions) == View(a, full.versions)
  {
    hide Perform, Narrowed, Held, Lawful, Wired, Minted, Owned, View;
    if sid in full.open && !full.open[sid].failed {
      if sid in scope.bound {
        LayersConfine(scope, mint, full, sid, st, scope.bound[sid]);
        PerformInView(mint, ActorOf(scope, full, sid), full.versions, Narrowed(scope.Info(sid), st), scope.bound[sid],
            a);
      } else {
        UnscopedChangesNothing(scope, mint, full, sid, st);
      }
    }
  }

  lemma OthersOpen(scope: Scope, full: State, step: Step, x: Sid)
    requires Wired(scope, full) && x != step.sid
    ensures var next := Take(scope, full, step).state;
            && (x in next.open <==> x in full.open) && (x in full.open ==> next.open[x] == full.open[x])
            && next.settings.Keys == full.settings.Keys
  {
    hide Perform, Narrowed, Held, Settled, Undone;
  }

  lemma OthersStep(scope: Scope, mint: Mint, a: TenantId, full: State, alone: State, step: Step)
    requires Related(scope, a, full, alone) && Sound(scope, mint, full) && LawfulStep(scope, mint, step)
    requires scope.Info(step.sid) != Some(a)
    ensures Related(scope, a, Take(scope, full, step).state, alone)
  {
    var next := Take(scope, full, step).state;
    assert View(a, next.versions) == View(a, full.versions) by {
      hide Perform, Narrowed, Held, Lawful, Wired, Minted, View, Settled, Undone, Related;
      match step
      case Begin(sid, c) =>
      case Execute(sid, st) => OthersStatement(scope, mint, a, full, sid, st);
      case End(sid, commit) => OthersEndElsewhere(scope, full.versions, sid, a);
    }
    hide Take, View, Wired, Minted, Owned, Lawful;
    forall x | scope.Info(x) == Some(a)
      ensures (x in next.open <==> x in full.open) && (x in full.open ==> next.open[x] == full.open[x])
    {
      OthersOpen(scope, full, step, x);
    }
    OthersOpen(scope, full, step, step.sid + 1);
  }

  lemma WiredConn(scope: Scope, s: State, sid: Sid)
    requires Wired(scope, s) && sid in s.open
    ensures s.open[sid].conn in s.settings
    ensures ActorOf(scope, s, sid).published == if scope.policy then scope.Info(sid) else None
  {
  }

  lemma OwnStatement(scope: Scope, mint: Mint, a: TenantId, full: State, alone: State, sid: Sid,
          st: Statement)
    requires Related(scope, a, full, alone) && Sound(scope, mint, full) && Sound(scope, mint, alone)
    requires LawfulStep(scope, mint, Execute(sid, st)) && scope.Info(sid) == Some(a)
    ensures Take(scope, full, Execute(sid, st)).result == Take(scope, alone, Execute(sid, st)).result
    ensures Related(scope, a, Take(scope, full, Execute(sid, st)).state, Take(scope, alone, Execute(sid, st)).state)
  {
    hide Perform, Narrowed, Held, Lawful, Wired, Minted, Owned;
    if sid in full.open && !full.open[sid].failed {
      WiredConn(scope, full, sid);
      WiredConn(scope, alone, sid);
      var w := ActorOf(scope, full, sid);
      assert w == ActorOf(scope, alone, sid);
      LayersConfine(scope, mint, full, sid, st, a);
      PerformInView(mint, w, full.versions, Narrowed(scope.Info(sid), st), a, a);
      PerformInView(mint, w, alone.versions, Narrowed(scope.Info(sid), st), a, a);
    }
  }

  lemma OwnEnd(scope: Scope, mint: Mint, a: TenantId, full: State, alone: State, sid: Sid, commit: bool)
    requires Related(scope, a, full, alone) && Sound(scope, mint, full)
    requires Sound(scope, mint, alone) && scope.Info(sid) == Some(a)
    ensures Take(scope, full, End(sid, commit)).result == Take(scope, alone, End(sid, commit)).result
    ensures Related(scope, a, Take(scope, full, End(sid, commit)).state, Take(scope, alone, End(sid, commit)).state)
  {
    hide Wired, Minted, Owned, Held, Settled, Undone, View;
    if sid in full.open {
      WiredConn(scope, full, sid);
      WiredConn(scope, alone, sid);
      SettledInView(full.versions, sid, a);
      SettledInView(alone.versions, sid, a);
      UndoneInView(full.versions, sid, a);
      UndoneInView(alone.versions, sid, a);
    }
  }

  lemma OwnBegin(scope: Scope, a: TenantId, full: State, alone: State, sid: Sid, c: Cid)
    requires Related(scope, a, full, alone) && scope.Info(sid) == Some(a) && HandsOutIdle(full, Begin(sid, c))
    ensures Take(scope, full, Begin(sid, c)).result == Take(scope, alone, Begin(sid, c)).result
    ensures Related(scope, a, Take(scope, full, Begin(sid, c)).state, Take(scope, alone, Begin(sid, c)).state)
  {
    assert !Held(full, c) ==> !Held(alone, c);
  }

  /** The pool never hands out a connection that is in use. */
  ghost predicate HandsOutIdle(s: State, step: Step) {
    step.Begin? ==> !Held(s, step.conn)
  }

  lemma OwnStep(scope: Scope, mint: Mint, a: TenantId, full: State, alone: State, step: Step)
    requires Related(scope, a, full, alone) && Sound(scope, mint, full) && Sound(scope, mint, alone)
    requires LawfulStep(scope, mint, step) && scope.Info(step.sid) == Some(a) && HandsOutIdle(full, step)
    ensures Take(scope, full, step).result == Take(scope, alone, step).result
    ensures Related(scope, a, Take(scope, full, step).state, Take(scope, alone, step).state)
  {
    hide Related, Sound, Take, Lawful, Held;
    match step
    case Begin(sid, c) => OwnBegin(scope, a, full, alone, sid, c);
    case Execute(sid, st) => OwnStatement(scope, mint, a, full, alone, sid, st);
    case End(sid, commit) => OwnEnd(scope, mint, a, full, alone, sid, commit);
  }

  /** Every step is one a caller may take. */
  ghost predicate Proper(scope: Scope, mint: Mint, s: State, steps: seq<Step>)
    decreases |steps|
  {
    steps != [] ==>
      var n := |steps| - 1;
      && Proper(scope, mint, s, steps[..n])
      && LawfulStep(scope, mint, steps[n]) && HandsOutIdle(After(scope, s, steps[..n]), steps[n])
  }

  lemma OwnSnoc(scope: Scope, a: TenantId, s: State, own: seq<Step>, step: Step)
    requires scope.Info(step.sid) == Some(a)
    ensures After(scope, s, own + [step]) == Take(scope, After(scope, s, own), step).state
    ensures Returned(scope, a, s, own + [step]) ==
              Returned(scope, a, s, own) + [Take(scope, After(scope, s, own), step).result]
  {
    hide Take;
    assert (own + [step])[..|own|] == own;
  }

  lemma {:induction false} RunsStayRelated(scope: Scope, mint: Mint, a: TenantId, s: State, steps: seq<Step>)
    requires s.open == map[] && Sound(scope, mint, s) && Proper(scope, mint, s, steps)
    ensures var own := Own(scope, a, steps);
            && Sound(scope, mint, After(scope, s, steps)) && Sound(scope, mint, After(scope, s, own))
            && Related(scope, a, After(scope, s, steps), After(scope, s, own))
            && Returned(scope, a, s, steps) == Returned(scope, a, s, own)
    decreases |steps|
  {
    hide Take, Sound, Related, LawfulStep, HandsOutIdle;
    if steps == [] {
      assert Related(scope, a, s, s) by { AloneIsRelated(scope, a, s); }
    } else {
      var n := |steps| - 1;
      RunsStayRelated(scope, mint, a, s, steps[..n]);
      var own := Own(scope, a, steps[..n]);
      var full, alone := After(scope, s, steps[..n]), After(scope, s, own);
      StepIsSound(scope, mint, full, steps[n]);
      if scope.Info(steps[n].sid) == Some(a) {
        OwnStep(scope, mint, a, full, alone, steps[n]);
        StepIsSound(scope, mint, alone, steps[n]);
        OwnSnoc(scope, a, s, own, steps[n]);
      } else {
        OthersStep(scope, mint, a, full, alone, steps[n]);
      }
    }
  }

  lemma AloneIsRelated(scope: Scope, a: TenantId, s: State)
    requires s.open == map[]
    ensures Related(scope, a, s, s)
  {
  }

  /** Rows nobody has open, on connections that carry no tenant. */
  ghost predicate AtRest(mint: Mint, s: State) {
    && s.open == map[]
    && (forall c | c in s.settings :: Published(s.settings[c]) == None)
    && (forall v | v in s.versions :: v.author == None && v.remover == None && Genuine(mint, v.row))
  }

  /** Erasing every other tenant's steps from any interleaving changes neither the
      tenant's rows nor anything its own statements returned: not a row read, not a
      unique-key failure, not a wait. */
  lemma NonInterference(scope: Scope, mint: Mint, a: TenantId, s: State, steps: seq<Step>)
    requires AtRest(mint, s) && Proper(scope, mint, s, steps)
    ensures var own := Own(scope, a, steps);
            && View(a, After(scope, s, steps).versions) == View(a, After(scope, s, own).versions)
            && Returned(scope, a, s, steps) == Returned(scope, a, s, own)
  {
    hide Proper, After, Returned;
    NothingOpenIsWired(scope, s);
    RunsStayRelated(scope, mint, a, s, steps);
  }

  // Where the hypotheses are needed.

  ghost predicate ReadsOnly(t: TenantId, w: Actor, where: Row -> bool) {
    forall vs: seq<Version>, r | r in Seen(vs, w, where) :: r.tenant == t
  }

  /** Without the row policy a raw read stays in its tenant exactly when its own
      where clause says so. */
  lemma RawReadIsScopedIff(w: Actor, where: Row -> bool, t: TenantId)
    requires !w.policy
    ensures ReadsOnly(t, w, where) <==> forall row | where(row) :: row.tenant == t
  {
    if ReadsOnly(t, w, where) {
      forall row | where(row) ensures row.tenant == t {
        var vs := [Version(row, None, None)];
        assert vs[..0] == [] && Hit(w, where, vs[0]);
        assert row in Seen(vs, w, where);
      }
    }
    if forall row | where(row) :: row.tenant == t {
      forall vs: seq<Version>, r | r in Seen(vs, w, where) ensures r.tenant == t { SeenSatisfies(vs, w, where, r); }
    }
  }

  lemma {:induction false} SeenSatisfies(vs: seq<Version>, w: Actor, where: Row -> bool, r: Row)
    requires r in Seen(vs, w, where)
    ensures where(r) && Allowed(w, r)
  {
    var n := |vs| - 1;
    if r in Seen(vs[..n], w, where) { SeenSatisfies(vs[..n], w, where, r); }
  }

  /** With it, every read of a bound session does, whatever its where clause. */
  lemma PolicyScopesEveryRead(w: Actor, where: Row -> bool, t: TenantId)
    requires w.policy && w.published == Some(t)
    ensures ReadsOnly(t, w, where)
  {
    forall vs: seq<Version>, r | r in Seen(vs, w, where) ensures r.tenant == t { SeenSatisfies(vs, w, where, r); }
  }

  lemma {:induction false} NothingHit(vs: seq<Version>, w: Actor, where: Row -> bool)
    requires forall row :: !where(row)
    ensures Seen(vs, w, where) == [] && !Locked(vs, w, where)
  {
    if vs != [] { NothingHit(vs[..|vs| - 1], w, where); }
  }

  lemma ConflictsBeside(vs: seq<Version>, v: Version, w: Actor, where: Row -> bool, made: seq<Row>)
    requires v.author == None && v.remover == None && forall row :: !where(row)
    ensures Taken(vs + [v], w, where, made) <==> Taken(vs, w, where, made) || exists f | f in made :: Clash(v.row, f)
    ensures Undecided(vs + [v], w, made) <==> Undecided(vs, w, made)
  {
    hide Clash;
    var all := vs + [v];
    assert v in all && forall u | u in vs :: u in all;
    assert forall u | u in all :: u in vs || u == v;
  }

  /** The primary key is the one index that does not lead with the tenant. Whatever
      else is stored: put another tenant's committed row beside it, and an insert
      that would have been made is refused exactly when it reuses that row's key in its table. */
  lemma ReusedPrimaryKeyTells(w: Actor, vs: seq<Version>, theirs: Version, ours: Row)
    requires w.policy && theirs.author == None && theirs.remover == None && theirs.row.tenant != ours.tenant
    requires Perform(w, vs, Insertion(ours)).result.Wrote?
    ensures Perform(w, vs + [theirs], Insertion(ours)).result ==
            if theirs.row.table == ours.table && theirs.row.id == ours.id then Duplicate
            else Perform(w, vs, Insertion(ours)).result
  {
    var where := Insertion(ours).where;
    NothingHit(vs, w, where);
    NothingHit(vs + [theirs], w, where);
    ConflictsBeside(vs, theirs, w, where, [ours]);
    assert (exists f | f in [ours] :: Clash(theirs.row, f)) <==>
        theirs.row.table == ours.table && theirs.row.id == ours.id by {
      assert ours in [ours];
    }
    hide Taken, Undecided, Locked, Seen, Clash;
  }
}
