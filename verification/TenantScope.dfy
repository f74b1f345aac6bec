/** Tenants in one database: the tenant a session is bound to, the setting its
    transaction publishes, the row policy that reads it, and the criteria added
    to every ORM select. */
module TenantScope {
  import opened Types

  type Sid = nat
  type Cid = nat

  /** A row of any tenant-scoped table; `keys` are its entries in the unique
      indexes other than the primary key, every one of which leads with the
      tenant. */
  datatype Row = Row(id: nat, tenant: TenantId, table: nat, keys: set<(nat, int)>, value: int)

  /** A stored version: inserted by an open transaction (`author`) or committed,
      deleted by an open transaction (`remover`) or not. */
  datatype Version = Version(row: Row, author: Option<Sid>, remover: Option<Sid>)

  /** What current_setting('app.tenant_id', true) can be: NULL on a connection that
      never had one, the empty string once a local one has lapsed. */
  datatype Setting = Never | Emptied | Is(tenant: TenantId)

  /** NULLIF(current_setting(...), '') */
  function Published(s: Setting): Option<TenantId> {
    if s.Is? then Some(s.tenant) else None
  }

  datatype Statement =
    | Select(where: Row -> bool, orm: bool, offset: nat, limit: Option<nat>)
    | Write(where: Row -> bool, make: seq<Row> -> seq<Row>, nested: bool)   // replaces what it hits by what it makes

  /** A plain insert. */
  function Insertion(row: Row): Statement {
    Write((_: Row) => false, (_: seq<Row>) => [row], false)
  }

  datatype Result = Rows(rows: seq<Row>) | Wrote(hit: seq<Row>,
      made: seq<Row>) | Refused | Duplicate | Waits | Aborted | NotDone | Ok

  /** On whose behalf a statement executes. */
  datatype Actor = Actor(sid: Sid, policy: bool, published: Option<TenantId>)

  /** tenant_isolation: both USING and WITH CHECK; NULL matches nothing. */
  predicate Allowed(w: Actor, row: Row) {
    w.policy ==> w.published == Some(row.tenant)
  }

  predicate Hit(w: Actor, where: Row -> bool, v: Version) {
    && (v.author == None || v.author == Some(w.sid)) && v.remover != Some(w.sid)
    && Allowed(w, v.row) && where(v.row)
  }

  function Seen(vs: seq<Version>, w: Actor, where: Row -> bool): seq<Row> {
    if vs == [] then []
    else
      var n := |vs| - 1;
      if Hit(w, where, vs[n]) then Seen(vs[..n], w, where) + [vs[n].row] else Seen(vs[..n], w, where)
  }

  function MarkedOne(v: Version, w: Actor, where: Row -> bool): Version {
    if Hit(w, where, v) then v.(remover := Some(w.sid)) else v
  }

  function Marked(vs: seq<Version>, w: Actor, where: Row -> bool): seq<Version> {
    if vs == [] then []
    else
      var n := |vs| - 1;
      Marked(vs[..n], w, where) + [MarkedOne(vs[n], w, where)]
  }

  function Added(rows: seq<Row>, sid: Sid): seq<Version> {
    seq(|rows|, i requires 0 <= i < |rows| => Version(rows[i], Some(sid), None))
  }

  /** Two rows of one table with one primary key, or with a unique key of one tenant. */
  predicate Clash(a: Row, b: Row) {
    a.table == b.table && (a.id == b.id || (a.tenant == b.tenant && a.keys * b.keys != {}))
  }

  /** A row to be replaced is being replaced by somebody else. */
  predicate Locked(vs: seq<Version>, w: Actor, where: Row -> bool) {
    exists v | v in vs :: Hit(w, where, v) && v.remover.Some?
  }

  predicate Taken(vs: seq<Version>, w: Actor, where: Row -> bool, made: seq<Row>) {
    exists v, f | v in vs && f in made ::
      Clash(v.row, f) && (v.author == None || v.author == Some(w.sid)) && v.remover == None && !Hit(w, where, v)
  }

  predicate SelfClash(made: seq<Row>) {
    exists i, j | 0 <= i < j < |made| :: Clash(made[i], made[j])
  }

  /** Whether a key is free hangs on a transaction that is still open. */
  predicate Undecided(vs: seq<Version>, w: Actor, made: seq<Row>) {
    exists v, f | v in vs && f in made ::
      Clash(v.row, f) && ((v.author.Some? && v.author != Some(w.sid)) || (v.remover.Some? && v.remover != Some(w.sid)))
  }

  predicate AllAllowed(w: Actor, made: seq<Row>) {
    forall f | f in made :: Allowed(w, f)
  }

  function Page(rows: seq<Row>, offset: nat, limit: Option<nat>): seq<Row> {
    var rest := if offset <= |rows| then rows[offset..] else [];
    if limit.Some? && limit.value <= |rest| then rest[..limit.value] else rest
  }

  datatype Performed = Performed(versions: seq<Version>, result: Result)

  /** One statement inside an open transaction. */
  function Perform(w: Actor, vs: seq<Version>, st: Statement): Performed {
    match st
    case Select(where, _, offset, limit) => Performed(vs, Rows(Page(Seen(vs, w, where), offset, limit)))
    case Write(where, make, _) =>
      var hit := Seen(vs, w, where);
      var made := make(hit);
      if Locked(vs, w, where) then Performed(vs, Waits)
      else if !AllAllowed(w, made) then Performed(vs, Refused)
      else if SelfClash(made) || Taken(vs, w, where, made) then Performed(vs, Duplicate)
      else if Undecided(vs, w, made) then Performed(vs, Waits)
      else Performed(Marked(vs, w, where) + Added(made, w.sid), Wrote(hit, made))
  }

  /** with_loader_criteria: the bound tenant joins the where clause of an ORM select. */
  function Narrowed(info: Option<TenantId>, st: Statement): Statement {
    if st.Select? && st.orm && info.Some?
      then Select(r => st.where(r) && r.tenant == info.value, true, st.offset, st.limit) else st
  }

  /** What a commit, and what a rollback, makes of one version. */
  function SettledOne(v: Version, sid: Sid): seq<Version> {
    if v.remover == Some(sid) then [] else [if v.author == Some(sid) then v.(author := None) else v]
  }

  function UndoneOne(v: Version, sid: Sid): seq<Version> {
    if v.author == Some(sid) then [] else [if v.remover == Some(sid) then v.(remover := None) else v]
  }

  function Settled(vs: seq<Version>, sid: Sid): seq<Version> {
    if vs == [] then []
    else
      var n := |vs| - 1;
      Settled(vs[..n], sid) + SettledOne(vs[n], sid)
  }

  function Undone(vs: seq<Version>, sid: Sid): seq<Version> {
    if vs == [] then []
    else
      var n := |vs| - 1;
      Undone(vs[..n], sid) + UndoneOne(vs[n], sid)
  }

  /** A setting made local to a transaction lapses with it. */
  function Lapsed(s: Setting): Setting {
    if s.Is? then Emptied else s
  }

  /** `bound` is what each session was bound to where it was created; `policy` holds
      on PostgreSQL, not on SQLite. */
  datatype Scope = Scope(bound: map<Sid, TenantId>, policy: bool) {
    function Info(sid: Sid): Option<TenantId> {
      if sid in bound then Some(bound[sid]) else None
    }
  }

  datatype Transaction = Transaction(conn: Cid, failed: bool)

  datatype State = State(versions: seq<Version>, settings: map<Cid, Setting>, open: map<Sid, Transaction>)

  datatype Step = Begin(sid: Sid, conn: Cid) | Execute(sid: Sid, st: Statement) | End(sid: Sid, commit: bool)

  predicate Held(s: State, c: Cid) {
    exists sid | sid in s.open :: s.open[sid].conn == c
  }

  function SettingOf(s: State, c: Cid): Setting {
    if c in s.settings then s.settings[c] else Never
  }

  function ActorOf(scope: Scope, s: State, sid: Sid): Actor
    requires sid in s.open
  {
    Actor(sid, scope.policy, Published(SettingOf(s, s.open[sid].conn)))
  }

  /** after_begin publishes the session's tenant, on PostgreSQL, if it has one. */
  function AfterBegin(scope: Scope, sid: Sid, before: Setting): Setting {
    if scope.policy && sid in scope.bound then Is(scope.bound[sid]) else before
  }

  predicate Fails(st: Statement, r: Result) {
    (r == Refused || r == Duplicate) && !(st.Write? && st.nested)
  }

  datatype Took = Took(state: State, result: Result)

  function Take(scope: Scope, s: State, step: Step): Took {
    match step
    case Begin(sid, c) =>
      if sid in s.open || c !in s.settings || Held(s, c) then Took(s, NotDone)
      else Took(s.(open := s.open[sid := Transaction(c, false)],
          settings := s.settings[c := AfterBegin(scope, sid, s.settings[c])]), Ok)
    case Execute(sid, st) =>
      if sid !in s.open then Took(s, NotDone)
      else if s.open[sid].failed then Took(s, Aborted)
      else
        var p := Perform(ActorOf(scope, s, sid), s.versions, Narrowed(scope.Info(sid), st));
        Took(s.(versions := p.versions, open := s.open[sid := s.open[sid].(failed := Fails(st, p.result))]), p.result)
    case End(sid, commit) =>
      if sid !in s.open then Took(s, NotDone)
      else
        var t := s.open[sid];
        Took(State(if commit && !t.failed then Settled(s.versions, sid) else Undone(s.versions, sid),
                   s.settings[t.conn := Lapsed(SettingOf(s, t.conn))], s.open - {sid}), Ok)
  }

  function After(scope: Scope, s: State, steps: seq<Step>): State {
    if steps == [] then s else Take(scope, After(scope, s, steps[..|steps| - 1]), steps[|steps| - 1]).state
  }

  /** Tenant `a`'s steps, and what they returned. */
  function Own(scope: Scope, a: TenantId, steps: seq<Step>): seq<Step> {
    if steps == [] then []
    else
      var n := |steps| - 1;
      if scope.Info(steps[n].sid) == Some(a) then Own(scope, a, steps[..n]) + [steps[n]] else Own(scope, a, steps[..n])
  }

  function Returned(scope: Scope, a: TenantId, s: State, steps: seq<Step>): seq<Result> {
    if steps == [] then []
    else
      var n := |steps| - 1;
      var before := Returned(scope, a, s, steps[..n]);
      if scope.Info(steps[n].sid) == Some(a)
        then before + [Take(scope, After(scope, s, steps[..n]), steps[n]).result] else before
  }

  function View(a: TenantId, vs: seq<Version>): seq<Version> {
    if vs == [] then []
    else
      var n := |vs| - 1;
      if vs[n].row.tenant == a then View(a, vs[..n]) + [vs[n]] else View(a, vs[..n])
  }

  // The connection carries its own session's tenant, or none.

  ghost predicate Wired(scope: Scope, s: State) {
    && (forall x | x in s.open :: s.open[x].conn in s.settings)
    && (forall x | x in s.open ::
          Published(SettingOf(s, s.open[x].conn)) == if scope.policy then scope.Info(x) else None)
    && (forall x, y | x in s.open && y in s.open && x != y :: s.open[x].conn != s.open[y].conn)
    && (forall c | c in s.settings && !Held(s, c) :: Published(s.settings[c]) == None)
  }

  lemma BeginWires(scope: Scope, s: State, sid: Sid, c: Cid)
    requires Wired(scope, s)
    ensures Wired(scope, Take(scope, s, Begin(sid, c)).state)
  {
    if sid !in s.open && c in s.settings && !Held(s, c) {
      var next := Take(scope, s, Begin(sid, c)).state;
      assert forall x | x in s.open :: s.open[x].conn != c && next.open[x] == s.open[x];
      assert next.open[sid].conn == c;
      forall d | d in next.settings && !Held(next, d)
        ensures Published(next.settings[d]) == None
      {
        assert d != c;
        assert forall x | x in s.open :: next.open[x].conn != d;
      }
    }
  }

  lemma ExecuteWires(scope: Scope, s: State, sid: Sid, st: Statement)
    requires Wired(scope, s)
    ensures Wired(scope, Take(scope, s, Execute(sid, st)).state)
  {
    hide Perform, Narrowed, Fails;
    var next := Take(scope, s, Execute(sid, st)).state;
    assert next.settings == s.settings && next.open.Keys == s.open.Keys;
    assert forall x | x in s.open :: next.open[x].conn == s.open[x].conn;
    forall d | d in next.settings && !Held(next, d)
      ensures Published(next.settings[d]) == None
    {
      assert forall x | x in s.open :: next.open[x].conn != d;
    }
  }

  lemma EndWires(scope: Scope, s: State, sid: Sid, commit: bool)
    requires Wired(scope, s)
    ensures Wired(scope, Take(scope, s, End(sid, commit)).state)
  {
    if sid in s.open {
      var next := Take(scope, s, End(sid, commit)).state;
      assert next.settings == s.settings[s.open[sid].conn := Lapsed(SettingOf(s, s.open[sid].conn))]
        && next.open == s.open - {sid};
      hide Take, Settled, Undone;
      assert forall x | x in next.open ::
          x in s.open && next.open[x] == s.open[x] && s.open[x].conn != s.open[sid].conn;
      forall d | d in next.settings && !Held(next, d)
        ensures Published(next.settings[d]) == None
      {
        if d != s.open[sid].conn && Held(s, d) { StillHeld(s, next, sid, d); }
      }
      hide Held;
    }
  }

  lemma StillHeld(s: State, next: State, sid: Sid, d: Cid)
    requires next.open == s.open - {sid} && Held(s, d) && (sid in s.open ==> s.open[sid].conn != d)
    ensures Held(next, d)
  {
    var x :| x in s.open && s.open[x].conn == d;
    assert x in next.open;
  }

  lemma StepKeepsWiring(scope: Scope, s: State, step: Step)
    requires Wired(scope, s)
    ensures Wired(scope, Take(scope, s, step).state)
  {
    hide Take, Wired;
    match step
    case Begin(sid, c) => BeginWires(scope, s, sid, c);
    case Execute(sid, st) => ExecuteWires(scope, s, sid, st);
    case End(sid, commit) => EndWires(scope, s, sid, commit);
  }

  lemma NothingOpenIsWired(scope: Scope, s: State)
    requires s.open == map[] && forall c | c in s.settings :: Published(s.settings[c]) == None
    ensures Wired(scope, s)
  {
  }

  /** No transaction ever sees a setting other than its own session's tenant or none,
      and a connection back in the pool carries none. */
  lemma {:induction false} SettingsNeverLeak(scope: Scope, s: State, steps: seq<Step>)
    requires s.open == map[] && forall c | c in s.settings :: Published(s.settings[c]) == None
    ensures Wired(scope, After(scope, s, steps))
  {
    hide Take, Wired;
    if steps == [] {
      NothingOpenIsWired(scope, s);
    } else {
      SettingsNeverLeak(scope, s, steps[..|steps| - 1]);
      StepKeepsWiring(scope, After(scope, s, steps[..|steps| - 1]), steps[|steps| - 1]);
    }
  }
}
