/** The tenant-scoped repositories over a bound session, and what their
    statements mean. */
module Repositories {
  import opened Types
  import opened TenantScope
  import opened TenantIsolation
  import opened UniqueKeys

  // The statements the repositories send.

  function ById(table: nat, t: TenantId, id: nat): Statement {
    Select((r: Row) => r.table == table && r.tenant == t && r.id == id, true, 0, None)
  }

  function Listing(table: nat, t: TenantId, limit: nat, offset: nat): Statement {
    Select((r: Row) => r.table == table && r.tenant == t, true, offset, Some(limit))
  }

  /** The reload after an insert; a column load, which the criteria leave alone. */
  function Reload(table: nat, id: nat): Statement {
    Select((r: Row) => r.table == table && r.id == id, false, 0, None)
  }

  function Deletion(table: nat, t: TenantId, id: nat): Statement {
    Write((r: Row) => r.table == table && r.tenant == t && r.id == id, (_: seq<Row>) => [], false)
  }

  class Connection {
    var setting: Setting
    constructor () ensures setting == Never { setting := Never; }
  }

  class Server {
    var versions: seq<Version>
    constructor (vs: seq<Version>) ensures versions == vs { versions := vs; }
  }

  class SqlSession {
    const sid: Sid
    const policy: bool
    const server: Server
    var info: Option<TenantId>
    var connection: Connection?
    var failed: bool

    constructor (sid: Sid, policy: bool, server: Server)
      ensures this.sid == sid && this.policy == policy && this.server == server
      ensures info == None && connection == null && !failed
    {
      this.sid, this.policy, this.server := sid, policy, server;
      info, connection, failed := None, null, false;
    }

    /** This session's part of the many-session machine. */
    ghost function Scoped(): Scope
      reads this
    {
      Scope(if info.Some? then map[sid := info.value] else map[], policy)
    }

    ghost function Moment(): State
      reads this, server, connection
    {
      if connection == null then State(server.versions, map[], map[])
      else State(server.versions, map[0 := connection.setting], map[sid := Transaction(0, failed)])
    }

    method BindTenant(t: TenantId)
      modifies this`info
      ensures info == Some(t)
    {
      info := Some(t);
    }

    method ApplyTenantSetting(c: Connection)
      modifies c
      ensures c.setting == AfterBegin(Scoped(), sid, old(c.setting))
    {
      if info == None || !policy { return; }
      c.setting := Is(info.value);
    }

    method Begin(c: Connection)
      requires connection == null
      modifies this`connection, this`failed, c
      ensures Moment() == Take(Scoped(), State(server.versions, map[0 := old(c.setting)], map[]),
                TenantScope.Begin(sid, 0)).state
    {
      connection, failed := c, false;
      ApplyTenantSetting(c);
      assert forall s: Setting :: !Held(State(server.versions, map[0 := s], map[]), 0);
      assert Moment().settings == map[0 := old(c.setting)][0 := c.setting];
    }

    /** Joins the criterion to the statement; its rows are those of the narrowed one. */
    method ApplyLoaderCriteria(st: Statement) returns (r: Statement)
      ensures r.Select? == st.Select? && (r.Write? ==> r == st)
      ensures r.Select? ==> r.offset == st.offset && r.limit == st.limit
      ensures forall row :: r.where(row) == Narrowed(info, st).where(row)
    {
      r := st;
      if !st.Select? || !st.orm { return; }
      if info == None { return; }
      var t := info.value;
      r := Select(row => st.where(row) && row.tenant == t, true, st.offset, st.limit);
    }

    method Execute(st: Statement) returns (r: Result)
      requires connection != null
      modifies this`failed, server
      ensures Took(Moment(), r) == Take(Scoped(), old(Moment()), TenantScope.Execute(sid, st))
      ensures connection == old(connection)
    {
      if failed { return Aborted; }
      var narrowed := ApplyLoaderCriteria(st);
      var w := Actor(sid, policy, Published(connection.setting));
      var p := Perform(w, server.versions, narrowed);
      assert p == Perform(w, server.versions, Narrowed(info, st)) by {
        SameRows(w, server.versions, narrowed, Narrowed(info, st));
      }
      server.versions := p.versions;
      failed := Fails(st, p.result);
      r := p.result;
    }

    method End(commit: bool)
      requires connection != null
      modifies this`connection, server, connection
      ensures connection == null
      ensures server.versions == Take(Scoped(), old(Moment()), TenantScope.End(sid, commit)).state.versions
      ensures old(connection).setting == Take(Scoped(), old(Moment()), TenantScope.End(sid, commit)).state.settings[0]
    {
      server.versions := if commit && !failed then Settled(server.versions, sid) else Undone(server.versions, sid);
      connection.setting := Lapsed(connection.setting);
      connection := null;
    }
  }

  lemma {:induction false} SameSeen(vs: seq<Version>, w: Actor, p: Row -> bool, q: Row -> bool)
    requires forall row :: p(row) == q(row)
    ensures Seen(vs, w, p) == Seen(vs, w, q)
  {
    if vs != [] { SameSeen(vs[..|vs| - 1], w, p, q); }
  }

  lemma SameRows(w: Actor, vs: seq<Version>, a: Statement, b: Statement)
    requires a.Write? ==> a == b
    requires a.Select? ==> b.Select? && a.offset == b.offset && a.limit == b.limit && forall row ::
               a.where(row) == b.where(row)
    ensures Perform(w, vs, a) == Perform(w, vs, b)
  {
    if a.Select? { SameSeen(vs, w, a.where, b.where); }
  }

  datatype Lookup = Nothing | Found(row: Row) | Several | Error(result: Result)

  /** scalar_one_or_none */
  function OneOrNone(r: Result): Lookup {
    if !r.Rows? then Error(r)
    else if |r.rows| == 0 then Nothing
    else if |r.rows| == 1 then Found(r.rows[0])
    else Several
  }

  class TenantScopedRepository {
    const session: SqlSession
    const table: nat

    constructor (session: SqlSession, table: nat)
      ensures this.session == session && this.table == table
    {
      this.session, this.table := session, table;
    }

    method GetById(t: TenantId, id: nat) returns (r: Lookup)
      requires session.connection != null
      modifies session`failed, session.server
      ensures var took := Take(session.Scoped(), old(session.Moment()),
                TenantScope.Execute(session.sid, ById(table, t, id)));
              session.Moment() == took.state && r == OneOrNone(took.result)
    {
      var rows := session.Execute(ById(table, t, id));
      r := OneOrNone(rows);
    }

    method ListAll(t: TenantId, limit: nat, offset: nat) returns (r: Result)
      requires session.connection != null
      modifies session`failed, session.server
      ensures var took := Take(session.Scoped(), old(session.Moment()),
                TenantScope.Execute(session.sid, Listing(table, t, limit, offset)));
              session.Moment() == took.state && r == took.result
    {
      r := session.Execute(Listing(table, t, limit, offset));
    }

    /** Stamps the tenant on the entity, flushes, and reloads it. */
    method Save(t: TenantId, entity: Row) returns (r: Lookup)
      requires session.connection != null
      modifies session`failed, session.server
      ensures var took := Take(session.Scoped(), old(session.Moment()),
                TenantScope.Execute(session.sid, Insertion(entity.(tenant := t, table := table))));
              if took.result.Wrote?
              then session.Moment() == Take(session.Scoped(), took.state,
                  TenantScope.Execute(session.sid, Reload(table, entity.id))).state
                   && r == OneOrNone(Take(session.Scoped(), took.state,
                        TenantScope.Execute(session.sid, Reload(table, entity.id))).result)
              else session.Moment() == took.state && r == Error(took.result)
    {
      var stamped := entity.(tenant := t, table := table);
      var flushed := session.Execute(Insertion(stamped));
      if !flushed.Wrote? { return Error(flushed); }
      var rows := session.Execute(Reload(table, entity.id));
      r := OneOrNone(rows);
    }

    method Delete(t: TenantId, id: nat) returns (deleted: bool, r: Result)
      requires session.connection != null
      modifies session`failed, session.server
      ensures var took := Take(session.Scoped(), old(session.Moment()),
                TenantScope.Execute(session.sid, Deletion(table, t, id)));
              session.Moment() == took.state && r == took.result && (deleted <==> r.Wrote? && |r.hit| > 0)
    {
      r := session.Execute(Deletion(table, t, id));
      deleted := r.Wrote? && |r.hit| > 0;
    }
  }

  // What the statements mean to a session bound to `b`.

  /** In a transaction of a session bound to `b`, on a state reached by steps. */
  ghost predicate Within(scope: Scope, s: State, sid: Sid, b: TenantId) {
    && Wired(scope, s) && Unique(s.versions)
    && scope.Info(sid) == Some(b) && sid in s.open && !s.open[sid].failed
  }

  ghost predicate Sees(s: State, sid: Sid, row: Row) {
    exists v | v in s.versions :: (v.author == None || v.author == Some(sid)) && v.remover != Some(sid) && v.row == row
  }

  lemma {:induction false} SeenComplete(vs: seq<Version>, w: Actor, where: Row -> bool, v: Version)
    requires v in vs && Hit(w, where, v)
    ensures v.row in Seen(vs, w, where)
  {
    hide Hit;
    var n := |vs| - 1;
    if v != vs[n] {
      assert v in vs[..n];
      SeenComplete(vs[..n], w, where, v);
    }
  }

  function Answer(scope: Scope, s: State, sid: Sid, st: Statement): Result {
    Take(scope, s, TenantScope.Execute(sid, st)).result
  }

  /** get_by_id finds a row exactly when the session's own tenant is named and has
      that row, committed or its own; it never meets two. */
  lemma GetByIdFindsOwnRows(scope: Scope, s: State, sid: Sid, b: TenantId, table: nat, t: TenantId, id: nat, row: Row)
    requires Within(scope, s, sid, b)
    ensures OneOrNone(Answer(scope, s, sid, ById(table, t, id))) != Several
    ensures OneOrNone(Answer(scope, s, sid, ById(table, t, id))) == Found(row)
            <==> t == b && Sees(s, sid, row) && row.table == table && row.tenant == t && row.id == id
  {
    hide Clash, Unique;
    var w := ActorOf(scope, s, sid);
    assert w.published == if scope.policy then Some(b) else None by { WiredConn(scope, s, sid); }
    hide Wired;
    var where := Narrowed(scope.Info(sid), ById(table, t, id)).where;
    var rows := Seen(s.versions, w, where);
    SeenIsDistinct(s.versions, w, where);
    assert Answer(scope, s, sid, ById(table, t, id)) == Rows(rows);
    assert forall r | r in rows :: where(r);
    if |rows| >= 2 {
      assert rows[0] in rows && rows[1] in rows && !Clash(rows[0], rows[1]);
      SameIdClashes(rows[0], rows[1]);
    }
    if t == b && Sees(s, sid, row) && row.table == table && row.tenant == t && row.id == id {
      var v :| v in s.versions && (v.author == None || v.author == Some(sid)) && v.remover != Some(sid) && v.row == row;
      SeenComplete(s.versions, w, where, v);
      assert row in rows;
    }
    if rows != [] { assert rows[0] in rows; }
  }

  lemma SameIdClashes(a: Row, b: Row)
    ensures a.table == b.table && a.id == b.id ==> Clash(a, b)
  {
  }

  /** Every row of one tenant in one table, unpaged. */
  function Everything(table: nat, t: TenantId): Statement {
    Select((r: Row) => r.table == table && r.tenant == t, true, 0, None)
  }

  /** list_all: the tenant's visible rows of the table, each once, in one fixed order,
      from `offset` on and at most `limit` of them. */
  lemma ListingIsAPage(scope: Scope, s: State, sid: Sid, b: TenantId, table: nat, limit: nat, offset: nat, row: Row)
    requires Within(scope, s, sid, b)
    ensures var all, page := Answer(scope, s, sid, Everything(table, b)),
              Answer(scope, s, sid, Listing(table, b, limit, offset));
            && all.Rows? && page.Rows? && Distinct(all.rows)
            && (row in all.rows <==> Sees(s, sid, row) && row.table == table && row.tenant == b)
            && |page.rows| == (if |all.rows| <= offset then 0
               else if |all.rows| - offset <= limit then |all.rows| - offset else limit)
            && forall i | 0 <= i < |page.rows| && offset + i < |all.rows| :: page.rows[i] == all.rows[offset + i]
  {
    var w := ActorOf(scope, s, sid);
    WiredConn(scope, s, sid);
    hide Wired, Unique, Clash;
    var whole := Narrowed(scope.Info(sid), Everything(table, b)).where;
    SameSeen(s.versions, w, whole, Narrowed(scope.Info(sid), Listing(table, b, limit, offset)).where);
    SeenIsDistinct(s.versions, w, whole);
    if Sees(s, sid, row) && row.table == table && row.tenant == b {
      var v :| v in s.versions && (v.author == None || v.author == Some(sid)) && v.remover != Some(sid) && v.row == row;
      SeenComplete(s.versions, w, whole, v);
    }
  }

  lemma ForeignListing(scope: Scope, s: State, sid: Sid, b: TenantId, table: nat, t: TenantId, limit: nat,
          offset: nat)
    requires Within(scope, s, sid, b) && t != b
    ensures Answer(scope, s, sid, Listing(table, t, limit, offset)) == Rows([])
  {
    var w := ActorOf(scope, s, sid);
    WiredConn(scope, s, sid);
    hide Wired, Unique;
    NothingSeen(s.versions, w, Narrowed(scope.Info(sid), Listing(table, t, limit, offset)).where);
  }

  lemma ForeignDeletion(scope: Scope, s: State, sid: Sid, b: TenantId, table: nat, t: TenantId, id: nat)
    requires Within(scope, s, sid, b) && t != b && scope.policy
    ensures Answer(scope, s, sid, Deletion(table, t, id)) == Wrote([], [])
  {
    var w := ActorOf(scope, s, sid);
    WiredConn(scope, s, sid);
    hide Wired, Unique, Clash;
    NothingSeen(s.versions, w, Deletion(table, t, id).where);
  }

  lemma ForeignInsertion(scope: Scope, s: State, sid: Sid, b: TenantId, row: Row)
    requires Within(scope, s, sid, b) && row.tenant != b && scope.policy
    ensures Answer(scope, s, sid, Insertion(row)) == Refused
  {
    var w := ActorOf(scope, s, sid);
    WiredConn(scope, s, sid);
    hide Wired, Unique, Clash;
    NothingSeen(s.versions, w, Insertion(row).where);
    var made := Insertion(row).make([]);
    assert made[0] in made && !Allowed(w, made[0]);
  }

  /** Naming another tenant: reads are empty, deletes hit nothing, and on PostgreSQL
      a write is refused outright. */
  lemma ForeignCallsAreEmpty(scope: Scope, s: State, sid: Sid, b: TenantId, table: nat, t: TenantId, id: nat,
          limit: nat, offset: nat, entity: Row)
    requires Within(scope, s, sid, b) && t != b
    ensures Answer(scope, s, sid, Listing(table, t, limit, offset)) == Rows([])
    ensures scope.policy ==> Answer(scope, s, sid, Deletion(table, t, id)) == Wrote([], [])
    ensures scope.policy ==> Answer(scope, s, sid, Insertion(entity.(tenant := t, table := table))) == Refused
  {
    hide Answer, Within;
    ForeignListing(scope, s, sid, b, table, t, limit, offset);
    if scope.policy {
      ForeignDeletion(scope, s, sid, b, table, t, id);
      ForeignInsertion(scope, s, sid, b, entity.(tenant := t, table := table));
    }
  }

  lemma {:induction false} NothingSeen(vs: seq<Version>, w: Actor, where: Row -> bool)
    requires forall row :: Allowed(w, row) ==> !where(row)
    ensures Seen(vs, w, where) == [] && Marked(vs, w, where) == vs && !Locked(vs, w, where)
  {
    if vs != [] { NothingSeen(vs[..|vs| - 1], w, where); }
  }

  /** With the session's own tenant, repository statements need no row policy:
      the non-interference theorem covers them on either database. The reload names
      no tenant, but a key that is the tenant's. */
  lemma OwnCallsAreLawful(scope: Scope, mint: Mint, sid: Sid, b: TenantId, table: nat, id: nat, limit: nat,
          offset: nat, entity: Row)
    requires scope.Info(sid) == Some(b) && mint(table, entity.id) == b
    ensures Lawful(scope, mint, sid, ById(table, b, id)) && Lawful(scope, mint, sid, Listing(table, b, limit, offset))
    ensures Lawful(scope, mint, sid, Insertion(entity.(tenant := b, table := table)))
    ensures Lawful(scope, mint, sid, Reload(table, entity.id)) && Lawful(scope, mint, sid, Deletion(table, b, id))
  {
  }

  lemma {:induction false} HitOnce(vs: seq<Version>, w: Actor, where: Row -> bool, u: Version, v: Version)
    requires Unique(vs) && u in vs && v in vs && Hit(w, where, u) && Hit(w, where, v)
    requires u.row.table == v.row.table && u.row.id == v.row.id
    ensures u == v
  {
    var n := |vs| - 1;
    if u in vs[..n] && v in vs[..n] {
      HitOnce(vs[..n], w, where, u, v);
    } else if u in vs[..n] {
      assert Compatible(u, vs[n]) && Clash(u.row, vs[n].row);
    } else if v in vs[..n] {
      assert Compatible(v, vs[n]) && Clash(v.row, vs[n].row);
    }
  }

  /** A key that is seen is seen once. */
  lemma SeenOnce(vs: seq<Version>, w: Actor, where: Row -> bool, v: Version)
    requires Unique(vs) && v in vs && Hit(w, where, v)
    requires forall row | where(row) :: row.table == v.row.table && row.id == v.row.id
    ensures Seen(vs, w, where) == [v.row]
    ensures Locked(vs, w, where) <==> v.remover.Some?
  {
    hide Unique, Clash;
    SeenIsDistinct(vs, w, where);
    SeenComplete(vs, w, where, v);
    var rows := Seen(vs, w, where);
    assert forall r | r in rows :: where(r);
    if |rows| >= 2 {
      assert rows[0] in rows && rows[1] in rows && !Clash(rows[0], rows[1]);
      SameIdClashes(rows[0], rows[1]);
    }
    forall u | u in vs && Hit(w, where, u) ensures u == v {
      HitOnce(vs, w, where, u, v);
    }
  }

  lemma OwnInsertIsHit(scope: Scope, s: State, sid: Sid, b: TenantId, row: Row, where: Row -> bool)
    requires Within(scope, s, sid, b) && row.tenant == b && where(row)
    ensures Hit(ActorOf(scope, s, sid), where, Version(row, Some(sid), None))
  {
    WiredConn(scope, s, sid);
  }

  lemma ReloadFinds(scope: Scope, s: State, sid: Sid, b: TenantId, row: Row)
    requires Within(scope, s, sid, b) && row.tenant == b && Version(row, Some(sid), None) in s.versions
    ensures Answer(scope, s, sid, Reload(row.table, row.id)) == Rows([row])
  {
    hide Unique, Wired, Hit;
    var st := Narrowed(scope.Info(sid), Reload(row.table, row.id));
    OwnInsertIsHit(scope, s, sid, b, row, st.where);
    SeenOnce(s.versions, ActorOf(scope, s, sid), st.where, Version(row, Some(sid), None));
  }

  lemma DeletionHits(scope: Scope, s: State, sid: Sid, b: TenantId, row: Row)
    requires Within(scope, s, sid, b) && row.tenant == b && Version(row, Some(sid), None) in s.versions
    ensures var st := Deletion(row.table, b, row.id);
            && Answer(scope, s, sid, st) == Wrote([row], [])
            && Take(scope, s, TenantScope.Execute(sid, st)).state.versions ==
                 Marked(s.versions, ActorOf(scope, s, sid), st.where)
  {
    hide Unique, Wired, Hit, Clash;
    var st := Deletion(row.table, b, row.id);
    var w := ActorOf(scope, s, sid);
    OwnInsertIsHit(scope, s, sid, b, row, st.where);
    SeenOnce(s.versions, w, st.where, Version(row, Some(sid), None));
    assert !Taken(s.versions, w, st.where, []) && !Undecided(s.versions, w, []) && !SelfClash([]);
    assert Added([], sid) == [];
  }

  lemma DeletedIsGone(scope: Scope, s: State, sid: Sid, b: TenantId, row: Row)
    requires Within(scope, s, sid, b) && row.tenant == b && Version(row, Some(sid), None) in s.versions
    ensures var s2 := Take(scope, s, TenantScope.Execute(sid, Deletion(row.table, b, row.id))).state;
            OneOrNone(Answer(scope, s2, sid, ById(row.table, b, row.id))) == Nothing
  {
    hide Unique, Wired, Perform;
    var st := Deletion(row.table, b, row.id);
    var w := ActorOf(scope, s, sid);
    var s2 := Take(scope, s, TenantScope.Execute(sid, st)).state;
    WiredConn(scope, s, sid);
    DeletionHits(scope, s, sid, b, row);
    StepStaysWithin(scope, s, sid, b, st);
    var found := OneOrNone(Answer(scope, s2, sid, ById(row.table, b, row.id)));
    LookupOfRows(scope, s2, sid, b, row.table, row.id);
    if found.Found? {
      GetByIdFindsOwnRows(scope, s2, sid, b, row.table, b, row.id, found.row);
      var u :| u in s2.versions && (u.author == None || u.author == Some(sid)) && u.remover != Some(sid)
        && u.row == found.row;
      InMarked(s.versions, w, st.where, u);
      assert false;
    }
  }

  lemma LookupOfRows(scope: Scope, s: State, sid: Sid, b: TenantId, table: nat, id: nat)
    requires Within(scope, s, sid, b)
    ensures var found := OneOrNone(Answer(scope, s, sid, ById(table, b, id))); found.Nothing? || found.Found?
  {
    GetByIdFindsOwnRows(scope, s, sid, b, table, b, id, Row(0, 0, 0, {}, 0));
    hide Wired, Unique;
  }

  lemma StepStaysWithin(scope: Scope, s: State, sid: Sid, b: TenantId, st: Statement)
    requires Within(scope, s, sid, b) && Answer(scope, s, sid, st).Wrote?
    ensures Within(scope, Take(scope, s, TenantScope.Execute(sid, st)).state, sid, b)
  {
    hide Unique, Wired, Perform, Narrowed;
    StepKeepsWiring(scope, s, TenantScope.Execute(sid, st));
    StepKeepsUnique(scope, s, TenantScope.Execute(sid, st));
  }

  lemma InsertedIsSeen(scope: Scope, s: State, sid: Sid, b: TenantId, row: Row)
    requires Within(scope, s, sid, b) && Answer(scope, s, sid, Insertion(row)).Wrote?
    ensures Version(row, Some(sid), None) in Take(scope, s, TenantScope.Execute(sid, Insertion(row))).state.versions
  {
    hide Unique, Wired, Locked, Taken, Undecided, SelfClash;
    var s1 := Take(scope, s, TenantScope.Execute(sid, Insertion(row))).state;
    var vs := s1.versions;
    assert vs[|vs| - 1] == Version(row, Some(sid), None);
  }

  /** What save wrote, get_by_id reads back, and delete takes away again. */
  lemma SaveGetDelete(scope: Scope, s: State, sid: Sid, b: TenantId, table: nat, entity: Row)
    requires Within(scope, s, sid, b)
    requires Answer(scope, s, sid, Insertion(entity.(tenant := b, table := table))).Wrote?
    ensures var saved := entity.(tenant := b, table := table);
            var s1 := Take(scope, s, TenantScope.Execute(sid, Insertion(saved))).state;
            var s2 := Take(scope, s1, TenantScope.Execute(sid, Deletion(table, b, entity.id))).state;
            && OneOrNone(Answer(scope, s1, sid, Reload(table, entity.id))) == Found(saved)
            && OneOrNone(Answer(scope, s1, sid, ById(table, b, entity.id))) == Found(saved)
            && Answer(scope, s1, sid, Deletion(table, b, entity.id)) == Wrote([saved], [])
            && OneOrNone(Answer(scope, s2, sid, ById(table, b, entity.id))) == Nothing
  {
    hide Unique, Wired, Perform, Narrowed, Answer;
    var saved := entity.(tenant := b, table := table);
    var s1 := Take(scope, s, TenantScope.Execute(sid, Insertion(saved))).state;
    StepStaysWithin(scope, s, sid, b, Insertion(saved));
    InsertedIsSeen(scope, s, sid, b, saved);
    var kept := Version(saved, Some(sid), None);
    assert kept.row == saved;
    assert Sees(s1, sid, saved);
    GetByIdFindsOwnRows(scope, s1, sid, b, table, b, entity.id, saved);
    ReloadFinds(scope, s1, sid, b, saved);
    DeletionHits(scope, s1, sid, b, saved);
    DeletedIsGone(scope, s1, sid, b, saved);
  }
}
