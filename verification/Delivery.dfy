/** Messages under interleaving: what was sent is, attempt by attempt, the
    beginning of what each attempt planned, and all of it when it committed. */
module Delivery {
  import opened Types
  import opened Rows
  import opened Sweep
  import opened Runs
  import opened Claims
  import opened Serializability

  /** An attempt at a run, over: what it sent, and how it ended. */
  datatype Attempt = Attempt(ask: Ask, base: Db, sent: seq<Effect>, committed: bool)

  /** What a run of `ask` alone on `base` sends if nothing fails. */
  function Plan(ask: Ask, base: Db): seq<Effect> {
    SweepOver(ask.Cx(), Claim(base, ask.Start()), MonitoredIds(base.memberships)).effects
  }

  /** What an open transaction has sent so far. */
  function SentSoFar(p: Proc): seq<Effect>
    requires p.Holding?
  {
    var mids := if p.done <= |p.list| then p.list[..p.done] else p.list;
    if InRange(Claim(p.base, p.ask.Start()), mids)
      then SweepOver(p.ask.Cx(), Claim(p.base, p.ask.Start()), mids).effects else []
  }

  function NextEffects(p: Proc): seq<Effect>
    requires p.Holding?
  {
    if NextInRange(p) then MemberPass(p.ask.Cx(), p.local, p.list[p.done]).effects else []
  }

  /** The attempt a move ends, if it ends one. */
  function EndedBy(s: State, move: Move): seq<Attempt> {
    match move
    case Commit(pid) =>
      if Commits(s, move)
        then [Attempt(HolderOf(s, pid).ask, HolderOf(s, pid).base, SentSoFar(HolderOf(s, pid)), true)] else []
    case Abort(pid, sent) =>
      if !Holds(s, pid) then []
      else
        var p := HolderOf(s, pid);
        [Attempt(p.ask, p.base, SentSoFar(p) + Delivered(NextEffects(p), sent), false)]
    case Work(pid) =>
      if !Holds(s, pid) || !NextInRange(HolderOf(s, pid)) then []
      else
        var p := HolderOf(s, pid);
        if MemberPass(p.ask.Cx(), p.local, p.list[p.done]).Raised?
        then [Attempt(p.ask, p.base, SentSoFar(p) + NextEffects(p), false)] else []
    case _ => []
  }

  ghost function Ended(s: State, moves: seq<Move>): seq<Attempt> {
    if moves == [] then []
    else
      var n := |moves| - 1;
      Ended(s, moves[..n]) + EndedBy(Exec(s, moves[..n]), moves[n])
  }

  /** The messages of one key, or of one tenant. */
  datatype Group = OneKey(key: Key) | OneTenant(tenant: TenantId)

  predicate Belongs(g: Group, key: Key) {
    match g
    case OneKey(k) => key == k
    case OneTenant(t) => key.0 == t
  }

  function LogOf(g: Group, log: seq<(Key, Effect)>): seq<Effect> {
    if log == [] then []
    else
      var n := |log| - 1;
      if Belongs(g, log[n].0) then LogOf(g, log[..n]) + [log[n].1] else LogOf(g, log[..n])
  }

  function SentBy(g: Group, ended: seq<Attempt>): seq<Effect> {
    if ended == [] then []
    else
      var n := |ended| - 1;
      if Belongs(g, ended[n].ask.Key()) then SentBy(g, ended[..n]) + ended[n].sent else SentBy(g, ended[..n])
  }

  ghost predicate HoldsIn(s: State, g: Group, p: Pid) {
    Holds(s, p) && Belongs(g, HolderOf(s, p).ask.Key())
  }

  /** At most one transaction of the group is open. */
  ghost predicate Alone(s: State, g: Group) {
    forall p, q | HoldsIn(s, g, p) && HoldsIn(s, g, q) :: p == q
  }

  ghost predicate LogInv(s: State, g: Group, ended: seq<Attempt>) {
    && (forall p | HoldsIn(s, g, p) :: LogOf(g, s.log) == SentBy(g, ended) + SentSoFar(HolderOf(s, p)))
    && ((forall p :: !HoldsIn(s, g, p)) ==> LogOf(g, s.log) == SentBy(g, ended))
  }

  /** Every open transaction is a run of its ask on its own base, so far. */
  ghost predicate LocalInv(s: State) {
    forall p | Holds(s, p) :: Progress(HolderOf(s, p), HolderOf(s, p).base)
  }

  lemma {:induction false} LogAppends(g: Group, log: seq<(Key, Effect)>, key: Key, effects: seq<Effect>)
    ensures LogOf(g, log + Tagged(key, effects)) == if Belongs(g, key) then LogOf(g, log) + effects else LogOf(g, log)
    decreases |effects|
  {
    hide Belongs;
    if effects == [] {
      assert log + Tagged(key, effects) == log;
    } else {
      var n := |effects| - 1;
      LogAppends(g, log, key, effects[..n]);
      var all := log + Tagged(key, effects);
      assert all[..|all| - 1] == log + Tagged(key, effects[..n]) && all[|all| - 1] == (key, effects[n]);
    }
  }

  lemma {:induction false} SentByJoins(g: Group, a: seq<Attempt>, b: seq<Attempt>)
    ensures SentBy(g, a + b) == SentBy(g, a) + SentBy(g, b)
    decreases |b|
  {
    hide Belongs;
    if b == [] {
      assert a + b == a;
    } else {
      var n := |b| - 1;
      SentByJoins(g, a, b[..n]);
      assert (a + b)[..|a| + n] == a + b[..n];
    }
  }

  lemma SentByOne(g: Group, a: Attempt)
    ensures SentBy(g, [a]) == if Belongs(g, a.ask.Key()) then a.sent else []
  {
    assert [a][..0] == [];
  }

  /** One more member: what has been sent grows by that member's messages. */
  lemma SoFarGrows(p: Proc)
    requires p.Holding? && Progress(p, p.base) && NextInRange(p)
    ensures var o := MemberPass(p.ask.Cx(), p.local, p.list[p.done]);
            && SentSoFar(p) + o.effects <= Plan(p.ask, p.base)
            && (o.Done? ==> var q := p.(local := o.db, done := p.done + 1, tally := p.tally.Plus(o.tally));
                  Progress(q, p.base) && SentSoFar(q) == SentSoFar(p) + o.effects)
  {
    hide MemberPass;
    var cx, claimed, here := p.ask.Cx(), Claim(p.base, p.ask.Start()), MemberPass(p.ask.Cx(), p.local, p.list[p.done]);
    ListIsDistinct(p.base);
    var through := p.list[..p.done + 1];
    assert through[..p.done] == p.list[..p.done];
    PlanGrows(cx, claimed, p.list, p.done + 1);
    assert SweepOver(cx, claimed, through).effects == SentSoFar(p) + here.effects;
    if here.Done? { WorkProgresses(p, p.base); }
  }

  lemma WholeSoFar(p: Proc)
    requires p.Holding? && Progress(p, p.base)
    ensures SentSoFar(p) <= Plan(p.ask, p.base)
    ensures p.done == |p.list| ==> SentSoFar(p) == Plan(p.ask, p.base)
  {
    ListIsDistinct(p.base);
    PlanGrows(p.ask.Cx(), Claim(p.base, p.ask.Start()), p.list, p.done);
    assert p.done == |p.list| ==> p.list[..p.done] == p.list;
  }

  lemma NothingSentYet(p: Proc, db: Db)
    requires p == Holding(p.ask, db, Claim(db, p.ask.Start()), MonitoredIds(db.memberships), 0, ZERO)
             && p.ask.Start() !in db.jobs
    ensures Progress(p, p.base) && SentSoFar(p) == []
  {
    FirstProgress(p, db);
    assert p.list[..0] == [];
  }

  /** An attempt sent the beginning of its plan, and all of it if it committed. */
  ghost predicate Honest(a: Attempt) {
    a.sent <= Plan(a.ask, a.base) && (a.committed ==> a.sent == Plan(a.ask, a.base)) && a.ask.Start() !in a.base.jobs
  }

  lemma EndedIsHonest(s: State, move: Move)
    requires LocalInv(s)
    ensures forall a | a in EndedBy(s, move) :: Honest(a)
  {
    hide Progress, MemberPass, SentSoFar, Plan;
    match move
    case Commit(pid) =>
      if Commits(s, move) {
        WholeSoFar(HolderOf(s, pid));
        BaseIsFree(HolderOf(s, pid));
      }
    case Abort(pid, sent) =>
      if Holds(s, pid) {
        var p := HolderOf(s, pid);
        WholeSoFar(p);
        BaseIsFree(p);
        if NextInRange(p) { SoFarGrows(p); }
      }
    case Work(pid) =>
      if Holds(s, pid) && NextInRange(HolderOf(s, pid)) {
        SoFarGrows(HolderOf(s, pid));
        BaseIsFree(HolderOf(s, pid));
      }
    case _ =>
  }

  lemma BaseIsFree(p: Proc)
    requires p.Holding? && Progress(p, p.base)
    ensures p.ask.Start() !in p.base.jobs
  {
  }

  lemma StepIsLocal(s: State, move: Move)
    requires LocalInv(s)
    ensures LocalInv(Step(s, move))
  {
    hide Progress, MemberPass, Blocked;
    var next := Step(s, move);
    forall q | Holds(next, q)
      ensures Progress(HolderOf(next, q), HolderOf(next, q).base)
    {
      if Holds(s, q) && HolderOf(next, q) == HolderOf(s, q) {
      } else if move.Work? {
        SoFarGrows(HolderOf(s, q));
      } else {
        NothingSentYet(HolderOf(next, q), HolderOf(next, q).base);
      }
    }
  }

  /** What a move does to one group's messages. */
  lemma MoveSends(s: State, move: Move, g: Group, ended: seq<Attempt>)
    requires LocalInv(s) && LogInv(s, g, ended) && Alone(s, g) && Alone(Step(s, move), g)
    ensures LogInv(Step(s, move), g, ended + EndedBy(s, move))
  {
    hide LocalInv, LogInv, Alone;
    match move
    case Begin(pid, ask) => QuietMove(s, move, g, ended);
    case TryClaim(pid) => ClaimSends(s, pid, g, ended);
    case Work(pid) => WorkSendsMore(s, pid, g, ended);
    case Commit(pid) => CommitSends(s, pid, g, ended);
    case Abort(pid, sent) => AbortSends(s, pid, sent, g, ended);
  }

  lemma SameHolders(s: State, next: State, g: Group, ended: seq<Attempt>)
    requires LogInv(s, g, ended) && next.log == s.log
    requires forall p :: Holds(next, p) <==> Holds(s, p)
    requires forall p | Holds(s, p) :: HolderOf(next, p) == HolderOf(s, p)
    ensures LogInv(next, g, ended + [])
  {
    assert ended + [] == ended;
    hide SentSoFar, Belongs;
    assert forall p :: HoldsIn(next, g, p) <==> HoldsIn(s, g, p);
  }

  lemma QuietMove(s: State, move: Move, g: Group, ended: seq<Attempt>)
    requires LogInv(s, g, ended) && move.Begin?
    ensures LogInv(Step(s, move), g, ended + EndedBy(s, move))
  {
    hide LogInv;
    SameHolders(s, Step(s, move), g, ended);
  }

  lemma ClaimSends(s: State, pid: Pid, g: Group, ended: seq<Attempt>)
    requires LogInv(s, g, ended) && Alone(Step(s, TryClaim(pid)), g)
    ensures LogInv(Step(s, TryClaim(pid)), g, ended + [])
  {
    hide SentSoFar, Belongs, Blocked;
    var next := Step(s, TryClaim(pid));
    assert ended + [] == ended;
    if Holds(next, pid) && !Holds(s, pid) {
      var p := HolderOf(next, pid);
      NothingSentYet(p, p.base);
      assert forall q | q != pid :: HoldsIn(next, g, q) <==> HoldsIn(s, g, q);
      assert !HoldsIn(s, g, pid);
      assert SentBy(g, ended) + [] == SentBy(g, ended);
      if HoldsIn(next, g, pid) {
        assert forall q :: !HoldsIn(s, g, q);
      }
    } else {
      assert forall q :: Holds(next, q) <==> Holds(s, q);
      SameHolders(s, next, g, ended);
    }
  }

  lemma WorkSendsMore(s: State, pid: Pid, g: Group, ended: seq<Attempt>)
    requires LocalInv(s) && LogInv(s, g, ended) && Alone(s, g)
    ensures LogInv(Step(s, Work(pid)), g, ended + EndedBy(s, Work(pid)))
  {
    hide SentSoFar, Belongs, MemberPass, Progress, LogInv, Alone;
    var next := Step(s, Work(pid));
    if Holds(s, pid) && NextInRange(HolderOf(s, pid)) {
      var p := HolderOf(s, pid);
      var here := MemberPass(p.ask.Cx(), p.local, p.list[p.done]);
      LogAppends(g, s.log, p.ask.Key(), here.effects);
      if here.Raised? {
        AttemptOver(s, next, pid, g, ended, EndedBy(s, Work(pid))[0], here.effects);
      } else {
        SoFarGrows(p);
        assert ended + [] == ended;
        StaysOpen(s, next, pid, g, ended, here.effects);
      }
    } else {
      SameHolders(s, next, g, ended);
    }
  }

  /** The holder `pid` is still open and has sent `more`. */
  lemma StaysOpen(s: State, next: State, pid: Pid, g: Group, ended: seq<Attempt>, more: seq<Effect>)
    requires LogInv(s, g, ended) && Alone(s, g) && Holds(s, pid) && Holds(next, pid)
    requires HolderOf(next, pid).ask == HolderOf(s, pid).ask
    requires forall q | q != pid ::
               (Holds(next, q) <==> Holds(s, q)) && (Holds(s, q) ==> HolderOf(next, q) == HolderOf(s, q))
    requires SentSoFar(HolderOf(next, pid)) == SentSoFar(HolderOf(s, pid)) + more
    requires LogOf(g, next.log) == if Belongs(g, HolderOf(s, pid).ask.Key()) then LogOf(g, s.log) + more
             else LogOf(g, s.log)
    ensures LogInv(next, g, ended)
  {
    hide SentSoFar, Belongs;
    assert forall q :: HoldsIn(next, g, q) <==> HoldsIn(s, g, q);
    if HoldsIn(s, g, pid) {
      assert SentBy(g, ended) + SentSoFar(HolderOf(s, pid)) + more == SentBy(g, ended) + SentSoFar(HolderOf(next, pid));
    }
  }

  /** The holder `pid` is gone, leaving attempt `a`. */
  lemma AttemptOver(s: State, next: State, pid: Pid, g: Group, ended: seq<Attempt>, a: Attempt, more: seq<Effect>)
    requires LogInv(s, g, ended) && Alone(s, g) && Holds(s, pid) && a.ask == HolderOf(s, pid).ask
    requires !Holds(next, pid) && forall q | q != pid :: Holds(next, q) <==> Holds(s, q)
    requires forall q | Holds(next, q) :: HolderOf(next, q) == HolderOf(s, q)
    requires a.sent == SentSoFar(HolderOf(s, pid)) + more
    requires LogOf(g, next.log) == if Belongs(g, a.ask.Key()) then LogOf(g, s.log) + more else LogOf(g, s.log)
    ensures LogInv(next, g, ended + [a])
  {
    hide SentSoFar, Belongs, LogOf, SentBy;
    SentByJoins(g, ended, [a]);
    SentByOne(g, a);
    assert forall q :: HoldsIn(next, g, q) <==> q != pid && HoldsIn(s, g, q);
    if HoldsIn(s, g, pid) {
      assert SentBy(g, ended) + SentSoFar(HolderOf(s, pid)) + more == SentBy(g, ended) + a.sent;
    } else {
      assert SentBy(g, ended) + [] == SentBy(g, ended);
    }
  }

  lemma CommitSends(s: State, pid: Pid, g: Group, ended: seq<Attempt>)
    requires LogInv(s, g, ended) && Alone(s, g)
    ensures LogInv(Step(s, Commit(pid)), g, ended + EndedBy(s, Commit(pid)))
  {
    hide SentSoFar, Belongs, Publish, Finished, LogInv, Alone;
    var next := Step(s, Commit(pid));
    if Commits(s, Commit(pid)) {
      var a := EndedBy(s, Commit(pid))[0];
      assert a.sent == SentSoFar(HolderOf(s, pid)) + [] && LogOf(g, s.log) + [] == LogOf(g, s.log);
      AttemptOver(s, next, pid, g, ended, a, []);
    } else {
      SameHolders(s, next, g, ended);
    }
  }

  lemma AbortSends(s: State, pid: Pid, sent: nat, g: Group, ended: seq<Attempt>)
    requires LogInv(s, g, ended) && Alone(s, g)
    ensures LogInv(Step(s, Abort(pid, sent)), g, ended + EndedBy(s, Abort(pid, sent)))
  {
    hide SentSoFar, Belongs, MemberPass, LogInv, Alone, Delivered;
    var next := Step(s, Abort(pid, sent));
    if Holds(s, pid) {
      var p := HolderOf(s, pid);
      LogAppends(g, s.log, p.ask.Key(), Delivered(NextEffects(p), sent));
      AttemptOver(s, next, pid, g, ended, EndedBy(s, Abort(pid, sent))[0], Delivered(NextEffects(p), sent));
    } else {
      SameHolders(s, next, g, ended);
    }
  }

  // Over whole interleavings.

  ghost predicate Reached(s: State) {
    (forall p :: p !in s.procs) && s.log == []
  }

  /** Group `g` never has two open transactions at once. */
  ghost predicate NeverTwo(s: State, moves: seq<Move>, g: Group)
    decreases |moves|
  {
    Alone(Exec(s, moves), g) && (moves != [] ==> NeverTwo(s, moves[..|moves| - 1], g))
  }

  lemma {:induction false} InterleavingsSend(s: State, moves: seq<Move>, g: Group)
    requires Reached(s) && NeverTwo(s, moves, g)
    ensures LocalInv(Exec(s, moves)) && LogInv(Exec(s, moves), g, Ended(s, moves))
    ensures forall a | a in Ended(s, moves) :: Honest(a)
    decreases |moves|
  {
    hide Step, LocalInv, LogInv, Alone, EndedBy, Honest;
    if moves == [] {
      NothingReached(s, g);
    } else {
      var n := |moves| - 1;
      InterleavingsSend(s, moves[..n], g);
      var before := Exec(s, moves[..n]);
      assert NeverTwo(s, moves[..n], g);
      StepIsLocal(before, moves[n]);
      EndedIsHonest(before, moves[n]);
      MoveSends(before, moves[n], g, Ended(s, moves[..n]));
    }
  }

  lemma NothingReached(s: State, g: Group)
    requires Reached(s)
    ensures LocalInv(s) && LogInv(s, g, [])
  {
  }

  /** A key never has two open transactions, whatever the schedule. */
  lemma {:induction false} KeysAreExclusive(s: State, moves: seq<Move>, key: Key)
    requires Reached(s)
    ensures NeverTwo(s, moves, OneKey(key))
    decreases |moves|
  {
    hide Exec;
    AtMostOncePerKey(s, moves);
    OneHolderEach(Exec(s, moves), s.committed, Committed(s, moves), key);
    if moves != [] { KeysAreExclusive(s, moves[..|moves| - 1], key); }
  }

  lemma OneHolderEach(s: State, start: map<TenantId, Db>, asks: seq<Ask>, key: Key)
    requires ExclusionInv(s, start, asks)
    ensures Alone(s, OneKey(key))
  {
  }

  /** Nor does a tenant whose runs do not overlap. */
  lemma {:induction false} TenantsAreApart(s: State, moves: seq<Move>, t: TenantId)
    requires NeverOverlap(s, moves)
    ensures NeverTwo(s, moves, OneTenant(t))
    decreases |moves|
  {
    hide Exec;
    if moves != [] { TenantsAreApart(s, moves[..|moves| - 1], t); }
  }

  /** A log that belongs to no open transaction is the attempts' own messages. */
  lemma ClosedLog(s: State, g: Group, ended: seq<Attempt>)
    requires LogInv(s, g, ended) && forall p :: !HoldsIn(s, g, p)
    ensures LogOf(g, s.log) == SentBy(g, ended)
  {
  }

  /** Under any interleaving with crashes, the messages of a key are its attempts'
      messages, one attempt after the other: each the beginning of what the
      attempt planned on its own base, all of it if it committed; what is left
      over is the open attempt's. */
  lemma MessagesOfAKey(s: State, moves: seq<Move>, key: Key)
    requires Reached(s)
    ensures var end, ended := Exec(s, moves), Ended(s, moves);
            && (forall a | a in ended :: Honest(a))
            && ((forall p :: !HoldsIn(end, OneKey(key), p)) ==>
                  LogOf(OneKey(key), end.log) == SentBy(OneKey(key), ended))
            && (forall p | HoldsIn(end, OneKey(key), p) ::
                  LogOf(OneKey(key), end.log) == SentBy(OneKey(key), ended) + SentSoFar(HolderOf(end, p))
                  && SentSoFar(HolderOf(end, p)) <= Plan(HolderOf(end, p).ask, HolderOf(end, p).base))
  {
    hide Exec, Ended, SentSoFar, Plan, Honest, LogOf, SentBy, Belongs;
    KeysAreExclusive(s, moves, key);
    InterleavingsSend(s, moves, OneKey(key));
    forall p | HoldsIn(Exec(s, moves), OneKey(key), p)
      ensures SentSoFar(HolderOf(Exec(s, moves), p)) <= Plan(HolderOf(Exec(s, moves), p).ask,
                HolderOf(Exec(s, moves), p).base)
    {
      WholeSoFar(HolderOf(Exec(s, moves), p));
    }
  }

  /** The same for all messages of a tenant whose runs do not overlap. */
  lemma MessagesOfATenant(s: State, moves: seq<Move>, t: TenantId)
    requires Reached(s) && NeverOverlap(s, moves)
    ensures var end, ended := Exec(s, moves), Ended(s, moves);
            && (forall a | a in ended :: Honest(a))
            && ((forall p :: !HoldsIn(end, OneTenant(t), p)) ==>
                  LogOf(OneTenant(t), end.log) == SentBy(OneTenant(t), ended))
            && (forall p | HoldsIn(end, OneTenant(t), p) ::
                  LogOf(OneTenant(t), end.log) == SentBy(OneTenant(t), ended) + SentSoFar(HolderOf(end, p)))
  {
    hide Exec, Ended, SentSoFar, Honest, LogOf, SentBy, Belongs;
    TenantsAreApart(s, moves, t);
    InterleavingsSend(s, moves, OneTenant(t));
  }

  // Exactly once.

  /** Ended attempts that committed are the committed runs, in order. */
  function Successes(ended: seq<Attempt>): seq<Ask> {
    if ended == [] then []
    else
      var n := |ended| - 1;
      if ended[n].committed then Successes(ended[..n]) + [ended[n].ask] else Successes(ended[..n])
  }

  lemma {:induction false} SuccessesAreCommitted(s: State, moves: seq<Move>)
    ensures Successes(Ended(s, moves)) == Committed(s, moves)
    decreases |moves|
  {
    hide Step, SentSoFar, NextEffects, MemberPass, Exec;
    if moves != [] {
      var n := |moves| - 1;
      SuccessesAreCommitted(s, moves[..n]);
      var one := EndedBy(Exec(s, moves[..n]), moves[n]);
      var before := Ended(s, moves[..n]);
      if one == [] {
        assert before + one == before;
      } else {
        assert (before + one)[..|before|] == before;
      }
    }
  }

  lemma {:induction false} SuccessAmong(ended: seq<Attempt>, i: nat)
    requires i < |ended| && ended[i].committed
    ensures KeyAmong(Successes(ended), ended[i].ask.Key())
  {
    var n := |ended| - 1;
    if i < n {
      SuccessAmong(ended[..n], i);
      if ended[n].committed { KeyAmongGrows(Successes(ended[..n]), ended[n].ask, ended[i].ask.Key()); }
    } else {
      KeyAmongGrows(Successes(ended[..n]), ended[n].ask, ended[i].ask.Key());
    }
  }

  lemma {:induction false} SilentIff(g: Group, ended: seq<Attempt>)
    ensures SentBy(g, ended) == [] <==> forall j | 0 <= j < |ended| && Belongs(g, ended[j].ask.Key()) ::
              ended[j].sent == []
  {
    hide Belongs;
    if ended != [] {
      var n := |ended| - 1;
      SilentIff(g, ended[..n]);
      assert forall j | 0 <= j < n :: ended[..n][j] == ended[j];
    }
  }

  /** Around one attempt of the group. */
  lemma SentAround(g: Group, ended: seq<Attempt>, i: nat)
    requires i < |ended| && Belongs(g, ended[i].ask.Key())
    ensures SentBy(g, ended) == SentBy(g, ended[..i]) + ended[i].sent + SentBy(g, ended[i + 1..])
    ensures SentBy(g, ended[..i]) == [] && SentBy(g, ended[i + 1..]) == [] <==>
            forall j | 0 <= j < |ended| && j != i && Belongs(g, ended[j].ask.Key()) :: ended[j].sent == []
  {
    hide Belongs, SentBy;
    assert ended == ended[..i] + [ended[i]] + ended[i + 1..];
    SentByJoins(g, ended[..i] + [ended[i]], ended[i + 1..]);
    SentByJoins(g, ended[..i], [ended[i]]);
    SentByOne(g, ended[i]);
    SilentIff(g, ended[..i]);
    SilentIff(g, ended[i + 1..]);
    assert forall j | 0 <= j < i :: ended[..i][j] == ended[j];
    var rest := ended[i + 1..];
    assert forall j | 0 <= j < |rest| :: rest[j] == ended[i + 1 + j];
    forall j | i < j < |ended| ensures ended[j] in rest { assert ended[j] == rest[j - i - 1]; }
    assert forall j | 0 <= j < |rest| && Belongs(g, rest[j].ask.Key()) :: ended[i + 1 + j].ask == rest[j].ask;
  }

  lemma CommittedKeyIsClosed(s: State, start: map<TenantId, Db>, asks: seq<Ask>, key: Key)
    requires ExclusionInv(s, start, asks) && KeyAmong(asks, key)
    ensures forall p :: !HoldsIn(s, OneKey(key), p)
  {
    assert key.0 in s.committed ==> key.1 in s.committed[key.0].jobs;
  }

  /** The messages sent under a committed key are exactly the committed run's plan,
      once, if and only if every other attempt at that key ended before its first
      message was delivered. */
  lemma SentOnceIff(s: State, moves: seq<Move>, i: nat)
    requires Reached(s) && i < |Ended(s, moves)| && Ended(s, moves)[i].committed
    ensures var ended := Ended(s, moves);
            var a := ended[i];
            && (forall p :: !HoldsIn(Exec(s, moves), OneKey(a.ask.Key()), p))
            && (LogOf(OneKey(a.ask.Key()), Exec(s, moves).log) == Plan(a.ask, a.base)
                <==> forall j | 0 <= j < |ended| && j != i && ended[j].ask.Key() == a.ask.Key() :: ended[j].sent == [])
  {
    hide Exec, Ended, LogOf, SentBy, Plan, ExclusionInv, LogInv;
    var ended := Ended(s, moves);
    var key := ended[i].ask.Key();
    AtMostOncePerKey(s, moves);
    SuccessesAreCommitted(s, moves);
    SuccessAmong(ended, i);
    CommittedKeyIsClosed(Exec(s, moves), s.committed, Committed(s, moves), key);
    KeysAreExclusive(s, moves, key);
    InterleavingsSend(s, moves, OneKey(key));
    ClosedLog(Exec(s, moves), OneKey(key), ended);
    assert Honest(ended[i]) by { assert ended[i] in ended; }
    SentAround(OneKey(key), ended, i);
  }

  lemma {:induction false} OneSuccessPerKey(ended: seq<Attempt>, i: nat, j: nat)
    requires DistinctKeys(Successes(ended)) && i < j < |ended| && ended[i].committed && ended[j].committed
    ensures ended[i].ask.Key() != ended[j].ask.Key()
  {
    hide KeyAmong;
    var n := |ended| - 1;
    var before := Successes(ended[..n]);
    assert ended[n].committed ==> Successes(ended)[..|before|] == before;
    assert forall k | 0 <= k < |before| :: Successes(ended)[k] == before[k];
    assert DistinctKeys(before);
    if j < n {
      OneSuccessPerKey(ended[..n], i, j);
    } else {
      SuccessAmong(ended[..n], i);
      LastKeyIsNew(Successes(ended));
    }
  }

  /** Whatever the schedule, no membership has two committed monitoring transitions
      under one key: two places in the lists of committed runs that name the same
      membership and the same key are one place. */
  lemma OneTransitionPerKey(s: State, moves: seq<Move>, i: nat, a: nat, j: nat, b: nat)
    requires Reached(s) && i < |Ended(s, moves)| && j < |Ended(s, moves)|
    requires var x, y := Ended(s, moves)[i], Ended(s, moves)[j];
             && x.committed && y.committed && x.ask.Key() == y.ask.Key()
             && a < |MonitoredIds(x.base.memberships)| && b < |MonitoredIds(y.base.memberships)|
             && MonitoredIds(x.base.memberships)[a] == MonitoredIds(y.base.memberships)[b]
    ensures i == j && a == b
  {
    hide Exec, Ended, MonitoredIds;
    var ended := Ended(s, moves);
    AtMostOncePerKey(s, moves);
    SuccessesAreCommitted(s, moves);
    hide KeyFree, OwnJobs, KeyAmong;
    if i < j { OneSuccessPerKey(ended, i, j); } else if j < i { OneSuccessPerKey(ended, j, i); }
    ListIsDistinct(ended[i].base);
  }
}
