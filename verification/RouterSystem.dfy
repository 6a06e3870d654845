/** The router as a transition system. Every pool method is one atomic step, because it runs
    under the pool's mutex; the request handlers, the endpoint watcher, the session cleaner and
    the clock interleave freely between those steps. */
module RouterSystem {
  import opened Wrappers
  import opened PoolSpec

  /** Durations in one unit: the session timeout, the period of the cleanup ticker, and a bound
      on the time a handler takes from stamping its agent to its last pool operation. */
  datatype Config = Config(timeout: nat, cleanupEvery: nat, callBound: nat)

  /** Where a Reset or Step handler stands between two pool operations. */
  datatype Phase =
    | Locked       // Reset: agent locked, not yet touched
    | Resetting    // Reset: forwarded call in flight
    | ResetFailed  // Reset: forwarded call failed, agent not yet freed
    | Found        // Step: agent looked up, not yet touched
    | Stepping     // Step: forwarded call in flight
    | StepDone     // Step: reply says done, agent not yet freed

  /** `conn` identifies the agent record the handler works with, `grant` the lock it acts for (none if
      the request comes from somebody who was never given a session), and `since` the last time it
      stamped the agent (for Found: the time of the lookup). */
  datatype Handler = Handler(phase: Phase, addr: Addr, conn: ConnId, grant: Option<nat>, since: int)

  datatype Sync = Idle | Adding(live: set<Addr>, todo: set<Addr>, failed: set<Addr>)

  /** What a lock handed out. */
  datatype Grant = Grant(addr: Addr, conn: ConnId)

  /** Besides the pool and the program counters, the history the theorems speak of: the grants
      issued so far, which of them each busy agent is held under, the set of addresses the last
      completed sync wanted (live and dialed successfully), and the time of the last cleanup. */
  datatype Sys = Sys(
    pool: PoolState,
    now: int,
    handlers: map<nat, Handler>,
    sync: Sync,
    target: set<Addr>,
    holder: map<Addr, nat>,
    issued: seq<Grant>,
    lastCleanup: int)

  const INIT := Sys(EMPTY, 0, map[], Idle, {}, map[], [], 0)

  datatype Label =
    | Tick(d: nat)
    | BeginReset(h: nat, a: Addr)
    | TouchReset(h: nat)
    | EndReset(h: nat, ok: bool)
    | FreeReset(h: nat)
    | BeginStep(h: nat, a: Addr, g: Option<nat>)
    | TouchStep(h: nat)
    | EndStep(h: nat, done: bool)
    | FreeStep(h: nat)
    | CloseSession(a: Addr, g: Option<nat>)
    | BeginSync(live: set<Addr>)
    | SyncAdd(a: Addr, dialOk: bool)
    | EndSync
    | Cleanup

  predicate At(s: Sys, h: nat, p: Phase) {
    h in s.handlers && s.handlers[h].phase == p
  }

  predicate Issued(s: Sys, g: Option<nat>) {
    g.Some? ==> g.value < |s.issued|
  }

  predicate Enabled(s: Sys, l: Label) {
    match l
    case Tick(_) => true
    case BeginReset(h, a) => h !in s.handlers && a in FreeSet(s.pool)
    case TouchReset(h) => At(s, h, Locked)
    case EndReset(h, _) => At(s, h, Resetting)
    case FreeReset(h) => At(s, h, ResetFailed)
    case BeginStep(h, a, g) => h !in s.handlers && a != "" && a in s.pool.agents && Issued(s, g)
    case TouchStep(h) => At(s, h, Found)
    case EndStep(h, _) => At(s, h, Stepping)
    case FreeStep(h) => At(s, h, StepDone)
    case CloseSession(a, g) => a != "" && Issued(s, g)
    case BeginSync(_) => s.sync.Idle?
    case SyncAdd(a, _) => s.sync.Adding? && a in s.sync.todo
    case EndSync => s.sync.Adding? && s.sync.todo == {}
    case Cleanup => true
  }

  function Goto(s: Sys, h: nat, p: Phase): Sys
    requires h in s.handlers
  {
    s.(handlers := s.handlers[h := s.handlers[h].(phase := p)])
  }

  function Finish(s: Sys, h: nat): Sys {
    s.(handlers := s.handlers - {h})
  }

  /** The agent is stamped at its address and the forwarded call starts. */
  function Stamp(s: Sys, h: nat, p: Phase): Sys
    requires h in s.handlers
  {
    s.(pool := Touch(s.pool, s.handlers[h].addr, s.now),
       handlers := s.handlers[h := s.handlers[h].(phase := p, since := s.now)])
  }

  function Free(s: Sys, a: Addr): Sys {
    s.(pool := Release(s.pool, a), holder := s.holder - {a})
  }

  function Apply(cfg: Config, s: Sys, l: Label): Sys
    requires Enabled(s, l)
  {
    match l
    case Tick(d) => s.(now := s.now + d)
    case BeginReset(h, a) =>
      s.(pool := Lock(s.pool, a, s.now),
         handlers := s.handlers[h := Handler(Locked, a, s.pool.agents[a].conn, Some(|s.issued|), s.now)],
         holder := s.holder[a := |s.issued|],
         issued := s.issued + [Grant(a, s.pool.agents[a].conn)])
    case TouchReset(h) => Stamp(s, h, Resetting)
    case EndReset(h, ok) => if ok then Finish(s, h) else Goto(s, h, ResetFailed)
    case FreeReset(h) => Finish(Free(s, s.handlers[h].addr), h)
    case BeginStep(h, a, g) =>
      s.(handlers := s.handlers[h := Handler(Found, a, s.pool.agents[a].conn, g, s.now)])
    case TouchStep(h) => Stamp(s, h, Stepping)
    case EndStep(h, done) => if done then Goto(s, h, StepDone) else Finish(s, h)
    case FreeStep(h) => Finish(Free(s, s.handlers[h].addr), h)
    case CloseSession(a, _) => Free(s, a)
    case BeginSync(live) => s.(sync := Adding(live, live, {}))
    case SyncAdd(a, dialOk) =>
      s.(pool := Add(s.pool, a, dialOk, s.now),
         sync := s.sync.(todo := s.sync.todo - {a},
                         failed := if a !in s.pool.agents && !dialOk then s.sync.failed + {a} else s.sync.failed))
    case EndSync =>
      s.(pool := SweepAll(s.pool, NotIn(s.sync.live)), sync := Idle, target := s.sync.live - s.sync.failed)
    case Cleanup =>
      s.(pool := SweepAll(s.pool, Stale(cfg.timeout, s.now)),
         holder := s.holder - ExpiredSet(s.pool, cfg.timeout, s.now),
         lastCleanup := s.now)
  }

  /** Where a sequence of steps leads, if each is enabled in its turn. */
  function Play(cfg: Config, s: Sys, ls: seq<Label>): Option<Sys> {
    if ls == [] then Some(s)
    else
      match Play(cfg, s, ls[..|ls| - 1])
      case None => None
      case Some(m) => if Enabled(m, ls[|ls| - 1]) then Some(Apply(cfg, m, ls[|ls| - 1])) else None
  }

  lemma PlayOn(cfg: Config, s: Sys, ls: seq<Label>, l: Label)
    requires Play(cfg, s, ls).Some? && Enabled(Play(cfg, s, ls).value, l)
    ensures Play(cfg, s, ls + [l]) == Some(Apply(cfg, Play(cfg, s, ls).value, l))
  {
    assert (ls + [l])[..|ls|] == ls;
  }

  // --------------------------------------------------------------- invariant

  ghost predicate ClockOk(s: Sys) {
    s.lastCleanup <= s.now && forall a :: a in s.pool.agents ==> s.pool.agents[a].last <= s.now
  }

  /** The holders are exactly the busy agents, and each is held under the grant that was issued
      for this very record at this very address. */
  ghost predicate GrantsOk(s: Sys) {
    && s.holder.Keys == BusySet(s.pool)
    && forall a :: a in s.holder ==> && s.holder[a] < |s.issued|
                                     && s.issued[s.holder[a]] == Grant(a, s.pool.agents[a].conn)
  }

  /** The entries not waiting for removal are those the last sync wanted, plus the ones the sync
      in progress has added so far. */
  ghost predicate SyncOk(s: Sys) {
    match s.sync
    case Idle => Wanted(s.pool) == s.target
    case Adding(live, todo, failed) =>
      && todo <= live && failed <= live - todo
      && failed * s.pool.agents.Keys == {}
      && Wanted(s.pool) == s.target + (live - todo - failed)
  }

  /** A handler past its stamp: the pool entry at its address has been active since. */
  ghost predicate StampOk(s: Sys, x: Handler) {
    x.since <= s.now && (x.addr in s.pool.agents ==> x.since <= s.pool.agents[x.addr].last)
  }

  ghost predicate StampsOk(s: Sys) {
    forall h :: h in s.handlers && s.handlers[h].phase != Found ==> StampOk(s, s.handlers[h])
  }

  ghost predicate SysInv(s: Sys) {
    Inv(s.pool) && ClockOk(s) && GrantsOk(s) && SyncOk(s) && StampsOk(s)
  }

  lemma PoolKept(cfg: Config, s: Sys, l: Label)
    requires Enabled(s, l) && Inv(s.pool)
    ensures Inv(Apply(cfg, s, l).pool)
  {
    match l
    case BeginReset(h, a) => LockInv(s.pool, a, s.now);
    case TouchReset(h) => TouchInv(s.pool, s.handlers[h].addr, s.now);
    case FreeReset(h) => ReleaseInv(s.pool, s.handlers[h].addr);
    case TouchStep(h) => TouchInv(s.pool, s.handlers[h].addr, s.now);
    case FreeStep(h) => ReleaseInv(s.pool, s.handlers[h].addr);
    case CloseSession(a, _) => ReleaseInv(s.pool, a);
    case SyncAdd(a, dialOk) => AddInv(s.pool, a, dialOk, s.now);
    case EndSync => SweepInv(s.pool, NotIn(s.sync.live), s.pool.agents.Keys);
    case Cleanup => SweepInv(s.pool, Stale(cfg.timeout, s.now), s.pool.agents.Keys);
    case _ =>
  }

  /** The activity time at an address after a step is the present, or what it was before. */
  lemma LastMoves(cfg: Config, s: Sys, l: Label, a: Addr)
    requires Enabled(s, l) && a in Apply(cfg, s, l).pool.agents
    ensures var e := Apply(cfg, s, l).pool.agents[a];
            e.last == s.now || (a in s.pool.agents && e.last == s.pool.agents[a].last)
  {
    match l
    case EndSync => assert a in s.pool.agents;
    case Cleanup => assert a in s.pool.agents;
    case _ =>
  }

  lemma ClockKept(cfg: Config, s: Sys, l: Label)
    requires Enabled(s, l) && ClockOk(s)
    ensures ClockOk(Apply(cfg, s, l))
  {
    var t := Apply(cfg, s, l);
    forall a | a in t.pool.agents ensures t.pool.agents[a].last <= t.now {
      LastMoves(cfg, s, l, a);
    }
  }

  /** How one step moves the busy agents, the wanted agents and the records. */
  lemma Effects(cfg: Config, s: Sys, l: Label)
    requires Enabled(s, l) && Inv(s.pool)
    ensures var t := Apply(cfg, s, l);
            && SameRecords(s.pool, t.pool)
            && BusySet(t.pool) == (match l
                case BeginReset(_, a) => BusySet(s.pool) + {a}
                case FreeReset(h) => BusySet(s.pool) - {s.handlers[h].addr}
                case FreeStep(h) => BusySet(s.pool) - {s.handlers[h].addr}
                case CloseSession(a, _) => BusySet(s.pool) - {a}
                case Cleanup => BusySet(s.pool) - ExpiredSet(s.pool, cfg.timeout, s.now)
                case _ => BusySet(s.pool))
            && Wanted(t.pool) == (match l
                case SyncAdd(a, ok) => Wanted(s.pool) + if a in s.pool.agents || ok then {a} else {}
                case EndSync => Wanted(s.pool) * s.sync.live
                case _ => Wanted(s.pool))
            && (l.SyncAdd? || t.pool.agents.Keys <= s.pool.agents.Keys)
  {
    match l
    case BeginReset(h, a) => LockEffect(s.pool, a, s.now);
    case TouchReset(h) => TouchEffect(s.pool, s.handlers[h].addr, s.now);
    case FreeReset(h) => ReleaseEffect(s.pool, s.handlers[h].addr);
    case TouchStep(h) => TouchEffect(s.pool, s.handlers[h].addr, s.now);
    case FreeStep(h) => ReleaseEffect(s.pool, s.handlers[h].addr);
    case CloseSession(a, _) => ReleaseEffect(s.pool, a);
    case SyncAdd(a, dialOk) => AddEffect(s.pool, a, dialOk, s.now);
    case EndSync => NotInEffect(s.pool, s.sync.live);
    case Cleanup => CleanupEffect(s.pool, cfg.timeout, s.now);
    case _ =>
  }

  lemma GrantsKept(cfg: Config, s: Sys, l: Label)
    requires Enabled(s, l) && Inv(s.pool) && GrantsOk(s)
    ensures GrantsOk(Apply(cfg, s, l))
  {
    Effects(cfg, s, l);
    var t := Apply(cfg, s, l);
    assert t.holder.Keys == BusySet(t.pool);
    forall a | a in t.holder
      ensures t.holder[a] < |t.issued| && t.issued[t.holder[a]] == Grant(a, t.pool.agents[a].conn)
    {
      assert a in BusySet(t.pool);
      if a in s.holder {
        assert a in BusySet(s.pool);
      }
    }
  }

  lemma SyncKept(cfg: Config, s: Sys, l: Label)
    requires Enabled(s, l) && Inv(s.pool) && SyncOk(s)
    ensures SyncOk(Apply(cfg, s, l))
  {
    Effects(cfg, s, l);
    var t := Apply(cfg, s, l);
    match l
    case SyncAdd(a, dialOk) =>
      var more := if a in s.pool.agents || dialOk then {a} else {};
      assert s.sync.live - t.sync.todo - t.sync.failed == s.sync.live - s.sync.todo - s.sync.failed + more;
    case EndSync =>
      assert Wanted(s.pool) * s.sync.failed == {};
    case _ =>
  }

  lemma StampsKept(cfg: Config, s: Sys, l: Label)
    requires Enabled(s, l) && ClockOk(s) && StampsOk(s)
    ensures StampsOk(Apply(cfg, s, l))
  {
    var t := Apply(cfg, s, l);
    forall h | h in t.handlers && t.handlers[h].phase != Found ensures StampOk(t, t.handlers[h]) {
      if t.handlers[h].addr in t.pool.agents {
        LastMoves(cfg, s, l, t.handlers[h].addr);
      }
      assert h in s.handlers && s.handlers[h].phase != Found ==> StampOk(s, s.handlers[h]);
    }
  }

  lemma Kept(cfg: Config, s: Sys, l: Label)
    requires Enabled(s, l) && SysInv(s)
    ensures SysInv(Apply(cfg, s, l))
  {
    PoolKept(cfg, s, l);
    ClockKept(cfg, s, l);
    GrantsKept(cfg, s, l);
    SyncKept(cfg, s, l);
    StampsKept(cfg, s, l);
  }
}
