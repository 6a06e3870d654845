/** The endpoint watcher: one sync of the pool against a list of endpoints, and the list-then-watch
    loop that drives it. */
module Watcher {
  import opened Wrappers
  import opened PoolSpec
  import opened PoolImpl
  import RouterSystem

  /** The ready addresses of each subset. */
  datatype Endpoints = Endpoints(subsets: seq<seq<string>>)

  function Target(ip: string, port: string): Addr {
    ip + ":" + port
  }

  /** Cut at the last colon. */
  function Split(addr: Addr): Option<(string, string)> {
    if addr == "" then None
    else
      var init, c := addr[..|addr| - 1], addr[|addr| - 1];
      if c == ':' then Some((init, ""))
      else
        match Split(init)
        case None => None
        case Some((host, port)) => Some((host, port + [c]))
  }

  /** An address is the pod's host, which may have colons of its own, and the port. */
  lemma {:induction false} SplitTarget(ip: string, port: string)
    requires ':' !in port
    ensures Split(Target(ip, port)) == Some((ip, port))
    ensures var addr := Target(ip, port);
            && |addr| == |ip| + 1 + |port| && addr[..|ip|] == ip && addr[|ip|] == ':' && addr[|ip| + 1..] == port
  {
    var addr := Target(ip, port);
    if port == "" {
      assert addr[..|addr| - 1] == ip;
    } else {
      var init := port[..|port| - 1];
      assert port == init + [port[|port| - 1]];
      assert ':' !in init;
      SplitTarget(ip, init);
      assert addr[..|addr| - 1] == Target(ip, init);
    }
  }

  /** The addresses the endpoints name, whichever subset they are in. */
  function Live(ep: Endpoints, port: string): set<Addr> {
    set i, j | 0 <= i < |ep.subsets| && 0 <= j < |ep.subsets[i]| :: Target(ep.subsets[i][j], port)
  }

  /** Every address in `live` splits into a host of some subset and the port, and every host of every
      subset is one of them. */
  ghost predicate HostsAndPort(live: set<Addr>, ep: Endpoints, port: string) {
    && (forall a :: a in live ==> exists i, j :: 0 <= i < |ep.subsets| && 0 <= j < |ep.subsets[i]|
                                                 && Split(a) == Some((ep.subsets[i][j], port)))
    && (forall i, j :: 0 <= i < |ep.subsets| && 0 <= j < |ep.subsets[i]| ==>
          exists a :: a in live && Split(a) == Some((ep.subsets[i][j], port)))
  }

  lemma LiveSplit(ep: Endpoints, port: string)
    requires ':' !in port
    ensures HostsAndPort(Live(ep, port), ep, port)
  {
    forall a | a in Live(ep, port)
      ensures exists i, j :: 0 <= i < |ep.subsets| && 0 <= j < |ep.subsets[i]| && Split(a) == Some((ep.subsets[i][j], port))
    {
      var i, j :| 0 <= i < |ep.subsets| && 0 <= j < |ep.subsets[i]| && a == Target(ep.subsets[i][j], port);
      SplitTarget(ep.subsets[i][j], port);
    }
    forall i, j | 0 <= i < |ep.subsets| && 0 <= j < |ep.subsets[i]|
      ensures exists a :: a in Live(ep, port) && Split(a) == Some((ep.subsets[i][j], port))
    {
      SplitTarget(ep.subsets[i][j], port);
      assert Target(ep.subsets[i][j], port) in Live(ep, port);
    }
  }

  // ---------------------------------------------------------------- one sync, as a value

  /** The add loop run over the live addresses in the given order; dials to `refused` fail. */
  function AddWalk(s: PoolState, order: seq<Addr>, refused: set<Addr>, now: int): PoolState {
    if order == [] then s
    else
      var a := order[|order| - 1];
      Add(AddWalk(s, order[..|order| - 1], refused, now), a, a !in refused, now)
  }

  function Synced(s: PoolState, order: seq<Addr>, live: set<Addr>, refused: set<Addr>, now: int): PoolState {
    SweepAll(AddWalk(s, order, refused, now), NotIn(live))
  }

  /** A pool up to the identity of its connections. */
  datatype Mark = Mark(busy: bool, last: int, pending: bool)

  function Shape(s: PoolState): map<Addr, Mark> {
    map a | a in s.agents :: Mark(s.agents[a].busy, s.agents[a].last, s.agents[a].pending)
  }

  /** What the adds make of the shape, in one go. */
  function AddedShape(m: map<Addr, Mark>, live: set<Addr>, refused: set<Addr>, now: int): map<Addr, Mark> {
    map a | a in m.Keys + (live - refused) ::
      if a in m then (if a in live then m[a].(pending := false) else m[a]) else Mark(false, now, false)
  }

  /** What a whole sync makes of the shape: live agents are wanted, new ones where the dial
      succeeds; of the others the busy ones wait for removal and the idle ones are gone. */
  function SyncedShape(m: map<Addr, Mark>, live: set<Addr>, refused: set<Addr>, now: int): map<Addr, Mark> {
    map a | a in m.Keys + (live - refused) && (a in live || m[a].busy) ::
      if a in m then m[a].(pending := a !in live) else Mark(false, now, false)
  }

  function Elems(order: seq<Addr>): set<Addr> {
    set a | a in order
  }

  lemma ElemsInit(order: seq<Addr>)
    requires order != []
    ensures Elems(order) == Elems(order[..|order| - 1]) + {order[|order| - 1]}
  {
  }

  lemma AddedNext(order: seq<Addr>, a: Addr)
    requires Distinct(order) && a !in Elems(order)
    ensures Distinct(order + [a]) && Elems(order + [a]) == Elems(order) + {a}
  {
    DistinctOneMore(order, a);
  }

  lemma {:induction false} AddWalkShape(s: PoolState, order: seq<Addr>, refused: set<Addr>, now: int)
    requires Inv(s)
    ensures Inv(AddWalk(s, order, refused, now))
    ensures Shape(AddWalk(s, order, refused, now)) == AddedShape(Shape(s), Elems(order), refused, now)
    ensures SameRecords(s, AddWalk(s, order, refused, now)) && s.agents.Keys <= AddWalk(s, order, refused, now).agents.Keys
  {
    if order == [] {
      assert AddedShape(Shape(s), {}, refused, now) == Shape(s);
    } else {
      var init, a := order[..|order| - 1], order[|order| - 1];
      var t := AddWalk(s, init, refused, now);
      AddWalkShape(s, init, refused, now);
      AddInv(t, a, a !in refused, now);
      ElemsInit(order);
      AddShape(t, a, a !in refused, now);
      AddedOneMore(Shape(s), Elems(init), a, refused, now);
    }
  }

  lemma {:induction false} OneMoreAdd(s: PoolState, order: seq<Addr>, a: Addr, refused: set<Addr>, now: int)
    ensures AddWalk(s, order + [a], refused, now) == Add(AddWalk(s, order, refused, now), a, a !in refused, now)
  {
  }

  lemma AddShape(s: PoolState, a: Addr, ok: bool, now: int)
    ensures Shape(Add(s, a, ok, now)) ==
            if a in Shape(s) then Shape(s)[a := Shape(s)[a].(pending := false)]
            else if ok then Shape(s)[a := Mark(false, now, false)] else Shape(s)
  {
  }

  lemma AddedOneMore(m: map<Addr, Mark>, live: set<Addr>, a: Addr, refused: set<Addr>, now: int)
    ensures var n := AddedShape(m, live, refused, now);
            AddedShape(m, live + {a}, refused, now) ==
            if a in n then n[a := n[a].(pending := false)]
            else if a !in refused then n[a := Mark(false, now, false)] else n
  {
  }

  /** A sync has one result, up to the identity of the connections it opens. */
  lemma SyncShape(s: PoolState, order: seq<Addr>, live: set<Addr>, refused: set<Addr>, now: int)
    requires Inv(s) && Elems(order) == live
    ensures Inv(Synced(s, order, live, refused, now))
    ensures Shape(Synced(s, order, live, refused, now)) == SyncedShape(Shape(s), live, refused, now)
    ensures SameRecords(s, Synced(s, order, live, refused, now))
  {
    var t := AddWalk(s, order, refused, now);
    AddWalkShape(s, order, refused, now);
    SweepInv(t, NotIn(live), t.agents.Keys);
    SweptRecords(s, t, live);
    SweptShape(t, live);
    SweptAdded(Shape(s), live, refused, now);
  }

  lemma SweptRecords(s: PoolState, t: PoolState, live: set<Addr>)
    requires SameRecords(s, t)
    ensures SameRecords(s, SweepAll(t, NotIn(live)))
  {
  }

  function SweptMarks(m: map<Addr, Mark>, live: set<Addr>): map<Addr, Mark> {
    map a | a in m && (a in live || m[a].busy) :: if a in live then m[a] else m[a].(pending := true)
  }

  lemma SweptAdded(m: map<Addr, Mark>, live: set<Addr>, refused: set<Addr>, now: int)
    ensures SweptMarks(AddedShape(m, live, refused, now), live) == SyncedShape(m, live, refused, now)
  {
  }

  lemma SweptShape(t: PoolState, live: set<Addr>)
    ensures Shape(SweepAll(t, NotIn(live))) == SweptMarks(Shape(t), live)
  {
  }

  /** What one sync comes to, agent by agent: a live one is wanted and as busy and active as before; a busy
      one that is not live stays and waits for removal; an idle one that is not live is gone; an unknown
      live one is there, idle and fresh, just if its dial succeeds. */
  lemma SyncedExactly(s: PoolState, order: seq<Addr>, live: set<Addr>, refused: set<Addr>, now: int, a: Addr)
    requires Inv(s) && Elems(order) == live
    ensures var q := Synced(s, order, live, refused, now);
            if a in s.agents then
              var e := s.agents[a];
              if a in live || e.busy then a in q.agents && q.agents[a] == Entry(a, e.conn, e.busy, e.last, a !in live)
              else a !in q.agents
            else
              && (a in q.agents <==> a in live && a !in refused)
              && (a in q.agents ==> !q.agents[a].busy && !q.agents[a].pending && q.agents[a].last == now)
  {
    var q := Synced(s, order, live, refused, now);
    SyncShape(s, order, live, refused, now);
    assert a in q.agents <==> a in Shape(q);
    assert a in s.agents <==> a in Shape(s);
    if a in q.agents {
      var m := Shape(q)[a];
      assert m == Mark(q.agents[a].busy, q.agents[a].last, q.agents[a].pending);
    }
  }

  /** The order in which the add loop takes the live addresses does not matter. */
  lemma OrderIrrelevant(s: PoolState, o1: seq<Addr>, o2: seq<Addr>, live: set<Addr>, refused: set<Addr>, now: int)
    requires Inv(s) && Elems(o1) == live == Elems(o2)
    ensures Shape(Synced(s, o1, live, refused, now)) == Shape(Synced(s, o2, live, refused, now))
  {
    SyncShape(s, o1, live, refused, now);
    SyncShape(s, o2, live, refused, now);
  }

  /** In step with the live set: nothing for a sync to do. */
  ghost predicate InStep(s: PoolState, live: set<Addr>, refused: set<Addr>) {
    && Wanted(s) <= live && live - refused <= Wanted(s)
    && forall a :: a in s.agents && a in live ==> a in Wanted(s)
  }

  lemma ShapeInStep(s: PoolState, m: map<Addr, Mark>, live: set<Addr>, refused: set<Addr>, now: int)
    requires Shape(s) == SyncedShape(m, live, refused, now)
    ensures InStep(s, live, refused)
  {
    forall a ensures a in s.agents <==> a in Shape(s) {
    }
    forall a | a in s.agents ensures Shape(s)[a].pending == s.agents[a].pending {
    }
  }

  lemma SyncReaches(s: PoolState, order: seq<Addr>, live: set<Addr>, refused: set<Addr>, now: int)
    requires Inv(s) && Elems(order) == live
    ensures InStep(Synced(s, order, live, refused, now), live, refused)
  {
    SyncShape(s, order, live, refused, now);
    ShapeInStep(Synced(s, order, live, refused, now), Shape(s), live, refused, now);
  }

  lemma {:induction false} AddWalkIdle(s: PoolState, order: seq<Addr>, live: set<Addr>, refused: set<Addr>, now: int)
    requires InStep(s, live, refused) && Elems(order) <= live
    ensures AddWalk(s, order, refused, now) == s
  {
    if order != [] {
      ElemsInit(order);
      AddWalkIdle(s, order[..|order| - 1], live, refused, now);
      var a := order[|order| - 1];
      assert a in Elems(order);
      if a in s.agents {
        assert a in Wanted(s);
        assert s.agents[a].(pending := false) == s.agents[a];
        assert s.agents[a := s.agents[a]] == s.agents;
        assert Add(s, a, a !in refused, now) == s;
      } else {
        assert a !in Wanted(s);
        assert a in live;
        assert a !in live - refused;
      }
    }
  }

  /** Syncing again with the same endpoints changes nothing at all, at any time and in any order. */
  lemma SyncIdempotent(s: PoolState, o1: seq<Addr>, o2: seq<Addr>, live: set<Addr>, refused: set<Addr>, now: int, later: int)
    requires Inv(s) && Elems(o1) == live == Elems(o2)
    ensures var t := Synced(s, o1, live, refused, now);
            Synced(t, o2, live, refused, later) == t
  {
    var t := Synced(s, o1, live, refused, now);
    SyncShape(s, o1, live, refused, now);
    SyncReaches(s, o1, live, refused, now);
    AddWalkIdle(t, o2, live, refused, later);
    forall a | a in t.agents && a !in live ensures t.agents[a].pending && t.agents[a].busy {
      assert a !in Wanted(t);
    }
    assert SweepAll(t, NotIn(live)).agents == t.agents;
    assert DoomedConns(t, NotIn(live), t.agents.Keys) == {};
  }

  // ---------------------------------------------------------------- as steps of the router

  /** The add steps of a sync in the given order, and the whole of it. */
  function AddLabels(order: seq<Addr>, refused: set<Addr>): seq<RouterSystem.Label> {
    if order == [] then []
    else
      var a := order[|order| - 1];
      AddLabels(order[..|order| - 1], refused) + [RouterSystem.SyncAdd(a, a !in refused)]
  }

  function SyncLabels(order: seq<Addr>, live: set<Addr>, refused: set<Addr>): seq<RouterSystem.Label> {
    [RouterSystem.BeginSync(live)] + AddLabels(order, refused) + [RouterSystem.EndSync]
  }

  /** The state of the router once a sync in progress in `s` has added the addresses in `order`. */
  ghost predicate MidSync(s: RouterSystem.Sys, order: seq<Addr>, refused: set<Addr>, t: RouterSystem.Sys)
    requires s.sync.Adding?
  {
    && t.pool == AddWalk(s.pool, order, refused, s.now) && t.now == s.now && t.handlers == s.handlers
    && t.sync.Adding? && t.sync.live == s.sync.live && t.sync.todo == s.sync.todo - Elems(order)
  }

  lemma {:induction false} MidSyncStep(cfg: RouterSystem.Config, s: RouterSystem.Sys, order: seq<Addr>,
                                       refused: set<Addr>, t: RouterSystem.Sys)
    requires s.sync.Adding? && order != [] && Distinct(order) && Elems(order) <= s.sync.todo
    requires MidSync(s, order[..|order| - 1], refused, t)
    ensures var a := order[|order| - 1];
            var l := RouterSystem.SyncAdd(a, a !in refused);
            RouterSystem.Enabled(t, l) && MidSync(s, order, refused, RouterSystem.Apply(cfg, t, l))
  {
  }

  lemma {:induction false} AddsAsSteps(cfg: RouterSystem.Config, s: RouterSystem.Sys, first: seq<RouterSystem.Label>,
                                       t: RouterSystem.Sys, order: seq<Addr>, refused: set<Addr>)
      returns (u: RouterSystem.Sys)
    requires RouterSystem.Play(cfg, s, first) == Some(t)
    requires t.sync.Adding? && Distinct(order) && Elems(order) <= t.sync.todo
    ensures RouterSystem.Play(cfg, s, first + AddLabels(order, refused)) == Some(u)
    ensures MidSync(t, order, refused, u)
  {
    if order == [] {
      assert first + [] == first;
      u := t;
    } else {
      var init, a := order[..|order| - 1], order[|order| - 1];
      var l := RouterSystem.SyncAdd(a, a !in refused);
      ElemsInit(order);
      var m := AddsAsSteps(cfg, s, first, t, init, refused);
      MidSyncStep(cfg, t, order, refused, m);
      RouterSystem.PlayOn(cfg, s, first + AddLabels(init, refused), l);
      assert first + AddLabels(init, refused) + [l] == first + AddLabels(order, refused);
      u := RouterSystem.Apply(cfg, m, l);
    }
  }

  /** A sync in progress can always be finished, in any order and whatever the dials come to, whatever the
      handlers have done to the pool meanwhile. */
  lemma {:induction false} SyncFinishes(cfg: RouterSystem.Config, s: RouterSystem.Sys, order: seq<Addr>, refused: set<Addr>)
    requires s.sync.Adding? && Distinct(order) && Elems(order) == s.sync.todo
    ensures var r := RouterSystem.Play(cfg, s, AddLabels(order, refused) + [RouterSystem.EndSync]);
            && r.Some? && r.value.pool == Synced(s.pool, order, s.sync.live, refused, s.now)
            && r.value.sync.Idle? && r.value.handlers == s.handlers
  {
    var t := AddsAsSteps(cfg, s, [], s, order, refused);
    assert [] + AddLabels(order, refused) == AddLabels(order, refused);
    RouterSystem.PlayOn(cfg, s, AddLabels(order, refused), RouterSystem.EndSync);
  }

  /** An uninterrupted sync is a sequence of steps of the router, possible whenever no sync is in progress. */
  lemma {:induction false} SyncAsSteps(cfg: RouterSystem.Config, s: RouterSystem.Sys, order: seq<Addr>, live: set<Addr>, refused: set<Addr>)
    requires s.sync.Idle? && Distinct(order) && Elems(order) == live
    ensures var r := RouterSystem.Play(cfg, s, SyncLabels(order, live, refused));
            && r.Some? && r.value.pool == Synced(s.pool, order, live, refused, s.now)
            && r.value.sync.Idle? && r.value.handlers == s.handlers
  {
    var first := [RouterSystem.BeginSync(live)];
    RouterSystem.PlayOn(cfg, s, [], RouterSystem.BeginSync(live));
    assert [] + first == first;
    var t := AddsAsSteps(cfg, s, first, RouterSystem.Apply(cfg, s, RouterSystem.BeginSync(live)), order, refused);
    RouterSystem.PlayOn(cfg, s, first + AddLabels(order, refused), RouterSystem.EndSync);
  }

  /** The pool `p` turns into `q` as it does in the router, by the steps of a sync in the given order. */
  ghost predicate Refines(p: PoolState, q: PoolState, order: seq<Addr>, live: set<Addr>, refused: set<Addr>, now: int) {
    forall cfg: RouterSystem.Config, s: RouterSystem.Sys :: s.sync.Idle? && s.pool == p && s.now == now ==>
      var r := RouterSystem.Play(cfg, s, SyncLabels(order, live, refused));
      r.Some? && r.value.pool == q && r.value.sync.Idle? && r.value.handlers == s.handlers
  }

  lemma SyncedRefines(p: PoolState, order: seq<Addr>, live: set<Addr>, refused: set<Addr>, now: int)
    requires Distinct(order) && Elems(order) == live
    ensures Refines(p, Synced(p, order, live, refused, now), order, live, refused, now)
  {
    forall cfg: RouterSystem.Config, s: RouterSystem.Sys | s.sync.Idle? && s.pool == p && s.now == now
      ensures var r := RouterSystem.Play(cfg, s, SyncLabels(order, live, refused));
              r.Some? && r.value.pool == Synced(p, order, live, refused, now) && r.value.sync.Idle? && r.value.handlers == s.handlers
    {
      SyncAsSteps(cfg, s, order, live, refused);
    }
  }

  lemma SyncDone(p: PoolState, q: PoolState, order: seq<Addr>, live: set<Addr>, refused: set<Addr>, now: int)
    requires Inv(p) && Distinct(order) && Elems(order) == live && q == Synced(p, order, live, refused, now)
    ensures Shape(q) == SyncedShape(Shape(p), live, refused, now) && SameRecords(p, q)
    ensures InStep(q, live, refused) && Refines(p, q, order, live, refused, now)
  {
    SyncShape(p, order, live, refused, now);
    SyncReaches(p, order, live, refused, now);
    SyncedRefines(p, order, live, refused, now);
  }

  // ---------------------------------------------------------------- the watcher

  /** Endpoints as delivered, with the addresses whose dial would fail and the time of the sync. */
  datatype Delivery = Delivery(ep: Endpoints, refused: set<Addr>, now: int)

  datatype Event = Added(d: Delivery) | Modified(d: Delivery) | Deleted | NotEndpoints

  /** The last endpoints that reached the watcher. */
  function Last(initial: Delivery, events: seq<Event>): Delivery {
    if events == [] then initial
    else
      match events[|events| - 1]
      case Added(d) => d
      case Modified(d) => d
      case _ => Last(initial, events[..|events| - 1])
  }

  lemma {:induction false} LastDelivered(initial: Delivery, events: seq<Event>, i: nat, d: Delivery)
    requires i < |events| && (events[i] == Added(d) || events[i] == Modified(d))
    requires forall k :: i < k < |events| ==> events[k] == Deleted || events[k] == NotEndpoints
    ensures Last(initial, events) == d
  {
    if i < |events| - 1 {
      LastDelivered(initial, events[..|events| - 1], i, d);
    }
  }

  function SyncedTo(m: map<Addr, Mark>, port: string, d: Delivery): map<Addr, Mark> {
    SyncedShape(m, Live(d.ep, port), d.refused, d.now)
  }

  /** The shape of a pool that has followed the events: one sync for each delivery, in order, and nothing
      for a deletion or a foreign object. */
  function Followed(m: map<Addr, Mark>, port: string, events: seq<Event>): map<Addr, Mark> {
    if events == [] then m
    else
      var n := Followed(m, port, events[..|events| - 1]);
      match events[|events| - 1]
      case Added(d) => SyncedTo(n, port, d)
      case Modified(d) => SyncedTo(n, port, d)
      case _ => n
  }

  lemma FollowedNext(m: map<Addr, Mark>, port: string, events: seq<Event>, i: nat)
    requires i < |events|
    ensures var n := Followed(m, port, events[..i]);
            Followed(m, port, events[..i + 1]) ==
            (match events[i] case Added(d) => SyncedTo(n, port, d) case Modified(d) => SyncedTo(n, port, d) case _ => n)
  {
    assert events[..i + 1][..i] == events[..i];
  }

  /** A pool that has followed the events is in step with the last endpoints delivered. */
  lemma {:induction false} FollowedInStep(s: PoolState, m: map<Addr, Mark>, port: string, initial: Delivery, events: seq<Event>)
    requires Shape(s) == Followed(SyncedTo(m, port, initial), port, events)
    ensures var d := Last(initial, events);
            InStep(s, Live(d.ep, port), d.refused)
  {
    if events == [] {
      ShapeInStep(s, m, Live(initial.ep, port), initial.refused, initial.now);
    } else {
      var init, e := events[..|events| - 1], events[|events| - 1];
      if e.Added? || e.Modified? {
        ShapeInStep(s, Followed(SyncedTo(m, port, initial), port, init), Live(e.d.ep, port), e.d.refused, e.d.now);
      } else {
        FollowedInStep(s, m, port, initial, init);
      }
    }
  }

  /** Deletions and foreign objects may be left out of what the watcher receives. */
  function Deliveries(events: seq<Event>): seq<Event> {
    if events == [] then []
    else
      var e := events[|events| - 1];
      Deliveries(events[..|events| - 1]) + if e.Added? || e.Modified? then [e] else []
  }

  lemma {:induction false} OnlyDeliveriesCount(m: map<Addr, Mark>, port: string, events: seq<Event>)
    ensures Followed(m, port, events) == Followed(m, port, Deliveries(events))
  {
    if events != [] {
      var init, e := events[..|events| - 1], events[|events| - 1];
      OnlyDeliveriesCount(m, port, init);
      if e.Added? || e.Modified? {
        assert Deliveries(events)[..|Deliveries(events)| - 1] == Deliveries(init);
      } else {
        assert Deliveries(events) == Deliveries(init);
      }
    }
  }

  class EndpointWatcher {
    const pool: Pool
    const grpcPort: string

    constructor (p: Pool, port: string)
      ensures pool == p && grpcPort == port
    {
      pool := p;
      grpcPort := port;
    }

    method LiveAddrs(ep: Endpoints) returns (liveAddrs: set<Addr>)
      ensures liveAddrs == Live(ep, grpcPort)
      ensures ':' !in grpcPort ==> HostsAndPort(liveAddrs, ep, grpcPort)
    {
      liveAddrs := {};
      for i := 0 to |ep.subsets|
        invariant forall a :: a in liveAddrs <==>
          exists k, j :: 0 <= k < i && 0 <= j < |ep.subsets[k]| && Target(ep.subsets[k][j], grpcPort) == a
      {
        var addresses := ep.subsets[i];
        for n := 0 to |addresses|
          invariant forall a :: a in liveAddrs <==>
            || (exists k, j :: 0 <= k < i && 0 <= j < |ep.subsets[k]| && Target(ep.subsets[k][j], grpcPort) == a)
            || (exists j :: 0 <= j < n && Target(ep.subsets[i][j], grpcPort) == a)
        {
          liveAddrs := liveAddrs + {Target(addresses[n], grpcPort)};
        }
      }
      assert liveAddrs == Live(ep, grpcPort);
      if ':' !in grpcPort {
        LiveSplit(ep, grpcPort);
      }
    }

    /** The add loop; `order` is the order it happens to take. */
    method AddAgents(liveAddrs: set<Addr>, refused: set<Addr>, now: int) returns (ghost order: seq<Addr>)
      requires pool.Valid()
      modifies pool, pool.agents.Values
      ensures pool.Valid() && fresh(pool.agents.Values - old(pool.agents.Values))
      ensures Distinct(order) && Elems(order) == liveAddrs
      ensures pool.View() == AddWalk(old(pool.View()), order, refused, now)
    {
      order := [];
      var todo := liveAddrs;
      while todo != {}
        invariant pool.Valid() && fresh(pool.agents.Values - old(pool.agents.Values))
        invariant Distinct(order) && todo !! Elems(order) && todo + Elems(order) == liveAddrs
        invariant pool.View() == AddWalk(old(pool.View()), order, refused, now)
      {
        var addr :| addr in todo;
        var _ := pool.AddAgent(addr, addr !in refused, now);
        OneMoreAdd(old(pool.View()), order, addr, refused, now);
        AddedNext(order, addr);
        order := order + [addr];
        todo := todo - {addr};
      }
    }

    /** `order` is the order in which the live addresses happen to be added. */
    method SyncEndpoints(ep: Endpoints, refused: set<Addr>, now: int) returns (ghost order: seq<Addr>)
      requires pool.Valid()
      modifies pool, pool.agents.Values
      ensures pool.Valid() && fresh(pool.agents.Values - old(pool.agents.Values))
      ensures Shape(pool.View()) == SyncedShape(Shape(old(pool.View())), Live(ep, grpcPort), refused, now)
      ensures SameRecords(old(pool.View()), pool.View())
      ensures InStep(pool.View(), Live(ep, grpcPort), refused)
      ensures Distinct(order) && Elems(order) == Live(ep, grpcPort)
      ensures Refines(old(pool.View()), pool.View(), order, Live(ep, grpcPort), refused, now)
    {
      var liveAddrs := LiveAddrs(ep);
      ghost var before := pool.View();
      assert before == old(pool.View());
      order := AddAgents(liveAddrs, refused, now);
      ghost var added := pool.View();
      pool.RemoveAgentsNotIn(liveAddrs);
      assert pool.View() == SweepAll(added, NotIn(liveAddrs));
      SyncDone(before, pool.View(), order, liveAddrs, refused, now);
    }

    /** List, then watch until the channel closes. The pool follows the endpoints delivered, one sync for
        each; a deletion of the service is not acted upon, and leaves it as it is. */
    method WatchLoop(initial: Option<Delivery>, watchOk: bool, events: seq<Event>) returns (listed: bool)
      requires pool.Valid()
      modifies pool, pool.agents.Values
      ensures pool.Valid() && listed == initial.Some?
      ensures !listed ==> pool.View() == old(pool.View())
      ensures listed ==>
                Shape(pool.View()) == Followed(SyncedTo(Shape(old(pool.View())), grpcPort, initial.value), grpcPort,
                                               if watchOk then events else [])
      ensures listed ==>
                var d := Last(initial.value, if watchOk then events else []);
                InStep(pool.View(), Live(d.ep, grpcPort), d.refused)
    {
      if initial.None? {
        return false;
      }
      ghost var before := Shape(pool.View());
      ghost var m := SyncedTo(before, grpcPort, initial.value);
      var _ := SyncEndpoints(initial.value.ep, initial.value.refused, initial.value.now);
      if !watchOk {
        return true;
      }
      assert events[..0] == [];
      for i := 0 to |events|
        invariant pool.Valid() && fresh(pool.agents.Values - old(pool.agents.Values))
        invariant Shape(pool.View()) == Followed(m, grpcPort, events[..i])
      {
        FollowedNext(m, grpcPort, events, i);
        match events[i]
        case Added(d) => var _ := SyncEndpoints(d.ep, d.refused, d.now);
        case Modified(d) => var _ := SyncEndpoints(d.ep, d.refused, d.now);
        case Deleted =>
        case NotEndpoints =>
      }
      assert events[..|events|] == events;
      FollowedInStep(pool.View(), before, grpcPort, initial.value, events);
      return true;
    }
  }
}
