/** The agent pool as a mathematical value: what each operation of the router's pool does to
    it, the invariant every operation keeps, and the ledger of agent connections. */
module PoolSpec {
  type Addr = string

  /** Every successful dial yields a connection of its own; they are numbered in dialing order.
      Since an agent record owns one connection for life, the number also identifies the record. */
  type ConnId = nat

  datatype Entry = Entry(addr: Addr, conn: ConnId, busy: bool, last: int, pending: bool) {
    predicate Free() {
      !busy && !pending
    }
  }

  /** `dialed` counts the connections ever dialed, `closed` the Close calls made on each. */
  datatype PoolState = PoolState(agents: map<Addr, Entry>, dialed: nat, closed: multiset<ConnId>)

  const EMPTY := PoolState(map[], 0, multiset{})

  function Conns(agents: map<Addr, Entry>): set<ConnId> {
    set a | a in agents :: agents[a].conn
  }

  /** The numbers of the first `n` connections. */
  function Numbered(n: nat): (r: set<ConnId>)
    ensures forall c: ConnId :: c in r <==> c < n
  {
    if n == 0 then {} else Numbered(n - 1) + {n - 1}
  }

  function ConnsIn(agents: map<Addr, Entry>, keys: set<Addr>): set<ConnId> {
    set a | a in agents && a in keys :: agents[a].conn
  }

  function FreeSet(s: PoolState): set<Addr> {
    set a | a in s.agents && s.agents[a].Free()
  }

  function BusySet(s: PoolState): set<Addr> {
    set a | a in s.agents && s.agents[a].busy
  }

  function PendingSet(s: PoolState): set<Addr> {
    set a | a in s.agents && s.agents[a].pending
  }

  /** The addresses the pool regards as backed by a live pod. */
  function Wanted(s: PoolState): set<Addr> {
    set a | a in s.agents && !s.agents[a].pending
  }

  // ---------------------------------------------------------------- invariant

  /** Each key is its entry's address, and only a busy agent waits for removal. */
  ghost predicate Keyed(agents: map<Addr, Entry>) {
    forall a :: a in agents ==> agents[a].addr == a && (agents[a].pending ==> agents[a].busy)
  }

  ghost predicate DistinctConns(agents: map<Addr, Entry>) {
    forall a, b :: a in agents && b in agents && agents[a].conn == agents[b].conn ==> a == b
  }

  /** Every connection dialed so far is either owned by exactly one pool entry and never closed,
      or owned by none and closed exactly once; no other connection was ever closed. */
  ghost predicate Ledger(s: PoolState) {
    forall c: ConnId :: s.closed[c] + (if c in Conns(s.agents) then 1 else 0) == (if c < s.dialed then 1 else 0)
  }

  ghost predicate Inv(s: PoolState) {
    Keyed(s.agents) && DistinctConns(s.agents) && Ledger(s)
  }

  // --------------------------------------------------------------- operations

  function Add(s: PoolState, a: Addr, dialOk: bool, now: int): PoolState {
    if a in s.agents then s.(agents := s.agents[a := s.agents[a].(pending := false)])
    else if dialOk then s.(agents := s.agents[a := Entry(a, s.dialed, false, now, false)], dialed := s.dialed + 1)
    else s
  }

  /** Close the connection of `a` and forget the entry. */
  function Drop(s: PoolState, a: Addr): PoolState
    requires a in s.agents
  {
    s.(agents := s.agents - {a}, closed := s.closed + multiset{s.agents[a].conn})
  }

  function Remove(s: PoolState, a: Addr): PoolState {
    if a !in s.agents then s
    else if s.agents[a].busy then s.(agents := s.agents[a := s.agents[a].(pending := true)])
    else Drop(s, a)
  }

  function Lock(s: PoolState, a: Addr, now: int): PoolState
    requires a in s.agents
  {
    s.(agents := s.agents[a := s.agents[a].(busy := true, last := now)])
  }

  function Release(s: PoolState, a: Addr): PoolState {
    if a !in s.agents then s
    else if s.agents[a].pending then Drop(s, a)
    else s.(agents := s.agents[a := s.agents[a].(busy := false)])
  }

  function Touch(s: PoolState, a: Addr, now: int): PoolState {
    if a in s.agents then s.(agents := s.agents[a := s.agents[a].(last := now)]) else s
  }

  /** The two sweeps over the whole pool: by inactivity, and by absence from the live set. */
  datatype Sweep = Stale(timeout: int, now: int) | NotIn(live: set<Addr>)

  predicate Expired(e: Entry, timeout: int, now: int) {
    e.busy && now - e.last > timeout
  }

  /** Whether a sweep closes and forgets an entry. */
  predicate Doomed(w: Sweep, a: Addr, e: Entry) {
    match w
    case Stale(timeout, now) => Expired(e, timeout, now) && e.pending
    case NotIn(live) => a !in live && !e.busy
  }

  /** What a sweep makes of an entry it keeps. */
  function Swept(w: Sweep, a: Addr, e: Entry): Entry {
    match w
    case Stale(timeout, now) => if Expired(e, timeout, now) then e.(busy := false) else e
    case NotIn(live) => if a !in live && e.busy then e.(pending := true) else e
  }

  /** A sweep that has visited just the addresses in `visited`, as one map transformation. */
  function SweepOn(s: PoolState, w: Sweep, visited: set<Addr>): PoolState {
    PoolState(
      map a | a in s.agents && !(a in visited && Doomed(w, a, s.agents[a])) ::
        if a in visited then Swept(w, a, s.agents[a]) else s.agents[a],
      s.dialed,
      s.closed + multiset(DoomedConns(s, w, visited)))
  }

  /** The body of the loop that performs a sweep. */
  function SweepOne(s: PoolState, w: Sweep, a: Addr): PoolState
    requires a in s.agents
  {
    if Doomed(w, a, s.agents[a]) then Drop(s, a)
    else s.(agents := s.agents[a := Swept(w, a, s.agents[a])])
  }

  function DoomedConns(s: PoolState, w: Sweep, visited: set<Addr>): set<ConnId> {
    set a | a in s.agents && a in visited && Doomed(w, a, s.agents[a]) :: s.agents[a].conn
  }

  function SweepAll(s: PoolState, w: Sweep): PoolState {
    SweepOn(s, w, s.agents.Keys)
  }

  function CloseAll(s: PoolState): PoolState {
    s.(closed := s.closed + multiset(Conns(s.agents)))
  }

  // ------------------------------------------------- every operation keeps Inv

  lemma AddInv(s: PoolState, a: Addr, dialOk: bool, now: int)
    requires Inv(s)
    ensures Inv(Add(s, a, dialOk, now))
  {
    var t := Add(s, a, dialOk, now);
    if a in s.agents {
      SameConns(s.agents, t.agents);
    } else if dialOk {
      assert s.dialed !in Conns(s.agents) by {
        assert s.closed[s.dialed] >= 0;
      }
      assert forall b :: b in t.agents <==> b == a || b in s.agents;
      assert Conns(t.agents) == Conns(s.agents) + {s.dialed} by {
        forall c | c in Conns(s.agents) + {s.dialed} ensures c in Conns(t.agents) {
          if c == s.dialed {
            assert t.agents[a].conn == c;
          } else {
            var b :| b in s.agents && s.agents[b].conn == c;
            assert t.agents[b].conn == c;
          }
        }
      }
      forall b, d | b in t.agents && d in t.agents && t.agents[b].conn == t.agents[d].conn
        ensures b == d
      {
        assert b != a ==> t.agents[b].conn in Conns(s.agents);
        assert d != a ==> t.agents[d].conn in Conns(s.agents);
      }
    }
  }

  /** Changing entries without changing keys or connections keeps the connections. */
  lemma SameConns(m: map<Addr, Entry>, n: map<Addr, Entry>)
    requires m.Keys == n.Keys
    requires forall a :: a in m ==> m[a].conn == n[a].conn
    ensures Conns(m) == Conns(n)
  {
  }

  lemma DropInv(s: PoolState, a: Addr)
    requires Inv(s) && a in s.agents
    ensures Inv(Drop(s, a))
  {
    var t := Drop(s, a);
    assert Conns(t.agents) == Conns(s.agents) - {s.agents[a].conn} by {
      forall c | c in Conns(s.agents) - {s.agents[a].conn} ensures c in Conns(t.agents) {
        var b :| b in s.agents && s.agents[b].conn == c;
        assert b in t.agents && t.agents[b].conn == c;
      }
    }
    assert s.agents[a].conn in Conns(s.agents);
  }

  lemma RemoveInv(s: PoolState, a: Addr)
    requires Inv(s)
    ensures Inv(Remove(s, a))
  {
    if a in s.agents && !s.agents[a].busy {
      DropInv(s, a);
    } else {
      SameConns(s.agents, Remove(s, a).agents);
    }
  }

  lemma LockInv(s: PoolState, a: Addr, now: int)
    requires Inv(s) && a in s.agents
    ensures Inv(Lock(s, a, now))
  {
    SameConns(s.agents, Lock(s, a, now).agents);
  }

  lemma ReleaseInv(s: PoolState, a: Addr)
    requires Inv(s)
    ensures Inv(Release(s, a))
  {
    if a in s.agents && s.agents[a].pending {
      DropInv(s, a);
    } else {
      SameConns(s.agents, Release(s, a).agents);
    }
  }

  lemma TouchInv(s: PoolState, a: Addr, now: int)
    requires Inv(s)
    ensures Inv(Touch(s, a, now))
  {
    SameConns(s.agents, Touch(s, a, now).agents);
  }

  lemma SweepInv(s: PoolState, w: Sweep, visited: set<Addr>)
    requires Inv(s)
    ensures Inv(SweepOn(s, w, visited))
  {
    var t := SweepOn(s, w, visited);
    var gone := DoomedConns(s, w, visited);
    assert Conns(t.agents) == Conns(s.agents) - gone by {
      forall c | c in Conns(s.agents) - gone ensures c in Conns(t.agents) {
        var b :| b in s.agents && s.agents[b].conn == c;
        assert b in t.agents && t.agents[b].conn == c;
      }
      forall c | c in Conns(t.agents) ensures c in Conns(s.agents) - gone {
        var b :| b in t.agents && t.agents[b].conn == c;
        assert s.agents[b].conn == c;
      }
    }
    assert gone <= Conns(s.agents);
  }

  /** Visiting one more address of a sweep is one step of the loop that performs it. The order in
      which the addresses come up plays no part in the result. */
  lemma SweepStep(s: PoolState, w: Sweep, visited: set<Addr>, a: Addr)
    requires Inv(s) && a in s.agents && a !in visited
    ensures a in SweepOn(s, w, visited).agents && SweepOn(s, w, visited).agents[a] == s.agents[a]
    ensures SweepOn(s, w, visited + {a}) == SweepOne(SweepOn(s, w, visited), w, a)
  {
    SweepStepAgents(s, w, visited, a);
    SweepStepClosed(s, w, visited, a);
  }

  lemma SweepStepAgents(s: PoolState, w: Sweep, visited: set<Addr>, a: Addr)
    requires a in s.agents && a !in visited
    ensures a in SweepOn(s, w, visited).agents && SweepOn(s, w, visited).agents[a] == s.agents[a]
    ensures SweepOn(s, w, visited + {a}).agents == SweepOne(SweepOn(s, w, visited), w, a).agents
  {
  }

  lemma SweepStepClosed(s: PoolState, w: Sweep, visited: set<Addr>, a: Addr)
    requires DistinctConns(s.agents) && a in s.agents && a !in visited
    ensures SweepOn(s, w, visited + {a}).closed
            == if Doomed(w, a, s.agents[a]) then SweepOn(s, w, visited).closed + multiset{s.agents[a].conn}
               else SweepOn(s, w, visited).closed
  {
  }

  predicate Distinct(order: seq<Addr>) {
    forall i, j :: 0 <= i < j < |order| ==> order[i] != order[j]
  }

  /** The loop that performs a sweep, run over the addresses in the given order. */
  function Walk(s: PoolState, w: Sweep, order: seq<Addr>): PoolState {
    if order == [] then s
    else
      var t := Walk(s, w, order[..|order| - 1]);
      var a := order[|order| - 1];
      if a in t.agents then SweepOne(t, w, a) else t
  }

  /** A loop that deletes from the map it walks ends in the same state whatever the order: that of
      the one-shot sweep of the addresses visited. */
  lemma {:induction false} WalkIsSweep(s: PoolState, w: Sweep, order: seq<Addr>)
    requires Inv(s) && Distinct(order) && forall a :: a in order ==> a in s.agents
    ensures Walk(s, w, order) == SweepOn(s, w, (set a | a in order))
  {
    if order == [] {
      assert SweepOn(s, w, {}).agents == s.agents;
      assert DoomedConns(s, w, {}) == {};
      assert (set a | a in order) == {};
    } else {
      var init, a := order[..|order| - 1], order[|order| - 1];
      assert order == init + [a];
      WalkIsSweep(s, w, init);
      assert (set b | b in order) == (set b | b in init) + {a};
      SweepStep(s, w, (set b | b in init), a);
    }
  }

  lemma DistinctOneMore(order: seq<Addr>, a: Addr)
    requires Distinct(order) && a !in order
    ensures Distinct(order + [a])
    ensures forall b :: b in order + [a] <==> b in order || b == a
  {
  }

  lemma WalkOneMore(s: PoolState, w: Sweep, order: seq<Addr>, a: Addr)
    requires a in Walk(s, w, order).agents
    ensures Walk(s, w, order + [a]) == SweepOne(Walk(s, w, order), w, a)
  {
  }

  lemma WalkAll(s: PoolState, w: Sweep, order: seq<Addr>)
    requires Inv(s) && Distinct(order) && forall a :: a in order <==> a in s.agents
    ensures Walk(s, w, order) == SweepAll(s, w) && Inv(Walk(s, w, order))
  {
    WalkIsSweep(s, w, order);
    assert (set a | a in order) == s.agents.Keys;
    SweepInv(s, w, s.agents.Keys);
  }

  // ------------------------------------- who changes the busy and the wanted agents

  /** Records survive: an entry present before and after has the same connection. */
  ghost predicate SameRecords(s: PoolState, t: PoolState) {
    forall a :: a in s.agents && a in t.agents ==> s.agents[a].conn == t.agents[a].conn
  }

  lemma AddEffect(s: PoolState, a: Addr, dialOk: bool, now: int)
    requires Keyed(s.agents)
    ensures var t := Add(s, a, dialOk, now);
            && BusySet(t) == BusySet(s) && SameRecords(s, t)
            && Wanted(t) == Wanted(s) + (if a in s.agents || dialOk then {a} else {})
  {
  }

  lemma LockEffect(s: PoolState, a: Addr, now: int)
    requires a in FreeSet(s)
    ensures var t := Lock(s, a, now);
            && a !in BusySet(s) && BusySet(t) == BusySet(s) + {a} && SameRecords(s, t)
            && Wanted(t) == Wanted(s) && t.agents.Keys == s.agents.Keys
  {
  }

  lemma TouchEffect(s: PoolState, a: Addr, now: int)
    ensures var t := Touch(s, a, now);
            && BusySet(t) == BusySet(s) && SameRecords(s, t)
            && Wanted(t) == Wanted(s) && t.agents.Keys == s.agents.Keys
  {
  }

  lemma ReleaseEffect(s: PoolState, a: Addr)
    ensures var t := Release(s, a);
            && BusySet(t) == BusySet(s) - {a} && SameRecords(s, t)
            && Wanted(t) == Wanted(s) && t.agents.Keys <= s.agents.Keys
  {
  }

  function ExpiredSet(s: PoolState, timeout: int, now: int): set<Addr> {
    set a | a in s.agents && Expired(s.agents[a], timeout, now)
  }

  /** The cleanup frees exactly the busy agents whose last activity is more than the timeout ago,
      keeps the others as they are, and never changes which agents are wanted. */
  lemma CleanupEffect(s: PoolState, timeout: int, now: int)
    ensures var t := SweepAll(s, Stale(timeout, now));
            && BusySet(t) == BusySet(s) - ExpiredSet(s, timeout, now) && SameRecords(s, t)
            && Wanted(t) == Wanted(s) && t.agents.Keys <= s.agents.Keys
            && (forall a :: a in s.agents && a !in ExpiredSet(s, timeout, now) ==> a in t.agents && t.agents[a] == s.agents[a])
  {
  }

  /** The sweep of the watcher frees nobody and leaves just the live agents wanted. */
  lemma NotInEffect(s: PoolState, live: set<Addr>)
    ensures var t := SweepAll(s, NotIn(live));
            && BusySet(t) == BusySet(s) && SameRecords(s, t)
            && Wanted(t) == Wanted(s) * live && t.agents.Keys <= s.agents.Keys
  {
  }

  // -------------------------------------------------- consequences of the invariant

  /** Conservation: the connections in the pool, all open, and the closed ones together are
      exactly the dialed ones, each counted once. */
  lemma {:induction false} ConnectionsConserved(s: PoolState)
    requires Inv(s)
    ensures s.closed + multiset(Conns(s.agents)) == multiset(Numbered(s.dialed))
    ensures forall c :: s.closed[c] <= 1
    ensures forall a :: a in s.agents ==> s.closed[s.agents[a].conn] == 0
  {
  }

  lemma OneLessConn(agents: map<Addr, Entry>, keys: set<Addr>, a: Addr)
    requires DistinctConns(agents) && a in agents && a in keys
    ensures multiset(ConnsIn(agents, keys)) == multiset(ConnsIn(agents, keys - {a})) + multiset{agents[a].conn}
  {
  }

  /** The loop that closes the connections of the agents in the given order. */
  function CloseWalk(s: PoolState, order: seq<Addr>): multiset<ConnId> {
    if order == [] then s.closed
    else
      var a := order[|order| - 1];
      CloseWalk(s, order[..|order| - 1]) + if a in s.agents then multiset{s.agents[a].conn} else multiset{}
  }

  lemma CloseWalkOneMore(s: PoolState, order: seq<Addr>, a: Addr)
    requires a in s.agents
    ensures CloseWalk(s, order + [a]) == CloseWalk(s, order) + multiset{s.agents[a].conn}
  {
  }

  lemma {:induction false} CloseWalkIsSum(s: PoolState, order: seq<Addr>, keys: set<Addr>)
    requires DistinctConns(s.agents) && Distinct(order) && forall a :: a in order <==> a in keys
    requires keys <= s.agents.Keys
    ensures CloseWalk(s, order) == s.closed + multiset(ConnsIn(s.agents, keys))
  {
    if order == [] {
      assert ConnsIn(s.agents, keys) == {};
    } else {
      var init, a := order[..|order| - 1], order[|order| - 1];
      assert order == init + [a];
      CloseWalkIsSum(s, init, keys - {a});
      OneLessConn(s.agents, keys, a);
    }
  }

  lemma CloseWalkAll(s: PoolState, order: seq<Addr>)
    requires Inv(s) && Distinct(order) && forall a :: a in order <==> a in s.agents
    ensures CloseWalk(s, order) == CloseAll(s).closed == multiset(Numbered(s.dialed))
  {
    CloseWalkIsSum(s, order, s.agents.Keys);
    assert ConnsIn(s.agents, s.agents.Keys) == Conns(s.agents);
    CloseAllClosesAll(s);
  }

  /** The final Close of the pool leaves no dialed connection open and closes none twice. */
  lemma CloseAllClosesAll(s: PoolState)
    requires Inv(s)
    ensures CloseAll(s).closed == multiset(Numbered(s.dialed))
  {
  }

  /** On one snapshot every agent is either free or busy, so the autoscaler's subtraction yields
      the number of busy agents. */
  lemma CountsAgree(s: PoolState)
    requires Inv(s)
    ensures FreeSet(s) !! BusySet(s) && FreeSet(s) + BusySet(s) == s.agents.Keys
    ensures |s.agents| - |FreeSet(s)| == |BusySet(s)|
    ensures PendingSet(s) <= BusySet(s)
  {
  }
}
