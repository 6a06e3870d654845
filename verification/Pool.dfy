/** The router's agent pool as it runs: a map of mutable agent records, updated in place. Every
    method is proved equal, on the view of the pool as a value, to the operation of PoolSpec. */
module PoolImpl {
  import opened Wrappers
  import opened PoolSpec

  class AgentClient {
    const addr: Addr
    const conn: ConnId
    var busy: bool
    var lastActivity: int
    var pendingRemoval: bool

    constructor (addr: Addr, conn: ConnId, now: int)
      ensures this.addr == addr && this.conn == conn
      ensures !busy && !pendingRemoval && lastActivity == now
    {
      this.addr := addr;
      this.conn := conn;
      busy := false;
      lastActivity := now;
      pendingRemoval := false;
    }

    function View(): Entry
      reads this
    {
      Entry(addr, conn, busy, lastActivity, pendingRemoval)
    }
  }

  class Pool {
    var agents: map<Addr, AgentClient>
    // What the transport has seen: connections handed out, and Close calls received.
    var dialed: nat
    ghost var closed: multiset<ConnId>

    ghost function View(): PoolState
      reads this, agents.Values
    {
      PoolState(map a | a in agents :: agents[a].View(), dialed, closed)
    }

    ghost predicate Valid()
      reads this, agents.Values
    {
      Inv(View()) && Keyed()
    }

    constructor ()
      ensures Valid() && View() == EMPTY
      ensures agents.Values == {}
    {
      agents := map[];
      dialed := 0;
      closed := multiset{};
    }

    ghost predicate Keyed()
      reads this, agents.Values
    {
      forall a :: a in agents ==> agents[a].addr == a
    }

    /** What every removal does: close the agent's connection and delete its entry. */
    method CloseAndDelete(addr: Addr)
      requires Keyed() && addr in agents
      modifies this
      ensures agents == old(agents) - {addr}
      ensures View() == Drop(old(View()), addr)
    {
      ghost var expected := Drop(View(), addr);
      closed := closed + multiset{agents[addr].conn};
      agents := agents - {addr};
      assert View().agents == expected.agents;
    }

    /** Release an agent: also the body of the cleanup loop. */
    method ReleaseEntry(addr: Addr)
      requires Keyed() && addr in agents
      modifies this, agents[addr]
      ensures Keyed() && agents == (if old(agents[addr].pendingRemoval) then old(agents) - {addr} else old(agents))
      ensures View() == Release(old(View()), addr)
    {
      ghost var cur := View();
      agents[addr].busy := false;
      assert View().agents == cur.agents[addr := cur.agents[addr].(busy := false)];
      if agents[addr].pendingRemoval {
        CloseAndDelete(addr);
        assert View().agents == Drop(cur, addr).agents;
      }
    }

    /** Remove an idle agent, mark a busy one: also the body of the loop over vanished pods. */
    method RemoveEntry(addr: Addr)
      requires Keyed() && addr in agents
      modifies this, agents[addr]
      ensures Keyed() && agents == (if old(agents[addr].busy) then old(agents) else old(agents) - {addr})
      ensures View() == Remove(old(View()), addr)
    {
      ghost var cur := View();
      if agents[addr].busy {
        agents[addr].pendingRemoval := true;
        assert View().agents == cur.agents[addr := cur.agents[addr].(pending := true)];
      } else {
        CloseAndDelete(addr);
      }
    }

    /** `dialOk` is the outcome of the dial, if one is made. */
    method AddAgent(addr: Addr, dialOk: bool, now: int) returns (ok: bool)
      requires Valid()
      modifies this, agents.Values
      ensures Valid() && fresh(agents.Values - old(agents.Values))
      ensures View() == Add(old(View()), addr, dialOk, now)
      ensures ok <==> addr in agents
    {
      ghost var cur := View();
      AddInv(cur, addr, dialOk, now);
      if addr in agents {
        if agents[addr].pendingRemoval {
          agents[addr].pendingRemoval := false;
        }
        assert View() == Add(cur, addr, dialOk, now) by {
          assert View().agents == cur.agents[addr := cur.agents[addr].(pending := false)];
        }
        return true;
      }
      if !dialOk {
        return false;
      }
      var ac := new AgentClient(addr, dialed, now);
      dialed := dialed + 1;
      agents := agents[addr := ac];
      assert View() == Add(cur, addr, dialOk, now) by {
        assert View().agents == cur.agents[addr := Entry(addr, cur.dialed, false, now, false)];
      }
      return true;
    }

    method RemoveAgent(addr: Addr)
      requires Valid()
      modifies this, agents.Values
      ensures Valid() && agents.Values <= old(agents.Values)
      ensures View() == Remove(old(View()), addr)
    {
      RemoveInv(View(), addr);
      if addr in agents {
        RemoveEntry(addr);
      }
    }

    /** Some free agent is locked, whichever the iteration meets first; failure means there is none. */
    method LockFreeAgent(now: int) returns (r: Option<AgentClient>)
      requires Valid()
      modifies this, agents.Values
      ensures Valid() && agents == old(agents)
      ensures r.None? <==> FreeSet(old(View())) == {}
      ensures r.None? ==> View() == old(View())
      ensures r.Some? ==> && r.value.addr in FreeSet(old(View())) && agents[r.value.addr] == r.value
                          && View() == Lock(old(View()), r.value.addr, now)
    {
      var todo := agents.Keys;
      while todo != {}
        invariant todo <= agents.Keys
        invariant forall a :: a in agents && a !in todo ==> !agents[a].View().Free()
      {
        var addr :| addr in todo;
        var ac := agents[addr];
        if !ac.busy && !ac.pendingRemoval {
          assert addr in FreeSet(View());
          LockInv(View(), addr, now);
          ghost var expected := Lock(View(), addr, now);
          ac.busy := true;
          ac.lastActivity := now;
          assert View().agents == expected.agents;
          return Some(ac);
        }
        todo := todo - {addr};
      }
      return None;
    }

    method FreeAgent(addr: Addr)
      requires Valid()
      modifies this, agents.Values
      ensures Valid() && agents.Values <= old(agents.Values)
      ensures View() == Release(old(View()), addr)
    {
      ReleaseInv(View(), addr);
      if addr in agents {
        ReleaseEntry(addr);
      }
    }

    method TouchAgent(addr: Addr, now: int)
      requires Valid()
      modifies this, agents.Values
      ensures Valid() && agents == old(agents)
      ensures View() == Touch(old(View()), addr, now)
    {
      TouchInv(View(), addr, now);
      ghost var expected := Touch(View(), addr, now);
      if addr in agents {
        agents[addr].lastActivity := now;
      }
      assert View().agents == expected.agents;
    }

    /** The loop deletes from the map it walks; the walk may take the addresses in any order. */
    method CleanupStaleAgents(timeout: int, now: int)
      requires Valid()
      modifies this, agents.Values
      ensures Valid() && agents.Values <= old(agents.Values)
      ensures View() == SweepAll(old(View()), Stale(timeout, now))
    {
      ghost var before, w := View(), Stale(timeout, now);
      ghost var order: seq<Addr> := [];
      var todo := agents.Keys;
      while todo != {}
        invariant todo <= agents.Keys
        invariant forall a :: a in agents ==> a in old(agents) && agents[a] == old(agents[a])
        invariant Distinct(order) && forall a :: a in order <==> a in before.agents && a !in todo
        invariant Keyed()
        invariant View() == Walk(before, w, order)
      {
        var addr :| addr in todo;
        ghost var cur := View();
        WalkOneMore(before, w, order, addr);
        var ac := agents[addr];
        if ac.busy && now - ac.lastActivity > timeout {
          ReleaseEntry(addr);
        } else {
          assert cur.agents == cur.agents[addr := cur.agents[addr]];
        }
        DistinctOneMore(order, addr);
        order := order + [addr];
        todo := todo - {addr};
      }
      WalkAll(before, w, order);
    }

    method GetAgentBySession(addr: Addr) returns (r: Option<AgentClient>)
      requires Valid()
      ensures r.Some? <==> addr in agents
      ensures r.Some? ==> r.value == agents[addr] && r.value.addr == addr
    {
      if addr in agents {
        return Some(agents[addr]);
      }
      return None;
    }

    method FreeCount() returns (count: nat)
      requires Valid()
      ensures count == |FreeSet(View())|
    {
      count := 0;
      var todo := agents.Keys;
      ghost var all := View().agents;
      ghost var free := FreeSet(View());
      while todo != {}
        invariant todo <= agents.Keys && count == |free - todo|
      {
        var addr :| addr in todo;
        var ac := agents[addr];
        CountOneMore(free, todo, addr);
        assert all[addr] == ac.View();
        if !ac.busy && !ac.pendingRemoval {
          count := count + 1;
        }
        todo := todo - {addr};
      }
      assert free - todo == free;
    }

    method TotalCount() returns (count: nat)
      requires Valid()
      ensures count == |View().agents|
    {
      assert View().agents.Keys == agents.Keys;
      count := |agents|;
    }

    /** Again a loop that deletes from the map it walks, in any order. */
    method RemoveAgentsNotIn(liveAddrs: set<Addr>)
      requires Valid()
      modifies this, agents.Values
      ensures Valid() && agents.Values <= old(agents.Values)
      ensures View() == SweepAll(old(View()), NotIn(liveAddrs))
    {
      ghost var before, w := View(), NotIn(liveAddrs);
      ghost var order: seq<Addr> := [];
      var todo := agents.Keys;
      while todo != {}
        invariant todo <= agents.Keys
        invariant forall a :: a in agents ==> a in old(agents) && agents[a] == old(agents[a])
        invariant Distinct(order) && forall a :: a in order <==> a in before.agents && a !in todo
        invariant Keyed()
        invariant View() == Walk(before, w, order)
      {
        var addr :| addr in todo;
        ghost var cur := View();
        WalkOneMore(before, w, order, addr);
        if addr !in liveAddrs {
          RemoveEntry(addr);
        } else {
          assert cur.agents == cur.agents[addr := cur.agents[addr]];
        }
        DistinctOneMore(order, addr);
        order := order + [addr];
        todo := todo - {addr};
      }
      WalkAll(before, w, order);
    }

    /** Closes every connection but keeps the entries: the last step of a run. */
    method Close()
      requires Valid()
      modifies this`closed
      ensures agents == old(agents)
      ensures View() == CloseAll(old(View()))
      ensures closed == multiset(Numbered(dialed))
    {
      ghost var before := View();
      ghost var order: seq<Addr> := [];
      var todo := agents.Keys;
      while todo != {}
        invariant todo <= before.agents.Keys
        invariant Distinct(order) && forall a :: a in order <==> a in before.agents && a !in todo
        invariant closed == CloseWalk(before, order)
      {
        var addr :| addr in todo;
        CloseWalkOneMore(before, order, addr);
        DistinctOneMore(order, addr);
        closed := closed + multiset{agents[addr].conn};
        order := order + [addr];
        todo := todo - {addr};
      }
      assert View() == before.(closed := closed);
      CloseWalkAll(before, order);
    }
  }
}
