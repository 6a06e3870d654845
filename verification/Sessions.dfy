/** Who gets to use an agent. A session id is just the agent's address, and neither Step nor Close
    checks that its sender still holds the session, so exclusive use rests on how clients behave
    and on when the cleanup strikes. This module says exactly which steps keep it. */
module Sessions {
  import opened Wrappers
  import opened PoolSpec
  import opened RouterSystem
  import opened RouterRuns

  /** A request for `a` is sent under the grant that holds it. */
  ghost predicate Under(s: Sys, a: Addr, g: Option<nat>) {
    g.Some? && Holds(s, a, g.value)
  }

  ghost predicate InFlight(s: Sys, g: nat) {
    exists h :: h in s.handlers && s.handlers[h].grant == Some(g)
  }

  /** A request acts for the grant its agent is held under, on the record that was granted. */
  ghost predicate OnOwn(s: Sys, x: Handler) {
    Under(s, x.addr, x.grant) && x.addr in s.pool.agents && x.conn == s.pool.agents[x.addr].conn
  }

  ghost predicate DistinctGrants(handlers: map<nat, Handler>) {
    forall h, k :: h in handlers && k in handlers && handlers[h].grant == handlers[k].grant ==> h == k
  }

  ghost predicate Exclusive(s: Sys) {
    DistinctGrants(s.handlers) && forall h :: h in s.handlers ==> OnOwn(s, s.handlers[h])
  }

  // ------------------------------------------------- exactly which steps keep exclusive use

  /** No cleanup strikes a session that has a request in flight. */
  ghost predicate Spared(cfg: Config, s: Sys, l: Label) {
    l.Cleanup? ==> forall a :: a in s.holder && InFlight(s, s.holder[a]) ==> a !in ExpiredSet(s.pool, cfg.timeout, s.now)
  }

  /** A Step is sent under the grant that holds the agent, with no other request of it in flight; a
      Close, whoever sends it, does not hit a session with a request in flight; nor does a cleanup. */
  ghost predicate Keeps(cfg: Config, s: Sys, l: Label) {
    match l
    case BeginStep(_, a, g) => Under(s, a, g) && !InFlight(s, g.value)
    case CloseSession(a, _) => a in s.holder ==> !InFlight(s, s.holder[a])
    case _ => Spared(cfg, s, l)
  }

  lemma SameGrantSameAgent(s: Sys, a: Addr, b: Addr)
    requires GrantsOk(s) && a in s.holder && b in s.holder && s.holder[a] == s.holder[b]
    ensures a == b
  {
  }

  lemma HolderStays(cfg: Config, s: Sys, l: Label, a: Addr)
    requires Enabled(s, l) && a in BusySet(s.pool) && a in s.holder && a in Apply(cfg, s, l).holder
    ensures Apply(cfg, s, l).holder[a] == s.holder[a]
  {
  }

  lemma HolderKept(cfg: Config, s: Sys, l: Label, a: Addr)
    requires Enabled(s, l) && Inv(s.pool) && GrantsOk(s) && a in s.holder && a in Apply(cfg, s, l).holder
    ensures var t := Apply(cfg, s, l);
            && t.holder[a] == s.holder[a] && a in t.pool.agents && t.pool.agents[a].conn == s.pool.agents[a].conn
  {
    var t := Apply(cfg, s, l);
    assert a in BusySet(s.pool);
    HolderStays(cfg, s, l, a);
    GrantsKept(cfg, s, l);
    assert a in BusySet(t.pool);
    assert SameRecords(s.pool, t.pool) by {
      Effects(cfg, s, l);
    }
  }

  /** Which grants a step ends: those of the agents it frees. */
  lemma HolderLost(cfg: Config, s: Sys, l: Label, a: Addr)
    requires Enabled(s, l) && a in s.holder && a !in Apply(cfg, s, l).holder
    ensures match l
            case FreeReset(h) => a == s.handlers[h].addr
            case FreeStep(h) => a == s.handlers[h].addr
            case CloseSession(b, _) => a == b
            case Cleanup => a in ExpiredSet(s.pool, cfg.timeout, s.now)
            case _ => false
  {
  }

  /** A request still in flight after a step has not lost its agent to that step. */
  lemma StillHeld(cfg: Config, s: Sys, l: Label, h: nat)
    requires Enabled(s, l) && GrantsOk(s) && Exclusive(s) && Keeps(cfg, s, l)
    requires h in s.handlers && h in Apply(cfg, s, l).handlers
    ensures s.handlers[h].addr in Apply(cfg, s, l).holder
  {
    var x := s.handlers[h];
    assert OnOwn(s, x);
    assert InFlight(s, x.grant.value);
    if x.addr !in Apply(cfg, s, l).holder {
      HolderLost(cfg, s, l, x.addr);
    }
  }

  /** A step neither moves a request to another grant nor to another agent. */
  lemma SameRequest(cfg: Config, s: Sys, l: Label, h: nat)
    requires Enabled(s, l) && h in s.handlers && h in Apply(cfg, s, l).handlers
    ensures var x, y := s.handlers[h], Apply(cfg, s, l).handlers[h];
            y.addr == x.addr && y.conn == x.conn && y.grant == x.grant
  {
  }

  lemma NewHandler(cfg: Config, s: Sys, l: Label, h: nat)
    requires Enabled(s, l) && SysInv(s) && Keeps(cfg, s, l)
    requires h in Apply(cfg, s, l).handlers && h !in s.handlers
    ensures OnOwn(Apply(cfg, s, l), Apply(cfg, s, l).handlers[h])
  {
  }

  lemma GrantsStayDistinct(cfg: Config, s: Sys, l: Label)
    requires Enabled(s, l) && GrantsOk(s) && Exclusive(s) && Keeps(cfg, s, l)
    ensures DistinctGrants(Apply(cfg, s, l).handlers)
  {
    var t := Apply(cfg, s, l);
    forall h, k | h in t.handlers && k in t.handlers && t.handlers[h].grant == t.handlers[k].grant ensures h == k {
      if h in s.handlers {
        SameRequest(cfg, s, l, h);
      }
      if k in s.handlers {
        SameRequest(cfg, s, l, k);
      }
      if h !in s.handlers {
        NewGrant(cfg, s, l, h);
      } else if k !in s.handlers {
        NewGrant(cfg, s, l, k);
      }
    }
  }

  /** A new request's grant is not that of any request already in flight. */
  lemma NewGrant(cfg: Config, s: Sys, l: Label, h: nat)
    requires Enabled(s, l) && GrantsOk(s) && Exclusive(s) && Keeps(cfg, s, l)
    requires h in Apply(cfg, s, l).handlers && h !in s.handlers
    ensures (l.BeginReset? || l.BeginStep?) && l.h == h
    ensures forall k :: k in s.handlers ==> s.handlers[k].grant != Apply(cfg, s, l).handlers[h].grant
  {
    forall k | k in s.handlers ensures s.handlers[k].grant != Apply(cfg, s, l).handlers[h].grant {
      assert OnOwn(s, s.handlers[k]);
    }
  }

  lemma ExclusiveKept(cfg: Config, s: Sys, l: Label)
    requires Enabled(s, l) && SysInv(s) && Exclusive(s) && Keeps(cfg, s, l)
    ensures Exclusive(Apply(cfg, s, l))
  {
    var t := Apply(cfg, s, l);
    forall h | h in t.handlers ensures OnOwn(t, t.handlers[h]) {
      if h in s.handlers {
        assert OnOwn(s, s.handlers[h]);
        SameRequest(cfg, s, l, h);
        StillHeld(cfg, s, l, h);
        HolderKept(cfg, s, l, s.handlers[h].addr);
      } else {
        NewHandler(cfg, s, l, h);
      }
    }
    GrantsStayDistinct(cfg, s, l);
  }

  /** A step that frees an agent with a request in flight leaves that request without it. */
  lemma ExclusiveLost(cfg: Config, s: Sys, l: Label, a: Addr)
    requires Enabled(s, l) && GrantsOk(s) && Exclusive(s) && (l.CloseSession? || l.Cleanup?)
    requires a in s.holder && InFlight(s, s.holder[a]) && a !in Apply(cfg, s, l).holder
    ensures !Exclusive(Apply(cfg, s, l))
  {
    var h :| h in s.handlers && s.handlers[h].grant == Some(s.holder[a]);
    assert OnOwn(s, s.handlers[h]);
    SameGrantSameAgent(s, a, s.handlers[h].addr);
    assert !OnOwn(Apply(cfg, s, l), Apply(cfg, s, l).handlers[h]);
  }

  lemma OnlyKeepsStep(cfg: Config, s: Sys, l: Label)
    requires Enabled(s, l) && l.BeginStep? && Exclusive(Apply(cfg, s, l))
    ensures Keeps(cfg, s, l)
  {
    var t := Apply(cfg, s, l);
    assert OnOwn(t, t.handlers[l.h]);
    assert forall k :: k in s.handlers ==> t.handlers[k] == s.handlers[k] && k != l.h;
  }

  lemma OnlyKeeps(cfg: Config, s: Sys, l: Label)
    requires Enabled(s, l) && SysInv(s) && Exclusive(s) && Exclusive(Apply(cfg, s, l))
    ensures Keeps(cfg, s, l)
  {
    if l.BeginStep? {
      OnlyKeepsStep(cfg, s, l);
    } else if l.CloseSession? {
      if l.a in s.holder && InFlight(s, s.holder[l.a]) {
        ExclusiveLost(cfg, s, l, l.a);
      }
    } else if l.Cleanup? {
      forall a | a in s.holder && InFlight(s, s.holder[a]) ensures a !in ExpiredSet(s.pool, cfg.timeout, s.now) {
        if a in ExpiredSet(s.pool, cfg.timeout, s.now) {
          ExclusiveLost(cfg, s, l, a);
        }
      }
    }
  }

  ghost predicate AlwaysExclusive(ss: seq<Sys>) {
    forall i :: 0 <= i < |ss| ==> Exclusive(ss[i])
  }

  ghost predicate AlwaysKeeps(cfg: Config, ss: seq<Sys>, ls: seq<Label>)
    requires |ss| == |ls| + 1
  {
    forall k :: 0 <= k < |ls| ==> Keeps(cfg, ss[k], ls[k])
  }

  lemma {:induction false} KeepsIsExclusive(cfg: Config, ss: seq<Sys>, ls: seq<Label>, i: nat)
    requires Run(cfg, ss, ls) && AlwaysKeeps(cfg, ss, ls) && i < |ss|
    ensures Exclusive(ss[i])
  {
    if i > 0 {
      KeepsIsExclusive(cfg, ss, ls, i - 1);
      Always(cfg, ss, ls, i - 1);
      var s, l := ss[i - 1], ls[i - 1];
      assert Step(cfg, s, l, ss[i]) && Keeps(cfg, s, l);
      ExclusiveKept(cfg, s, l);
    }
  }

  /** The exact condition of exclusive use: in all states of a run requests in flight have their agents
      to themselves if and only if each step of the run is one that keeps to the rule above. */
  lemma ExclusiveExactly(cfg: Config, ss: seq<Sys>, ls: seq<Label>)
    requires Run(cfg, ss, ls)
    ensures AlwaysExclusive(ss) <==> AlwaysKeeps(cfg, ss, ls)
  {
    if AlwaysExclusive(ss) {
      forall k | 0 <= k < |ls| ensures Keeps(cfg, ss[k], ls[k]) {
        assert Step(cfg, ss[k], ls[k], ss[k + 1]) && Exclusive(ss[k]) && Exclusive(ss[k + 1]);
        Always(cfg, ss, ls, k);
        OnlyKeeps(cfg, ss[k], ls[k]);
      }
    }
    if AlwaysKeeps(cfg, ss, ls) {
      forall i | 0 <= i < |ss| ensures Exclusive(ss[i]) {
        KeepsIsExclusive(cfg, ss, ls, i);
      }
    }
  }

  /** What exclusive use amounts to, in every state of such a run: each request in flight works on the
      very record granted to its sender, still in the pool with its connection open, and any two
      requests in flight work on different agents. */
  lemma ExclusiveUse(cfg: Config, ss: seq<Sys>, ls: seq<Label>, i: nat, h: nat)
    requires Run(cfg, ss, ls) && AlwaysKeeps(cfg, ss, ls) && i < |ss| && h in ss[i].handlers
    ensures var s, x := ss[i], ss[i].handlers[h];
            && x.grant.Some? && x.grant.value < |s.issued| && s.issued[x.grant.value] == Grant(x.addr, x.conn)
            && x.addr in s.pool.agents && s.pool.agents[x.addr].conn == x.conn && s.pool.closed[x.conn] == 0
            && forall k :: k in s.handlers && k != h ==> s.handlers[k].addr != x.addr && s.handlers[k].conn != x.conn
  {
    ExclusiveExactly(cfg, ss, ls);
    Always(cfg, ss, ls, i);
    ConnectionsConserved(ss[i].pool);
    assert OnOwn(ss[i], ss[i].handlers[h]);
    forall k | k in ss[i].handlers && k != h
      ensures ss[i].handlers[k].addr != ss[i].handlers[h].addr && ss[i].handlers[k].conn != ss[i].handlers[h].conn
    {
      assert OnOwn(ss[i], ss[i].handlers[k]);
    }
  }

  // ------------------------------------------------- exactly which steps leave sessions alone

  /** What ends grant `g` in this step is a request sent under it, or a cleanup while it is idle. */
  ghost predicate OwnDoing(s: Sys, l: Label, g: nat)
    requires Enabled(s, l)
  {
    match l
    case FreeReset(h) => s.handlers[h].grant == Some(g)
    case FreeStep(h) => s.handlers[h].grant == Some(g)
    case CloseSession(_, k) => k == Some(g)
    case Cleanup => !InFlight(s, g)
    case _ => false
  }

  /** Every grant that ends in this step ends by its own client's doing, or by a cleanup while idle. */
  ghost predicate EndsOwnOnly(s: Sys, l: Label, t: Sys)
    requires Enabled(s, l)
  {
    forall a, g :: Holds(s, a, g) && !Holds(t, a, g) ==> OwnDoing(s, l, g)
  }

  /** As Keeps, but a Close that hits a session is sent under that session's grant. */
  ghost predicate KeepsOwn(cfg: Config, s: Sys, l: Label) {
    Keeps(cfg, s, l) && (l.CloseSession? && l.a in s.holder ==> l.g == Some(s.holder[l.a]))
  }

  ghost predicate AlwaysKeepsOwn(cfg: Config, ss: seq<Sys>, ls: seq<Label>)
    requires |ss| == |ls| + 1
  {
    forall k :: 0 <= k < |ls| ==> KeepsOwn(cfg, ss[k], ls[k])
  }

  /** In all states requests are exclusive, and no step ends a session but its own. */
  ghost predicate SessionsOwned(cfg: Config, ss: seq<Sys>, ls: seq<Label>)
    requires Run(cfg, ss, ls)
  {
    && AlwaysExclusive(ss)
    && forall k :: 0 <= k < |ls| ==> Step(cfg, ss[k], ls[k], ss[k + 1]) && EndsOwnOnly(ss[k], ls[k], ss[k + 1])
  }

  lemma OwnEnds(cfg: Config, s: Sys, l: Label)
    requires Enabled(s, l) && SysInv(s) && Exclusive(s) && KeepsOwn(cfg, s, l)
    ensures EndsOwnOnly(s, l, Apply(cfg, s, l))
  {
    var t := Apply(cfg, s, l);
    forall a, g | Holds(s, a, g) && !Holds(t, a, g) ensures OwnDoing(s, l, g) {
      if a in t.holder {
        HolderKept(cfg, s, l, a);
      } else {
        HolderLost(cfg, s, l, a);
        assert l.FreeReset? || l.FreeStep? ==> OnOwn(s, s.handlers[l.h]);
      }
    }
  }

  lemma OnlyKeepsOwn(cfg: Config, s: Sys, l: Label)
    requires Enabled(s, l) && SysInv(s) && Exclusive(s) && Exclusive(Apply(cfg, s, l))
    requires EndsOwnOnly(s, l, Apply(cfg, s, l))
    ensures KeepsOwn(cfg, s, l)
  {
    OnlyKeeps(cfg, s, l);
    if l.CloseSession? && l.a in s.holder {
      assert Holds(s, l.a, s.holder[l.a]) && !Holds(Apply(cfg, s, l), l.a, s.holder[l.a]);
    }
  }

  /** The exact condition for sessions to be their clients' own: in a run, all requests in flight are
      exclusive and no session is ended by anyone else, if and only if each step keeps to KeepsOwn. */
  lemma OwnershipExactly(cfg: Config, ss: seq<Sys>, ls: seq<Label>)
    requires Run(cfg, ss, ls)
    ensures SessionsOwned(cfg, ss, ls) <==> AlwaysKeepsOwn(cfg, ss, ls)
  {
    if SessionsOwned(cfg, ss, ls) {
      forall k | 0 <= k < |ls| ensures KeepsOwn(cfg, ss[k], ls[k]) {
        assert Step(cfg, ss[k], ls[k], ss[k + 1]) && Exclusive(ss[k]) && Exclusive(ss[k + 1]);
        Always(cfg, ss, ls, k);
        OnlyKeepsOwn(cfg, ss[k], ls[k]);
      }
    }
    if AlwaysKeepsOwn(cfg, ss, ls) {
      assert AlwaysKeeps(cfg, ss, ls) by {
        assert forall k :: 0 <= k < |ls| && KeepsOwn(cfg, ss[k], ls[k]) ==> Keeps(cfg, ss[k], ls[k]);
      }
      ExclusiveExactly(cfg, ss, ls);
      forall k | 0 <= k < |ls| ensures Step(cfg, ss[k], ls[k], ss[k + 1]) && EndsOwnOnly(ss[k], ls[k], ss[k + 1]) {
        assert Step(cfg, ss[k], ls[k], ss[k + 1]) && Exclusive(ss[k]) && KeepsOwn(cfg, ss[k], ls[k]);
        Always(cfg, ss, ls, k);
        OwnEnds(cfg, ss[k], ls[k]);
      }
    }
  }

  // ------------------------------------------------- polite clients

  /** A client sends a request only under a grant it still holds, one request at a time. */
  ghost predicate Mannerly(s: Sys, l: Label) {
    l.BeginStep? || l.CloseSession? ==> Under(s, l.a, l.g) && !InFlight(s, l.g.value)
  }

  ghost predicate Polite(cfg: Config, ss: seq<Sys>, ls: seq<Label>) {
    Run(cfg, ss, ls) && forall i :: 0 <= i < |ls| ==> Mannerly(ss[i], ls[i]) && Spared(cfg, ss[i], ls[i])
  }

  lemma MannerlyKeepsOwn(cfg: Config, s: Sys, l: Label)
    requires Mannerly(s, l) && Spared(cfg, s, l)
    ensures KeepsOwn(cfg, s, l)
  {
  }

  /** Polite clients own their sessions: their requests in flight are exclusive, and nobody's session is
      ended by anyone else. */
  lemma PoliteSessionsOwned(cfg: Config, ss: seq<Sys>, ls: seq<Label>)
    requires Polite(cfg, ss, ls)
    ensures SessionsOwned(cfg, ss, ls)
  {
    forall k | 0 <= k < |ls| ensures KeepsOwn(cfg, ss[k], ls[k]) {
      MannerlyKeepsOwn(cfg, ss[k], ls[k]);
    }
    OwnershipExactly(cfg, ss, ls);
  }
}
