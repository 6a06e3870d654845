/** The router's gRPC handlers, each as one uninterrupted sequence of pool operations around a
    forwarded call whose outcome is a parameter. RouterSystem interleaves the same operations. */
module ServerImpl {
  import opened Wrappers
  import opened PoolSpec
  import opened PoolImpl
  import opened RouterSystem

  datatype Error = NoFreeAgents | AgentFailed | MissingSession | SessionNotFound
  datatype Result<+T> = Ok(value: T) | Err(error: Error)

  datatype ResetResponse = ResetResponse(success: bool, message: string, sessionId: string)
  datatype StepResponse = StepResponse(done: bool)

  /** A Reset leaves a free agent stamped, and busy if the forwarded call returned. */
  function ResetEffect(p: PoolState, a: Addr, replied: bool, now: int): PoolState
    requires a in p.agents
  {
    p.(agents := p.agents[a := p.agents[a].(busy := replied, last := now)])
  }

  /** A Step leaves its agent stamped; a reply that says done frees it, which completes a pending
      removal. */
  function StepEffect(p: PoolState, a: Addr, done: bool, now: int): PoolState
    requires a in p.agents
  {
    if done && p.agents[a].pending then Drop(p, a)
    else p.(agents := p.agents[a := p.agents[a].(busy := p.agents[a].busy && !done, last := now)])
  }

  lemma ResetComposes(p: PoolState, a: Addr, locked: int, touched: int)
    requires a in FreeSet(p)
    ensures Touch(Lock(p, a, locked), a, touched) == ResetEffect(p, a, true, touched)
    ensures Release(ResetEffect(p, a, true, touched), a) == ResetEffect(p, a, false, touched)
  {
  }

  lemma StepComposes(p: PoolState, a: Addr, now: int)
    requires a in p.agents
    ensures Touch(p, a, now) == StepEffect(p, a, false, now)
    ensures Release(Touch(p, a, now), a) == StepEffect(p, a, true, now)
  {
  }

  // ---------------------------------------------------------------- as steps of the router

  /** The steps of a Reset handler: `wait` passes before the stamp, `call` until the reply. */
  function ResetLabels(h: nat, a: Addr, wait: nat, call: nat, replied: bool): seq<Label> {
    [BeginReset(h, a), Tick(wait), TouchReset(h), Tick(call), EndReset(h, replied)]
    + if replied then [] else [FreeReset(h)]
  }

  function StepLabels(h: nat, a: Addr, g: Option<nat>, wait: nat, call: nat, done: bool): seq<Label> {
    [BeginStep(h, a, g), Tick(wait), TouchStep(h), Tick(call), EndStep(h, done)] + if done then [FreeStep(h)] else []
  }

  /** Five steps, one after the other. */
  lemma PlayFive(cfg: Config, s: Sys, l1: Label, l2: Label, l3: Label, l4: Label, l5: Label)
      returns (s1: Sys, s2: Sys, s3: Sys, s4: Sys, s5: Sys)
    requires Enabled(s, l1) && var s1 := Apply(cfg, s, l1);
             Enabled(s1, l2) && var s2 := Apply(cfg, s1, l2);
             Enabled(s2, l3) && var s3 := Apply(cfg, s2, l3);
             Enabled(s3, l4) && Enabled(Apply(cfg, s3, l4), l5)
    ensures s1 == Apply(cfg, s, l1) && Enabled(s1, l2) && s2 == Apply(cfg, s1, l2) && Enabled(s2, l3)
    ensures s3 == Apply(cfg, s2, l3) && Enabled(s3, l4) && s4 == Apply(cfg, s3, l4) && Enabled(s4, l5)
    ensures s5 == Apply(cfg, s4, l5) && Play(cfg, s, [l1, l2, l3, l4, l5]) == Some(s5)
  {
    s1 := Apply(cfg, s, l1);
    s2 := Apply(cfg, s1, l2);
    s3 := Apply(cfg, s2, l3);
    s4 := Apply(cfg, s3, l4);
    s5 := Apply(cfg, s4, l5);
    PlayOn(cfg, s, [], l1);
    assert [] + [l1] == [l1];
    PlayOn(cfg, s, [l1], l2);
    assert [l1] + [l2] == [l1, l2];
    PlayOn(cfg, s, [l1, l2], l3);
    assert [l1, l2] + [l3] == [l1, l2, l3];
    PlayOn(cfg, s, [l1, l2, l3], l4);
    assert [l1, l2, l3] + [l4] == [l1, l2, l3, l4];
    PlayOn(cfg, s, [l1, l2, l3, l4], l5);
    assert [l1, l2, l3, l4] + [l5] == [l1, l2, l3, l4, l5];
  }

  /** What a request leaves as it finds it: the other handlers and the sync, in progress or not. */
  ghost predicate Beside(s: Sys, t: Sys) {
    t.handlers == s.handlers && t.sync == s.sync && t.target == s.target && t.lastCleanup == s.lastCleanup
  }

  /** The state when the handler has its reply. */
  ghost predicate Replied(s: Sys, t: Sys, h: nat, p: PoolState, over: bool) {
    && t.pool == p && t.sync == s.sync && t.target == s.target && t.lastCleanup == s.lastCleanup
    && t.handlers - {h} == s.handlers && (over <==> h !in t.handlers)
  }

  lemma ResetReplied(cfg: Config, s: Sys, h: nat, a: Addr, wait: nat, call: nat, replied: bool) returns (t: Sys)
    requires h !in s.handlers && a in s.pool.agents && !s.pool.agents[a].busy && !s.pool.agents[a].pending
    ensures Play(cfg, s, [BeginReset(h, a), Tick(wait), TouchReset(h), Tick(call), EndReset(h, replied)]) == Some(t)
    ensures Replied(s, t, h, ResetEffect(s.pool, a, true, s.now + wait), replied) && t.now == s.now + wait + call
    ensures !replied ==> At(t, h, ResetFailed) && t.handlers[h].addr == a
    ensures t.issued == s.issued + [Grant(a, s.pool.agents[a].conn)] && t.holder == s.holder[a := |s.issued|]
  {
    assert a in FreeSet(s.pool);
    var s1, s2, s3, s4;
    s1, s2, s3, s4, t := PlayFive(cfg, s, BeginReset(h, a), Tick(wait), TouchReset(h), Tick(call), EndReset(h, replied));
    ResetComposes(s.pool, a, s.now, s.now + wait);
    assert t.handlers - {h} == s.handlers;
  }

  /** A Reset handler that nobody interrupts, taking its time, is a sequence of steps of the router, in any
      state in which the agent is free. */
  lemma ResetAsSteps(cfg: Config, s: Sys, h: nat, a: Addr, wait: nat, call: nat, replied: bool)
    requires h !in s.handlers && a in s.pool.agents && !s.pool.agents[a].busy && !s.pool.agents[a].pending
    ensures var r := Play(cfg, s, ResetLabels(h, a, wait, call, replied));
            && r.Some? && r.value.pool == ResetEffect(s.pool, a, replied, s.now + wait)
            && Beside(s, r.value) && r.value.now == s.now + wait + call
            && r.value.issued == s.issued + [Grant(a, s.pool.agents[a].conn)]
            && (replied ==> r.value.holder == s.holder[a := |s.issued|])
  {
    var labels := [BeginReset(h, a), Tick(wait), TouchReset(h), Tick(call), EndReset(h, replied)];
    var t := ResetReplied(cfg, s, h, a, wait, call, replied);
    if replied {
      assert labels + [] == labels;
    } else {
      PlayOn(cfg, s, labels, FreeReset(h));
      ResetComposes(s.pool, a, s.now, s.now + wait);
    }
  }

  lemma StepReplied(cfg: Config, s: Sys, h: nat, a: Addr, g: Option<nat>, wait: nat, call: nat, done: bool) returns (t: Sys)
    requires h !in s.handlers && a != "" && a in s.pool.agents && (g.Some? ==> g.value < |s.issued|)
    ensures Play(cfg, s, [BeginStep(h, a, g), Tick(wait), TouchStep(h), Tick(call), EndStep(h, done)]) == Some(t)
    ensures Replied(s, t, h, StepEffect(s.pool, a, false, s.now + wait), !done) && t.now == s.now + wait + call
    ensures done ==> At(t, h, StepDone) && t.handlers[h].addr == a
    ensures t.issued == s.issued
  {
    var s1, s2, s3, s4;
    s1, s2, s3, s4, t := PlayFive(cfg, s, BeginStep(h, a, g), Tick(wait), TouchStep(h), Tick(call), EndStep(h, done));
    StepComposes(s.pool, a, s.now + wait);
    assert t.handlers - {h} == s.handlers;
  }

  /** So is a Step handler, whatever the grant its client goes by, whenever there is an agent at the address. */
  lemma StepAsSteps(cfg: Config, s: Sys, h: nat, a: Addr, g: Option<nat>, wait: nat, call: nat, done: bool)
    requires h !in s.handlers && a != "" && a in s.pool.agents && (g.Some? ==> g.value < |s.issued|)
    ensures var r := Play(cfg, s, StepLabels(h, a, g, wait, call, done));
            && r.Some? && r.value.pool == StepEffect(s.pool, a, done, s.now + wait)
            && Beside(s, r.value) && r.value.now == s.now + wait + call && r.value.issued == s.issued
  {
    var labels := [BeginStep(h, a, g), Tick(wait), TouchStep(h), Tick(call), EndStep(h, done)];
    var t := StepReplied(cfg, s, h, a, g, wait, call, done);
    if done {
      PlayOn(cfg, s, labels, FreeStep(h));
      StepComposes(s.pool, a, s.now + wait);
    } else {
      assert labels + [] == labels;
    }
  }

  /** What is left for a handler to do: `yes` is the outcome of its call, done already or to come. */
  function Rest(p: Phase, h: nat, yes: bool): seq<Label> {
    match p
    case Locked => [TouchReset(h), EndReset(h, yes)] + if yes then [] else [FreeReset(h)]
    case Resetting => [EndReset(h, yes)] + if yes then [] else [FreeReset(h)]
    case ResetFailed => [FreeReset(h)]
    case Found => [TouchStep(h), EndStep(h, yes)] + if yes then [FreeStep(h)] else []
    case Stepping => [EndStep(h, yes)] + if yes then [FreeStep(h)] else []
    case StepDone => [FreeStep(h)]
  }

  lemma PlayTwo(cfg: Config, s: Sys, l1: Label, l2: Label)
    requires Enabled(s, l1) && Enabled(Apply(cfg, s, l1), l2)
    ensures Play(cfg, s, [l1]) == Some(Apply(cfg, s, l1))
    ensures Play(cfg, s, [l1, l2]) == Some(Apply(cfg, Apply(cfg, s, l1), l2))
  {
    PlayOn(cfg, s, [], l1);
    assert [] + [l1] == [l1];
    PlayOn(cfg, s, [l1], l2);
    assert [l1] + [l2] == [l1, l2];
  }

  lemma PlayOne(cfg: Config, s: Sys, l: Label)
    requires Enabled(s, l)
    ensures Play(cfg, s, [l]) == Some(Apply(cfg, s, l))
  {
    PlayOn(cfg, s, [], l);
    assert [] + [l] == [l];
  }

  lemma CallEnds(cfg: Config, s: Sys, h: nat, yes: bool)
    requires At(s, h, Resetting) || At(s, h, Stepping)
    ensures var l := if At(s, h, Resetting) then EndReset(h, yes) else EndStep(h, yes);
            && Enabled(s, l)
            && var t := Apply(cfg, s, l);
            && t.pool == s.pool && t.handlers - {h} == s.handlers - {h}
            && (if At(s, h, Resetting) && !yes then At(t, h, ResetFailed)
                else if At(s, h, Stepping) && yes then At(t, h, StepDone) else h !in t.handlers)
  {
  }

  ghost predicate Finished(s: Sys, r: Option<Sys>, h: nat) {
    && r.Some? && r.value.handlers == s.handlers - {h} && r.value.sync == s.sync
    && r.value.target == s.target && r.value.issued == s.issued && r.value.now == s.now
  }

  /** No handler waits for another, nor for the sync: whatever has become of the pool and of everybody else
      meanwhile, it can go through with the rest of its steps, for either outcome of its call. */
  lemma HandlerFinishes(cfg: Config, s: Sys, h: nat, yes: bool)
    requires h in s.handlers
    ensures Finished(s, Play(cfg, s, Rest(s.handlers[h].phase, h, yes)), h)
  {
    match s.handlers[h].phase {
      case Locked => LockedFinishes(cfg, s, h, yes);
      case Found => FoundFinishes(cfg, s, h, yes);
      case _ => CallFinishes(cfg, s, h, yes);
    }
  }

  lemma CallFinishes(cfg: Config, s: Sys, h: nat, yes: bool)
    requires h in s.handlers && s.handlers[h].phase != Locked && s.handlers[h].phase != Found
    ensures Finished(s, Play(cfg, s, Rest(s.handlers[h].phase, h, yes)), h)
  {
    match s.handlers[h].phase {
      case Resetting =>
        CallEnds(cfg, s, h, yes);
        if !yes {
          PlayTwo(cfg, s, EndReset(h, yes), FreeReset(h));
        } else {
          PlayOne(cfg, s, EndReset(h, yes));
        }
      case ResetFailed => PlayOne(cfg, s, FreeReset(h));
      case Stepping =>
        CallEnds(cfg, s, h, yes);
        if yes {
          PlayTwo(cfg, s, EndStep(h, yes), FreeStep(h));
        } else {
          PlayOne(cfg, s, EndStep(h, yes));
        }
      case StepDone => PlayOne(cfg, s, FreeStep(h));
    }
  }

  lemma LockedFinishes(cfg: Config, s: Sys, h: nat, yes: bool)
    requires At(s, h, Locked)
    ensures Finished(s, Play(cfg, s, Rest(Locked, h, yes)), h)
  {
    PlayTwo(cfg, s, TouchReset(h), EndReset(h, yes));
    CallEnds(cfg, Apply(cfg, s, TouchReset(h)), h, yes);
    if yes {
      assert [TouchReset(h), EndReset(h, yes)] + [] == [TouchReset(h), EndReset(h, yes)];
    } else {
      PlayOn(cfg, s, [TouchReset(h), EndReset(h, yes)], FreeReset(h));
    }
  }

  lemma FoundFinishes(cfg: Config, s: Sys, h: nat, yes: bool)
    requires At(s, h, Found)
    ensures Finished(s, Play(cfg, s, Rest(Found, h, yes)), h)
  {
    PlayTwo(cfg, s, TouchStep(h), EndStep(h, yes));
    CallEnds(cfg, Apply(cfg, s, TouchStep(h)), h, yes);
    if yes {
      PlayOn(cfg, s, [TouchStep(h), EndStep(h, yes)], FreeStep(h));
    } else {
      assert [TouchStep(h), EndStep(h, yes)] + [] == [TouchStep(h), EndStep(h, yes)];
    }
  }

  /** And so is a Close, whoever sends it, and a cleanup. */
  lemma CloseAsStep(cfg: Config, s: Sys, a: Addr, g: Option<nat>)
    requires a != "" && (g.Some? ==> g.value < |s.issued|)
    ensures var r := Play(cfg, s, [CloseSession(a, g)]);
            && r.Some? && r.value.pool == Release(s.pool, a)
            && Beside(s, r.value) && r.value.now == s.now && r.value.issued == s.issued
  {
    PlayOne(cfg, s, CloseSession(a, g));
  }

  lemma CleanupAsStep(cfg: Config, s: Sys)
    ensures var r := Play(cfg, s, [Cleanup]);
            && r.Some? && r.value.pool == SweepAll(s.pool, Stale(cfg.timeout, s.now))
            && r.value.handlers == s.handlers && r.value.sync == s.sync && r.value.target == s.target
            && r.value.now == s.now == r.value.lastCleanup && r.value.issued == s.issued
  {
    PlayOne(cfg, s, Cleanup);
  }

  // What follows says that a call turns the pool `p` into `q` as the router does, by steps that are
  // possible in every state of the router with that pool, whatever else is going on in it.

  ghost predicate ResetRefines(p: PoolState, q: PoolState, a: Addr, locked: int, touched: int, replied: bool) {
    forall cfg: Config, s: Sys, h: nat, wait: nat, call: nat ::
      s.pool == p && s.now == locked && locked + wait == touched && h !in s.handlers ==>
      var r := Play(cfg, s, ResetLabels(h, a, wait, call, replied));
      r.Some? && r.value.pool == q && Beside(s, r.value)
  }

  ghost predicate StepRefines(p: PoolState, q: PoolState, a: Addr, now: int, done: bool) {
    forall cfg: Config, s: Sys, h: nat, g: Option<nat>, wait: nat, call: nat ::
      s.pool == p && s.now + wait == now && h !in s.handlers && Issued(s, g) ==>
      var r := Play(cfg, s, StepLabels(h, a, g, wait, call, done));
      r.Some? && r.value.pool == q && Beside(s, r.value)
  }

  ghost predicate CloseRefines(p: PoolState, q: PoolState, a: Addr) {
    forall cfg: Config, s: Sys, g: Option<nat> :: s.pool == p && Issued(s, g) ==>
      var r := Play(cfg, s, [CloseSession(a, g)]);
      r.Some? && r.value.pool == q && Beside(s, r.value)
  }

  ghost predicate CleanupRefines(p: PoolState, q: PoolState, timeout: nat, now: int) {
    forall cfg: Config, s: Sys :: s.pool == p && s.now == now && cfg.timeout == timeout ==>
      var r := Play(cfg, s, [Cleanup]);
      r.Some? && r.value.pool == q && r.value.handlers == s.handlers && r.value.sync == s.sync
  }

  /** A request the server turns away is no step of the router either. */
  ghost predicate NoReset(p: PoolState) {
    forall s: Sys, h: nat, a: Addr :: s.pool == p ==> !Enabled(s, BeginReset(h, a))
  }

  ghost predicate NoStep(p: PoolState, a: Addr) {
    forall s: Sys, h: nat, g: Option<nat> :: s.pool == p ==> !Enabled(s, BeginStep(h, a, g))
  }

  ghost predicate NoClose(a: Addr) {
    forall s: Sys, g: Option<nat> :: !Enabled(s, CloseSession(a, g))
  }

  lemma ResetsRefine(p: PoolState, a: Addr, locked: int, touched: int, replied: bool)
    requires a in FreeSet(p)
    ensures ResetRefines(p, ResetEffect(p, a, replied, touched), a, locked, touched, replied)
  {
    forall cfg: Config, s: Sys, h: nat, wait: nat, call: nat |
      s.pool == p && s.now == locked && locked + wait == touched && h !in s.handlers
      ensures var r := Play(cfg, s, ResetLabels(h, a, wait, call, replied));
              r.Some? && r.value.pool == ResetEffect(p, a, replied, touched) && Beside(s, r.value)
    {
      ResetAsSteps(cfg, s, h, a, wait, call, replied);
    }
  }

  lemma StepsRefine(p: PoolState, a: Addr, now: int, done: bool)
    requires a != "" && a in p.agents
    ensures StepRefines(p, StepEffect(p, a, done, now), a, now, done)
  {
    forall cfg: Config, s: Sys, h: nat, g: Option<nat>, wait: nat, call: nat |
      s.pool == p && s.now + wait == now && h !in s.handlers && Issued(s, g)
      ensures var r := Play(cfg, s, StepLabels(h, a, g, wait, call, done));
              r.Some? && r.value.pool == StepEffect(p, a, done, now) && Beside(s, r.value)
    {
      StepAsSteps(cfg, s, h, a, g, wait, call, done);
    }
  }

  lemma ClosesRefine(p: PoolState, a: Addr)
    requires a != ""
    ensures CloseRefines(p, Release(p, a), a)
  {
    forall cfg: Config, s: Sys, g: Option<nat> | s.pool == p && Issued(s, g)
      ensures var r := Play(cfg, s, [CloseSession(a, g)]);
              r.Some? && r.value.pool == Release(p, a) && Beside(s, r.value)
    {
      CloseAsStep(cfg, s, a, g);
    }
  }

  lemma CleanupsRefine(p: PoolState, timeout: nat, now: int)
    ensures CleanupRefines(p, SweepAll(p, Stale(timeout, now)), timeout, now)
  {
    forall cfg: Config, s: Sys | s.pool == p && s.now == now && cfg.timeout == timeout
      ensures var r := Play(cfg, s, [Cleanup]);
              r.Some? && r.value.pool == SweepAll(p, Stale(timeout, now)) && r.value.handlers == s.handlers && r.value.sync == s.sync
    {
      CleanupAsStep(cfg, s);
    }
  }

  // ---------------------------------------------------------------- the server

  class Server {
    const agentPool: Pool

    constructor (p: Pool)
      ensures agentPool == p
    {
      agentPool := p;
    }

    /** A reply from the agent, even an unsuccessful one, leaves the agent locked and names it as
        the session; only a failed call frees the agent again. */
    method Reset(forwarded: Option<ResetResponse>, locked: int, touched: int)
        returns (r: Result<ResetResponse>, ghost a: Addr)
      requires agentPool.Valid()
      modifies agentPool, agentPool.agents.Values
      ensures agentPool.Valid() && agentPool.agents.Values <= old(agentPool.agents.Values)
      ensures r == Err(NoFreeAgents) <==> FreeSet(old(agentPool.View())) == {}
      ensures r == Err(NoFreeAgents) ==> agentPool.View() == old(agentPool.View()) && NoReset(agentPool.View())
      ensures r != Err(NoFreeAgents) ==>
                var p := old(agentPool.View());
                && a in FreeSet(p)
                && r == (match forwarded case None => Err(AgentFailed) case Some(resp) => Ok(resp.(sessionId := a)))
                && agentPool.View() == ResetEffect(p, a, forwarded.Some?, touched)
                && ResetRefines(p, agentPool.View(), a, locked, touched, forwarded.Some?)
    {
      ghost var p := agentPool.View();
      var agent := agentPool.LockFreeAgent(locked);
      if agent.None? {
        return Err(NoFreeAgents), "";
      }
      a := agent.value.addr;
      agentPool.TouchAgent(agent.value.addr, touched);
      ResetComposes(p, a, locked, touched);
      ResetsRefine(p, a, locked, touched, forwarded.Some?);
      match forwarded
      case None =>
        agentPool.FreeAgent(agent.value.addr);
        r := Err(AgentFailed);
      case Some(resp) =>
        r := Ok(resp.(sessionId := agent.value.addr));
    }

    /** The request goes to the record now at the session's address, whoever holds it. */
    method Step(sessionId: Addr, forwarded: Option<StepResponse>, now: int)
        returns (r: Result<StepResponse>, to: Option<AgentClient>)
      requires agentPool.Valid()
      modifies agentPool, agentPool.agents.Values
      ensures agentPool.Valid() && agentPool.agents.Values <= old(agentPool.agents.Values)
      ensures to.Some? <==> sessionId != "" && sessionId in old(agentPool.agents)
      ensures to.Some? ==> to.value == old(agentPool.agents)[sessionId]
      ensures to.None? ==> r == Err(if sessionId == "" then MissingSession else SessionNotFound)
                           && agentPool.View() == old(agentPool.View()) && NoStep(agentPool.View(), sessionId)
      ensures to.Some? ==>
                var done := forwarded.Some? && forwarded.value.done;
                && r == (match forwarded case None => Err(AgentFailed) case Some(resp) => Ok(resp))
                && agentPool.View() == StepEffect(old(agentPool.View()), sessionId, done, now)
                && StepRefines(old(agentPool.View()), agentPool.View(), sessionId, now, done)
    {
      to := None;
      if sessionId == "" {
        return Err(MissingSession), to;
      }
      to := agentPool.GetAgentBySession(sessionId);
      if to.None? {
        return Err(SessionNotFound), to;
      }
      StepComposes(agentPool.View(), sessionId, now);
      StepsRefine(agentPool.View(), sessionId, now, forwarded.Some? && forwarded.value.done);
      agentPool.TouchAgent(sessionId, now);
      match forwarded
      case None =>
        r := Err(AgentFailed);
      case Some(resp) =>
        if resp.done {
          agentPool.FreeAgent(sessionId);
        }
        r := Ok(resp);
    }

    method Close(sessionId: Addr) returns (r: Result<bool>)
      requires agentPool.Valid()
      modifies agentPool, agentPool.agents.Values
      ensures agentPool.Valid() && agentPool.agents.Values <= old(agentPool.agents.Values)
      ensures sessionId == "" ==> r == Err(MissingSession) && agentPool.View() == old(agentPool.View()) && NoClose(sessionId)
      ensures sessionId != "" ==>
                && r == Ok(true) && agentPool.View() == Release(old(agentPool.View()), sessionId)
                && CloseRefines(old(agentPool.View()), agentPool.View(), sessionId)
    {
      if sessionId == "" {
        return Err(MissingSession);
      }
      ClosesRefine(agentPool.View(), sessionId);
      agentPool.FreeAgent(sessionId);
      return Ok(true);
    }
  }

  /** One tick of the cleanup ticker. */
  method CleanUp(agentPool: Pool, timeout: nat, now: int)
    requires agentPool.Valid()
    modifies agentPool, agentPool.agents.Values
    ensures agentPool.Valid() && agentPool.agents.Values <= old(agentPool.agents.Values)
    ensures CleanupRefines(old(agentPool.View()), agentPool.View(), timeout, now)
  {
    CleanupsRefine(agentPool.View(), timeout, now);
    agentPool.CleanupStaleAgents(timeout, now);
  }
}
