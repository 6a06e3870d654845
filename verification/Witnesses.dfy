/** Runs in which all rules of the clients are kept but one, and somebody loses an agent. */
module Witnesses {
  import opened Wrappers
  import opened PoolSpec
  import opened RouterSystem
  import opened RouterRuns
  import opened Sessions
  import opened Clients

  lemma {:induction false} KnowledgeOfPrefix(ss: seq<Sys>, ls: seq<Label>, t: Sys, l: Label, i: nat)
    requires i <= |ls| && i <= |ss|
    ensures Knowledge(ss + [t], ls + [l], i) == Knowledge(ss, ls, i)
  {
    if i > 0 {
      KnowledgeOfPrefix(ss, ls, t, l, i - 1);
    }
  }

  /** A run so far, with what the clients know at its end. */
  ghost predicate SoFar(drop: Rule, cfg: Config, ss: seq<Sys>, ls: seq<Label>, s: Sys, k: Known) {
    && ConsiderateRun(Some(drop), cfg, ss, ls)
    && s == ss[|ls|] && k == Knowledge(ss, ls, |ls|)
  }

  /** One step of the router, and what the clients learn from it. */
  ghost predicate Leads(cfg: Config, s: Sys, k: Known, l: Label, t: Sys, n: Known) {
    Enabled(s, l) && Apply(cfg, s, l) == t && Learn(s, l, k) == n
  }

  lemma Go(drop: Rule, cfg: Config, ss: seq<Sys>, ls: seq<Label>, s: Sys, k: Known, l: Label, t: Sys, n: Known)
      returns (tt: seq<Sys>, ms: seq<Label>)
    requires SoFar(drop, cfg, ss, ls, s, k) && Leads(cfg, s, k, l, t, n) && Considerate(Some(drop), cfg, s, k, l)
    ensures tt == ss + [t] && ms == ls + [l]
    ensures SoFar(drop, cfg, tt, ms, t, n)
  {
    tt, ms := ss + [t], ls + [l];
    forall i | 0 <= i < |ms| ensures Step(cfg, tt[i], ms[i], tt[i + 1]) {
      assert i < |ls| ==> Step(cfg, ss[i], ls[i], ss[i + 1]);
    }
    forall i | 0 <= i < |ms| ensures Considerate(Some(drop), cfg, tt[i], Knowledge(tt, ms, i), ms[i]) {
      KnowledgeOfPrefix(ss, ls, t, l, i);
      assert i < |ls| ==> Considerate(Some(drop), cfg, ss[i], Knowledge(ss, ls, i), ls[i]);
    }
    KnowledgeOfPrefix(ss, ls, t, l, |ls|);
  }

  /** Only requests and the passing of time can break a rule. */
  predicate Unruled(s: Sys, l: Label) {
    !l.BeginStep? && !l.CloseSession? && (l.Tick? ==> s.handlers == map[])
  }

  lemma NoRuleFor(drop: Rule, cfg: Config, s: Sys, k: Known, l: Label)
    requires Unruled(s, l)
    ensures Considerate(Some(drop), cfg, s, k, l)
  {
  }

  lemma GoOn(drop: Rule, cfg: Config, ss: seq<Sys>, ls: seq<Label>, s: Sys, k: Known, l: Label, t: Sys, n: Known)
      returns (tt: seq<Sys>, ms: seq<Label>)
    requires SoFar(drop, cfg, ss, ls, s, k) && Leads(cfg, s, k, l, t, n) && Unruled(s, l)
    ensures tt == ss + [t] && ms == ls + [l]
    ensures SoFar(drop, cfg, tt, ms, t, n)
  {
    tt, ms := Go(drop, cfg, ss, ls, s, k, l, t, n);
  }

  // ------------------------------------------------- a router with one agent

  const G := Grant("a", 0)

  /** One agent, last active at time `last`, held under the latest of the grants `issued` if `busy`. */
  function Solo(busy: bool, last: int, now: int, cleaned: int, issued: seq<Grant>, handlers: map<nat, Handler>): Sys
    requires busy ==> issued != []
  {
    Sys(PoolState(map["a" := Entry("a", 0, busy, last, false)], 1, multiset{}), now, handlers, Idle, {"a"},
        if busy then map["a" := |issued| - 1] else map[], issued, cleaned)
  }

  function Handling(p: Phase, g: nat, since: int): Handler {
    Handler(p, "a", 0, Some(g), since)
  }

  lemma SoloSync(cfg: Config, k: Known)
    ensures var added := Apply(cfg, Apply(cfg, INIT, BeginSync({"a"})), SyncAdd("a", true));
            Leads(cfg, added, k, EndSync, Solo(false, 0, 0, 0, [], map[]), k)
  {
    var added := Apply(cfg, Apply(cfg, INIT, BeginSync({"a"})), SyncAdd("a", true));
    assert added.pool.agents == map["a" := Entry("a", 0, false, 0, false)];
    assert added.sync == Adding({"a"}, {}, {});
    assert DoomedConns(added.pool, NotIn({"a"}), {"a"}) == {};
    var s := Apply(cfg, added, EndSync);
    assert s.pool.agents == added.pool.agents;
    assert s.pool == PoolState(added.pool.agents, 1, multiset{});
  }

  lemma SoloLock(cfg: Config, k: Known, last: int, now: int, cleaned: int, gs: seq<Grant>, hs: map<nat, Handler>, h: nat)
    requires h !in hs
    ensures Leads(cfg, Solo(false, last, now, cleaned, gs, hs), k, BeginReset(h, "a"),
                  Solo(true, now, now, cleaned, gs + [G], hs[h := Handling(Locked, |gs|, now)]),
                  k.(stamped := k.stamped + [now]))
  {
    assert "a" in FreeSet(Solo(false, last, now, cleaned, gs, hs).pool);
  }

  lemma SoloRelock(cfg: Config, k: Known, last: int, now: int, cleaned: int)
    ensures Leads(cfg, Solo(false, last, now, cleaned, [G], map[]), k, BeginReset(1, "a"),
                  Solo(true, now, now, cleaned, [G, G], map[1 := Handling(Locked, 1, now)]),
                  k.(stamped := k.stamped + [now]))
  {
    SoloLock(cfg, k, last, now, cleaned, [G], map[], 1);
    assert [G] + [G] == [G, G];
  }

  lemma SoloTouch(cfg: Config, k: Known, now: int, gs: seq<Grant>, h: nat, g: nat, p: Phase)
    requires gs != [] && (p == Resetting || p == Stepping)
    ensures Leads(cfg, Solo(true, now, now, 0, gs, map[h := Handling(if p == Resetting then Locked else Found, g, now)]), k,
                  if p == Resetting then TouchReset(h) else TouchStep(h),
                  Solo(true, now, now, 0, gs, map[h := Handling(p, g, now)]), NoteStamp(k, Some(g), now))
  {
  }

  lemma SoloReplied(cfg: Config, k: Known, now: int, gs: seq<Grant>, h: nat, g: nat)
    requires gs != []
    ensures Leads(cfg, Solo(true, now, now, 0, gs, map[h := Handling(Resetting, g, now)]), k, EndReset(h, true),
                  Solo(true, now, now, 0, gs, map[]), k)
  {
    assert map[h := Handling(Resetting, g, now)] - {h} == map[];
  }

  lemma SoloFound(cfg: Config, k: Known, last: int, now: int, gs: seq<Grant>, h: nat, g: nat)
    requires g < |gs|
    ensures Leads(cfg, Solo(true, last, now, 0, gs, map[]), k, BeginStep(h, "a", Some(g)),
                  Solo(true, last, now, 0, gs, map[h := Handling(Found, g, now)]), k)
  {
  }

  lemma SoloClose(cfg: Config, k: Known, last: int, now: int, cleaned: int, gs: seq<Grant>, hs: map<nat, Handler>, g: Option<nat>)
    requires gs != [] && (g.Some? ==> g.value < |gs|)
    ensures Leads(cfg, Solo(true, last, now, cleaned, gs, hs), k, CloseSession("a", g),
                  Solo(false, last, now, cleaned, gs, hs), NoteEnd(k, g))
  {
    assert Apply(cfg, Solo(true, last, now, cleaned, gs, hs), CloseSession("a", g)).holder == map[];
  }

  lemma SoloTick(cfg: Config, k: Known, now: int, d: nat, gs: seq<Grant>, hs: map<nat, Handler>)
    requires gs != []
    ensures Leads(cfg, Solo(true, 0, now, 0, gs, hs), k, Tick(d), Solo(true, 0, now + d, 0, gs, hs), k)
  {
  }

  lemma SoloDone(cfg: Config, k: Known, last: int, now: int, cleaned: int, gs: seq<Grant>, x: Handler, y: Handler)
    requires gs != [] && x.phase == Stepping
    ensures Leads(cfg, Solo(true, last, now, cleaned, gs, map[0 := x, 1 := y]), k, EndStep(0, true),
                  Solo(true, last, now, cleaned, gs, map[0 := x.(phase := StepDone), 1 := y]), k)
  {
    assert map[0 := x, 1 := y][0 := x.(phase := StepDone)] == map[0 := x.(phase := StepDone), 1 := y];
  }

  lemma SoloFree(cfg: Config, k: Known, last: int, now: int, cleaned: int, gs: seq<Grant>, x: Handler, y: Handler)
    requires gs != [] && x.phase == StepDone && x.addr == "a"
    ensures Leads(cfg, Solo(true, last, now, cleaned, gs, map[0 := x, 1 := y]), k, FreeStep(0),
                  Solo(false, last, now, cleaned, gs, map[1 := y]), NoteEnd(k, x.grant))
  {
    var t := Apply(cfg, Solo(true, last, now, cleaned, gs, map[0 := x, 1 := y]), FreeStep(0));
    assert t.holder == map[];
    assert t.handlers == map[1 := y];
  }

  lemma SoloCleanup(cfg: Config, k: Known, last: int, now: int, cleaned: int, gs: seq<Grant>, hs: map<nat, Handler>)
    requires gs != [] && now - last > cfg.timeout
    ensures Leads(cfg, Solo(true, last, now, cleaned, gs, hs), k, Cleanup, Solo(false, last, now, now, gs, hs), k)
  {
    var s := Solo(true, last, now, cleaned, gs, hs);
    var t := Apply(cfg, s, Cleanup);
    assert ExpiredSet(s.pool, cfg.timeout, now) == {"a"};
    assert t.holder == map[];
    assert DoomedConns(s.pool, Stale(cfg.timeout, now), {"a"}) == {};
    assert t.pool.agents == map["a" := Entry("a", 0, false, last, false)];
    assert t.pool.closed == multiset{};
  }

  lemma Start(drop: Rule, cfg: Config) returns (ss: seq<Sys>, ls: seq<Label>)
    requires cfg.callBound <= cfg.timeout
    ensures SoFar(drop, cfg, ss, ls, Solo(false, 0, 0, 0, [], map[]), Known({}, []))
  {
    var k := Known({}, []);
    ss, ls := [INIT], [];
    var s := Apply(cfg, INIT, BeginSync({"a"}));
    ss, ls := GoOn(drop, cfg, ss, ls, INIT, k, BeginSync({"a"}), s, k);
    var added := Apply(cfg, s, SyncAdd("a", true));
    ss, ls := GoOn(drop, cfg, ss, ls, s, k, SyncAdd("a", true), added, k);
    SoloSync(cfg, k);
    ss, ls := GoOn(drop, cfg, ss, ls, added, k, EndSync, Solo(false, 0, 0, 0, [], map[]), k);
  }

  /** A client has been given the agent, and its Reset is complete. */
  lemma FirstGrant(drop: Rule, cfg: Config) returns (ss: seq<Sys>, ls: seq<Label>, s: Sys, k: Known)
    requires cfg.callBound <= cfg.timeout
    ensures s == Solo(true, 0, 0, 0, [G], map[]) && k == Known({}, [0]) && SoFar(drop, cfg, ss, ls, s, k)
  {
    ss, ls := Start(drop, cfg);
    s, k := Solo(false, 0, 0, 0, [], map[]), Known({}, [0]);
    SoloLock(cfg, Known({}, []), 0, 0, 0, [], map[], 0);
    var s1 := Solo(true, 0, 0, 0, [G], map[0 := Handling(Locked, 0, 0)]);
    ss, ls := GoOn(drop, cfg, ss, ls, s, Known({}, []), BeginReset(0, "a"), s1, k);
    SoloTouch(cfg, k, 0, [G], 0, 0, Resetting);
    var s2 := Solo(true, 0, 0, 0, [G], map[0 := Handling(Resetting, 0, 0)]);
    ss, ls := GoOn(drop, cfg, ss, ls, s1, k, TouchReset(0), s2, k);
    SoloReplied(cfg, k, 0, [G], 0, 0);
    s := Solo(true, 0, 0, 0, [G], map[]);
    ss, ls := GoOn(drop, cfg, ss, ls, s2, k, EndReset(0, true), s, k);
  }

  // ------------------------------------------------- each rule left out in turn

  /** A last step, by which somebody's session is ended by a request of somebody else. */
  lemma Theft(drop: Rule, cfg: Config, ss: seq<Sys>, ls: seq<Label>, s: Sys, k: Known, l: Label, t: Sys, n: Known, g: nat)
      returns (tt: seq<Sys>, ms: seq<Label>)
    requires SoFar(drop, cfg, ss, ls, s, k) && Leads(cfg, s, k, l, t, n) && Considerate(Some(drop), cfg, s, k, l)
    requires Holds(s, "a", g) && !Holds(t, "a", g) && !OwnDoing(s, l, g)
    ensures tt == ss + [t] && ms == ls + [l] && |ms| == |ls| + 1
    ensures tt[|ls|] == s && tt[|ms|] == t && ms[|ls|] == l
    ensures ConsiderateRun(Some(drop), cfg, tt, ms) && !SessionsOwned(cfg, tt, ms)
  {
    tt, ms := Go(drop, cfg, ss, ls, s, k, l, t, n);
    assert Step(cfg, tt[|ls|], ms[|ls|], tt[|ls| + 1]);
  }

  /** A request under grant `g` that keeps the rules, but perhaps one. */
  lemma Allowed(drop: Rule, cfg: Config, s: Sys, k: Known, l: Label, g: nat)
    requires (l.BeginStep? || l.CloseSession?) && l.g == Some(g) && g < |s.issued| && s.issued[g].addr == l.a
    requires drop == NotEnded || g !in k.over
    requires drop == OneAtATime || !InFlight(s, g)
    requires drop == InTime || UpToDate(cfg, k, Some(g), s.now)
    ensures Considerate(Some(drop), cfg, s, k, l)
  {
  }

  /** Time passes with a handler that should have moved on. */
  lemma Lingering(drop: Rule, cfg: Config, s: Sys, k: Known, d: nat)
    requires forall h :: h in s.handlers ==> drop == if s.handlers[h].phase == Found then StampedInTime else DoneInTime
    ensures Considerate(Some(drop), cfg, s, k, Tick(d))
  {
  }

  /** A stranger, never given a session, closes one in the middle of its client's Step. */
  lemma StrangerEndsOther(cfg: Config) returns (ss: seq<Sys>, ls: seq<Label>)
    requires cfg.callBound <= cfg.timeout
    ensures ConsiderateRun(Some(Given), cfg, ss, ls) && !SessionsOwned(cfg, ss, ls)
    ensures |ls| >= 1 && ls[|ls| - 1] == CloseSession("a", None)
    ensures Holds(ss[|ls| - 1], "a", 0) && InFlight(ss[|ls| - 1], 0) && !Holds(ss[|ls|], "a", 0)
  {
    var s, k;
    ss, ls, s, k := FirstGrant(Given, cfg);
    SoloFound(cfg, k, 0, 0, [G], 0, 0);
    var s1 := Solo(true, 0, 0, 0, [G], map[0 := Handling(Found, 0, 0)]);
    Allowed(Given, cfg, s, k, BeginStep(0, "a", Some(0)), 0);
    ss, ls := Go(Given, cfg, ss, ls, s, k, BeginStep(0, "a", Some(0)), s1, k);
    SoloClose(cfg, k, 0, 0, 0, [G], s1.handlers, None);
    assert s1.handlers[0].grant == Some(0);
    ss, ls := Theft(Given, cfg, ss, ls, s1, k, CloseSession("a", None), Solo(false, 0, 0, 0, [G], s1.handlers), k, 0);
  }

  /** A client has closed its session, and the agent has gone to another client. */
  lemma Regranted(cfg: Config) returns (ss: seq<Sys>, ls: seq<Label>, s: Sys, k: Known)
    requires cfg.callBound <= cfg.timeout
    ensures s == Solo(true, 0, 0, 0, [G, G], map[1 := Handling(Locked, 1, 0)]) && k == Known({0}, [0, 0])
    ensures SoFar(NotEnded, cfg, ss, ls, s, k)
  {
    ss, ls, s, k := FirstGrant(NotEnded, cfg);
    SoloClose(cfg, k, 0, 0, 0, [G], map[], Some(0));
    Allowed(NotEnded, cfg, s, k, CloseSession("a", Some(0)), 0);
    var s1, k1 := Solo(false, 0, 0, 0, [G], map[]), Known({0}, [0]);
    ss, ls := Go(NotEnded, cfg, ss, ls, s, k, CloseSession("a", Some(0)), s1, k1);
    SoloRelock(cfg, k1, 0, 0, 0);
    s, k := Solo(true, 0, 0, 0, [G, G], map[1 := Handling(Locked, 1, 0)]), k1.(stamped := k1.stamped + [0]);
    ss, ls := GoOn(NotEnded, cfg, ss, ls, s1, k1, BeginReset(1, "a"), s, k);
  }

  /** The environment server closes its session when an episode is done, remembers the session id,
      and closes again when it is shut down. If the agent has been granted to another client in
      between, that client loses it, and a third client is given the same agent: two requests in
      flight then work on one record, although each was sent under a grant of its own. */
  lemma LateCloseSharesAgent(cfg: Config) returns (ss: seq<Sys>, ls: seq<Label>)
    requires cfg.callBound <= cfg.timeout
    ensures ConsiderateRun(Some(NotEnded), cfg, ss, ls) && !SessionsOwned(cfg, ss, ls)
    ensures |ls| >= 2 && ls[|ls| - 2] == CloseSession("a", Some(0))
    ensures Holds(ss[|ls| - 2], "a", 1) && !Holds(ss[|ls| - 1], "a", 1)
    ensures var s := ss[|ls|];
            && 1 in s.handlers && 2 in s.handlers && s.handlers[1].grant != s.handlers[2].grant
            && s.handlers[1].addr == s.handlers[2].addr && s.handlers[1].conn == s.handlers[2].conn
  {
    var s, k;
    ss, ls, s, k := Regranted(cfg);
    SoloClose(cfg, k, 0, 0, 0, [G, G], s.handlers, Some(0));
    Allowed(NotEnded, cfg, s, k, CloseSession("a", Some(0)), 0);
    var s1 := Solo(false, 0, 0, 0, [G, G], s.handlers);
    ss, ls := Go(NotEnded, cfg, ss, ls, s, k, CloseSession("a", Some(0)), s1, k);
    SoloLock(cfg, k, 0, 0, 0, [G, G], s1.handlers, 2);
    var s2 := Solo(true, 0, 0, 0, [G, G, G], s1.handlers[2 := Handling(Locked, 2, 0)]);
    ss, ls := GoOn(NotEnded, cfg, ss, ls, s1, k, BeginReset(2, "a"), s2, Known({0}, [0, 0, 0]));
    assert !OnOwn(s2, s2.handlers[1]);
  }

  /** A client closes its session while its own Step is in flight; the agent goes to another client,
      whose session the finished Step then ends. */
  lemma OverlapEndsOther(cfg: Config) returns (ss: seq<Sys>, ls: seq<Label>)
    requires cfg.callBound <= cfg.timeout
    ensures ConsiderateRun(Some(OneAtATime), cfg, ss, ls) && !SessionsOwned(cfg, ss, ls)
    ensures |ls| >= 1 && ls[|ls| - 1] == FreeStep(0)
    ensures 0 in ss[|ls| - 1].handlers && ss[|ls| - 1].handlers[0].grant == Some(0)
    ensures Holds(ss[|ls| - 1], "a", 1) && !Holds(ss[|ls|], "a", 1)
  {
    var s, k;
    ss, ls, s, k := InStep(OneAtATime, cfg);
    SoloClose(cfg, k, 0, 0, 0, [G], s.handlers, Some(0));
    var s1, k1 := Solo(false, 0, 0, 0, [G], s.handlers), Known({0}, [0]);
    Allowed(OneAtATime, cfg, s, k, CloseSession("a", Some(0)), 0);
    ss, ls := Go(OneAtATime, cfg, ss, ls, s, k, CloseSession("a", Some(0)), s1, k1);
    ss, ls := NextClientLoses(OneAtATime, cfg, ss, ls, 0, 0, k1);
  }

  /** A client's Step is with the agent. */
  lemma InStep(drop: Rule, cfg: Config) returns (ss: seq<Sys>, ls: seq<Label>, s: Sys, k: Known)
    requires cfg.callBound <= cfg.timeout
    ensures s == Solo(true, 0, 0, 0, [G], map[0 := Handling(Stepping, 0, 0)]) && k == Known({}, [0])
    ensures SoFar(drop, cfg, ss, ls, s, k)
  {
    ss, ls, s, k := FirstGrant(drop, cfg);
    SoloFound(cfg, k, 0, 0, [G], 0, 0);
    var s1 := Solo(true, 0, 0, 0, [G], map[0 := Handling(Found, 0, 0)]);
    Allowed(drop, cfg, s, k, BeginStep(0, "a", Some(0)), 0);
    ss, ls := Go(drop, cfg, ss, ls, s, k, BeginStep(0, "a", Some(0)), s1, k);
    SoloTouch(cfg, k, 0, [G], 0, 0, Stepping);
    s := Solo(true, 0, 0, 0, [G], map[0 := Handling(Stepping, 0, 0)]);
    ss, ls := GoOn(drop, cfg, ss, ls, s1, k, TouchStep(0), s, k);
  }

  /** The agent, free again although a Step of its first client is still in flight, goes to a second
      client, who loses it when that Step is done. */
  lemma NextClientLoses(drop: Rule, cfg: Config, ss: seq<Sys>, ls: seq<Label>, now: int, cleaned: int, k: Known)
      returns (tt: seq<Sys>, ms: seq<Label>)
    requires SoFar(drop, cfg, ss, ls, Solo(false, 0, now, cleaned, [G], map[0 := Handling(Stepping, 0, 0)]), k)
    ensures ConsiderateRun(Some(drop), cfg, tt, ms) && !SessionsOwned(cfg, tt, ms)
    ensures |ms| >= 1 && ms[|ms| - 1] == FreeStep(0)
    ensures 0 in tt[|ms| - 1].handlers && tt[|ms| - 1].handlers[0].grant == Some(0)
    ensures Holds(tt[|ms| - 1], "a", 1) && !Holds(tt[|ms|], "a", 1)
  {
    var x, y := Handling(Stepping, 0, 0), Handling(Locked, 1, now);
    SoloLock(cfg, k, 0, now, cleaned, [G], map[0 := x], 1);
    assert map[0 := x][1 := y] == map[0 := x, 1 := y];
    var s, n := Solo(true, now, now, cleaned, [G, G], map[0 := x, 1 := y]), k.(stamped := k.stamped + [now]);
    tt, ms := GoOn(drop, cfg, ss, ls, Solo(false, 0, now, cleaned, [G], map[0 := x]), k, BeginReset(1, "a"), s, n);
    tt, ms := StepEndsNext(drop, cfg, tt, ms, now, cleaned, n);
  }

  lemma StepEndsNext(drop: Rule, cfg: Config, ss: seq<Sys>, ls: seq<Label>, now: int, cleaned: int, k: Known)
      returns (tt: seq<Sys>, ms: seq<Label>)
    requires var hs := map[0 := Handling(Stepping, 0, 0), 1 := Handling(Locked, 1, now)];
             SoFar(drop, cfg, ss, ls, Solo(true, now, now, cleaned, [G, G], hs), k)
    ensures ConsiderateRun(Some(drop), cfg, tt, ms) && !SessionsOwned(cfg, tt, ms)
    ensures |ms| >= 1 && ms[|ms| - 1] == FreeStep(0)
    ensures 0 in tt[|ms| - 1].handlers && tt[|ms| - 1].handlers[0].grant == Some(0)
    ensures Holds(tt[|ms| - 1], "a", 1) && !Holds(tt[|ms|], "a", 1)
  {
    var x, y := Handling(Stepping, 0, 0), Handling(Locked, 1, now);
    var s, t := Solo(true, now, now, cleaned, [G, G], map[0 := x, 1 := y]),
                Solo(true, now, now, cleaned, [G, G], map[0 := x.(phase := StepDone), 1 := y]);
    SoloDone(cfg, k, now, now, cleaned, [G, G], x, y);
    tt, ms := GoOn(drop, cfg, ss, ls, s, k, EndStep(0, true), t, k);
    SoloFree(cfg, k, now, now, cleaned, [G, G], x.(phase := StepDone), y);
    NoRuleFor(drop, cfg, t, k, FreeStep(0));
    tt, ms := Theft(drop, cfg, tt, ms, t, k, FreeStep(0), Solo(false, now, now, cleaned, [G, G], map[1 := y]),
                    NoteEnd(k, Some(0)), 1);
  }

  /** A client is given the agent after the first client's session has timed out. */
  lemma TakenOver(cfg: Config) returns (ss: seq<Sys>, ls: seq<Label>, s: Sys, k: Known)
    requires cfg.callBound <= cfg.timeout
    ensures var now := cfg.timeout + 1;
            && s == Solo(true, now, now, now, [G, G], map[1 := Handling(Locked, 1, now)]) && k == Known({}, [0, now])
            && SoFar(InTime, cfg, ss, ls, s, k)
  {
    var now := cfg.timeout + 1;
    ss, ls, s, k := FirstGrant(InTime, cfg);
    var s1, s2 := Solo(true, 0, now, 0, [G], map[]), Solo(false, 0, now, now, [G], map[]);
    SoloTick(cfg, k, 0, now, [G], map[]);
    ss, ls := GoOn(InTime, cfg, ss, ls, s, k, Tick(now), s1, k);
    SoloCleanup(cfg, k, 0, now, 0, [G], map[]);
    ss, ls := GoOn(InTime, cfg, ss, ls, s1, k, Cleanup, s2, k);
    SoloRelock(cfg, k, 0, now, now);
    s := Solo(true, now, now, now, [G, G], map[1 := Handling(Locked, 1, now)]);
    var k1 := k.(stamped := k.stamped + [now]);
    ss, ls := GoOn(InTime, cfg, ss, ls, s2, k, BeginReset(1, "a"), s, k1);
    k := k1;
  }

  /** A client closes its session after it has timed out and gone to another client. */
  lemma LateRequestEndsOther(cfg: Config) returns (ss: seq<Sys>, ls: seq<Label>)
    requires cfg.callBound <= cfg.timeout
    ensures ConsiderateRun(Some(InTime), cfg, ss, ls) && !SessionsOwned(cfg, ss, ls)
    ensures |ls| >= 1 && ls[|ls| - 1] == CloseSession("a", Some(0))
    ensures Holds(ss[|ls| - 1], "a", 1) && !Holds(ss[|ls|], "a", 1)
  {
    var s, k;
    var now := cfg.timeout + 1;
    ss, ls, s, k := TakenOver(cfg);
    SoloClose(cfg, k, now, now, now, [G, G], s.handlers, Some(0));
    Allowed(InTime, cfg, s, k, CloseSession("a", Some(0)), 0);
    ss, ls := Theft(InTime, cfg, ss, ls, s, k, CloseSession("a", Some(0)),
                    Solo(false, now, now, now, [G, G], s.handlers), Known({0}, [0, now]), 1);
  }

  /** A Step is looked up at the last moment. */
  lemma FoundLate(cfg: Config) returns (ss: seq<Sys>, ls: seq<Label>, s: Sys, k: Known)
    requires cfg.callBound <= cfg.timeout
    ensures s == Solo(true, 0, cfg.timeout, 0, [G], map[0 := Handling(Found, 0, cfg.timeout)]) && k == Known({}, [0])
    ensures SoFar(StampedInTime, cfg, ss, ls, s, k)
  {
    ss, ls, s, k := FirstGrant(StampedInTime, cfg);
    SoloTick(cfg, k, 0, cfg.timeout, [G], map[]);
    var s1 := Solo(true, 0, cfg.timeout, 0, [G], map[]);
    ss, ls := GoOn(StampedInTime, cfg, ss, ls, s, k, Tick(cfg.timeout), s1, k);
    SoloFound(cfg, k, 0, cfg.timeout, [G], 0, 0);
    Allowed(StampedInTime, cfg, s1, k, BeginStep(0, "a", Some(0)), 0);
    s := Solo(true, 0, cfg.timeout, 0, [G], map[0 := Handling(Found, 0, cfg.timeout)]);
    ss, ls := Go(StampedInTime, cfg, ss, ls, s1, k, BeginStep(0, "a", Some(0)), s, k);
  }

  /** The cleanup strikes before the stamp of a Step that was looked up in time. */
  lemma CleanupBeforeStamp(cfg: Config) returns (ss: seq<Sys>, ls: seq<Label>)
    requires cfg.callBound <= cfg.timeout
    ensures ConsiderateRun(Some(StampedInTime), cfg, ss, ls) && !SessionsOwned(cfg, ss, ls)
    ensures |ls| >= 1 && ls[|ls| - 1] == Cleanup
    ensures At(ss[|ls|], 0, Found) && ss[|ls|].handlers[0].grant == Some(0)
    ensures Holds(ss[|ls| - 1], "a", 0) && !Holds(ss[|ls|], "a", 0)
  {
    var s, k;
    var now := cfg.timeout + 1;
    ss, ls, s, k := FoundLate(cfg);
    var s1 := Solo(true, 0, now, 0, [G], s.handlers);
    SoloTick(cfg, k, cfg.timeout, 1, [G], s.handlers);
    Lingering(StampedInTime, cfg, s, k, 1);
    ss, ls := Go(StampedInTime, cfg, ss, ls, s, k, Tick(1), s1, k);
    SoloCleanup(cfg, k, 0, now, 0, [G], s.handlers);
    NoRuleFor(StampedInTime, cfg, s1, k, Cleanup);
    assert s1.handlers[0].grant == Some(0);
    ss, ls := Theft(StampedInTime, cfg, ss, ls, s1, k, Cleanup, Solo(false, 0, now, now, [G], s.handlers), k, 0);
  }

  /** A forwarded call outlasts the timeout. */
  lemma LongCallEndsOther(cfg: Config) returns (ss: seq<Sys>, ls: seq<Label>)
    requires cfg.callBound <= cfg.timeout
    ensures ConsiderateRun(Some(DoneInTime), cfg, ss, ls) && !SessionsOwned(cfg, ss, ls)
    ensures |ls| >= 1 && ls[|ls| - 1] == FreeStep(0)
    ensures 0 in ss[|ls| - 1].handlers && ss[|ls| - 1].handlers[0].grant == Some(0)
    ensures Holds(ss[|ls| - 1], "a", 1) && !Holds(ss[|ls|], "a", 1)
  {
    var s, k;
    var now := cfg.timeout + 1;
    ss, ls, s, k := InStep(DoneInTime, cfg);
    var s1 := Solo(true, 0, now, 0, [G], s.handlers);
    SoloTick(cfg, k, 0, now, [G], s.handlers);
    Lingering(DoneInTime, cfg, s, k, now);
    ss, ls := Go(DoneInTime, cfg, ss, ls, s, k, Tick(now), s1, k);
    SoloCleanup(cfg, k, 0, now, 0, [G], s.handlers);
    ss, ls := GoOn(DoneInTime, cfg, ss, ls, s1, k, Cleanup, Solo(false, 0, now, now, [G], s.handlers), k);
    ss, ls := NextClientLoses(DoneInTime, cfg, ss, ls, now, now, k);
  }

  /** None of the rules can be left out: whichever it is, keeping all the others does not do. */
  lemma EachRuleNeeded(cfg: Config, drop: Rule) returns (ss: seq<Sys>, ls: seq<Label>)
    requires cfg.callBound <= cfg.timeout
    ensures ConsiderateRun(Some(drop), cfg, ss, ls) && !SessionsOwned(cfg, ss, ls)
  {
    match drop {
      case Given => ss, ls := StrangerEndsOther(cfg);
      case NotEnded => ss, ls := LateCloseSharesAgent(cfg);
      case OneAtATime => ss, ls := OverlapEndsOther(cfg);
      case InTime => ss, ls := LateRequestEndsOther(cfg);
      case StampedInTime => ss, ls := CleanupBeforeStamp(cfg);
      case DoneInTime => ss, ls := LongCallEndsOther(cfg);
    }
  }
}
