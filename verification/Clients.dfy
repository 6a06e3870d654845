/** The assumptions behind exclusive use, as six rules. Four are a client's own: which sessions it was
    given, which of them it has ended, whether it is waiting for a reply, and how long ago its last request
    was stamped; as a request is stamped only after it is sent, a client that counts from when it sent its
    last answered request is on the safe side, transit aside. The other two are about the router: how long it takes from
    looking up an agent to stamping it, and from there to its last pool operation. No rule asks a client to
    know which sessions the router has taken back. */
module Clients {
  import opened Wrappers
  import opened PoolSpec
  import opened RouterSystem
  import opened RouterRuns
  import opened Sessions

  /** What clients know from their own requests, the grants whose release they asked for or got, and
      the times at which the router stamped each grant's last request. */
  datatype Known = Known(over: set<nat>, stamped: seq<int>)

  function NoteStamp(k: Known, g: Option<nat>, now: int): Known {
    if g.Some? && g.value < |k.stamped| then k.(stamped := k.stamped[g.value := now]) else k
  }

  function NoteEnd(k: Known, g: Option<nat>): Known {
    if g.Some? then k.(over := k.over + {g.value}) else k
  }

  function Learn(s: Sys, l: Label, k: Known): Known {
    match l
    case BeginReset(_, _) => k.(stamped := k.stamped + [s.now])
    case TouchReset(h) => if h in s.handlers then NoteStamp(k, s.handlers[h].grant, s.now) else k
    case TouchStep(h) => if h in s.handlers then NoteStamp(k, s.handlers[h].grant, s.now) else k
    case FreeReset(h) => if h in s.handlers then NoteEnd(k, s.handlers[h].grant) else k
    case FreeStep(h) => if h in s.handlers then NoteEnd(k, s.handlers[h].grant) else k
    case CloseSession(_, g) => NoteEnd(k, g)
    case _ => k
  }

  function Knowledge(ss: seq<Sys>, ls: seq<Label>, i: nat): Known
    requires i <= |ls| && i <= |ss|
  {
    if i == 0 then Known({}, []) else Learn(ss[i - 1], ls[i - 1], Knowledge(ss, ls, i - 1))
  }

  /** The rules, each by itself. A client names only a session it was given; it has not ended it; it
      has no other request of it in flight; the session's last stamp is no longer ago than the timeout
      when the request arrives. And of the router: nor is it when the request is stamped, and a handler is
      done with its agent within the bound on calls. */
  datatype Rule = Given | NotEnded | OneAtATime | InTime | StampedInTime | DoneInTime

  ghost predicate Obeys(r: Rule, cfg: Config, s: Sys, k: Known, l: Label) {
    var request := l.BeginStep? || l.CloseSession?;
    match r
    case Given => request ==> l.g.Some? && l.g.value < |s.issued| && s.issued[l.g.value].addr == l.a
    case NotEnded => request && l.g.Some? ==> l.g.value !in k.over
    case OneAtATime => request && l.g.Some? ==> !InFlight(s, l.g.value)
    case InTime => request ==> UpToDate(cfg, k, l.g, s.now)
    case StampedInTime => l.Tick? ==> forall h :: At(s, h, Found) ==> UpToDate(cfg, k, s.handlers[h].grant, s.now + l.d)
    case DoneInTime => PromptCalls(cfg, s, l)
  }

  /** The last stamp under `g`, if there is one, is no longer ago than the timeout. */
  predicate UpToDate(cfg: Config, k: Known, g: Option<nat>, now: int) {
    g.Some? && g.value < |k.stamped| ==> now <= k.stamped[g.value] + cfg.timeout
  }

  /** All rules are kept but, possibly, `drop`. */
  ghost predicate Considerate(drop: Option<Rule>, cfg: Config, s: Sys, k: Known, l: Label) {
    forall r: Rule :: Some(r) != drop ==> Obeys(r, cfg, s, k, l)
  }

  /** A run of a router whose timeout bounds the calls, in which all rules are kept but, possibly, `drop`. */
  ghost predicate ConsiderateRun(drop: Option<Rule>, cfg: Config, ss: seq<Sys>, ls: seq<Label>) {
    && cfg.callBound <= cfg.timeout && Run(cfg, ss, ls)
    && forall i :: 0 <= i < |ls| ==> Considerate(drop, cfg, ss[i], Knowledge(ss, ls, i), ls[i])
  }

  lemma AllRules(cfg: Config, s: Sys, k: Known, l: Label)
    requires Considerate(None, cfg, s, k, l)
    ensures Obeys(Given, cfg, s, k, l) && Obeys(NotEnded, cfg, s, k, l) && Obeys(OneAtATime, cfg, s, k, l)
    ensures Obeys(InTime, cfg, s, k, l) && Obeys(StampedInTime, cfg, s, k, l) && Obeys(DoneInTime, cfg, s, k, l)
  {
  }

  // ------------------------------------------------- what the clients' knowledge is worth

  /** A grant is over by its client's own doing, or still held, or out of time. */
  ghost predicate Accounted(cfg: Config, s: Sys, k: Known, g: nat)
    requires g < |s.issued| == |k.stamped|
  {
    g in k.over || Holds(s, s.issued[g].addr, g) || k.stamped[g] + cfg.timeout < s.now
  }

  /** The agent held under a grant has been active since the grant's last stamp. */
  ghost predicate ActiveSince(s: Sys, k: Known, a: Addr)
    requires a in s.holder
  {
    a in s.pool.agents && s.holder[a] < |k.stamped| && k.stamped[s.holder[a]] <= s.pool.agents[a].last
  }

  ghost predicate LookupsInTime(cfg: Config, s: Sys, k: Known) {
    forall h :: At(s, h, Found) ==> UpToDate(cfg, k, s.handlers[h].grant, s.now)
  }

  ghost predicate Informed(cfg: Config, s: Sys, k: Known) {
    && |s.issued| == |k.stamped|
    && (forall g :: 0 <= g < |s.issued| ==> Accounted(cfg, s, k, g))
    && (forall a :: a in s.holder ==> ActiveSince(s, k, a))
    && LookupsInTime(cfg, s, k)
  }

  /** The client's own knowledge is enough: what the rules let it send it sends under a grant it holds. */
  lemma RulesAreMannerly(cfg: Config, s: Sys, k: Known, l: Label)
    requires Informed(cfg, s, k) && Considerate(None, cfg, s, k, l)
    ensures Mannerly(s, l)
  {
    AllRules(cfg, s, k, l);
    if l.BeginStep? || l.CloseSession? {
      assert Accounted(cfg, s, k, l.g.value);
    }
  }

  /** The activity time at an address never goes back. */
  lemma LastGrows(cfg: Config, s: Sys, l: Label, a: Addr)
    requires Enabled(s, l) && ClockOk(s) && a in Apply(cfg, s, l).pool.agents
    ensures var e := Apply(cfg, s, l).pool.agents[a];
            if a in s.pool.agents then s.pool.agents[a].last <= e.last else e.last == s.now
  {
    LastMoves(cfg, s, l, a);
  }

  /** Only the request that holds the session stamps it. */
  ghost predicate Notes(s: Sys, l: Label, g: nat) {
    (l.TouchReset? || l.TouchStep?) && l.h in s.handlers && s.handlers[l.h].grant == Some(g)
  }

  lemma OldStamp(s: Sys, k: Known, l: Label, g: nat)
    requires g < |k.stamped| && Enabled(s, l)
    ensures g < |Learn(s, l, k).stamped| && (Notes(s, l, g) || Learn(s, l, k).stamped[g] == k.stamped[g])
    ensures Notes(s, l, g) ==> Learn(s, l, k).stamped[g] == s.now
  {
  }

  lemma NewHolder(cfg: Config, s: Sys, l: Label, a: Addr)
    requires Enabled(s, l) && a !in s.holder && a in Apply(cfg, s, l).holder
    ensures l.BeginReset? && l.a == a && a in s.pool.agents
  {
  }

  /** A stamp made for a session is a stamp of its agent. */
  lemma StampsOwn(cfg: Config, s: Sys, l: Label, a: Addr)
    requires Enabled(s, l) && GrantsOk(s) && Exclusive(s) && a in s.holder && Notes(s, l, s.holder[a])
    ensures a in Apply(cfg, s, l).pool.agents && Apply(cfg, s, l).pool.agents[a].last == s.now
  {
    assert OnOwn(s, s.handlers[l.h]);
    SameGrantSameAgent(s, a, s.handlers[l.h].addr);
  }

  lemma ActiveKept(cfg: Config, s: Sys, k: Known, l: Label, a: Addr)
    requires Enabled(s, l) && SysInv(s) && Exclusive(s) && Informed(cfg, s, k)
    requires a in Apply(cfg, s, l).holder
    ensures ActiveSince(Apply(cfg, s, l), Learn(s, l, k), a)
  {
    if a in s.holder {
      assert ActiveSince(s, k, a);
      HolderKept(cfg, s, l, a);
      LastGrows(cfg, s, l, a);
      OldStamp(s, k, l, s.holder[a]);
      if Notes(s, l, s.holder[a]) {
        StampsOwn(cfg, s, l, a);
      }
    } else {
      NewHolder(cfg, s, l, a);
    }
  }

  lemma AccountKept(cfg: Config, s: Sys, k: Known, l: Label, g: nat)
    requires Enabled(s, l) && SysInv(s) && Exclusive(s) && Informed(cfg, s, k) && Considerate(None, cfg, s, k, l)
    requires g < |s.issued|
    ensures |Apply(cfg, s, l).issued| == |Learn(s, l, k).stamped|
    ensures g < |Apply(cfg, s, l).issued| && Accounted(cfg, Apply(cfg, s, l), Learn(s, l, k), g)
  {
    var t := Apply(cfg, s, l);
    var a := s.issued[g].addr;
    assert Accounted(cfg, s, k, g);
    if Holds(s, a, g) {
      if a in t.holder {
        HolderKept(cfg, s, l, a);
      } else {
        HolderLost(cfg, s, l, a);
        RulesAreMannerly(cfg, s, k, l);
        assert ActiveSince(s, k, a);
        assert l.FreeReset? || l.FreeStep? ==> OnOwn(s, s.handlers[l.h]);
      }
    } else if l.TouchReset? || l.TouchStep? {
      assert OnOwn(s, s.handlers[l.h]);
      assert s.handlers[l.h].grant != Some(g);
    }
  }

  lemma LookupKept(cfg: Config, s: Sys, k: Known, l: Label, h: nat)
    requires Enabled(s, l) && LookupsInTime(cfg, s, k) && Considerate(None, cfg, s, k, l) && At(Apply(cfg, s, l), h, Found)
    ensures UpToDate(cfg, k, Apply(cfg, s, l).handlers[h].grant, Apply(cfg, s, l).now)
  {
    AllRules(cfg, s, k, l);
    assert h in s.handlers && !(l.BeginStep? && l.h == h) ==> At(s, h, Found);
  }

  lemma LookupsKept(cfg: Config, s: Sys, k: Known, l: Label)
    requires Enabled(s, l) && Exclusive(s) && Informed(cfg, s, k) && Considerate(None, cfg, s, k, l)
    ensures LookupsInTime(cfg, Apply(cfg, s, l), Learn(s, l, k))
  {
    var t, n := Apply(cfg, s, l), Learn(s, l, k);
    forall h | At(t, h, Found) ensures UpToDate(cfg, n, t.handlers[h].grant, t.now) {
      LookupKept(cfg, s, k, l, h);
      if t.handlers[h].grant.Some? && t.handlers[h].grant.value < |k.stamped| {
        OldStamp(s, k, l, t.handlers[h].grant.value);
      }
    }
  }

  lemma InformedKept(cfg: Config, s: Sys, k: Known, l: Label)
    requires Enabled(s, l) && SysInv(s) && Exclusive(s) && Informed(cfg, s, k) && Considerate(None, cfg, s, k, l)
    ensures Informed(cfg, Apply(cfg, s, l), Learn(s, l, k))
  {
    var t, n := Apply(cfg, s, l), Learn(s, l, k);
    assert |t.issued| == |n.stamped|;
    forall g | 0 <= g < |t.issued| ensures Accounted(cfg, t, n, g) {
      if g < |s.issued| {
        AccountKept(cfg, s, k, l, g);
      } else {
        assert l.BeginReset?;
      }
    }
    forall a | a in t.holder ensures ActiveSince(t, n, a) {
      ActiveKept(cfg, s, k, l, a);
    }
    LookupsKept(cfg, s, k, l);
  }

  /** Sessions with a request in flight have been active within the timeout. */
  lemma InformedIsSpared(cfg: Config, ss: seq<Sys>, ls: seq<Label>, i: nat, k: Known, l: Label)
    requires Prompt(cfg, ss, ls) && cfg.callBound <= cfg.timeout && i < |ss|
    requires Exclusive(ss[i]) && Informed(cfg, ss[i], k)
    ensures Spared(cfg, ss[i], l)
  {
    var s := ss[i];
    Always(cfg, ss, ls, i);
    CallsInTime(cfg, ss, ls, i);
    forall a | a in s.holder && InFlight(s, s.holder[a]) ensures a !in ExpiredSet(s.pool, cfg.timeout, s.now) {
      var h :| h in s.handlers && s.handlers[h].grant == Some(s.holder[a]);
      assert OnOwn(s, s.handlers[h]) && ActiveSince(s, k, a);
      SameGrantSameAgent(s, a, s.handlers[h].addr);
      assert s.handlers[h].phase == Found ==> At(s, h, Found);
    }
  }

  lemma ConsiderateIsPrompt(cfg: Config, ss: seq<Sys>, ls: seq<Label>)
    requires ConsiderateRun(None, cfg, ss, ls)
    ensures Prompt(cfg, ss, ls)
  {
    forall i | 0 <= i < |ls| ensures PromptCalls(cfg, ss[i], ls[i]) {
      AllRules(cfg, ss[i], Knowledge(ss, ls, i), ls[i]);
    }
  }

  /** If every client keeps to the rules the run is polite. In particular no client ever acts under a
      grant that is not its own, although none of them is told when the router takes a session back. */
  lemma {:induction false} ConsiderateIsPolite(cfg: Config, ss: seq<Sys>, ls: seq<Label>, i: nat)
    requires ConsiderateRun(None, cfg, ss, ls) && i < |ss|
    ensures Exclusive(ss[i]) && Informed(cfg, ss[i], Knowledge(ss, ls, i))
    ensures i < |ls| ==> Mannerly(ss[i], ls[i]) && Spared(cfg, ss[i], ls[i])
  {
    if i > 0 {
      var s, l, k := ss[i - 1], ls[i - 1], Knowledge(ss, ls, i - 1);
      ConsiderateIsPolite(cfg, ss, ls, i - 1);
      Always(cfg, ss, ls, i - 1);
      assert Step(cfg, s, l, ss[i]);
      MannerlyKeepsOwn(cfg, s, l);
      ExclusiveKept(cfg, s, l);
      InformedKept(cfg, s, k, l);
    }
    if i < |ls| {
      ConsiderateIsPrompt(cfg, ss, ls);
      RulesAreMannerly(cfg, ss[i], Knowledge(ss, ls, i), ls[i]);
      InformedIsSpared(cfg, ss, ls, i, Knowledge(ss, ls, i), ls[i]);
    }
  }

  /** So with clients that keep to the rules requests in flight are exclusive, and nobody's session is
      ended by anyone else. */
  lemma ConsiderateSessionsOwned(cfg: Config, ss: seq<Sys>, ls: seq<Label>)
    requires ConsiderateRun(None, cfg, ss, ls)
    ensures Polite(cfg, ss, ls) && SessionsOwned(cfg, ss, ls)
  {
    forall i | 0 <= i < |ls| ensures Mannerly(ss[i], ls[i]) && Spared(cfg, ss[i], ls[i]) {
      ConsiderateIsPolite(cfg, ss, ls, i);
    }
    PoliteSessionsOwned(cfg, ss, ls);
  }
}
