/** The environment server as a client of the router: when it keeps the rule that a client asks nothing
    of a session it has ended. */
module EnvClient {
  import opened Wrappers
  import opened RouterSystem
  import opened RouterRuns
  import opened Clients
  import E = Episode

  // ---------------------------------------------------------------- what reaches the router

  function IfMine(g: Option<nat>, mine: set<nat>, acts: seq<E.Act>): seq<E.Act> {
    if g.Some? && g.value in mine then acts else []
  }

  /** What one step of the router does to the sessions held under the grants in `mine`. */
  function Happens(s: Sys, l: Label, mine: set<nat>): seq<E.Act> {
    match l
    case BeginStep(_, _, g) => IfMine(g, mine, if g.Some? then [E.Asks(g.value)] else [])
    case CloseSession(_, g) => IfMine(g, mine, if g.Some? then [E.Asks(g.value), E.Closed(g.value)] else [])
    case FreeReset(h) => if h in s.handlers then Freed(s.handlers[h].grant, mine) else []
    case FreeStep(h) => if h in s.handlers then Freed(s.handlers[h].grant, mine) else []
    case _ => []
  }

  function Freed(g: Option<nat>, mine: set<nat>): seq<E.Act> {
    IfMine(g, mine, if g.Some? then [E.Released(g.value)] else [])
  }

  function Trace(ss: seq<Sys>, ls: seq<Label>, mine: set<nat>, i: nat): seq<E.Act>
    requires i <= |ls| && i <= |ss|
  {
    if i == 0 then [] else Trace(ss, ls, mine, i - 1) + Happens(ss[i - 1], ls[i - 1], mine)
  }

  ghost predicate Ended(acts: seq<E.Act>, g: nat) {
    exists i :: 0 <= i < |acts| && !acts[i].Asks? && acts[i].session == g
  }

  lemma EndedOneMore(acts: seq<E.Act>, more: seq<E.Act>, g: nat)
    ensures Ended(acts + more, g) <==> Ended(acts, g) || Ended(more, g)
  {
    var all := acts + more;
    if i :| 0 <= i < |acts| && !acts[i].Asks? && acts[i].session == g {
      assert all[i] == acts[i];
    }
    if i :| 0 <= i < |more| && !more[i].Asks? && more[i].session == g {
      assert all[|acts| + i] == more[i];
    }
  }

  lemma EndsNow(s: Sys, l: Label, k: Known, mine: set<nat>, g: nat)
    requires g in mine
    ensures g in Learn(s, l, k).over <==> g in k.over || Ended(Happens(s, l, mine), g)
  {
    var more := Happens(s, l, mine);
    assert more != [] && !more[|more| - 1].Asks? ==> Ended(more, more[|more| - 1].session);
  }

  /** The grants the clients count as over are those whose end the trace shows. */
  lemma {:induction false} OverIsEnded(ss: seq<Sys>, ls: seq<Label>, mine: set<nat>, i: nat, g: nat)
    requires i <= |ls| && i <= |ss| && g in mine
    ensures g in Knowledge(ss, ls, i).over <==> Ended(Trace(ss, ls, mine, i), g)
  {
    if i > 0 {
      OverIsEnded(ss, ls, mine, i - 1, g);
      EndsNow(ss[i - 1], ls[i - 1], Knowledge(ss, ls, i - 1), mine, g);
      EndedOneMore(Trace(ss, ls, mine, i - 1), Happens(ss[i - 1], ls[i - 1], mine), g);
    }
  }

  /** The requests under the grants in `mine` keep the rule NotEnded in the first `n` steps. */
  ghost predicate KeepNotEnded(cfg: Config, ss: seq<Sys>, ls: seq<Label>, mine: set<nat>, n: nat)
    requires n <= |ls| && n <= |ss|
  {
    forall i :: 0 <= i < n && Under(ls[i], mine) ==> Obeys(NotEnded, cfg, ss[i], Knowledge(ss, ls, i), ls[i])
  }

  predicate Under(l: Label, mine: set<nat>) {
    (l.BeginStep? || l.CloseSession?) && l.g.Some? && l.g.value in mine
  }

  lemma QuietOneMore(acts: seq<E.Act>, more: seq<E.Act>, g: nat)
    requires more in {[], [E.Asks(g)], [E.Asks(g), E.Closed(g)], [E.Released(g)]}
    ensures E.QuietAfterEnd(acts + more) <==>
            E.QuietAfterEnd(acts) && (more != [] && more[0].Asks? ==> !Ended(acts, g))
  {
    var all := acts + more;
    if more != [] && more[0].Asks? && Ended(acts, g) {
      var i :| 0 <= i < |acts| && !acts[i].Asks? && acts[i].session == g;
      assert all[i] == acts[i] && all[|acts|] == E.Asks(g);
    }
    if E.QuietAfterEnd(all) {
      forall i, j | 0 <= i < j < |acts| && !acts[i].Asks? ensures acts[j] != E.Asks(acts[i].session) {
        assert all[i] == acts[i] && all[j] == acts[j];
      }
    }
  }

  /** In any run, the requests under some grants keep the rule just if its trace shows none of them after
      the end of its grant. */
  lemma {:induction false} RuleIsQuiet(cfg: Config, ss: seq<Sys>, ls: seq<Label>, mine: set<nat>, n: nat)
    requires n <= |ls| && n <= |ss|
    ensures KeepNotEnded(cfg, ss, ls, mine, n) <==> E.QuietAfterEnd(Trace(ss, ls, mine, n))
  {
    if n > 0 {
      var s, l := ss[n - 1], ls[n - 1];
      RuleIsQuiet(cfg, ss, ls, mine, n - 1);
      var more := Happens(s, l, mine);
      QuietOneMore(Trace(ss, ls, mine, n - 1), more, if more == [] then 0 else more[0].session);
      if Under(l, mine) {
        OverIsEnded(ss, ls, mine, n - 1, l.g.value);
      }
    }
  }

  // ---------------------------------------------------------------- what the environment does

  /** The grant behind each session the environment was given. */
  ghost predicate Distinct(gs: seq<nat>) {
    forall m, n :: 0 <= m < n < |gs| ==> gs[m] != gs[n]
  }

  function Named(a: E.Act, gs: seq<nat>): E.Act
    requires a.session < |gs|
  {
    a.(session := gs[a.session])
  }

  /** `trace` is what took place at the router of `acts`, in the same order: a request may be lost or
      refused there, but no reply that says done is lost on the way back. */
  ghost predicate Reached(trace: seq<E.Act>, acts: seq<E.Act>, gs: seq<nat>, at: seq<nat>) {
    && |at| == |trace| && (forall a :: a in acts ==> a.session < |gs|)
    && (forall k :: 0 <= k < |at| ==> at[k] < |acts| && trace[k] == Named(acts[at[k]], gs))
    && (forall k, m :: 0 <= k < m < |at| ==> at[k] < at[m])
  }

  lemma QuietReached(trace: seq<E.Act>, acts: seq<E.Act>, gs: seq<nat>, at: seq<nat>)
    requires Reached(trace, acts, gs, at) && Distinct(gs) && E.QuietAfterEnd(acts)
    ensures E.QuietAfterEnd(trace)
  {
    forall i, j | 0 <= i < j < |trace| && !trace[i].Asks? ensures trace[j] != E.Asks(trace[i].session) {
      var a, b := acts[at[i]], acts[at[j]];
      assert b != E.Asks(a.session);
      assert trace[i] == Named(a, gs) && trace[j] == Named(b, gs);
    }
  }

  lemma AllReached(trace: seq<E.Act>, acts: seq<E.Act>, gs: seq<nat>, at: seq<nat>)
    requires Reached(trace, acts, gs, at) && |at| == |acts| && forall k :: 0 <= k < |at| ==> at[k] == k
    requires E.QuietAfterEnd(trace)
    ensures E.QuietAfterEnd(acts)
  {
    forall i, j | 0 <= i < j < |acts| && !acts[i].Asks? ensures acts[j] != E.Asks(acts[i].session) {
      assert trace[i] == Named(acts[i], gs) && trace[j] == Named(acts[j], gs);
    }
  }

  /** The environment server keeps the rule in a run of the router if after each step answered with done
      and a session id its caller only resets it until a reset succeeds, and no step is answered with done
      because the reply says so. If all its requests arrive, it does so only then. */
  lemma EnvironmentKeepsRule(cfg: Config, ss: seq<Sys>, ls: seq<Label>, s: E.Env, maxSteps: int, calls: seq<E.Call>,
                             gs: seq<nat>, at: seq<nat>)
    requires Run(cfg, ss, ls) && Distinct(gs)
    requires Reached(Trace(ss, ls, set g | g in gs, |ls|), E.Acts(s, maxSteps, calls), gs, at)
    ensures E.ResetsAfterDone(s, maxSteps, calls) && E.DoneByItself(s, maxSteps, calls)
            ==> KeepNotEnded(cfg, ss, ls, set g | g in gs, |ls|)
    ensures |at| == |E.Acts(s, maxSteps, calls)| && (forall k :: 0 <= k < |at| ==> at[k] == k)
            && KeepNotEnded(cfg, ss, ls, set g | g in gs, |ls|)
            ==> E.ResetsAfterDone(s, maxSteps, calls) && E.DoneByItself(s, maxSteps, calls)
  {
    var mine := set g | g in gs;
    var trace, acts := Trace(ss, ls, mine, |ls|), E.Acts(s, maxSteps, calls);
    E.EndExactly(s, maxSteps, calls);
    RuleIsQuiet(cfg, ss, ls, mine, |ls|);
    if E.QuietAfterEnd(acts) {
      QuietReached(trace, acts, gs, at);
    }
    if |at| == |acts| && (forall k :: 0 <= k < |at| ==> at[k] == k) && E.QuietAfterEnd(trace) {
      AllReached(trace, acts, gs, at);
    }
  }
}
