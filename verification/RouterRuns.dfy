/** Theorems about whole runs of the router, for every interleaving of its actors. */
module RouterRuns {
  import opened PoolSpec
  import opened RouterSystem

  ghost predicate Step(cfg: Config, s: Sys, l: Label, t: Sys) {
    Enabled(s, l) && t == Apply(cfg, s, l)
  }

  /** `ss[i]` turns into `ss[i + 1]` by `ls[i]`, from the empty pool on. */
  ghost predicate Run(cfg: Config, ss: seq<Sys>, ls: seq<Label>) {
    |ss| == |ls| + 1 && ss[0] == INIT && forall i :: 0 <= i < |ls| ==> Step(cfg, ss[i], ls[i], ss[i + 1])
  }

  lemma {:induction false} Always(cfg: Config, ss: seq<Sys>, ls: seq<Label>, i: nat)
    requires Run(cfg, ss, ls) && i < |ss|
    ensures SysInv(ss[i])
  {
    if i > 0 {
      Always(cfg, ss, ls, i - 1);
      assert Step(cfg, ss[i - 1], ls[i - 1], ss[i]);
      Kept(cfg, ss[i - 1], ls[i - 1]);
    }
  }

  predicate Busy(s: Sys, a: Addr) {
    a in s.pool.agents && s.pool.agents[a].busy
  }

  // ------------------------------------------------- connections over a run

  /** In every reachable state the dialed connections are those of the pool, all open, and the
      closed ones, each closed once; closing the pool at the end closes each of the rest once. */
  lemma ConnectionsOverRuns(cfg: Config, ss: seq<Sys>, ls: seq<Label>, i: nat)
    requires Run(cfg, ss, ls) && i < |ss|
    ensures var p := ss[i].pool;
            && p.closed + multiset(Conns(p.agents)) == multiset(Numbered(p.dialed))
            && (forall c :: p.closed[c] <= 1)
            && CloseAll(p).closed == multiset(Numbered(p.dialed))
  {
    Always(cfg, ss, ls, i);
    ConnectionsConserved(ss[i].pool);
  }

  // ------------------------------------------------- a grant keeps its record

  ghost predicate Holds(s: Sys, a: Addr, g: nat) {
    a in s.holder && s.holder[a] == g
  }

  /** A grant that has ended never comes back, and what was issued is never rewritten. */
  lemma {:induction false} EndedStaysEnded(cfg: Config, ss: seq<Sys>, ls: seq<Label>, i: nat, j: nat, a: Addr, g: nat)
    requires Run(cfg, ss, ls) && i <= j < |ss|
    requires g < |ss[i].issued|
    ensures ss[i].issued <= ss[j].issued
    ensures !Holds(ss[i], a, g) ==> !Holds(ss[j], a, g)
  {
    if i < j {
      EndedStaysEnded(cfg, ss, ls, i, j - 1, a, g);
      assert Step(cfg, ss[j - 1], ls[j - 1], ss[j]);
    }
  }

  /** No use after close: while a grant is held, and whatever happens to the pod in between, the
      pool entry at its address is the record that was locked, and its connection is open. */
  lemma NoUseAfterClose(cfg: Config, ss: seq<Sys>, ls: seq<Label>, i: nat, k: nat, j: nat, a: Addr, g: nat)
    requires Run(cfg, ss, ls) && i <= k <= j < |ss|
    requires Holds(ss[i], a, g) && Holds(ss[j], a, g)
    ensures Holds(ss[k], a, g)
    ensures var p := ss[k].pool;
            && a in p.agents && p.agents[a].busy
            && a in ss[i].pool.agents && p.agents[a].conn == ss[i].pool.agents[a].conn
            && p.closed[p.agents[a].conn] == 0
  {
    Always(cfg, ss, ls, i);
    Always(cfg, ss, ls, k);
    EndedStaysEnded(cfg, ss, ls, i, k, a, g);
    EndedStaysEnded(cfg, ss, ls, k, j, a, g);
    assert a in BusySet(ss[i].pool) && a in BusySet(ss[k].pool);
    ConnectionsConserved(ss[k].pool);
  }

  /** No two grants held at the same time share an agent or a connection. */
  lemma GrantsDisjoint(cfg: Config, ss: seq<Sys>, ls: seq<Label>, i: nat, a: Addr, g: nat, b: Addr, h: nat)
    requires Run(cfg, ss, ls) && i < |ss| && Holds(ss[i], a, g) && Holds(ss[i], b, h) && g != h
    ensures a != b && g < |ss[i].issued| && h < |ss[i].issued|
    ensures ss[i].issued[g].conn != ss[i].issued[h].conn
  {
    Always(cfg, ss, ls, i);
    assert a in BusySet(ss[i].pool) && b in BusySet(ss[i].pool);
  }

  // ------------------------------------------------- level-triggered sync

  /** The dial of `a` failed at step `d`. */
  ghost predicate DialFailed(ss: seq<Sys>, ls: seq<Label>, d: nat, a: Addr)
    requires d < |ls| < |ss|
  {
    ls[d] == SyncAdd(a, false) && a !in ss[d].pool.agents
  }

  /** While the sync begun at `b` is in progress it carries its live set and its failures. */
  lemma {:induction false} SyncInProgress(cfg: Config, ss: seq<Sys>, ls: seq<Label>, b: nat, k: nat, live: set<Addr>)
    requires Run(cfg, ss, ls) && b < k < |ss| && ls[b] == BeginSync(live)
    requires forall i :: b < i < k ==> ls[i] != EndSync
    ensures ss[k].sync.Adding? && ss[k].sync.live == live
    ensures forall a :: a in ss[k].sync.failed <==> exists d :: b < d < k && DialFailed(ss, ls, d, a)
  {
    if k == b + 1 {
      assert Step(cfg, ss[b], ls[b], ss[k]);
    } else {
      SyncInProgress(cfg, ss, ls, b, k - 1, live);
      assert Step(cfg, ss[k - 1], ls[k - 1], ss[k]);
      forall a ensures a in ss[k].sync.failed <==> exists d :: b < d < k && DialFailed(ss, ls, d, a) {
        if a in ss[k].sync.failed && a !in ss[k - 1].sync.failed {
          assert DialFailed(ss, ls, k - 1, a);
        }
        if d :| b < d < k && DialFailed(ss, ls, d, a) {
          assert d < k - 1 ==> a in ss[k - 1].sync.failed;
        }
      }
    }
  }

  lemma {:induction false} TargetStays(cfg: Config, ss: seq<Sys>, ls: seq<Label>, i: nat, j: nat)
    requires Run(cfg, ss, ls) && i <= j < |ss|
    requires forall k :: i <= k < j ==> ls[k] != EndSync
    ensures ss[j].target == ss[i].target
  {
    if i < j {
      TargetStays(cfg, ss, ls, i, j - 1);
      assert Step(cfg, ss[j - 1], ls[j - 1], ss[j]);
    }
  }

  /** Level-triggered sync. Let the last completed sync run from step `b` to step `e` on the live
      set `live`, with locks, releases, touches and cleanups interleaved at will. Whenever no sync
      is in progress afterwards, the entries not waiting for removal are exactly the live addresses
      whose dial did not fail, and every other entry is a busy agent waiting for removal. */
  lemma LevelTriggered(cfg: Config, ss: seq<Sys>, ls: seq<Label>, b: nat, e: nat, i: nat, live: set<Addr>)
    requires Run(cfg, ss, ls) && b < e < i < |ss|
    requires ls[b] == BeginSync(live) && ls[e] == EndSync
    requires forall k :: b < k < i && k != e ==> ls[k] != EndSync
    requires ss[i].sync.Idle?
    ensures forall a :: a in Wanted(ss[i].pool) <==> a in live && !exists d :: b < d < e && DialFailed(ss, ls, d, a)
    ensures forall a :: a in ss[i].pool.agents && a !in Wanted(ss[i].pool) ==>
              ss[i].pool.agents[a].busy && ss[i].pool.agents[a].pending
  {
    SyncInProgress(cfg, ss, ls, b, e, live);
    assert Step(cfg, ss[e], ls[e], ss[e + 1]);
    TargetStays(cfg, ss, ls, e + 1, i);
    Always(cfg, ss, ls, i);
    assert Wanted(ss[i].pool) == live - ss[e].sync.failed;
  }

  // ------------------------------------------------- time

  /** Cleanups come at most `cleanupEvery` apart. */
  ghost predicate RegularCleanup(cfg: Config, s: Sys, l: Label) {
    l.Tick? ==> s.now + l.d <= s.lastCleanup + cfg.cleanupEvery
  }

  /** A handler is done with its agent at most `callBound` after stamping it. */
  ghost predicate PromptCalls(cfg: Config, s: Sys, l: Label) {
    l.Tick? ==> forall h :: h in s.handlers && s.handlers[h].phase != Found ==>
      s.now + l.d <= s.handlers[h].since + cfg.callBound
  }

  predicate InCall(p: Phase) {
    p == Resetting || p == Stepping
  }

  /** A forwarded call lasts at most `callBound`. */
  ghost predicate ShortCalls(cfg: Config, s: Sys, l: Label) {
    l.Tick? ==> forall h :: h in s.handlers && InCall(s.handlers[h].phase) ==>
      s.now + l.d <= s.handlers[h].since + cfg.callBound
  }

  ghost predicate Regular(cfg: Config, ss: seq<Sys>, ls: seq<Label>) {
    Run(cfg, ss, ls) && forall i :: 0 <= i < |ls| ==> RegularCleanup(cfg, ss[i], ls[i])
  }

  ghost predicate Prompt(cfg: Config, ss: seq<Sys>, ls: seq<Label>) {
    Run(cfg, ss, ls) && forall i :: 0 <= i < |ls| ==> PromptCalls(cfg, ss[i], ls[i])
  }

  /** The two clocks are what their names say: the time of the last cleanup, if there has been one, and the
      time of a handler's last stamp, or of its lock. */
  lemma {:induction false} CleanupClock(cfg: Config, ss: seq<Sys>, ls: seq<Label>, k: nat, i: nat)
    requires Run(cfg, ss, ls) && k < i < |ss| && ls[k] == Cleanup && forall m :: k < m < i ==> ls[m] != Cleanup
    ensures ss[i].lastCleanup == ss[k].now
  {
    assert Step(cfg, ss[i - 1], ls[i - 1], ss[i]);
    if k < i - 1 {
      CleanupClock(cfg, ss, ls, k, i - 1);
    }
  }

  lemma {:induction false} HandlerClock(cfg: Config, ss: seq<Sys>, ls: seq<Label>, k: nat, i: nat, h: nat)
    requires Run(cfg, ss, ls) && k < i < |ss| && forall m :: k < m <= i ==> h in ss[m].handlers
    requires ls[k] == TouchReset(h) || ls[k] == TouchStep(h) || (ls[k].BeginReset? && ls[k].h == h)
    requires forall m :: k < m < i ==> ls[m] != TouchReset(h) && ls[m] != TouchStep(h)
    ensures ss[i].handlers[h].since == ss[k].now
  {
    assert Step(cfg, ss[i - 1], ls[i - 1], ss[i]);
    if k < i - 1 {
      HandlerClock(cfg, ss, ls, k, i - 1, h);
      SameSince(cfg, ss[i - 1], ls[i - 1], h);
    }
  }

  lemma SameSince(cfg: Config, s: Sys, l: Label, h: nat)
    requires Enabled(s, l) && l != TouchReset(h) && l != TouchStep(h)
    requires h in s.handlers && h in Apply(cfg, s, l).handlers
    ensures Apply(cfg, s, l).handlers[h].since == s.handlers[h].since
  {
  }

  /** No busy agent is ever idle for longer than the timeout plus one cleanup period. */
  lemma {:induction false} IdleBounded(cfg: Config, ss: seq<Sys>, ls: seq<Label>, i: nat)
    requires Regular(cfg, ss, ls) && i < |ss|
    ensures forall a :: Busy(ss[i], a) ==>
              && ss[i].lastCleanup - cfg.timeout <= ss[i].pool.agents[a].last
              && ss[i].now <= ss[i].pool.agents[a].last + cfg.timeout + cfg.cleanupEvery
    ensures ss[i].now <= ss[i].lastCleanup + cfg.cleanupEvery
  {
    if i > 0 {
      IdleBounded(cfg, ss, ls, i - 1);
      var s, l, t := ss[i - 1], ls[i - 1], ss[i];
      assert Step(cfg, s, l, t) && RegularCleanup(cfg, s, l);
      Always(cfg, ss, ls, i - 1);
      forall a | Busy(t, a) ensures t.lastCleanup - cfg.timeout <= t.pool.agents[a].last {
        StepLast(cfg, s, l, a);
        ClockedLast(s, a);
      }
    }
  }

  /** The steps that stamp the activity time of the agent at `a`. */
  ghost predicate Stamps(s: Sys, l: Label, a: Addr)
    requires Enabled(s, l)
  {
    (l.TouchReset? || l.TouchStep?) && s.handlers[l.h].addr == a
  }

  /** One step leaves the activity time of a busy agent alone, or sets it to the present. */
  lemma StepLast(cfg: Config, s: Sys, l: Label, a: Addr)
    requires Enabled(s, l) && Busy(Apply(cfg, s, l), a)
    ensures var e := Apply(cfg, s, l).pool.agents[a];
            if (l.BeginReset? && l.a == a) || Stamps(s, l, a) then e.last == s.now
            else Busy(s, a) && e.last == s.pool.agents[a].last
    ensures l.Cleanup? ==> s.now - s.pool.agents[a].last <= cfg.timeout
  {
  }

  lemma ClockedLast(s: Sys, a: Addr)
    requires SysInv(s)
    ensures s.lastCleanup <= s.now && (Busy(s, a) ==> s.pool.agents[a].last <= s.now)
  {
  }

  /** Bounded release: an agent held under `g` and not stamped from step `i` on is no longer held
      under `g` once its last activity lies more than the timeout plus one cleanup period back. */
  lemma BoundedRelease(cfg: Config, ss: seq<Sys>, ls: seq<Label>, i: nat, j: nat, a: Addr, g: nat)
    requires Regular(cfg, ss, ls) && i <= j < |ss| && Holds(ss[i], a, g)
    requires forall k :: i <= k < j ==> Enabled(ss[k], ls[k]) && !Stamps(ss[k], ls[k], a)
    ensures a in ss[i].pool.agents
    ensures ss[j].now > ss[i].pool.agents[a].last + cfg.timeout + cfg.cleanupEvery ==> !Holds(ss[j], a, g)
  {
    Always(cfg, ss, ls, i);
    assert a in BusySet(ss[i].pool);
    if Holds(ss[j], a, g) {
      LastUnchanged(cfg, ss, ls, i, j, a, g);
      Always(cfg, ss, ls, j);
      assert a in BusySet(ss[j].pool);
      IdleBounded(cfg, ss, ls, j);
    }
  }

  lemma {:induction false} LastUnchanged(cfg: Config, ss: seq<Sys>, ls: seq<Label>, i: nat, j: nat, a: Addr, g: nat)
    requires Run(cfg, ss, ls) && i <= j < |ss| && Holds(ss[i], a, g) && Holds(ss[j], a, g)
    requires forall k :: i <= k < j ==> Enabled(ss[k], ls[k]) && !Stamps(ss[k], ls[k], a)
    ensures a in ss[i].pool.agents && a in ss[j].pool.agents
    ensures ss[j].pool.agents[a].last == ss[i].pool.agents[a].last
  {
    NoUseAfterClose(cfg, ss, ls, i, i, j, a, g);
    if i < j {
      NoUseAfterClose(cfg, ss, ls, i, j - 1, j, a, g);
      NoUseAfterClose(cfg, ss, ls, i, j, j, a, g);
      LastUnchanged(cfg, ss, ls, i, j - 1, a, g);
      assert Step(cfg, ss[j - 1], ls[j - 1], ss[j]);
      assert !Stamps(ss[j - 1], ls[j - 1], a);
      Always(cfg, ss, ls, j - 1);
      assert a in BusySet(ss[j].pool) && a in BusySet(ss[j - 1].pool);
      StepLast(cfg, ss[j - 1], ls[j - 1], a);
    }
  }

  lemma {:induction false} CallsInTime(cfg: Config, ss: seq<Sys>, ls: seq<Label>, i: nat)
    requires Prompt(cfg, ss, ls) && i < |ss|
    ensures forall h :: h in ss[i].handlers && ss[i].handlers[h].phase != Found ==>
              ss[i].now <= ss[i].handlers[h].since + cfg.callBound
  {
    if i > 0 {
      CallsInTime(cfg, ss, ls, i - 1);
      assert Step(cfg, ss[i - 1], ls[i - 1], ss[i]) && PromptCalls(cfg, ss[i - 1], ls[i - 1]);
    }
  }

  lemma {:induction false} ForwardedInTime(cfg: Config, ss: seq<Sys>, ls: seq<Label>, i: nat)
    requires Run(cfg, ss, ls) && i < |ss| && forall k :: 0 <= k < i ==> ShortCalls(cfg, ss[k], ls[k])
    ensures forall h :: h in ss[i].handlers && InCall(ss[i].handlers[h].phase) ==>
              ss[i].now <= ss[i].handlers[h].since + cfg.callBound
  {
    if i > 0 {
      ForwardedInTime(cfg, ss, ls, i - 1);
      assert Step(cfg, ss[i - 1], ls[i - 1], ss[i]) && ShortCalls(cfg, ss[i - 1], ls[i - 1]);
    }
  }

  /** A cleanup leaves the agent at `a` as it is. */
  ghost predicate Untouched(s: Sys, t: Sys, a: Addr) {
    a in s.pool.agents ==> a in t.pool.agents && t.pool.agents[a] == s.pool.agents[a]
  }

  /** In-flight protection: if forwarded calls are no longer than the timeout, no cleanup changes the
      agent of a handler between its stamp and the end of its call. */
  lemma InFlightProtected(cfg: Config, ss: seq<Sys>, ls: seq<Label>, i: nat, h: nat)
    requires Run(cfg, ss, ls) && cfg.callBound <= cfg.timeout
    requires forall k :: 0 <= k < |ls| ==> ShortCalls(cfg, ss[k], ls[k])
    requires i < |ls| && ls[i] == Cleanup
    requires h in ss[i].handlers && InCall(ss[i].handlers[h].phase)
    ensures Untouched(ss[i], ss[i + 1], ss[i].handlers[h].addr)
  {
    ForwardedInTime(cfg, ss, ls, i);
    CleanupSpares(cfg, ss, ls, i, h);
  }

  /** If handlers are done with their agent within the timeout of stamping it, the same holds from
      the lock or the stamp to the handler's last pool operation. */
  lemma HandlerProtected(cfg: Config, ss: seq<Sys>, ls: seq<Label>, i: nat, h: nat)
    requires Prompt(cfg, ss, ls) && cfg.callBound <= cfg.timeout
    requires i < |ls| && ls[i] == Cleanup
    requires h in ss[i].handlers && ss[i].handlers[h].phase != Found
    ensures Untouched(ss[i], ss[i + 1], ss[i].handlers[h].addr)
  {
    CallsInTime(cfg, ss, ls, i);
    CleanupSpares(cfg, ss, ls, i, h);
  }

  lemma CleanupSpares(cfg: Config, ss: seq<Sys>, ls: seq<Label>, i: nat, h: nat)
    requires Run(cfg, ss, ls) && i < |ls| && ls[i] == Cleanup
    requires h in ss[i].handlers && ss[i].handlers[h].phase != Found
    requires ss[i].now <= ss[i].handlers[h].since + cfg.timeout
    ensures Untouched(ss[i], ss[i + 1], ss[i].handlers[h].addr)
  {
    Always(cfg, ss, ls, i);
    assert Step(cfg, ss[i], ls[i], ss[i + 1]);
    assert StampOk(ss[i], ss[i].handlers[h]);
    CleanupEffect(ss[i].pool, cfg.timeout, ss[i].now);
  }

  // ------------------------------------------------- draining

  /** Steps other than a new Reset or a new sync. */
  predicate Draining(l: Label) {
    !l.BeginReset? && !l.BeginSync?
  }

  /** The number of steps from `i` to `j` that end a grant. */
  function Releases(ss: seq<Sys>, i: nat, j: nat): nat
    requires i <= j < |ss|
    decreases j - i
  {
    if i == j then 0 else Releases(ss, i, j - 1) + if ss[j].holder == ss[j - 1].holder then 0 else 1
  }

  /** What a step of a draining router does to the busy agents. */
  ghost predicate Shrinks(s: Sys, t: Sys) {
    && t.sync == s.sync && t.target == s.target && BusySet(t.pool) <= BusySet(s.pool)
    && |BusySet(t.pool)| + (if t.holder == s.holder then 0 else 1) <= |BusySet(s.pool)|
  }

  /** While the router drains, with clients going on stepping their sessions, the busy set only
      shrinks, by at least one agent for each release, and the sync's target stands. */
  lemma DrainShrinks(cfg: Config, ss: seq<Sys>, ls: seq<Label>, i: nat, j: nat)
    requires Run(cfg, ss, ls) && i <= j < |ss| && ss[i].sync.Idle?
    requires forall k :: i <= k < j ==> Draining(ls[k])
    ensures ss[j].sync.Idle? && ss[j].target == ss[i].target
    ensures BusySet(ss[j].pool) <= BusySet(ss[i].pool)
    ensures |BusySet(ss[j].pool)| + Releases(ss, i, j) <= |BusySet(ss[i].pool)|
  {
    forall k | i <= k < j && ss[k].sync.Idle? ensures Shrinks(ss[k], ss[k + 1]) {
      DrainStep(cfg, ss, ls, k);
    }
    ShrinksOn(ss, i, j);
  }

  lemma {:induction false} ShrinksOn(ss: seq<Sys>, i: nat, j: nat)
    requires i <= j < |ss| && ss[i].sync.Idle?
    requires forall k :: i <= k < j && ss[k].sync.Idle? ==> Shrinks(ss[k], ss[k + 1])
    ensures ss[j].sync.Idle? && ss[j].target == ss[i].target
    ensures BusySet(ss[j].pool) <= BusySet(ss[i].pool)
    ensures |BusySet(ss[j].pool)| + Releases(ss, i, j) <= |BusySet(ss[i].pool)|
  {
    if i < j {
      ShrinksOn(ss, i, j - 1);
      assert Shrinks(ss[j - 1], ss[j]);
    }
  }

  lemma DrainStep(cfg: Config, ss: seq<Sys>, ls: seq<Label>, k: nat)
    requires Run(cfg, ss, ls) && k < |ls| && ss[k].sync.Idle? && Draining(ls[k])
    ensures Shrinks(ss[k], ss[k + 1])
  {
    var s, t := ss[k], ss[k + 1];
    assert Step(cfg, s, ls[k], t);
    Always(cfg, ss, ls, k);
    Always(cfg, ss, ls, k + 1);
    BusyShrinks(cfg, s, ls[k]);
    if a :| a in BusySet(s.pool) && a !in BusySet(t.pool) {
      ProperSubset(BusySet(t.pool), BusySet(s.pool), a);
    } else {
      assert BusySet(t.pool) == BusySet(s.pool);
      assert t.holder.Keys == s.holder.Keys;
    }
  }

  lemma BusyShrinks(cfg: Config, s: Sys, l: Label)
    requires Enabled(s, l) && Inv(s.pool) && s.sync.Idle? && Draining(l)
    ensures var t := Apply(cfg, s, l);
            && t.sync.Idle? && t.target == s.target && BusySet(t.pool) <= BusySet(s.pool)
            && (t.holder.Keys == s.holder.Keys ==> t.holder == s.holder)
  {
    Effects(cfg, s, l);
  }

  lemma ProperSubset(s: set<Addr>, t: set<Addr>, a: Addr)
    requires s <= t && a in t && a !in s
    ensures |s| < |t|
  {
    assert |t| == |s| + |t - s|;
    assert a in t - s;
  }

  /** Once nobody is busy the pool is exactly what the last sync wanted, all of it free. */
  lemma Drained(cfg: Config, ss: seq<Sys>, ls: seq<Label>, i: nat)
    requires Run(cfg, ss, ls) && i < |ss| && ss[i].sync.Idle? && BusySet(ss[i].pool) == {}
    ensures ss[i].pool.agents.Keys == ss[i].target == FreeSet(ss[i].pool)
    ensures PendingSet(ss[i].pool) == {}
  {
    Always(cfg, ss, ls, i);
    CountsAgree(ss[i].pool);
    assert Wanted(ss[i].pool) == ss[i].pool.agents.Keys;
  }

  /** Steps that set no activity time of a busy agent. */
  predicate Silent(l: Label) {
    !l.BeginReset? && !l.TouchReset? && !l.TouchStep?
  }

  ghost predicate LastStands(s: Sys, t: Sys, a: Addr) {
    Busy(t, a) ==> Busy(s, a) && t.pool.agents[a].last == s.pool.agents[a].last
  }

  lemma SilentLast(cfg: Config, ss: seq<Sys>, ls: seq<Label>, i: nat, j: nat, a: Addr)
    requires Run(cfg, ss, ls) && i <= j < |ss|
    requires forall k :: i <= k < j ==> Silent(ls[k])
    ensures LastStands(ss[i], ss[j], a)
  {
    forall k | i <= k < j ensures LastStands(ss[k], ss[k + 1], a) {
      assert Step(cfg, ss[k], ls[k], ss[k + 1]) && Silent(ls[k]);
      if Busy(ss[k + 1], a) {
        StepLast(cfg, ss[k], ls[k], a);
      }
    }
    StandsOn(ss, i, j, a);
  }

  lemma {:induction false} StandsOn(ss: seq<Sys>, i: nat, j: nat, a: Addr)
    requires i <= j < |ss| && forall k :: i <= k < j ==> LastStands(ss[k], ss[k + 1], a)
    ensures LastStands(ss[i], ss[j], a)
  {
    if i < j {
      StandsOn(ss, i, j - 1, a);
    }
  }

  /** Drain convergence: let the router drain from state `i` on, and let `m` be the state after the
      last stamp. With regular cleanups it has reached the pool the last sync wanted, with nobody busy
      and nothing pending, once the timeout plus one cleanup period have passed since `m`. */
  lemma DrainConverges(cfg: Config, ss: seq<Sys>, ls: seq<Label>, i: nat, m: nat, j: nat)
    requires Regular(cfg, ss, ls) && i <= m <= j < |ss| && ss[i].sync.Idle?
    requires forall k :: i <= k < j ==> Draining(ls[k])
    requires forall k :: m <= k < j ==> Silent(ls[k])
    requires ss[j].now > ss[m].now + cfg.timeout + cfg.cleanupEvery
    ensures ss[j].pool.agents.Keys == ss[i].target == FreeSet(ss[j].pool)
    ensures PendingSet(ss[j].pool) == {}
  {
    DrainShrinks(cfg, ss, ls, i, j);
    IdleBounded(cfg, ss, ls, j);
    Always(cfg, ss, ls, m);
    forall a ensures !Busy(ss[j], a) {
      if Busy(ss[j], a) {
        SilentLast(cfg, ss, ls, m, j, a);
        ClockedLast(ss[m], a);
        assert false;
      }
    }
    assert BusySet(ss[j].pool) == {};
    Drained(cfg, ss, ls, j);
  }
}
