/** The environment a learner talks to: it acquires a session with retries, counts steps against a
    budget, and turns measured durations into rewards. Rewards are exact rationals, in cents. */
module Episode {
  import opened Wrappers

  const TASKS: nat := 3
  const MAX_RETRIES: nat := 3

  datatype Observation = Observation(remoteIp: string, remotePort: nat, durationUs: nat)

  /** A Reset call as the client sees it; `message` is the reply's message in lower case. */
  datatype ResetOutcome =
    | ResetRpcError
    | ResetReply(success: bool, message: string, sessionId: string, obs: Observation)

  datatype StepOutcome = StepRpcError | StepReply(done: bool, obs: Observation)

  predicate Contains(s: string, t: string) {
    |t| <= |s| && (s[..|t|] == t || (s != "" && Contains(s[1..], t)))
  }

  ghost predicate PartOf(t: string, s: string) {
    exists before, after :: s == before + t + after
  }

  lemma PartOfTail(s: string, t: string)
    requires s != ""
    ensures PartOf(t, s) <==> (|t| <= |s| && s[..|t|] == t) || PartOf(t, s[1..])
  {
    if |t| <= |s| && s[..|t|] == t {
      assert s == [] + t + s[|t|..];
    }
    if before, after :| s[1..] == before + t + after {
      assert s == ([s[0]] + before) + t + after;
    }
    if before, after :| s == before + t + after {
      if before == "" {
        assert s[..|t|] == t;
      } else {
        assert s[1..] == before[1..] + t + after;
      }
    }
  }

  lemma {:induction false} ContainsExactly(s: string, t: string)
    ensures Contains(s, t) <==> PartOf(t, s)
  {
    if s == "" {
      if t == "" {
        assert s == [] + t + [];
      }
    } else {
      PartOfTail(s, t);
      ContainsExactly(s[1..], t);
      assert |s| < |t| ==> !Contains(s[1..], t);
    }
  }

  /** Outcomes after which another attempt is made, as long as there is one. */
  predicate Retryable(o: ResetOutcome) {
    match o
    case ResetRpcError => true
    case ResetReply(success, message, _, _) => !success && (Contains(message, "busy") || Contains(message, "no free agent"))
  }

  /** Another attempt is made after an error on the way, and after a refusal whose message says busy, or no
      free agent, anywhere in it. */
  lemma RetriesExactly(o: ResetOutcome)
    ensures Retryable(o) <==>
            o == ResetRpcError || (!o.success && (PartOf("busy", o.message) || PartOf("no free agent", o.message)))
  {
    if o.ResetReply? {
      ContainsExactly(o.message, "busy");
      ContainsExactly(o.message, "no free agent");
    }
  }

  predicate Succeeds(o: ResetOutcome) {
    o.ResetReply? && o.success
  }

  // ---------------------------------------------------------------- reward

  function RoundHalfEven(x: real): int {
    var f := x.Floor;
    var r := x - f as real;
    if r < 0.5 then f else if r > 0.5 then f + 1 else if f % 2 == 0 then f else f + 1
  }

  /** By how much a run was shorter than the baseline, as a fraction of the baseline. */
  function Reduction(baseline: nat, duration: nat): real
    requires baseline > 0
  {
    (baseline as real - duration as real) / baseline as real
  }

  predicate Measured(baseline: nat, duration: nat) {
    baseline > 0 && duration > 0
  }

  function Clamp(x: real, lo: real, hi: real): real {
    var y := if hi < x then hi else x;
    if lo > y then lo else y
  }

  /** The reward in cents: twice the reduction, clamped and rounded. */
  function RewardCents(baseline: nat, duration: nat): int {
    if !Measured(baseline, duration) then 1
    else
      var reduction := Reduction(baseline, duration);
      var reward := if reduction > 0.0 then reduction * 2.0 else 0.01;
      RoundHalfEven(Clamp(reward, 0.01, 0.99) * 100.0)
  }

  predicate Halved(baseline: nat, duration: nat) {
    Measured(baseline, duration) && Reduction(baseline, duration) >= 0.5
  }

  lemma RoundMonotone(x: real, y: real)
    requires x <= y
    ensures RoundHalfEven(x) <= RoundHalfEven(y)
  {
  }

  lemma RewardInRange(baseline: nat, duration: nat)
    ensures 1 <= RewardCents(baseline, duration) <= 99
  {
  }

  lemma ReductionFalls(baseline: nat, d: nat, d': nat)
    requires baseline > 0 && d <= d'
    ensures Reduction(baseline, d) >= Reduction(baseline, d')
  {
  }

  /** A longer run never earns more. */
  lemma RewardFalls(baseline: nat, d: nat, d': nat)
    requires 0 < d <= d'
    ensures RewardCents(baseline, d) >= RewardCents(baseline, d')
  {
    if baseline > 0 {
      ReductionFalls(baseline, d, d');
      var r, r' := Reduction(baseline, d), Reduction(baseline, d');
      var x, x' := if r > 0.0 then r * 2.0 else 0.01, if r' > 0.0 then r' * 2.0 else 0.01;
      RoundMonotone(Clamp(x', 0.01, 0.99) * 100.0, Clamp(x, 0.01, 0.99) * 100.0);
    }
  }

  /** Exactly which reductions earn at least 0.50, and which earn the top reward. */
  lemma RewardThresholds(baseline: nat, duration: nat)
    requires Measured(baseline, duration)
    ensures RewardCents(baseline, duration) >= 50 <==> Reduction(baseline, duration) >= 0.2475
    ensures RewardCents(baseline, duration) == 99 <==> Reduction(baseline, duration) > 0.4925
  {
  }

  /** The reward in whole numbers. Without both measurements it is 0.01; otherwise 200 times the time saved,
      over the baseline, to the nearest cent, to the even one of two, but at least 1 and at most 99. */
  lemma RewardExactly(baseline: nat, duration: nat)
    ensures var r, n := RewardCents(baseline, duration), 200 * (baseline - duration);
            if baseline == 0 || duration == 0 || n <= baseline then r == 1
            else if n >= 99 * baseline then r == 99
            else NearestEven(r, n, baseline)
  {
    if Measured(baseline, duration) {
      var n := 200 * (baseline - duration);
      ReductionInCents(baseline, duration);
      FractionOrder(n, baseline, 0);
      FractionOrder(n, baseline, 1);
      FractionOrder(n, baseline, 99);
      RoundsToNearest(n, baseline);
    }
  }

  /** `r` is the whole number nearest to the fraction, the even one if two are. */
  predicate NearestEven(r: int, n: int, d: nat) {
    var off := if n >= r * d then n - r * d else r * d - n;
    2 * off < d || (2 * off == d && r % 2 == 0)
  }

  lemma SameOrder(x: real, y: real, d: real)
    requires d > 0.0
    ensures x <= y <==> x * d <= y * d
  {
  }

  /** Comparing a fraction with a whole number. */
  lemma FractionOrder(n: int, d: nat, k: int)
    requires d > 0
    ensures n as real / d as real <= k as real <==> n <= k * d
    ensures k as real <= n as real / d as real <==> k * d <= n
  {
    var x := n as real / d as real;
    assert x * d as real == n as real;
    assert k as real * d as real == (k * d) as real;
    SameOrder(x, k as real, d as real);
    SameOrder(k as real, x, d as real);
  }

  lemma ReductionInCents(baseline: nat, duration: nat)
    requires baseline > 0
    ensures Reduction(baseline, duration) * 2.0 * 100.0 == (200 * (baseline - duration)) as real / baseline as real
  {
    var b, d := baseline as real, duration as real;
    assert (200 * (baseline - duration)) as real == 200.0 * (b - d);
    assert (b - d) / b * 200.0 == 200.0 * (b - d) / b;
  }

  lemma RoundsToNearest(n: int, d: nat)
    requires d > 0
    ensures NearestEven(RoundHalfEven(n as real / d as real), n, d)
  {
    var x := n as real / d as real;
    var f := x.Floor;
    FractionOrder(n, d, f);
    FractionOrder(n, d, f + 1);
    FractionOrder(2 * n, d, 2 * f + 1);
    assert (2 * n) as real / d as real == 2.0 * x;
  }

  /** Half the baseline or less ends the episode, and earns the top reward. */
  lemma HalvedExactly(baseline: nat, duration: nat)
    ensures Halved(baseline, duration) <==> 0 < duration && 2 * duration <= baseline
    ensures Halved(baseline, duration) ==> RewardCents(baseline, duration) == 99
  {
    if Measured(baseline, duration) {
      ReductionInCents(baseline, duration);
      FractionOrder(200 * (baseline - duration), baseline, 100);
      RewardThresholds(baseline, duration);
    }
  }

  // ---------------------------------------------------------------- the environment

  datatype Env = Env(stepCount: nat, sessionId: string, resetCount: nat, baseline: nat, targetIp: string, targetPort: nat)

  const INIT := Env(0, "", 0, 0, "", 0)

  /** The state after a reset whose last outcome is `o`. */
  function AfterReset(s: Env, o: ResetOutcome): Env {
    if Succeeds(o) then Env(0, o.sessionId, s.resetCount + 1, o.obs.durationUs, o.obs.remoteIp, o.obs.remotePort)
    else s.(resetCount := s.resetCount + 1)
  }

  function AfterStep(s: Env): Env {
    s.(stepCount := s.stepCount + 1)
  }

  /** Whether a reply to the next step ends the episode. */
  predicate EndsEpisode(s: Env, maxSteps: int, o: StepOutcome)
    requires o.StepReply?
  {
    o.done || Halved(s.baseline, o.obs.durationUs) || s.stepCount + 1 >= maxSteps
  }

  /** A call of the environment, with the outcome of its last Reset request or of its Step request. */
  datatype Call = ResetCall(last: ResetOutcome) | StepCall(outcome: StepOutcome) | CloseCall

  function After(s: Env, c: Call): Env {
    match c
    case ResetCall(o) => AfterReset(s, o)
    case StepCall(_) => AfterStep(s)
    case CloseCall => s.(sessionId := "")
  }

  /** The call is a step that is answered with done = true. */
  predicate AnsweredDone(s: Env, maxSteps: int, c: Call) {
    c.StepCall? && c.outcome.StepReply? && EndsEpisode(s, maxSteps, c.outcome)
  }

  predicate NewSession(c: Call) {
    c.ResetCall? && Succeeds(c.last)
  }

  /** The Close requests one call sends. */
  function Sent(s: Env, maxSteps: int, c: Call): seq<string> {
    if (c.CloseCall? || AnsweredDone(s, maxSteps, c)) && s.sessionId != "" then [s.sessionId] else []
  }

  /** What happens to the sessions the environment was given, numbered in that order: a request for one,
      a Close of it by the environment, its release by the router on a reply that says done. */
  datatype Act = Asks(session: nat) | Closed(session: nat) | Released(session: nat)

  /** What one call does to the remembered session, the n-th: a step sends its request, and a Close
      after that if the answer is done; the router releases the agent before it passes on a reply that
      says done itself. */
  function Did(s: Env, maxSteps: int, n: nat, c: Call): seq<Act> {
    if s.sessionId == "" then []
    else
      match c
      case ResetCall(_) => []
      case StepCall(o) =>
        [Asks(n)] + (if o.StepReply? && o.done then [Released(n)] else [])
        + (if AnsweredDone(s, maxSteps, c) then [Asks(n), Closed(n)] else [])
      case CloseCall => [Asks(n), Closed(n)]
  }

  class SocketTunerEnvironment {
    const maxSteps: int
    var stepCount: nat
    var sessionId: string  // "" when there is no session
    var resetCount: nat
    var baselineDuration: nat
    var targetIp: string
    var targetPort: nat
    // Close requests sent so far, sessions given so far, and what happened to them.
    ghost var closes: seq<string>
    ghost var sessions: nat
    ghost var acts: seq<Act>

    constructor (maxSteps: int)
      ensures View() == INIT && closes == [] && sessions == 0 && acts == [] && this.maxSteps == maxSteps
    {
      this.maxSteps := maxSteps;
      stepCount, sessionId, resetCount, baselineDuration := 0, "", 0, 0;
      targetIp, targetPort := "", 0;
      closes, sessions, acts := [], 0, [];
    }

    function View(): Env
      reads this
    {
      Env(stepCount, sessionId, resetCount, baselineDuration, targetIp, targetPort)
    }

    /** The environment has gone on by the call `c`, in its state and in what it has sent. */
    twostate predicate Moved(c: Call)
      reads this
    {
      && View() == After(old(View()), c)
      && closes == old(closes) + Sent(old(View()), maxSteps, c)
      && acts == old(acts) + Did(old(View()), maxSteps, old(sessions), c)
      && sessions == old(sessions) + if NewSession(c) then 1 else 0
    }

    /** `router(k)` is the outcome of the k-th attempt. All attempts but the last were retryable,
        and the last one was not, or no attempts were left. */
    method Reset(router: nat -> ResetOutcome) returns (ok: bool, calls: nat, task: nat)
      modifies this
      ensures task == old(resetCount) % 3 && resetCount == old(resetCount) + 1
      ensures 1 <= calls <= 3
      ensures forall k :: 0 <= k < calls - 1 ==> Retryable(router(k))
      ensures calls < 3 ==> !Retryable(router(calls - 1))
      ensures ok <==> router(calls - 1).ResetReply? && router(calls - 1).success
      ensures ok ==> var o := router(calls - 1);
                     && stepCount == 0 && sessionId == o.sessionId && baselineDuration == o.obs.durationUs
                     && targetIp == o.obs.remoteIp && targetPort == o.obs.remotePort
      ensures !ok ==> View() == old(View()).(resetCount := old(resetCount) + 1)
      ensures Moved(ResetCall(router(calls - 1)))
    {
      task := resetCount % TASKS;
      resetCount := resetCount + 1;
      calls := 0;
      var attempt := 0;
      while attempt < MAX_RETRIES
        invariant calls == attempt < MAX_RETRIES
        invariant forall k :: 0 <= k < attempt ==> Retryable(router(k))
        invariant View() == old(View()).(resetCount := old(resetCount) + 1)
        invariant closes == old(closes) && sessions == old(sessions) && acts == old(acts)
      {
        var response := router(attempt);
        calls := calls + 1;
        match response {
        case ResetReply(success, message, session, obs) =>
          if success {
            sessionId := session;
            stepCount := 0;
            baselineDuration := if obs.durationUs > 0 then obs.durationUs else 0;
            targetIp := obs.remoteIp;
            targetPort := obs.remotePort;
            sessions := sessions + 1;
            return true, calls, task;
          }
          if !((Contains(message, "busy") || Contains(message, "no free agent")) && attempt < MAX_RETRIES - 1) {
            return false, calls, task;
          }
        case ResetRpcError =>
          if !(attempt < MAX_RETRIES - 1) {
            return false, calls, task;
          }
        }
        attempt := attempt + 1;
      }
      // The loop's else branch, which no run reaches.
      assert false;
    }

    /** The counter moves even if the call raises; a final reply also sends a Close for the session,
        which stays remembered. */
    method Step(outcome: StepOutcome) returns (raised: bool, done: bool, reward: int)
      modifies this
      ensures Moved(StepCall(outcome))
      ensures raised == outcome.StepRpcError?
      ensures outcome.StepReply? ==>
                && done == EndsEpisode(old(View()), maxSteps, outcome)
                && reward == RewardCents(old(baselineDuration), outcome.obs.durationUs)
                && var halved := 0 < outcome.obs.durationUs && 2 * outcome.obs.durationUs <= old(baselineDuration);
                && (done <==> outcome.done || halved || old(stepCount) + 1 >= maxSteps)
                && (halved ==> reward == 99)
    {
      if outcome.StepReply? {
        HalvedExactly(baselineDuration, outcome.obs.durationUs);
      }
      stepCount := stepCount + 1;
      if sessionId != "" {
        acts := acts + [Asks(sessions)] + if outcome.StepReply? && outcome.done then [Released(sessions)] else [];
      }
      if outcome.StepRpcError? {
        return true, false, 0;
      }
      var obs := outcome.obs;
      reward := 1;
      var doneEarly := false;
      if baselineDuration > 0 && obs.durationUs > 0 {
        var reduction := (baselineDuration as real - obs.durationUs as real) / baselineDuration as real;
        var r := 0.01;
        if reduction > 0.0 {
          r := reduction * 2.0;
        }
        reward := RoundHalfEven(Clamp(r, 0.01, 0.99) * 100.0);
        if reduction >= 0.5 {
          doneEarly := true;
        }
      }
      done := outcome.done || doneEarly || stepCount >= maxSteps;
      if done && sessionId != "" {
        closes, acts := closes + [sessionId], acts + [Asks(sessions), Closed(sessions)];
      }
      return false, done, reward;
    }

    method Close()
      modifies this
      ensures Moved(CloseCall)
    {
      if sessionId != "" {
        closes, acts := closes + [sessionId], acts + [Asks(sessions), Closed(sessions)];
        sessionId := "";
      }
    }
  }

  // ---------------------------------------------------------------- whole runs

  function Play(s: Env, calls: seq<Call>): Env {
    if calls == [] then s else After(Play(s, calls[..|calls| - 1]), calls[|calls| - 1])
  }

  /** The Close requests a sequence of calls sends. */
  function Closes(s: Env, maxSteps: int, calls: seq<Call>): seq<string> {
    if calls == [] then []
    else Closes(s, maxSteps, calls[..|calls| - 1]) + Sent(Play(s, calls[..|calls| - 1]), maxSteps, calls[|calls| - 1])
  }

  lemma OneMoreCall(s: Env, maxSteps: int, calls: seq<Call>, c: Call)
    ensures Play(s, calls + [c]) == After(Play(s, calls), c)
    ensures Closes(s, maxSteps, calls + [c]) == Closes(s, maxSteps, calls) + Sent(Play(s, calls), maxSteps, c)
  {
  }

  /** How many steps were answered with done = false. */
  function Unfinished(s: Env, maxSteps: int, calls: seq<Call>): nat {
    if calls == [] then 0
    else
      var init, c := calls[..|calls| - 1], calls[|calls| - 1];
      Unfinished(s, maxSteps, init) +
      if c.StepCall? && c.outcome.StepReply? && !EndsEpisode(Play(s, init), maxSteps, c.outcome) then 1 else 0
  }

  function StepCalls(calls: seq<Call>): nat {
    if calls == [] then 0
    else StepCalls(calls[..|calls| - 1]) + if calls[|calls| - 1].StepCall? then 1 else 0
  }

  function ResetCalls(calls: seq<Call>): nat {
    if calls == [] then 0
    else ResetCalls(calls[..|calls| - 1]) + if calls[|calls| - 1].ResetCall? then 1 else 0
  }

  /** Step budget: as long as no reset succeeds, every step call counts, raised or answered, and at
      most `maxSteps - 1` of them are answered with done = false. */
  lemma {:induction false} StepBudget(s: Env, maxSteps: int, calls: seq<Call>)
    requires forall i :: 0 <= i < |calls| && calls[i].ResetCall? ==> !Succeeds(calls[i].last)
    ensures Play(s, calls).stepCount == s.stepCount + StepCalls(calls)
    ensures Unfinished(s, maxSteps, calls) <= StepCalls(calls)
    ensures Unfinished(s, maxSteps, calls) == 0 || s.stepCount + Unfinished(s, maxSteps, calls) <= maxSteps - 1
    ensures Play(s, calls).baseline == s.baseline
  {
    if calls != [] {
      StepBudget(s, maxSteps, calls[..|calls| - 1]);
    }
  }

  lemma {:induction false} SinceReset(s: Env, before: seq<Call>, reset: ResetOutcome, calls: seq<Call>)
    requires reset.ResetReply? && reset.success
    requires forall i :: 0 <= i < |calls| && calls[i].ResetCall? ==> !(calls[i].last.ResetReply? && calls[i].last.success)
    ensures var t := Play(s, before + [ResetCall(reset)] + calls);
            && t.stepCount == StepCalls(calls) && t.baseline == reset.obs.durationUs
            && t.targetIp == reset.obs.remoteIp && t.targetPort == reset.obs.remotePort
            && t.sessionId == if exists i :: 0 <= i < |calls| && calls[i].CloseCall? then "" else reset.sessionId
  {
    var all := before + [ResetCall(reset)] + calls;
    if calls == [] {
      assert all[..|all| - 1] == before && all[|all| - 1] == ResetCall(reset);
    } else {
      var init := calls[..|calls| - 1];
      SinceReset(s, before, reset, init);
      assert all[..|all| - 1] == before + [ResetCall(reset)] + init && all[|all| - 1] == calls[|calls| - 1];
    }
  }

  /** When an episode ends, in whole numbers and by the calls alone. After any history, a reset that
      succeeds, and calls without another such reset, a step is answered with done if and only if its reply
      says so, or it took at most half as long as the run that reset observed, or it is the `maxSteps`-th
      step call since, or a later one. */
  lemma DoneExactly(s: Env, maxSteps: int, before: seq<Call>, reset: ResetOutcome, calls: seq<Call>, o: StepOutcome)
    requires reset.ResetReply? && reset.success && o.StepReply?
    requires forall i :: 0 <= i < |calls| && calls[i].ResetCall? ==> !(calls[i].last.ResetReply? && calls[i].last.success)
    ensures AnsweredDone(Play(s, before + [ResetCall(reset)] + calls), maxSteps, StepCall(o)) <==>
            || o.done
            || (0 < o.obs.durationUs && 2 * o.obs.durationUs <= reset.obs.durationUs)
            || StepCalls(calls) + 1 >= maxSteps
  {
    SinceReset(s, before, reset, calls);
    HalvedExactly(reset.obs.durationUs, o.obs.durationUs);
  }

  /** The budget between two successful resets. */
  lemma EpisodeBudget(s: Env, maxSteps: int, reset: ResetOutcome, calls: seq<Call>)
    requires Succeeds(reset)
    requires forall i :: 0 <= i < |calls| && calls[i].ResetCall? ==> !Succeeds(calls[i].last)
    ensures Unfinished(AfterReset(s, reset), maxSteps, calls) <= if maxSteps >= 1 then maxSteps - 1 else 0
  {
    StepBudget(AfterReset(s, reset), maxSteps, calls);
  }

  /** Task rotation: the k-th reset, counting failed ones, works on task k modulo 3. */
  lemma {:induction false} TaskRotation(calls: seq<Call>)
    ensures Play(INIT, calls).resetCount == ResetCalls(calls)
  {
    if calls != [] {
      TaskRotation(calls[..|calls| - 1]);
    }
  }

  // ---------------------------------------------------------------- requests after the end of a session

  /** How many sessions the environment was given. */
  function Sessions(calls: seq<Call>): nat {
    if calls == [] then 0
    else Sessions(calls[..|calls| - 1]) + if NewSession(calls[|calls| - 1]) then 1 else 0
  }

  function Acts(s: Env, maxSteps: int, calls: seq<Call>): seq<Act> {
    if calls == [] then []
    else
      var init := calls[..|calls| - 1];
      Acts(s, maxSteps, init) + Did(Play(s, init), maxSteps, Sessions(init), calls[|calls| - 1])
  }

  /** No request for a session follows a Close of it. */
  ghost predicate QuietAfterClose(acts: seq<Act>) {
    forall i, j :: 0 <= i < j < |acts| && acts[i].Closed? ==> acts[j] != Asks(acts[i].session)
  }

  /** No request for a session follows its end, by a Close or by the router. */
  ghost predicate QuietAfterEnd(acts: seq<Act>) {
    forall i, j :: 0 <= i < j < |acts| && !acts[i].Asks? ==> acts[j] != Asks(acts[i].session)
  }

  /** Call `i` is a step answered with done and a session id. */
  predicate DoneAt(s: Env, maxSteps: int, calls: seq<Call>, i: nat)
    requires i < |calls|
  {
    AnsweredDone(Play(s, calls[..i]), maxSteps, calls[i]) && Play(s, calls[..i]).sessionId != ""
  }

  /** After a step answered with done and a session id, only resets are called until one succeeds. */
  ghost predicate ResetsAfterDone(s: Env, maxSteps: int, calls: seq<Call>) {
    forall i, j :: 0 <= i < j < |calls| && DoneAt(s, maxSteps, calls, i) && Sessions(calls[..i]) == Sessions(calls[..j])
      ==> calls[j].ResetCall?
  }

  /** The remembered session was already closed, by an earlier step answered with done. */
  ghost predicate Over(s: Env, maxSteps: int, calls: seq<Call>) {
    exists i :: 0 <= i < |calls| && DoneAt(s, maxSteps, calls, i) && Sessions(calls[..i]) == Sessions(calls)
  }

  lemma DoneAtPrefix(s: Env, maxSteps: int, calls: seq<Call>, c: Call, i: nat)
    requires i < |calls|
    ensures DoneAt(s, maxSteps, calls + [c], i) == DoneAt(s, maxSteps, calls, i)
    ensures (calls + [c])[..i] == calls[..i]
  {
    assert (calls + [c])[..i] == calls[..i];
  }

  /** Whether one more call keeps to the condition is a matter of whether the session is over. */
  lemma ResetsOneMore(s: Env, maxSteps: int, calls: seq<Call>, c: Call)
    ensures ResetsAfterDone(s, maxSteps, calls + [c])
            <==> ResetsAfterDone(s, maxSteps, calls) && (Over(s, maxSteps, calls) ==> c.ResetCall?)
  {
    var all := calls + [c];
    assert all[..|calls|] == calls;
    forall i | 0 <= i < |calls|
      ensures DoneAt(s, maxSteps, all, i) == DoneAt(s, maxSteps, calls, i) && all[..i] == calls[..i]
    {
      DoneAtPrefix(s, maxSteps, calls, c, i);
    }
  }

  /** One more call ends the session, leaves it over, or starts a new one. */
  lemma OverOneMore(s: Env, maxSteps: int, calls: seq<Call>, c: Call)
    ensures Over(s, maxSteps, calls + [c]) <==>
            !NewSession(c) && (Over(s, maxSteps, calls) || (AnsweredDone(Play(s, calls), maxSteps, c) && Play(s, calls).sessionId != ""))
  {
    var all := calls + [c];
    SessionsGrow(calls);
    assert all[..|calls|] == calls;
    assert Sessions(all) == Sessions(calls) + if NewSession(c) then 1 else 0;
    forall i | 0 <= i < |calls|
      ensures DoneAt(s, maxSteps, all, i) == DoneAt(s, maxSteps, calls, i) && all[..i] == calls[..i]
      ensures Sessions(calls[..i]) <= Sessions(calls)
    {
      DoneAtPrefix(s, maxSteps, calls, c, i);
    }
    if AnsweredDone(Play(s, calls), maxSteps, c) && Play(s, calls).sessionId != "" {
      assert DoneAt(s, maxSteps, all, |calls|);
    }
  }

  lemma {:induction false} SessionsGrow(calls: seq<Call>)
    ensures forall i :: 0 <= i <= |calls| ==> Sessions(calls[..i]) <= Sessions(calls)
  {
    assert calls[..|calls|] == calls;
    if calls != [] {
      var init := calls[..|calls| - 1];
      SessionsGrow(init);
      assert forall i :: 0 <= i < |calls| ==> init[..i] == calls[..i];
    }
  }

  /** What there is to know of the acts of one call. */
  lemma DidShape(s: Env, maxSteps: int, n: nat, c: Call)
    ensures var more := Did(s, maxSteps, n, c);
            && (more == [] <==> s.sessionId == "" || c.ResetCall?)
            && (more != [] ==> more[0] == Asks(n))
            && (forall a :: a in more ==> a.session == n)
            && (forall i, j :: 0 <= i < j < |more| && more[i].Closed? ==> more[j] != Asks(more[i].session))
            && (Closed(n) in more <==> s.sessionId != "" && (c.CloseCall? || AnsweredDone(s, maxSteps, c)))
  {
    var more := Did(s, maxSteps, n, c);
    if s.sessionId != "" && (c.CloseCall? || AnsweredDone(s, maxSteps, c)) {
      assert more[|more| - 1] == Closed(n);
    }
  }

  lemma ActsOneMore(s: Env, maxSteps: int, calls: seq<Call>, c: Call)
    ensures Acts(s, maxSteps, calls + [c])
            == Acts(s, maxSteps, calls) + Did(Play(s, calls), maxSteps, Sessions(calls), c)
    ensures Sessions(calls + [c]) == Sessions(calls) + if NewSession(c) then 1 else 0
    ensures Play(s, calls + [c]) == After(Play(s, calls), c)
  {
    assert (calls + [c])[..|calls|] == calls;
  }

  lemma {:induction false} ActsNumbered(s: Env, maxSteps: int, calls: seq<Call>)
    ensures forall a :: a in Acts(s, maxSteps, calls) ==> a.session <= Sessions(calls)
  {
    if calls != [] {
      var init, c := calls[..|calls| - 1], calls[|calls| - 1];
      assert calls == init + [c];
      ActsNumbered(s, maxSteps, init);
      ActsOneMore(s, maxSteps, init, c);
      DidShape(Play(s, init), maxSteps, Sessions(init), c);
    }
  }

  /** While a session is remembered, a Close of it was sent just if it is over. */
  lemma {:induction false} ClosedIsOver(s: Env, maxSteps: int, calls: seq<Call>)
    requires Play(s, calls).sessionId != ""
    ensures Closed(Sessions(calls)) in Acts(s, maxSteps, calls) <==> Over(s, maxSteps, calls)
  {
    if calls != [] {
      var init, c := calls[..|calls| - 1], calls[|calls| - 1];
      assert calls == init + [c];
      ActsOneMore(s, maxSteps, init, c);
      OverOneMore(s, maxSteps, init, c);
      DidShape(Play(s, init), maxSteps, Sessions(init), c);
      if NewSession(c) {
        ActsNumbered(s, maxSteps, init);
      } else {
        ClosedIsOver(s, maxSteps, init);
      }
    }
  }

  /** As long as only resets follow the end of a session, it is remembered. */
  lemma {:induction false} OverIsRemembered(s: Env, maxSteps: int, calls: seq<Call>)
    requires ResetsAfterDone(s, maxSteps, calls) && Over(s, maxSteps, calls)
    ensures Play(s, calls).sessionId != ""
  {
    var init, c := calls[..|calls| - 1], calls[|calls| - 1];
    assert calls == init + [c];
    ActsOneMore(s, maxSteps, init, c);
    OverOneMore(s, maxSteps, init, c);
    ResetsOneMore(s, maxSteps, init, c);
    if Over(s, maxSteps, init) {
      OverIsRemembered(s, maxSteps, init);
    }
  }

  lemma QuietOneMore(acts: seq<Act>, n: nat, more: seq<Act>)
    requires forall i, j :: 0 <= i < j < |more| && more[i].Closed? ==> more[j] != Asks(more[i].session)
    requires more == [] || more[0] == Asks(n)
    requires forall a :: a in more ==> a.session == n
    ensures QuietAfterClose(acts + more) <==> QuietAfterClose(acts) && (more == [] || Closed(n) !in acts)
  {
    var all := acts + more;
    if more != [] && Closed(n) in acts {
      var i :| 0 <= i < |acts| && acts[i] == Closed(n);
      assert all[i] == Closed(n) && all[|acts|] == Asks(n);
    }
    if QuietAfterClose(all) {
      forall i, j | 0 <= i < j < |acts| && acts[i].Closed? ensures acts[j] != Asks(acts[i].session) {
        assert all[i] == acts[i] && all[j] == acts[j];
      }
    }
  }

  /** The exact condition: the environment sends nothing for a session after a Close of it, if and only if
      after each step answered with done and a session id its caller only resets it, until a reset succeeds. */
  lemma {:induction false} QuietExactly(s: Env, maxSteps: int, calls: seq<Call>)
    ensures QuietAfterClose(Acts(s, maxSteps, calls)) <==> ResetsAfterDone(s, maxSteps, calls)
  {
    if calls != [] {
      var init, c := calls[..|calls| - 1], calls[|calls| - 1];
      assert calls == init + [c];
      QuietExactly(s, maxSteps, init);
      ResetsOneMore(s, maxSteps, init, c);
      ActsOneMore(s, maxSteps, init, c);
      DidShape(Play(s, init), maxSteps, Sessions(init), c);
      QuietOneMore(Acts(s, maxSteps, init), Sessions(init), Did(Play(s, init), maxSteps, Sessions(init), c));
      if ResetsAfterDone(s, maxSteps, init) && Over(s, maxSteps, init) {
        OverIsRemembered(s, maxSteps, init);
      }
      if Play(s, init).sessionId != "" {
        ClosedIsOver(s, maxSteps, init);
      }
    }
  }

  /** The environment answers done although the reply did not say so. */
  ghost predicate DoneByItself(s: Env, maxSteps: int, calls: seq<Call>) {
    forall i :: 0 <= i < |calls| && DoneAt(s, maxSteps, calls, i) ==> !calls[i].outcome.done
  }

  lemma {:induction false} ReleasedExactly(s: Env, maxSteps: int, calls: seq<Call>)
    ensures (exists a :: a in Acts(s, maxSteps, calls) && a.Released?) <==> !DoneByItself(s, maxSteps, calls)
    ensures !DoneByItself(s, maxSteps, calls) ==> !QuietAfterEnd(Acts(s, maxSteps, calls))
  {
    if calls != [] {
      var init, c := calls[..|calls| - 1], calls[|calls| - 1];
      assert calls == init + [c];
      ReleasedExactly(s, maxSteps, init);
      ActsOneMore(s, maxSteps, init, c);
      ByItselfOneMore(s, maxSteps, init, c);
      ReleasedOneMore(Acts(s, maxSteps, init), Play(s, init), maxSteps, Sessions(init), c);
    }
  }

  lemma ByItselfOneMore(s: Env, maxSteps: int, calls: seq<Call>, c: Call)
    ensures DoneByItself(s, maxSteps, calls + [c]) <==>
            DoneByItself(s, maxSteps, calls)
            && (AnsweredDone(Play(s, calls), maxSteps, c) && Play(s, calls).sessionId != "" ==> !c.outcome.done)
  {
    var all := calls + [c];
    assert all[..|calls|] == calls;
    forall i | 0 <= i < |calls| ensures DoneAt(s, maxSteps, all, i) == DoneAt(s, maxSteps, calls, i) {
      DoneAtPrefix(s, maxSteps, calls, c, i);
    }
    assert DoneAt(s, maxSteps, all, |calls|) == (AnsweredDone(Play(s, calls), maxSteps, c) && Play(s, calls).sessionId != "");
  }

  /** A release on a reply that says done is followed by a Close, in the same call. */
  lemma ReleasedOneMore(acts: seq<Act>, s: Env, maxSteps: int, n: nat, c: Call)
    ensures var more := Did(s, maxSteps, n, c);
            && ((exists a :: a in more && a.Released?) <==>
                AnsweredDone(s, maxSteps, c) && s.sessionId != "" && c.outcome.done)
            && ((exists a :: a in more && a.Released?) ==> !QuietAfterEnd(acts + more))
            && (!QuietAfterEnd(acts) ==> !QuietAfterEnd(acts + more))
  {
    var more := Did(s, maxSteps, n, c);
    var all := acts + more;
    if AnsweredDone(s, maxSteps, c) && s.sessionId != "" && c.outcome.done {
      assert more[1] == Released(n);
      assert all[|acts| + 1] == Released(n) && all[|acts| + 2] == Asks(n);
    }
    if i, j :| 0 <= i < j < |acts| && !acts[i].Asks? && acts[j] == Asks(acts[i].session) {
      assert all[i] == acts[i] && all[j] == acts[j];
    }
  }

  /** The exact condition for sending nothing for a session after it has ended in any way: besides, no
      step is answered with done because the reply says so. For then the router has released the agent
      already, and the environment's own Close comes late. */
  lemma EndExactly(s: Env, maxSteps: int, calls: seq<Call>)
    ensures QuietAfterEnd(Acts(s, maxSteps, calls)) <==>
            ResetsAfterDone(s, maxSteps, calls) && DoneByItself(s, maxSteps, calls)
  {
    var acts := Acts(s, maxSteps, calls);
    QuietExactly(s, maxSteps, calls);
    ReleasedExactly(s, maxSteps, calls);
    if DoneByItself(s, maxSteps, calls) {
      assert forall i :: 0 <= i < |acts| ==> acts[i] in acts && !acts[i].Released?;
    }
  }

  lemma DoneIsOver(s: Env, maxSteps: int, calls: seq<Call>, last: StepOutcome)
    ensures var id, done := Play(s, calls).sessionId, calls + [StepCall(last)];
            id != "" && AnsweredDone(Play(s, calls), maxSteps, StepCall(last)) ==>
              && Play(s, done).sessionId == id && Closes(s, maxSteps, done) == Closes(s, maxSteps, calls) + [id]
              && Over(s, maxSteps, done)
  {
    OneMoreCall(s, maxSteps, calls, StepCall(last));
    OverOneMore(s, maxSteps, calls, StepCall(last));
  }

  lemma CloseWhenOver(s: Env, maxSteps: int, calls: seq<Call>)
    ensures var id, all := Play(s, calls).sessionId, calls + [CloseCall];
            id != "" && Over(s, maxSteps, calls) ==>
              Closes(s, maxSteps, all) == Closes(s, maxSteps, calls) + [id] && !QuietAfterClose(Acts(s, maxSteps, all))
  {
    OneMoreCall(s, maxSteps, calls, CloseCall);
    ResetsOneMore(s, maxSteps, calls, CloseCall);
    QuietExactly(s, maxSteps, calls + [CloseCall]);
  }

  /** Shutting the environment down right after a step that ends an episode, whatever came before, sends
      a second Close for the session, which is still remembered. */
  lemma ClosedAgain(s: Env, maxSteps: int, calls: seq<Call>, last: StepOutcome)
    ensures var id, all := Play(s, calls).sessionId, calls + [StepCall(last)] + [CloseCall];
            id != "" && AnsweredDone(Play(s, calls), maxSteps, StepCall(last)) ==>
              Closes(s, maxSteps, all) == Closes(s, maxSteps, calls) + [id, id] && !QuietAfterClose(Acts(s, maxSteps, all))
  {
    DoneIsOver(s, maxSteps, calls, last);
    CloseWhenOver(s, maxSteps, calls + [StepCall(last)]);
  }

  /** Steps none of which is answered with done. */
  ghost predicate StepsBeforeEnd(s: Env, maxSteps: int, steps: seq<Call>) {
    forall i :: 0 <= i < |steps| ==> steps[i].StepCall? && !AnsweredDone(Play(s, steps[..i]), maxSteps, steps[i])
  }

  lemma {:induction false} NoClosesYet(s: Env, maxSteps: int, steps: seq<Call>)
    requires StepsBeforeEnd(s, maxSteps, steps)
    ensures Closes(s, maxSteps, steps) == [] && Play(s, steps).sessionId == s.sessionId
  {
    if steps != [] {
      var init := steps[..|steps| - 1];
      assert forall i :: 0 <= i < |init| ==> init[..i] == steps[..i];
      NoClosesYet(s, maxSteps, init);
    }
  }

  lemma {:induction false} FirstCallMoves(s: Env, c: Call, rest: seq<Call>)
    ensures Play(s, [c] + rest) == Play(After(s, c), rest)
  {
    if rest == [] {
      assert ([c] + rest)[..0] == [];
    } else {
      FirstCallMoves(s, c, rest[..|rest| - 1]);
      assert ([c] + rest)[..|rest|] == [c] + rest[..|rest| - 1];
    }
  }

  lemma {:induction false} FirstCall(s: Env, maxSteps: int, c: Call, rest: seq<Call>)
    ensures Closes(s, maxSteps, [c] + rest) == Sent(s, maxSteps, c) + Closes(After(s, c), maxSteps, rest)
  {
    if rest == [] {
      assert ([c] + rest)[..0] == [];
    } else {
      var init := rest[..|rest| - 1];
      FirstCall(s, maxSteps, c, init);
      FirstCallMoves(s, c, init);
      assert ([c] + rest)[..|rest|] == [c] + init;
    }
  }

  /** So an episode of any length, from its reset to the shutdown, closes its session exactly twice. */
  lemma ClosedTwice(s: Env, maxSteps: int, reset: ResetOutcome, steps: seq<Call>, last: StepOutcome)
    requires Succeeds(reset) && reset.sessionId != ""
    ensures StepsBeforeEnd(AfterReset(s, reset), maxSteps, steps)
            && AnsweredDone(Play(AfterReset(s, reset), steps), maxSteps, StepCall(last)) ==>
              Closes(s, maxSteps, [ResetCall(reset)] + (steps + [StepCall(last)] + [CloseCall])) == [reset.sessionId, reset.sessionId]
  {
    var t := AfterReset(s, reset);
    if StepsBeforeEnd(t, maxSteps, steps) && AnsweredDone(Play(t, steps), maxSteps, StepCall(last)) {
      NoClosesYet(t, maxSteps, steps);
      ClosedAgain(t, maxSteps, steps, last);
      FirstCall(s, maxSteps, ResetCall(reset), steps + [StepCall(last)] + [CloseCall]);
    }
  }

  // ---------------------------------------------------------------- score

  function Sum(rewards: seq<int>): int {
    if rewards == [] then 0 else Sum(rewards[..|rewards| - 1]) + rewards[|rewards| - 1]
  }

  lemma {:induction false} SumInRange(rewards: seq<int>)
    requires forall i :: 0 <= i < |rewards| ==> 1 <= rewards[i] <= 99
    ensures |rewards| <= Sum(rewards) <= 99 * |rewards|
  {
    if rewards != [] {
      SumInRange(rewards[..|rewards| - 1]);
    }
  }

  lemma {:induction false} SumOfParts(x: seq<int>, y: seq<int>, r: int)
    ensures Sum(x + y) == Sum(x) + Sum(y) && Sum([r]) == r
  {
    if y == [] {
      assert x + y == x;
    } else {
      SumOfParts(x, y[..|y| - 1], r);
      assert (x + y)[..|x + y| - 1] == x + y[..|y| - 1];
    }
    assert [r][..0] == [];
  }

  /** An episode's score before rounding: the rewards' sum over the 5.00 that could be earned,
      clamped. */
  function Score(rewards: seq<int>): real {
    Clamp(Sum(rewards) as real / 500.0, 0.01, 0.99)
  }

  /** Over at most five steps the upper clamp never binds, and the lower one only binds when the
      rewards sum to less than five cents. */
  lemma ScoreIsMean(rewards: seq<int>)
    requires |rewards| <= 5 && forall i :: 0 <= i < |rewards| ==> 1 <= rewards[i] <= 99
    ensures Score(rewards) == if Sum(rewards) >= 5 then Sum(rewards) as real / 500.0 else 0.01
    ensures |rewards| == 5 ==> Score(rewards) == Sum(rewards) as real / 500.0
  {
    SumInRange(rewards);
  }
}
