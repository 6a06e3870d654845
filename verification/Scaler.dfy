/** The autoscaler: how many replicas it asks for, and what that leads to. */
module Scaler {
  import opened Wrappers
  import opened PoolSpec
  import opened PoolImpl
  import opened RouterSystem
  import opened RouterRuns

  /** The replica target from the two counts, which the code reads one after the other. */
  function Desired(free: int, total: int, warm: int): int {
    var busy := total - free;
    if busy + warm < 1 then 1 else busy + warm
  }

  /** Conversion to a 32-bit signed integer wraps around. */
  function ToInt32(n: int): (r: int)
    ensures -0x8000_0000 <= r < 0x8000_0000 && (r - n) % 0x1_0000_0000 == 0
    ensures -0x8000_0000 <= n < 0x8000_0000 ==> r == n
  {
    (n + 0x8000_0000) % 0x1_0000_0000 - 0x8000_0000
  }

  class AutoScaler {
    const pool: Pool
    var warmPoolSize: int

    constructor (p: Pool, warm: int)
      ensures pool == p && warmPoolSize == warm
    {
      pool := p;
      warmPoolSize := warm;
    }

    /** `current` is the deployment's replica count, unless reading it fails. The result is the
        count written, if one is: the number of busy agents plus the warm ones, at least 1. */
    method Reconcile(current: Option<int>) returns (written: Option<int>)
      requires pool.Valid()
      ensures var busy := |BusySet(pool.View())|;
              var target := if busy + warmPoolSize < 1 then 1 else busy + warmPoolSize;
              && target == Desired(|FreeSet(pool.View())|, |pool.View().agents|, warmPoolSize)
              && written == if current.None? || current.value == target then None else Some(ToInt32(target))
    {
      ghost var p := pool.View();
      assert |p.agents| - |FreeSet(p)| == |BusySet(p)| by {
        CountsAgree(p);
      }
      var freeCount := pool.FreeCount();
      var totalCount := pool.TotalCount();
      if current.None? {
        return None;
      }
      var currentReplicas := current.value;
      var busyCount := totalCount - freeCount;
      var desiredReplicas := busyCount + warmPoolSize;
      if desiredReplicas < 1 {
        desiredReplicas := 1;
      }
      if desiredReplicas == currentReplicas {
        return None;
      }
      return Some(ToInt32(desiredReplicas));
    }

    method SetWarmPoolSize(size: int) returns (ok: bool)
      modifies this
      ensures ok <==> size >= 0
      ensures warmPoolSize == if ok then size else old(warmPoolSize)
    {
      if size < 0 {
        return false;
      }
      warmPoolSize := size;
      return true;
    }
  }

  // ---------------------------------------------------------------- the torn read

  /** The agents whose availability differs between two states. */
  function Flipped(s: PoolState, t: PoolState): set<Addr> {
    (FreeSet(s) - FreeSet(t)) + (FreeSet(t) - FreeSet(s))
  }

  /** How many availability changes happen from state `i` to state `j` of a run. */
  function Churn(ss: seq<Sys>, i: nat, j: nat): nat
    requires i <= j < |ss|
    decreases j - i
  {
    if i == j then 0 else Churn(ss, i, j - 1) + |Flipped(ss[j - 1].pool, ss[j].pool)|
  }

  predicate Within(x: int, y: int, d: int) {
    x - y <= d && y - x <= d
  }

  lemma FreeMoves(s: PoolState, t: PoolState)
    ensures Within(|FreeSet(t)|, |FreeSet(s)|, |Flipped(s, t)|)
  {
  }

  lemma {:induction false} FreeDrift(ss: seq<Sys>, i: nat, j: nat)
    requires i <= j < |ss|
    ensures Within(|FreeSet(ss[j].pool)|, |FreeSet(ss[i].pool)|, Churn(ss, i, j))
    decreases j - i
  {
    if i < j {
      FreeDrift(ss, i, j - 1);
      FreeMoves(ss[j - 1].pool, ss[j].pool);
    }
  }

  /** Torn snapshot: with the free count read at state `i` and the total at a later state `j`, the
      target stays between 1 and the total plus the warm agents (or 1), and is off the target of an
      atomic read at `j` by no more than the availability changes in between. */
  lemma TornSnapshot(cfg: Config, ss: seq<Sys>, ls: seq<Label>, i: nat, j: nat, warm: int)
    requires Run(cfg, ss, ls) && i <= j < |ss|
    ensures var target := Desired(|FreeSet(ss[i].pool)|, |ss[j].pool.agents|, warm);
            var atomic := if |BusySet(ss[j].pool)| + warm < 1 then 1 else |BusySet(ss[j].pool)| + warm;
            && 1 <= target && (target == 1 || target <= |ss[j].pool.agents| + warm)
            && target - atomic <= Churn(ss, i, j) && atomic - target <= Churn(ss, i, j)
  {
    FreeDrift(ss, i, j);
    Always(cfg, ss, ls, j);
    CountsAgree(ss[j].pool);
    TornArithmetic(|FreeSet(ss[i].pool)|, |FreeSet(ss[j].pool)|, |ss[j].pool.agents|, warm, Churn(ss, i, j));
  }

  lemma TornArithmetic(free: nat, free': nat, total: nat, warm: int, d: int)
    requires Within(free', free, d)
    ensures var target := Desired(free, total, warm);
            var atomic := if total - free' + warm < 1 then 1 else total - free' + warm;
            1 <= target && (target == 1 || target <= total + warm) && Within(target, atomic, d)
  {
  }

  // ---------------------------------------------------------------- the fixed point

  /** Free agents are the wanted ones less those that are busy and not waiting for removal. */
  lemma FreeOfWanted(s: PoolState)
    requires Inv(s)
    ensures |FreeSet(s)| == |Wanted(s)| - (|BusySet(s)| - |PendingSet(s)|)
  {
    CountsAgree(s);
    assert s.agents.Keys == Wanted(s) + PendingSet(s) && Wanted(s) !! PendingSet(s);
    assert |Wanted(s) + PendingSet(s)| == |Wanted(s)| + |PendingSet(s)|;
    assert |s.agents| == |s.agents.Keys|;
  }

  /** Fixed point. Let the scaler read the pool at state `i` of a run, and let a sync completed by
      state `j` bring in exactly as many live pods as it asked for, the number of busy agents being
      the same. Then it writes nothing more, and every agent asked for beyond the busy ones still
      on live pods is free: the warm ones, plus one for each busy agent whose pod was evicted. */
  lemma FixedPoint(cfg: Config, ss: seq<Sys>, ls: seq<Label>, i: nat, j: nat, warm: int)
    requires Run(cfg, ss, ls) && i <= j < |ss|
    requires ss[j].sync.Idle? && |BusySet(ss[j].pool)| == |BusySet(ss[i].pool)|
    requires |ss[j].target| == Desired(|FreeSet(ss[i].pool)|, |ss[i].pool.agents|, warm)
    ensures var p := ss[j].pool;
            && Desired(|FreeSet(p)|, |p.agents|, warm) == |ss[j].target|
            && |FreeSet(p)| == if |BusySet(p)| + warm >= 1 then warm + |PendingSet(p)| else 1 - |BusySet(p)| + |PendingSet(p)|
  {
    Always(cfg, ss, ls, i);
    Always(cfg, ss, ls, j);
    CountsAgree(ss[i].pool);
    CountsAgree(ss[j].pool);
    FreeOfWanted(ss[j].pool);
  }
}
