/** The connection tracker that runs in the kernel: socket events over three maps, from socket
    cookie to process, from process to metrics, and from address to tuning action. */
module Tracker {
  import opened Wrappers

  type u8 = n: nat | n < 0x100
  type u32 = n: nat | n < 0x1_0000_0000
  type u64 = n: nat | n < 0x1_0000_0000_0000_0000

  const AF_INET: u32 := 2

  /** Subtraction on 64-bit unsigned integers wraps around. */
  function Sub64(x: u64, y: u64): u64 {
    (x - y) % 0x1_0000_0000_0000_0000
  }

  /** The byte order of a 32-bit value reversed. */
  function ByteSwap(x: u32): u32 {
    (x % 0x100) * 0x100_0000 + (x / 0x100 % 0x100) * 0x1_0000 + (x / 0x1_0000 % 0x100) * 0x100 + x / 0x100_0000
  }

  datatype Op = TcpConnect | ActiveEstablished | PassiveEstablished | StateChange | Retransmit | Other

  /** A socket event: what the kernel passes in, with the current process and the clock reading. */
  datatype Event = Event(op: Op, family: u32, cookie: u64, remoteIp4: u32, remotePort: u32,
                         srttUs: u32, totalRetrans: u32, bytesAcked: u64, bytesReceived: u64,
                         pidTgid: u64, now: u64)
  {
    function Pid(): u32 {
      pidTgid / 0x1_0000_0000
    }

    predicate Connects() {
      family == AF_INET && op == TcpConnect
    }

    predicate Updates() {
      family == AF_INET && (op == StateChange || op == Retransmit)
    }

    predicate Establishes() {
      family == AF_INET && (op == ActiveEstablished || op == PassiveEstablished)
    }
  }

  datatype Metrics = Metrics(remoteIp: u32, remotePort: u32, srttUs: u32, totalRetrans: u32,
                             bytesSent: u64, bytesReceived: u64, startTimeNs: u64, durationUs: u64)

  datatype Key = Key(ip: u32, port: u32)
  datatype Action = Action(maxPacingRate: u32, sndCwndClamp: u32, congAlgo: u32, initCwnd: u32, windowClamp: u32,
                           noDelay: u32, rtoMin: u32, retransAfter: u32, enableEcn: u8, pacingStatus: u8, keepaliveIdle: u32)

  datatype Maps = Maps(cookiePid: map<u64, u32>, metrics: map<u32, Metrics>)

  const EMPTY := Maps(map[], map[])

  // ---------------------------------------------------------------- one event, as a value

  function Initial(e: Event): Metrics {
    Metrics(e.remoteIp4, ByteSwap(e.remotePort), 0, 0, 0, 0, e.now, 0)
  }

  function Updated(m: Metrics, e: Event): Metrics {
    m.(srttUs := e.srttUs / 8, totalRetrans := e.totalRetrans, bytesSent := e.bytesAcked, bytesReceived := e.bytesReceived,
       durationUs := if m.startTimeNs > 0 then Sub64(e.now, m.startTimeNs) / 1000 else m.durationUs)
  }

  function Next(s: Maps, e: Event): Maps {
    if e.Connects() then
      Maps(s.cookiePid[e.cookie := e.Pid()], s.metrics[e.Pid() := Initial(e)])
    else if e.Updates() && e.cookie in s.cookiePid && s.cookiePid[e.cookie] in s.metrics then
      var pid := s.cookiePid[e.cookie];
      s.(metrics := s.metrics[pid := Updated(s.metrics[pid], e)])
    else s
  }

  function Replay(t: seq<Event>): Maps {
    if t == [] then EMPTY else Next(Replay(t[..|t| - 1]), t[|t| - 1])
  }

  /** The action that an event's socket is given: the one stored for its remote address, once it is
      established. */
  function Chosen(actions: map<Key, Action>, e: Event): Option<Action> {
    if e.Establishes() && Key(e.remoteIp4, 0) in actions then Some(actions[Key(e.remoteIp4, 0)]) else None
  }

  // ---------------------------------------------------------------- the program

  class SockOps {
    var cookiePidMap: map<u64, u32>
    var metricsMap: map<u32, Metrics>
    var actionMap: map<Key, Action>

    constructor ()
      ensures View() == EMPTY && actionMap == map[]
    {
      cookiePidMap, metricsMap, actionMap := map[], map[], map[];
    }

    function View(): Maps
      reads this
    {
      Maps(cookiePidMap, metricsMap)
    }

    method UpdateMetrics(skops: Event)
      requires skops.Updates()
      modifies this`metricsMap
      ensures View() == Next(old(View()), skops)
    {
      if skops.cookie !in cookiePidMap {
        return;
      }
      var pid := cookiePidMap[skops.cookie];
      if pid !in metricsMap {
        return;
      }
      var met := metricsMap[pid];
      met := met.(srttUs := skops.srttUs / 8);
      met := met.(totalRetrans := skops.totalRetrans);
      met := met.(bytesSent := skops.bytesAcked);
      met := met.(bytesReceived := skops.bytesReceived);
      if met.startTimeNs > 0 {
        met := met.(durationUs := Sub64(skops.now, met.startTimeNs) / 1000);
      }
      metricsMap := metricsMap[pid := met];
    }

    /** `act` is the action applied to the socket, if one is; `watching` says whether the callbacks
        on state changes get enabled. */
    method BpfSockmap(skops: Event) returns (act: Option<Action>, watching: bool)
      modifies this`cookiePidMap, this`metricsMap
      ensures View() == Next(old(View()), skops)
      ensures skops.family != 2 || skops.op == Other ==> View() == old(View())
      ensures watching <==> skops.family == 2 && (skops.op == ActiveEstablished || skops.op == PassiveEstablished)
      ensures act == if watching && Key(skops.remoteIp4, 0) in actionMap
                     then Some(actionMap[Key(skops.remoteIp4, 0)]) else None
      ensures act == Chosen(actionMap, skops)
    {
      act, watching := None, false;
      if skops.family != AF_INET {
        return;
      }
      var key := Key(skops.remoteIp4, 0);
      match skops.op
      case TcpConnect =>
        var pid := skops.Pid();
        cookiePidMap := cookiePidMap[skops.cookie := pid];
        var initial := Metrics(0, 0, 0, 0, 0, 0, 0, 0);
        initial := initial.(startTimeNs := skops.now);
        initial := initial.(remoteIp := skops.remoteIp4);
        initial := initial.(remotePort := ByteSwap(skops.remotePort));
        metricsMap := metricsMap[pid := initial];
      case ActiveEstablished =>
        if key in actionMap {
          act := Some(actionMap[key]);
        }
        watching := true;
      case PassiveEstablished =>
        if key in actionMap {
          act := Some(actionMap[key]);
        }
        watching := true;
      case StateChange => UpdateMetrics(skops);
      case Retransmit => UpdateMetrics(skops);
      case Other =>
    }
  }

  // ---------------------------------------------------------------- non-interference

  /** In a given state, an event concerns process `p` if it is a connect by `p`, or an update on a
      socket that the last connect with its cookie gave to `p`. */
  predicate Concerns(s: Maps, e: Event, p: u32) {
    (e.Connects() && e.Pid() == p) || (e.Updates() && e.cookie in s.cookiePid && s.cookiePid[e.cookie] == p)
  }

  /** The part of a trace that concerns one process. */
  function Own(t: seq<Event>, p: u32): seq<Event> {
    if t == [] then []
    else
      var init, e := t[..|t| - 1], t[|t| - 1];
      Own(init, p) + if Concerns(Replay(init), e, p) then [e] else []
  }

  ghost predicate SameFor(s: Maps, r: Maps, p: u32) {
    && (p in s.metrics <==> p in r.metrics) && (p in s.metrics ==> s.metrics[p] == r.metrics[p])
    && forall c :: c in s.cookiePid && s.cookiePid[c] == p ==> c in r.cookiePid && r.cookiePid[c] == p
  }

  /** An event that concerns a process does the same to both views of it; any other changes neither. */
  lemma SameAfter(s: Maps, r: Maps, e: Event, p: u32)
    requires SameFor(s, r, p)
    ensures SameFor(Next(s, e), if Concerns(s, e, p) then Next(r, e) else r, p)
  {
  }

  /** Per-process non-interference: whatever other processes do in between, the metrics of `p` are
      those that the events concerning `p` would leave on their own. */
  lemma {:induction false} NonInterference(t: seq<Event>, p: u32)
    ensures SameFor(Replay(t), Replay(Own(t, p)), p)
  {
    if t != [] {
      var init, e := t[..|t| - 1], t[|t| - 1];
      NonInterference(init, p);
      SameAfter(Replay(init), Replay(Own(init, p)), e, p);
      if Concerns(Replay(init), e, p) {
        assert Own(t, p)[..|Own(t, p)| - 1] == Own(init, p);
      } else {
        assert Own(t, p) == Own(init, p);
      }
    }
  }

  /** Every socket belongs to the one process that connects it. */
  ghost predicate UniqueCookies(t: seq<Event>, owner: map<u64, u32>) {
    forall i :: 0 <= i < |t| && t[i].Connects() ==> t[i].cookie in owner && owner[t[i].cookie] == t[i].Pid()
  }

  predicate OnSocketOf(e: Event, p: u32, owner: map<u64, u32>) {
    (e.Connects() || e.Updates()) && e.cookie in owner && owner[e.cookie] == p
  }

  /** The events of process `p`, told by the owner of the socket alone. */
  function ByOwner(t: seq<Event>, p: u32, owner: map<u64, u32>): seq<Event> {
    if t == [] then []
    else
      var init, e := t[..|t| - 1], t[|t| - 1];
      ByOwner(init, p, owner) + if OnSocketOf(e, p, owner) then [e] else []
  }

  lemma {:induction false} CookiesOwned(t: seq<Event>, owner: map<u64, u32>)
    requires UniqueCookies(t, owner)
    ensures forall c :: c in Replay(t).cookiePid ==> c in owner && owner[c] == Replay(t).cookiePid[c]
  {
    if t != [] {
      var init := t[..|t| - 1];
      assert forall i :: 0 <= i < |init| ==> init[i] == t[i];
      CookiesOwned(init, owner);
    }
  }

  /** Telling events apart by owner or by the last connect differs only in updates on sockets whose
      connect was never seen, which change nothing. */
  lemma {:induction false} OwnedReplay(t: seq<Event>, p: u32, owner: map<u64, u32>)
    requires UniqueCookies(t, owner)
    ensures Replay(ByOwner(t, p, owner)) == Replay(Own(t, p))
  {
    if t != [] {
      var init, e := t[..|t| - 1], t[|t| - 1];
      assert forall i :: 0 <= i < |init| ==> init[i] == t[i];
      OwnedReplay(init, p, owner);
      CookiesOwned(init, owner);
      CookiesOfOwn(init, p);
      var s, r := Replay(init), Replay(Own(init, p));
      AppendReplay(ByOwner(init, p, owner), e);
      AppendReplay(Own(init, p), e);
      assert ByOwner(init, p, owner) + [] == ByOwner(init, p, owner) && Own(init, p) + [] == Own(init, p);
      assert e.Connects() ==> (Concerns(s, e, p) <==> OnSocketOf(e, p, owner)) by {
        assert t[|t| - 1] == e;
      }
    }
  }

  lemma AppendReplay(t: seq<Event>, e: Event)
    ensures Replay(t + [e]) == Next(Replay(t), e)
  {
    assert (t + [e])[..|t|] == t;
  }

  lemma {:induction false} CookiesOfOwn(t: seq<Event>, p: u32)
    ensures forall c :: c in Replay(Own(t, p)).cookiePid ==> c in Replay(t).cookiePid
  {
    if t != [] {
      var init, e := t[..|t| - 1], t[|t| - 1];
      CookiesOfOwn(init, p);
      AppendReplay(Own(init, p), e);
      assert Own(init, p) + [] == Own(init, p);
    }
  }

  /** With cookies that are not reused across processes, replaying just the events on the sockets of
      `p` gives `p` the same metrics. */
  lemma NonInterferenceByOwner(t: seq<Event>, p: u32, owner: map<u64, u32>)
    requires UniqueCookies(t, owner)
    ensures SameFor(Replay(t), Replay(ByOwner(t, p, owner)), p)
  {
    NonInterference(t, p);
    OwnedReplay(t, p, owner);
  }

  /** A process that a cookie stands for has metrics. */
  lemma {:induction false} TrackedHaveMetrics(t: seq<Event>, c: u64)
    requires c in Replay(t).cookiePid
    ensures Replay(t).cookiePid[c] in Replay(t).metrics
  {
    var init, e := t[..|t| - 1], t[|t| - 1];
    if c in Replay(init).cookiePid {
      TrackedHaveMetrics(init, c);
    }
  }

  /** The process that the last connect with cookie `c` came from, by the trace alone. */
  function Connector(t: seq<Event>, c: u64): Option<u32> {
    if t == [] then None
    else
      var e := t[|t| - 1];
      if e.family == 2 && e.op == TcpConnect && e.cookie == c then Some(e.pidTgid / 0x1_0000_0000)
      else Connector(t[..|t| - 1], c)
  }

  lemma {:induction false} ConnectorIsLast(t: seq<Event>, i: nat)
    requires i < |t| && t[i].family == 2 && t[i].op == TcpConnect
    requires forall k :: i < k < |t| ==> !(t[k].family == 2 && t[k].op == TcpConnect && t[k].cookie == t[i].cookie)
    ensures Connector(t, t[i].cookie) == Some(t[i].pidTgid / 0x1_0000_0000)
  {
    if i < |t| - 1 {
      ConnectorIsLast(t[..|t| - 1], i);
    }
  }

  /** A cookie stands for the process that last connected with it, and for none if there was no connect. */
  lemma {:induction false} CookieOfLastConnect(t: seq<Event>, c: u64)
    ensures c in Replay(t).cookiePid <==> Connector(t, c).Some?
    ensures c in Replay(t).cookiePid ==> Replay(t).cookiePid[c] == Connector(t, c).value
  {
    if t != [] {
      CookieOfLastConnect(t[..|t| - 1], c);
    }
  }

  /** The metrics of a process show the last update that concerns it, with the kernel's scaled
      round-trip time in whole microseconds. */
  lemma {:induction false} LatestObservation(t: seq<Event>, i: nat, p: u32)
    requires i < |t| && t[i].Updates() && Concerns(Replay(t[..i]), t[i], p)
    requires forall k :: i < k < |t| ==> !Concerns(Replay(t[..k]), t[k], p)
    ensures p in Replay(t).metrics
    ensures var m := Replay(t).metrics[p];
            && m.bytesSent == t[i].bytesAcked && m.bytesReceived == t[i].bytesReceived
            && m.totalRetrans == t[i].totalRetrans
            && m.srttUs * 8 <= t[i].srttUs < m.srttUs * 8 + 8
  {
    var init := t[..|t| - 1];
    if i < |t| - 1 {
      assert forall k :: 0 <= k < |init| ==> init[k] == t[k] && init[..k] == t[..k];
      LatestObservation(init, i, p);
    } else {
      assert init == t[..i];
      TrackedHaveMetrics(init, t[i].cookie);
    }
  }

  // ---------------------------------------------------------------- time

  ghost predicate Monotone(t: seq<Event>) {
    forall i, j :: 0 <= i <= j < |t| ==> t[i].now <= t[j].now
  }

  /** Every recorded start lies in the past, so no subtraction wraps, and every recorded duration
      fits between its start and the present. */
  lemma {:induction false} StartsInThePast(t: seq<Event>, p: u32)
    requires Monotone(t) && p in Replay(t).metrics
    ensures t != []
    ensures var m := Replay(t).metrics[p];
            m.startTimeNs <= t[|t| - 1].now && m.durationUs * 1000 <= t[|t| - 1].now - m.startTimeNs
  {
    var init, e := t[..|t| - 1], t[|t| - 1];
    assert forall i :: 0 <= i < |init| ==> init[i] == t[i];
    if p in Replay(init).metrics {
      StartsInThePast(init, p);
      assert init[|init| - 1].now <= e.now;
      NoWrap(e.now, Replay(init).metrics[p].startTimeNs);
    }
  }

  lemma NoWrap(now: u64, start: u64)
    requires start <= now
    ensures Sub64(now, start) == now - start
  {
  }

  /** At an update the duration is the elapsed time in whole microseconds, if the start is not 0. */
  lemma DurationExact(t: seq<Event>, e: Event, p: u32)
    requires Monotone(t + [e]) && e.Updates() && Concerns(Replay(t), e, p)
    ensures p in Replay(t).metrics && p in Replay(t + [e]).metrics
    ensures var was, m := Replay(t).metrics[p], Replay(t + [e]).metrics[p];
            && m.startTimeNs == was.startTimeNs <= e.now && was.durationUs <= m.durationUs
            && if m.startTimeNs > 0 then m.durationUs * 1000 <= e.now - m.startTimeNs < m.durationUs * 1000 + 1000
               else m.durationUs == was.durationUs
  {
    TrackedHaveMetrics(t, e.cookie);
    assert (t + [e])[..|t|] == t && (t + [e])[|t|] == e;
    assert forall i :: 0 <= i < |t| ==> t[i] == (t + [e])[i];
    StartsInThePast(t, p);
    assert (t + [e])[|t| - 1].now <= e.now;
    NoWrap(e.now, Replay(t).metrics[p].startTimeNs);
  }

  /** Events that do not concern a process leave its record alone. */
  lemma {:induction false} UnconcernedKeeps(t: seq<Event>, i: nat, p: u32)
    requires i <= |t| && forall k :: i <= k < |t| ==> !Concerns(Replay(t[..k]), t[k], p)
    ensures p in Replay(t).metrics <==> p in Replay(t[..i]).metrics
    ensures p in Replay(t).metrics ==> Replay(t).metrics[p] == Replay(t[..i]).metrics[p]
  {
    if i == |t| {
      assert t[..i] == t;
    } else {
      var init := t[..|t| - 1];
      assert init[..i] == t[..i];
      assert forall k :: 0 <= k < |init| ==> init[k] == t[k] && init[..k] == t[..k];
      UnconcernedKeeps(init, i, p);
      assert !Concerns(Replay(init), t[|t| - 1], p);
    }
  }

  /** An update on a cookie that a process was the last to connect with concerns the process. */
  lemma UpdateConcerns(t: seq<Event>, i: nat, j: nat)
    requires i < j < |t| && t[i].family == 2 && t[i].op == TcpConnect
    requires forall k :: i < k < j && t[k].family == 2 && t[k].op == TcpConnect ==> t[k].cookie != t[i].cookie
    requires t[j].family == 2 && (t[j].op == StateChange || t[j].op == Retransmit) && t[j].cookie == t[i].cookie
    ensures t[j].Updates() && Concerns(Replay(t[..j]), t[j], t[i].pidTgid / 0x1_0000_0000)
  {
    ConnectorIsLast(t[..j], i);
    CookieOfLastConnect(t[..j], t[i].cookie);
  }

  lemma NotConcerned(t: seq<Event>, k: nat, p: u32)
    requires k < |t| && (t[k].family == 2 && t[k].op == TcpConnect ==> t[k].pidTgid / 0x1_0000_0000 != p)
    requires t[k].family == 2 && (t[k].op == StateChange || t[k].op == Retransmit) ==> Connector(t[..k], t[k].cookie) != Some(p)
    ensures !Concerns(Replay(t[..k]), t[k], p)
  {
    CookieOfLastConnect(t[..k], t[k].cookie);
  }

  /** The duration an update sets stays until the next event that concerns the process. */
  lemma DurationShown(t: seq<Event>, j: nat, p: u32, start: u64)
    requires j < |t| && t[j].Updates() && Concerns(Replay(t[..j]), t[j], p)
    requires forall k :: j < k < |t| ==> !Concerns(Replay(t[..k]), t[k], p)
    requires p in Replay(t[..j]).metrics && Replay(t[..j]).metrics[p].startTimeNs == start && 0 < start <= t[j].now
    ensures p in Replay(t).metrics
    ensures var m := Replay(t).metrics[p];
            m.durationUs * 1000 <= t[j].now - start < m.durationUs * 1000 + 1000
  {
    NoWrap(t[j].now, start);
    AppendReplay(t[..j], t[j]);
    assert t[..j + 1] == t[..j] + [t[j]];
    UnconcernedKeeps(t, j + 1, p);
  }

  /** What a process's record shows, by the trace alone. Let `t[i]` be its last connect, with a cookie that no
      one connects with later, and `t[j]` the last update after it on any of the process's sockets, on that
      cookie. Then the record has the counters of `t[j]`, and the time from `t[i]` to `t[j]` as its duration. */
  lemma RecordShows(t: seq<Event>, i: nat, j: nat, p: u32)
    requires i < j < |t| && t[i].family == 2 && t[i].op == TcpConnect && t[i].pidTgid / 0x1_0000_0000 == p
    requires forall k :: i < k < |t| && t[k].family == 2 && t[k].op == TcpConnect ==>
               t[k].cookie != t[i].cookie && t[k].pidTgid / 0x1_0000_0000 != p
    requires t[j].family == 2 && (t[j].op == StateChange || t[j].op == Retransmit) && t[j].cookie == t[i].cookie
    requires forall k :: j < k < |t| && t[k].family == 2 && (t[k].op == StateChange || t[k].op == Retransmit) ==>
               Connector(t[..k], t[k].cookie) != Some(p)
    ensures p in Replay(t).metrics
    ensures var m := Replay(t).metrics[p];
            && m.bytesSent == t[j].bytesAcked && m.bytesReceived == t[j].bytesReceived && m.totalRetrans == t[j].totalRetrans
            && m.srttUs * 8 <= t[j].srttUs < m.srttUs * 8 + 8
            && m.remoteIp == t[i].remoteIp4 && m.startTimeNs == t[i].now
            && (0 < t[i].now <= t[j].now ==> m.durationUs * 1000 <= t[j].now - t[i].now < m.durationUs * 1000 + 1000)
  {
    UpdateConcerns(t, i, j);
    forall k | j < k < |t| ensures !Concerns(Replay(t[..k]), t[k], p) {
      NotConcerned(t, k, p);
    }
    LatestObservation(t, j, p);
    ConnectRemembered(t, i, p);
    ConnectRemembered(t[..j], i, p);
    if 0 < t[i].now <= t[j].now {
      DurationShown(t, j, p, t[i].now);
    }
  }

  /** A connect starts the record afresh: until the first update on any of the process's sockets, all its
      counters are 0. */
  lemma RecordStarts(t: seq<Event>, i: nat, p: u32)
    requires i < |t| && t[i].family == 2 && t[i].op == TcpConnect && t[i].pidTgid / 0x1_0000_0000 == p
    requires forall k :: i < k < |t| && t[k].family == 2 && t[k].op == TcpConnect ==> t[k].pidTgid / 0x1_0000_0000 != p
    requires forall k :: i < k < |t| && t[k].family == 2 && (t[k].op == StateChange || t[k].op == Retransmit) ==>
               Connector(t[..k], t[k].cookie) != Some(p)
    ensures p in Replay(t).metrics
    ensures var m := Replay(t).metrics[p];
            && m.srttUs == m.totalRetrans == 0 && m.bytesSent == m.bytesReceived == 0
            && m.durationUs == 0 && m.startTimeNs == t[i].now
  {
    forall k | i < k < |t| ensures !Concerns(Replay(t[..k]), t[k], p) {
      NotConcerned(t, k, p);
    }
    AppendReplay(t[..i], t[i]);
    assert t[..i + 1] == t[..i] + [t[i]];
    UnconcernedKeeps(t, i + 1, p);
  }

  /** Until its next connect a process keeps the remote end and the start of its last one. */
  lemma {:induction false} ConnectRemembered(t: seq<Event>, i: nat, p: u32)
    requires i < |t| && t[i].Connects() && t[i].Pid() == p
    requires forall k :: i < k < |t| ==> !(t[k].Connects() && t[k].Pid() == p)
    ensures p in Replay(t).metrics
    ensures var m := Replay(t).metrics[p];
            m.remoteIp == t[i].remoteIp4 && m.remotePort == ByteSwap(t[i].remotePort) && m.startTimeNs == t[i].now
  {
    if i < |t| - 1 {
      var init := t[..|t| - 1];
      assert forall k :: 0 <= k < |init| ==> init[k] == t[k];
      ConnectRemembered(init, i, p);
    }
  }

  /** The kernel passes a port, high byte `hi` and low byte `lo`, in network order in the upper half of its
      field; the record has its value. In general the four bytes change places. */
  lemma PortShown(t: seq<Event>, i: nat, p: u32, b0: nat, b1: nat, b2: nat, b3: nat)
    requires i < |t| && t[i].family == 2 && t[i].op == TcpConnect && t[i].pidTgid / 0x1_0000_0000 == p
    requires forall k :: i < k < |t| && t[k].family == 2 && t[k].op == TcpConnect ==> t[k].pidTgid / 0x1_0000_0000 != p
    requires b0 < 256 && b1 < 256 && b2 < 256 && b3 < 256
    requires t[i].remotePort == b0 + b1 * 0x100 + b2 * 0x1_0000 + b3 * 0x100_0000
    ensures p in Replay(t).metrics
    ensures Replay(t).metrics[p].remotePort == b3 + b2 * 0x100 + b1 * 0x1_0000 + b0 * 0x100_0000
  {
    ConnectRemembered(t, i, p);
    SwapsBytes(b0, b1, b2, b3);
  }

  lemma Peel(low: nat, high: nat)
    requires low < 0x100
    ensures (low + 0x100 * high) % 0x100 == low && (low + 0x100 * high) / 0x100 == high
  {
  }

  lemma HighBytes(x: nat)
    ensures x / 0x1_0000 == x / 0x100 / 0x100
    ensures x / 0x100_0000 == x / 0x100 / 0x100 / 0x100
  {
  }

  lemma SwapsBytes(b0: nat, b1: nat, b2: nat, b3: nat)
    requires b0 < 256 && b1 < 256 && b2 < 256 && b3 < 256
    ensures ByteSwap(b0 + b1 * 0x100 + b2 * 0x1_0000 + b3 * 0x100_0000) == b3 + b2 * 0x100 + b1 * 0x1_0000 + b0 * 0x100_0000
  {
    var z: nat := b2 + 0x100 * b3;
    var y: nat := b1 + 0x100 * z;
    var x: nat := b0 + 0x100 * y;
    Peel(b2, b3);
    Peel(b1, z);
    Peel(b0, y);
    HighBytes(x);
    assert x == b0 + b1 * 0x100 + b2 * 0x1_0000 + b3 * 0x100_0000;
  }

  /** Between two connects of a process its duration never decreases. */
  lemma {:induction false} DurationGrows(t: seq<Event>, i: nat, p: u32)
    requires Monotone(t) && i <= |t| && p in Replay(t[..i]).metrics
    requires forall k :: i <= k < |t| ==> !(t[k].Connects() && t[k].Pid() == p)
    ensures p in Replay(t).metrics
    ensures Replay(t[..i]).metrics[p].durationUs <= Replay(t).metrics[p].durationUs
  {
    if i == |t| {
      assert t[..i] == t;
    } else {
      var init, e := t[..|t| - 1], t[|t| - 1];
      assert init[..i] == t[..i];
      assert forall k :: 0 <= k < |init| ==> init[k] == t[k];
      DurationGrows(init, i, p);
      if e.Updates() && Concerns(Replay(init), e, p) {
        assert t == init + [e];
        DurationExact(init, e, p);
      }
    }
  }
}
