/** Addresses between kernel and client: the tracker's 32-bit remote address, the text the agent
    reports, and the key under which an action for that text is stored. */
module Address {
  import opened Wrappers
  import opened Tracker

  type byte = n: nat | n < 256

  function LittleEndian(b: seq<byte>): u32
    requires |b| == 4
  {
    Weigh(b[0], b[1], b[2], b[3])
  }

  function Weigh(b0: int, b1: int, b2: int, b3: int): int {
    b0 + b1 * 0x100 + b2 * 0x1_0000 + b3 * 0x100_0000
  }

  function Bytes(x: u32): seq<byte> {
    [x % 0x100, x / 0x100 % 0x100, x / 0x1_0000 % 0x100, x / 0x100_0000]
  }

  // ---------------------------------------------------------------- dotted decimal

  function Digit(d: nat): char
    requires d < 10
  {
    '0' + d as char
  }

  function Decimal(n: nat): string {
    if n < 10 then [Digit(n)] else Decimal(n / 10) + [Digit(n % 10)]
  }

  /** The value of a text of decimal digits. */
  function Value(s: string): int {
    if s == "" then 0 else Value(s[..|s| - 1]) * 10 + (s[|s| - 1] as int - '0' as int)
  }

  /** The decimal text of a number is the one text of digits with its value and no leading zero. */
  lemma {:induction false} DecimalExactly(n: nat)
    ensures var s := Decimal(n);
            && s != "" && (forall i :: 0 <= i < |s| ==> '0' <= s[i] <= '9') && Value(s) == n && (n > 0 ==> s[0] != '0')
            && (n == 0 ==> s == "0")
  {
    if n >= 10 {
      DecimalExactly(n / 10);
      assert Decimal(n)[..|Decimal(n)| - 1] == Decimal(n / 10);
    } else {
      assert Decimal(n)[..0] == "";
    }
  }

  /** The IPv4 text form of section 3.2.2 of RFC 3986. */
  function Dotted(b: seq<byte>): string
    requires |b| == 4
  {
    Decimal(b[0]) + "." + Decimal(b[1]) + "." + Decimal(b[2]) + "." + Decimal(b[3])
  }

  /** Read the rest of an IPv4 text, after the complete octets `done` and `digits` digits of the
      next one with value `val`. Empty octets, octets above 255 and leading zeros are errors. */
  function Scan(s: string, done: seq<byte>, val: byte, digits: nat): Option<seq<byte>> {
    if s == "" then
      if |done| == 3 && digits > 0 then Some(done + [val]) else None
    else if '0' <= s[0] <= '9' then
      var n := val * 10 + (s[0] - '0') as nat;
      if (digits == 1 && val == 0) || n > 255 then None else Scan(s[1..], done, n, digits + 1)
    else if s[0] == '.' && digits > 0 && |done| < 3 then
      Scan(s[1..], done + [val], 0, 0)
    else None
  }

  function ParseDotted(s: string): Option<seq<byte>> {
    Scan(s, [], 0, 0)
  }

  /** The text read so far in a scan. */
  function Text(done: seq<byte>, val: byte, digits: nat): string {
    if digits > 0 then Text(done, 0, 0) + Decimal(val)
    else if done == [] then ""
    else Text(done[..|done| - 1], 0, 0) + Decimal(done[|done| - 1]) + "."
  }

  /** One more digit of an octet without a leading zero. */
  lemma NextDigit(val: byte, digits: nat, c: char)
    requires '0' <= c <= '9' && !(digits == 1 && val == 0)
    requires (digits == 0 ==> val == 0) && (digits > 0 ==> |Decimal(val)| == digits)
    ensures Decimal(val * 10 + (c - '0') as nat) == (if digits > 0 then Decimal(val) else "") + [c]
  {
  }

  lemma {:induction false} ScanSound(s: string, done: seq<byte>, val: byte, digits: nat)
    requires |done| <= 3 && (digits == 0 ==> val == 0) && (digits > 0 ==> |Decimal(val)| == digits)
    ensures Scan(s, done, val, digits).Some? ==>
              |Scan(s, done, val, digits).value| == 4 && Dotted(Scan(s, done, val, digits).value) == Text(done, val, digits) + s
  {
    if Scan(s, done, val, digits).Some? {
      if s == "" {
        TextOfThree(done + [val], digits);
        assert (done + [val])[..3] == done;
      } else if s[0] == '.' {
        ScanSound(s[1..], done + [val], 0, 0);
        TextAfterDot(s, done, val, digits);
      } else {
        NextDigit(val, digits, s[0]);
        ScanSound(s[1..], done, val * 10 + (s[0] - '0') as nat, digits + 1);
        TextAfterDigit(s, done, val, digits);
      }
    }
  }

  lemma TextAfterDot(s: string, done: seq<byte>, val: byte, digits: nat)
    requires s != "" && s[0] == '.' && digits > 0
    ensures Text(done + [val], 0, 0) + s[1..] == Text(done, val, digits) + s
  {
  }

  lemma TextAfterDigit(s: string, done: seq<byte>, val: byte, digits: nat)
    requires s != "" && '0' <= s[0] <= '9' && !(digits == 1 && val == 0)
    requires (digits == 0 ==> val == 0) && (digits > 0 ==> |Decimal(val)| == digits)
    requires val * 10 + (s[0] - '0') as nat < 256
    ensures Text(done, val * 10 + (s[0] - '0') as nat, digits + 1) + s[1..] == Text(done, val, digits) + s
  {
  }

  lemma TextOfThree(b: seq<byte>, digits: nat)
    requires |b| == 4 && digits > 0
    ensures Text(b[..3], b[3], digits) == Dotted(b)
  {
    assert b[..3][..2] == b[..2] && b[..2][..1] == b[..1] && b[..1][..0] == [];
    assert Text(b[..1], 0, 0) == Decimal(b[0]) + ".";
    assert Text(b[..2], 0, 0) == Decimal(b[0]) + "." + Decimal(b[1]) + ".";
    assert Text(b[..3], 0, 0) == Decimal(b[0]) + "." + Decimal(b[1]) + "." + Decimal(b[2]) + ".";
  }

  /** Reading the decimal text of an octet. */
  lemma {:induction false} ScanOctet(b: byte, rest: string, done: seq<byte>)
    ensures Scan(Decimal(b) + rest, done, 0, 0) == Scan(rest, done, b, |Decimal(b)|)
  {
    if b < 10 {
      assert ([Digit(b)] + rest)[1..] == rest;
    } else {
      var last := Digit(b % 10);
      assert Decimal(b) + rest == Decimal(b / 10) + ([last] + rest);
      ScanOctet(b / 10, [last] + rest, done);
      assert ([last] + rest)[1..] == rest;
      assert (last - '0') as nat == b % 10;
    }
  }

  lemma ScanField(b: byte, rest: string, done: seq<byte>)
    requires |done| < 3
    ensures Scan(Decimal(b) + "." + rest, done, 0, 0) == Scan(rest, done + [b], 0, 0)
  {
    assert Decimal(b) + "." + rest == Decimal(b) + ("." + rest);
    ScanOctet(b, "." + rest, done);
    assert ("." + rest)[1..] == rest;
  }

  lemma ScanComplete(b: seq<byte>)
    requires |b| == 4
    ensures ParseDotted(Dotted(b)) == Some(b)
  {
    var s3 := Decimal(b[3]);
    var s2 := Decimal(b[2]) + "." + s3;
    var s1 := Decimal(b[1]) + "." + s2;
    assert Dotted(b) == Decimal(b[0]) + "." + s1;
    ScanField(b[0], s1, []);
    ScanField(b[1], s2, b[..1]);
    ScanField(b[2], s3, b[..2]);
    assert [] + [b[0]] == b[..1] && b[..1] + [b[1]] == b[..2] && b[..2] + [b[2]] == b[..3];
    ScanOctet(b[3], "", b[..3]);
    assert s3 == s3 + "" && |s3| > 0;
    assert b[..3] + [b[3]] == b;
  }

  /** Reading accepts exactly what printing produces, and yields what was printed. */
  lemma ParsesExactly(s: string, b: seq<byte>)
    ensures ParseDotted(s) == Some(b) <==> |b| == 4 && s == Dotted(b)
  {
    ScanSound(s, [], 0, 0);
    assert Text([], 0, 0) + s == s;
    if |b| == 4 {
      ScanComplete(b);
    }
  }

  /** The four bytes of a word and back, in both directions. */
  lemma BytesRoundTrip(x: u32, b: seq<byte>)
    requires |b| == 4
    ensures LittleEndian(Bytes(x)) == x && Bytes(LittleEndian(b)) == b
  {
    WordOfBytes(x);
    BytesOfWord(b[0], b[1], b[2], b[3]);
    assert b == [b[0], b[1], b[2], b[3]];
  }

  lemma WordOfBytes(x: u32)
    ensures LittleEndian(Bytes(x)) == x
  {
    HighBytes(x);
    var y := x / 0x100;
    var z := y / 0x100;
    assert x == x % 0x100 + 0x100 * y && y == y % 0x100 + 0x100 * z && z == z % 0x100 + 0x100 * (z / 0x100);
  }

  lemma BytesOfWord(b0: byte, b1: byte, b2: byte, b3: byte)
    ensures Bytes(LittleEndian([b0, b1, b2, b3])) == [b0, b1, b2, b3]
  {
    var z: nat := b2 as int + 0x100 * b3 as int;
    var y: nat := b1 as int + 0x100 * z;
    var x: nat := b0 as int + 0x100 * y;
    Peel(b2, b3);
    Peel(b1, z);
    Peel(b0, y);
    HighBytes(x);
    assert LittleEndian([b0, b1, b2, b3]) == x;
  }

  // ---------------------------------------------------------------- the manager

  /** `v6` stands for the library's reading of texts with a colon, as far as it yields 4 bytes. */
  function To4(ip: string, v6: string -> Option<seq<byte>>): Option<seq<byte>> {
    if ':' in ip then v6(ip) else ParseDotted(ip)
  }

  function IpToKey(ip: string, port: u32, v6: string -> Option<seq<byte>>): Option<Key> {
    match To4(ip, v6)
    case None => None
    case Some(b) => if |b| == 4 then Some(Key(LittleEndian(b), 0)) else None
  }

  /** What the agent reports as the remote address of a process. */
  function Reported(m: Metrics): string {
    Dotted(Bytes(m.remoteIp))
  }

  class Manager {
    const objs: SockOps

    constructor (objs: SockOps)
      ensures this.objs == objs
    {
      this.objs := objs;
    }

    method SetAction(ip: string, port: u32, action: Action, v6: string -> Option<seq<byte>>) returns (ok: bool)
      modifies objs`actionMap
      ensures ok <==> IpToKey(ip, port, v6).Some?
      ensures objs.actionMap == if ok then old(objs.actionMap)[IpToKey(ip, port, v6).value := action] else old(objs.actionMap)
    {
      var key := IpToKey(ip, port, v6);
      if key.None? {
        return false;
      }
      objs.actionMap := objs.actionMap[key.value := action];
      return true;
    }

    method GetMetricForPid(pid: u32) returns (metric: Option<Metrics>, ip: string, port: u32)
      ensures metric == if pid in objs.metricsMap then Some(objs.metricsMap[pid]) else None
      ensures metric.Some? ==> ip == Reported(metric.value) && port == metric.value.remotePort
      ensures metric.None? ==> ip == "" && port == 0
    {
      if pid !in objs.metricsMap {
        return None, "", 0;
      }
      var m := objs.metricsMap[pid];
      return Some(m), Dotted(Bytes(m.remoteIp)), m.remotePort;
    }
  }

  lemma {:induction false} DecimalHasNoColon(n: nat)
    ensures ':' !in Decimal(n)
  {
    if n >= 10 {
      DecimalHasNoColon(n / 10);
    }
  }

  lemma DottedHasNoColon(b: seq<byte>)
    requires |b| == 4
    ensures ':' !in Dotted(b)
  {
    DecimalHasNoColon(b[0]);
    DecimalHasNoColon(b[1]);
    DecimalHasNoColon(b[2]);
    DecimalHasNoColon(b[3]);
  }

  /** The reported text of an address turns back into the key of exactly that address; among the
      texts without a colon no other one does. */
  lemma KeyOfReported(r: u32, ip: string, port: u32, v6: string -> Option<seq<byte>>)
    requires ':' !in ip
    ensures IpToKey(ip, port, v6) == Some(Key(r, 0)) <==> ip == Dotted(Bytes(r))
  {
    var b := Bytes(r);
    BytesRoundTrip(r, b);
    ParsesExactly(ip, b);
    if IpToKey(ip, port, v6) == Some(Key(r, 0)) {
      BytesRoundTrip(r, ParseDotted(ip).value);
    }
  }

  /** The key of an address text, byte by byte: the first number counts least. */
  lemma KeyOfDotted(b: seq<byte>, ip: string, port: u32, v6: string -> Option<seq<byte>>)
    requires |b| == 4 && ip == Decimal(b[0]) + "." + Decimal(b[1]) + "." + Decimal(b[2]) + "." + Decimal(b[3])
    ensures IpToKey(ip, port, v6) == Some(Key(b[0] as int + b[1] as int * 0x100 + b[2] as int * 0x1_0000 + b[3] as int * 0x100_0000, 0))
  {
    assert ip == Dotted(b);
    DottedHasNoColon(b);
    ScanComplete(b);
  }

  /** A text with a colon is left to the library; what it yields counts in the same way, if it is 4 bytes. */
  lemma KeyOfColons(ip: string, port: u32, v6: string -> Option<seq<byte>>)
    requires ':' in ip
    ensures var key := IpToKey(ip, port, v6);
            if v6(ip).Some? && |v6(ip).value| == 4 then
              var b := v6(ip).value;
              key == Some(Key(b[0] as int + b[1] as int * 0x100 + b[2] as int * 0x1_0000 + b[3] as int * 0x100_0000, 0))
            else key == None
  {
  }

  /** End to end, as values. Let process `p` connect at step `i` of a trace and not again. Once an action
      is stored for the address then reported for `p`, a socket that gets established is given this
      action if its remote address is the one `p` connected to, and otherwise what it was given before. */
  lemma ActionReachesReported(t: seq<Event>, i: nat, p: u32, port: u32, v6: string -> Option<seq<byte>>,
                              before: map<Key, Action>, action: Action, e: Event)
    requires i < |t| && t[i].Connects() && t[i].Pid() == p
    requires forall k :: i < k < |t| ==> !(t[k].Connects() && t[k].Pid() == p)
    ensures p in Replay(t).metrics
    ensures IpToKey(Reported(Replay(t).metrics[p]), port, v6).Some?
    ensures var key := IpToKey(Reported(Replay(t).metrics[p]), port, v6).value;
            Chosen(before[key := action], e) ==
            if e.Establishes() && e.remoteIp4 == t[i].remoteIp4 then Some(action) else Chosen(before, e)
  {
    ConnectRemembered(t, i, p);
    var r := t[i].remoteIp4;
    DottedHasNoColon(Bytes(r));
    KeyOfReported(r, Dotted(Bytes(r)), port, v6);
    assert IpToKey(Reported(Replay(t).metrics[p]), port, v6) == Some(Key(r, 0));
  }

  // ---------------------------------------------------------------- the agent's server

  lemma ReplayNext(t: seq<Event>, events: seq<Event>, j: nat)
    requires j < |events|
    ensures Replay(t + events[..j + 1]) == Next(Replay(t + events[..j]), events[j])
  {
    AppendReplay(t + events[..j], events[j]);
    assert t + events[..j + 1] == t + events[..j] + [events[j]];
  }

  /** The kernel runs the program on each event. */
  method RunProgram(objs: SockOps, events: seq<Event>, ghost t: seq<Event>) returns (acts: seq<Option<Action>>)
    requires objs.View() == Replay(t)
    modifies objs`cookiePidMap, objs`metricsMap
    ensures objs.View() == Replay(t + events)
    ensures |acts| == |events| && forall j :: 0 <= j < |acts| ==> acts[j] == Chosen(objs.actionMap, events[j])
  {
    acts := [];
    assert t + events[..0] == t;
    for j := 0 to |events|
      invariant objs.actionMap == old(objs.actionMap) && objs.View() == Replay(t + events[..j])
      invariant |acts| == j && forall k :: 0 <= k < j ==> acts[k] == Chosen(objs.actionMap, events[k])
    {
      var act, _ := objs.BpfSockmap(events[j]);
      acts := acts + [act];
      ReplayNext(t, events, j);
    }
    assert events[..|events|] == events;
  }

  /** One Step of the agent, and the actions its sockets are given: an address without a key is an error
      without effect; otherwise the action is stored, the command causes the events, and the metrics of
      process `pid` come back, as its own events alone would leave them. */
  method AgentStep(m: Manager, targetIp: string, targetPort: u32, action: Action, v6: string -> Option<seq<byte>>,
                   events: seq<Event>, pid: u32, ghost t: seq<Event>)
      returns (ok: bool, metric: Option<Metrics>, ip: string, port: u32, acts: seq<Option<Action>>)
    requires m.objs.View() == Replay(t)
    modifies m.objs
    ensures var key := IpToKey(targetIp, targetPort, v6);
            && ok == key.Some?
            && (!ok ==> m.objs.View() == old(m.objs.View()) && m.objs.actionMap == old(m.objs.actionMap) && acts == [])
            && (ok ==> && m.objs.actionMap == old(m.objs.actionMap)[key.value := action]
                       && m.objs.View() == Replay(t + events) && |acts| == |events|)
    ensures forall j :: 0 <= j < |acts| ==> acts[j] == Chosen(m.objs.actionMap, events[j])
    ensures ok ==> metric == if pid in Replay(t + events).metrics then Some(Replay(t + events).metrics[pid]) else None
    ensures ok ==> var own := Replay(Own(t + events, pid)).metrics;
                   metric == if pid in own then Some(own[pid]) else None
    ensures ok && metric.Some? ==> ip == Reported(metric.value) && port == metric.value.remotePort
  {
    metric, ip, port, acts := None, "", 0, [];
    ok := m.SetAction(targetIp, targetPort, action, v6);
    if !ok {
      return;
    }
    acts := RunProgram(m.objs, events, t);
    metric, ip, port := m.GetMetricForPid(pid);
    NonInterference(t + events, pid);
  }

  /** End to end, as it runs. The client is told the address of process `p`, which connected at step `i`,
      and sends it back with an action. The Step succeeds, and of the sockets established during it
      exactly those to the address `p` had connected to are given this action; the others are given
      what the program would have given them before. */
  method TuneReported(m: Manager, p: u32, action: Action, v6: string -> Option<seq<byte>>,
                      events: seq<Event>, pid: u32, ghost t: seq<Event>, ghost i: nat)
      returns (ok: bool, acts: seq<Option<Action>>)
    requires m.objs.View() == Replay(t)
    requires i < |t| && t[i].Connects() && t[i].Pid() == p
    requires forall k :: i < k < |t| ==> !(t[k].Connects() && t[k].Pid() == p)
    modifies m.objs
    ensures ok && |acts| == |events|
    ensures forall j :: 0 <= j < |acts| ==>
              acts[j] == (if events[j].Establishes() && events[j].remoteIp4 == t[i].remoteIp4 then Some(action)
                          else Chosen(old(m.objs.actionMap), events[j]))
  {
    ghost var before := m.objs.actionMap;
    var metric, ip, port := m.GetMetricForPid(p);
    ConnectRemembered(t, i, p);
    assert m.objs.metricsMap == Replay(t).metrics;
    forall e: Event
      ensures IpToKey(ip, port, v6).Some?
      ensures Chosen(before[IpToKey(ip, port, v6).value := action], e) ==
              if e.Establishes() && e.remoteIp4 == t[i].remoteIp4 then Some(action) else Chosen(before, e)
    {
      ActionReachesReported(t, i, p, port, v6, before, action, e);
    }
    var again, to, at;
    ok, again, to, at, acts := AgentStep(m, ip, port, action, v6, events, pid, t);
  }
}
