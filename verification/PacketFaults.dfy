/** Fault injection: every n-th packet is dropped, every n-th is held back and swapped
    with its successor, and bursts are lost at random. Control packets pass untouched. */
module PacketFaults {
  import opened Words
  import opened RtpHeader

  type Packet = seq<u8>

  datatype FaultConfig = FaultConfig(dropEveryNth: u32, reorderEveryNth: u32, burst: bool)

  predicate FaultsEnabled(c: FaultConfig)
  {
    c.dropEveryNth != 0 || c.reorderEveryNth != 0 || c.burst
  }

  datatype FaultState = FaultState(packetsSeen: nat, delayed: Option<Packet>)

  const NO_FAULTS := FaultState(0, None)

  predicate Nth(n: u32, count: nat)
  {
    n != 0 && count % n == 0
  }

  /** The new state, what comes out in order, and whether the packet was dropped. `burst`
      is what the random model of burst losses said about this packet. */
  function Fault(c: FaultConfig, s: FaultState, p: Packet, burst: bool): (FaultState, seq<Packet>, bool)
  {
    if IsRtcp(p) || !FaultsEnabled(c) then (s, [p], false)
    else
      var seen := s.(packetsSeen := s.packetsSeen + 1);
      if (c.burst && burst) || Nth(c.dropEveryNth, seen.packetsSeen) then (seen, [], true)
      else if s.delayed.Some? then (seen.(delayed := None), [p, s.delayed.value], false)
      else if Nth(c.reorderEveryNth, seen.packetsSeen) then (seen.(delayed := Some(p)), [], false)
      else (seen, [p], false)
  }

  function Outcome(first: Option<Packet>, second: Option<Packet>): seq<Packet>
  {
    (if first.Some? then [first.value] else []) + (if second.Some? then [second.value] else [])
  }

  class RtpFaults {
    const config: FaultConfig
    var packetsSeen: nat
    var delayedPacket: Option<Packet>

    ghost function Value(): FaultState
      reads this
    {
      FaultState(packetsSeen, delayedPacket)
    }

    constructor (config: FaultConfig)
      ensures Value() == NO_FAULTS && this.config == config
    {
      this.config := config;
      packetsSeen, delayedPacket := 0, None;
    }

    /** `apply_rtp_faults` */
    method Apply(packet: Packet, burst: bool) returns (first: Option<Packet>, second: Option<Packet>)
      modifies this
      ensures var (value, out, _) := Fault(config, old(Value()), packet, burst);
              Value() == value && Outcome(first, second) == out
    {
      first, second := None, None;
      if IsRtcp(packet) || (config.dropEveryNth == 0 && config.reorderEveryNth == 0 && !config.burst) {
        first := Some(packet);
        return;
      }
      packetsSeen := packetsSeen + 1;
      var burstDrop := config.burst && burst;
      if burstDrop || (config.dropEveryNth != 0 && packetsSeen % config.dropEveryNth == 0) {
        return;
      }
      if delayedPacket.Some? {
        first, second := Some(packet), delayedPacket;
        delayedPacket := None;
        return;
      }
      if config.reorderEveryNth != 0 && packetsSeen % config.reorderEveryNth == 0 {
        delayedPacket := Some(packet);
        return;
      }
      first := Some(packet);
    }
  }

  // ---------------------------------------------------------------- runs

  datatype Arrival = Arrival(packet: Packet, burst: bool)

  /** A run: the state, everything that came out, and the media packets that were not
      dropped, in the order they came in. */
  datatype FaultRun = FaultRun(state: FaultState, out: seq<Packet>, survivors: seq<Packet>)

  function RunFaults(c: FaultConfig, arrivals: seq<Arrival>): FaultRun
    decreases |arrivals|
  {
    if arrivals == [] then FaultRun(NO_FAULTS, [], [])
    else
      var last := |arrivals| - 1;
      var before := RunFaults(c, arrivals[..last]);
      var (state, out, dropped) := Fault(c, before.state, arrivals[last].packet, arrivals[last].burst);
      FaultRun(state, before.out + out,
               if dropped || IsRtcp(arrivals[last].packet) then before.survivors
               else before.survivors + [arrivals[last].packet])
  }

  /** The media packets of a sequence. */
  function MediaOf(packets: seq<Packet>): seq<Packet>
  {
    if packets == [] then []
    else
      var rest := MediaOf(packets[..|packets| - 1]);
      if IsRtcp(packets[|packets| - 1]) then rest else rest + [packets[|packets| - 1]]
  }

  lemma {:induction false} MediaOfConcat(a: seq<Packet>, b: seq<Packet>)
    ensures MediaOf(a + b) == MediaOf(a) + MediaOf(b)
    decreases |b|
  {
    if b == [] {
      assert a + b == a;
    } else {
      assert (a + b)[..|a + b| - 1] == a + b[..|b| - 1];
      MediaOfConcat(a, b[..|b| - 1]);
    }
  }

  function Held(s: FaultState): seq<Packet>
  {
    if s.delayed.Some? then [s.delayed.value] else []
  }

  /** `b` is `a` with some disjoint pairs of neighbours swapped. */
  predicate Swapped(a: seq<Packet>, b: seq<Packet>)
    decreases |a|
  {
    if a == [] || b == [] then a == b
    else
      || (a[0] == b[0] && Swapped(a[1..], b[1..]))
      || (|a| >= 2 && |b| >= 2 && a[0] == b[1] && a[1] == b[0] && Swapped(a[2..], b[2..]))
  }

  lemma {:induction false} SwappedConcat(a: seq<Packet>, b: seq<Packet>, x: seq<Packet>, y: seq<Packet>)
    requires Swapped(a, b) && Swapped(x, y)
    ensures Swapped(a + x, b + y)
    decreases |a|
  {
    if a == [] || b == [] {
      assert a + x == x && b + y == y;
    } else if a[0] == b[0] && Swapped(a[1..], b[1..]) {
      assert (a + x)[1..] == a[1..] + x && (b + y)[1..] == b[1..] + y;
      SwappedConcat(a[1..], b[1..], x, y);
    } else {
      assert (a + x)[2..] == a[2..] + x && (b + y)[2..] == b[2..] + y;
      SwappedConcat(a[2..], b[2..], x, y);
    }
  }

  /** Swapping neighbours neither loses nor doubles a packet. */
  lemma {:induction false} SwappedKeepsAll(a: seq<Packet>, b: seq<Packet>)
    requires Swapped(a, b)
    ensures multiset(a) == multiset(b)
    decreases |a|
  {
    if a != [] && b != [] {
      if a[0] == b[0] && Swapped(a[1..], b[1..]) {
        SwappedKeepsAll(a[1..], b[1..]);
        assert a == [a[0]] + a[1..] && b == [b[0]] + b[1..];
      } else {
        SwappedKeepsAll(a[2..], b[2..]);
        assert a == [a[0], a[1]] + a[2..] && b == [b[0], b[1]] + b[2..];
      }
    }
  }

  lemma OneSwap(x: Packet, y: Packet)
    ensures Swapped([x], [x]) && Swapped([x, y], [y, x])
  {
    assert [x][1..] == [] && [x, y][2..] == [] && [y, x][2..] == [];
    assert Swapped([], []);
  }

  /** What is out, and what is held back, account for the survivors. */
  ghost predicate Accounted(r: FaultRun)
  {
    && (r.state.delayed.Some? ==> !IsRtcp(r.state.delayed.value) && r.survivors != []
                                  && r.survivors[|r.survivors| - 1] == r.state.delayed.value)
    && Swapped(r.survivors[..|r.survivors| - |Held(r.state)|], MediaOf(r.out))
  }

  lemma FaultKeepsAccount(c: FaultConfig, r: FaultRun, p: Packet, burst: bool)
    requires FaultsEnabled(c) && Accounted(r)
    ensures var (state, out, dropped) := Fault(c, r.state, p, burst);
            Accounted(FaultRun(state, r.out + out, if dropped || IsRtcp(p) then r.survivors else r.survivors + [p]))
  {
    hide Swapped, IsRtcp, Nth, Accounted, FaultsEnabled;
    if IsRtcp(p) {
      ControlAccount(c, r, p);
    } else {
      var (state, out, dropped) := Fault(c, r.state, p, burst);
      if dropped {
        DropAccount(r, state);
      } else if r.state.delayed.Some? {
        ReleaseAccount(r, p, state);
      } else if state.delayed.Some? {
        HoldAccount(r, p, state);
      } else {
        PassAccount(r, p, state);
      }
    }
  }

  lemma ControlAccount(c: FaultConfig, r: FaultRun, p: Packet)
    requires Accounted(r) && IsRtcp(p)
    ensures Accounted(r.(out := r.out + [p]))
  {
    hide Swapped, IsRtcp;
    MediaOfConcat(r.out, [p]);
    assert [p][..0] == [];
    assert MediaOf([p]) == [];
  }

  lemma DropAccount(r: FaultRun, state: FaultState)
    requires Accounted(r) && state.delayed == r.state.delayed
    ensures Accounted(FaultRun(state, r.out + [], r.survivors))
  {
    hide Swapped, MediaOf, IsRtcp;
    assert r.out + [] == r.out;
  }

  lemma ReleaseAccount(r: FaultRun, p: Packet, state: FaultState)
    requires Accounted(r) && r.state.delayed.Some? && state.delayed.None? && !IsRtcp(p)
    ensures Accounted(FaultRun(state, r.out + [p, r.state.delayed.value], r.survivors + [p]))
  {
    hide Swapped, MediaOf, IsRtcp;
    var h := r.state.delayed.value;
    var before := r.survivors[..|r.survivors| - 1];
    MediaOfConcat(r.out, [p, h]);
    MediaPair(p, h);
    OneSwap(h, p);
    SwappedConcat(before, MediaOf(r.out), [h, p], [p, h]);
    assert r.survivors + [p] == before + [h, p];
    assert (r.survivors + [p])[..|r.survivors + [p]|] == r.survivors + [p];
  }

  lemma HoldAccount(r: FaultRun, p: Packet, state: FaultState)
    requires Accounted(r) && r.state.delayed.None? && state.delayed == Some(p) && !IsRtcp(p)
    ensures Accounted(FaultRun(state, r.out + [], r.survivors + [p]))
  {
    hide Swapped, MediaOf, IsRtcp;
    assert r.out + [] == r.out;
    assert (r.survivors + [p])[..|r.survivors|] == r.survivors == r.survivors[..|r.survivors|];
  }

  lemma PassAccount(r: FaultRun, p: Packet, state: FaultState)
    requires Accounted(r) && r.state.delayed.None? && state.delayed.None? && !IsRtcp(p)
    ensures Accounted(FaultRun(state, r.out + [p], r.survivors + [p]))
  {
    hide Swapped, IsRtcp;
    MediaOfConcat(r.out, [p]);
    assert [p][..0] == [] && MediaOf([p]) == [p];
    OneSwap(p, p);
    assert r.survivors[..|r.survivors|] == r.survivors;
    SwappedConcat(r.survivors, MediaOf(r.out), [p], [p]);
    assert (r.survivors + [p])[..|r.survivors + [p]|] == r.survivors + [p];
  }

  lemma MediaPair(a: Packet, b: Packet)
    requires !IsRtcp(a) && !IsRtcp(b)
    ensures MediaOf([a, b]) == [a, b]
  {
    hide IsRtcp;
    assert [a, b][..1] == [a] && [a][..0] == [];
    assert MediaOf([a]) == MediaOf([]) + [a];
  }

  lemma {:induction false} RunAccounted(c: FaultConfig, arrivals: seq<Arrival>)
    requires FaultsEnabled(c)
    ensures Accounted(RunFaults(c, arrivals))
    decreases |arrivals|
  {
    hide Accounted, Fault;
    if arrivals == [] {
      NothingAccounted();
    } else {
      var last := |arrivals| - 1;
      RunAccounted(c, arrivals[..last]);
      FaultKeepsAccount(c, RunFaults(c, arrivals[..last]), arrivals[last].packet, arrivals[last].burst);
    }
  }

  lemma NothingAccounted()
    ensures Accounted(FaultRun(NO_FAULTS, [], []))
  {
  }

  /** Conservation. The media that came out, followed by at most one held packet, is the
      media that was not dropped with disjoint neighbours swapped: each packet once. */
  lemma FaultsConservePackets(c: FaultConfig, arrivals: seq<Arrival>)
    requires FaultsEnabled(c)
    ensures var r := RunFaults(c, arrivals);
            && |Held(r.state)| <= 1
            && Swapped(r.survivors, MediaOf(r.out) + Held(r.state))
            && multiset(r.survivors) == multiset(MediaOf(r.out)) + multiset(Held(r.state))
  {
    hide MediaOf;
    RunAccounted(c, arrivals);
    var r := RunFaults(c, arrivals);
    var before := r.survivors[..|r.survivors| - |Held(r.state)|];
    HeldSwapped(r.state);
    SwappedConcat(before, MediaOf(r.out), Held(r.state), Held(r.state));
    assert r.survivors == before + Held(r.state);
    SwappedKeepsAll(r.survivors, MediaOf(r.out) + Held(r.state));
  }

  lemma HeldSwapped(s: FaultState)
    ensures Swapped(Held(s), Held(s))
  {
    if s.delayed.Some? {
      OneSwap(s.delayed.value, s.delayed.value);
    }
  }

  // ---------------------------------------------------------------- control packets

  /** The control packets of a sequence. */
  function ControlOf(packets: seq<Packet>): seq<Packet>
  {
    if packets == [] then []
    else
      var rest := ControlOf(packets[..|packets| - 1]);
      if IsRtcp(packets[|packets| - 1]) then rest + [packets[|packets| - 1]] else rest
  }

  function PacketsOf(arrivals: seq<Arrival>): seq<Packet>
  {
    seq(|arrivals|, i requires 0 <= i < |arrivals| => arrivals[i].packet)
  }

  lemma {:induction false} ControlOfConcat(a: seq<Packet>, b: seq<Packet>)
    ensures ControlOf(a + b) == ControlOf(a) + ControlOf(b)
    decreases |b|
  {
    if b == [] {
      assert a + b == a;
    } else {
      assert (a + b)[..|a + b| - 1] == a + b[..|b| - 1];
      ControlOfConcat(a, b[..|b| - 1]);
    }
  }

  lemma ControlOfOne(p: Packet)
    ensures ControlOf([p]) == if IsRtcp(p) then [p] else []
  {
    hide IsRtcp;
    assert [p][..0] == [];
  }

  lemma ControlOfMedia(a: Packet, b: Packet)
    requires !IsRtcp(a) && !IsRtcp(b)
    ensures ControlOf([a, b]) == []
  {
    hide IsRtcp;
    assert [a, b][..1] == [a];
    ControlOfOne(a);
  }

  lemma StepControl(c: FaultConfig, s: FaultState, p: Packet, burst: bool)
    requires FaultsEnabled(c) && (s.delayed.Some? ==> !IsRtcp(s.delayed.value))
    ensures ControlOf(Fault(c, s, p, burst).1) == ControlOf([p])
  {
    hide IsRtcp, ControlOf, Nth;
    ControlOfOne(p);
    EmptyControl();
    if s.delayed.Some? && !IsRtcp(p) {
      ControlOfMedia(p, s.delayed.value);
    }
  }

  lemma EmptyControl()
    ensures ControlOf([]) == []
  {
  }

  /** Control packets come out as they came in, each once and in order; with no fault
      configured everything does. */
  lemma {:induction false} ControlPasses(c: FaultConfig, arrivals: seq<Arrival>)
    ensures ControlOf(RunFaults(c, arrivals).out) == ControlOf(PacketsOf(arrivals))
    ensures !FaultsEnabled(c) ==> RunFaults(c, arrivals).out == PacketsOf(arrivals)
    decreases |arrivals|
  {
    hide IsRtcp, ControlOf, FaultsEnabled;
    if arrivals == [] {
      assert PacketsOf(arrivals) == [];
    } else {
      var last := |arrivals| - 1;
      var before, p := RunFaults(c, arrivals[..last]), arrivals[last].packet;
      ControlPasses(c, arrivals[..last]);
      assert PacketsOf(arrivals) == PacketsOf(arrivals[..last]) + [p];
      ControlOfConcat(PacketsOf(arrivals[..last]), [p]);
      ControlOfConcat(before.out, Fault(c, before.state, p, arrivals[last].burst).1);
      if FaultsEnabled(c) {
        RunAccounted(c, arrivals[..last]);
        StepControl(c, before.state, p, arrivals[last].burst);
      }
    }
  }

  // ---------------------------------------------------------------- how many are dropped

  function MediaCount(arrivals: seq<Arrival>): nat
  {
    if arrivals == [] then 0
    else MediaCount(arrivals[..|arrivals| - 1]) + (if IsRtcp(arrivals[|arrivals| - 1].packet) then 0 else 1)
  }

  lemma NextQuotient(n: nat, d: nat)
    requires d > 0
    ensures (n + 1) / d == n / d + (if (n + 1) % d == 0 then 1 else 0)
  {
    var q, r := n / d, n % d;
    assert n == q * d + r;
    if r + 1 == d {
      assert n + 1 == (q + 1) * d;
      Quotient(n + 1, d, q + 1, 0);
    } else {
      Quotient(n + 1, d, q, r + 1);
    }
  }

  lemma Quotient(n: nat, d: nat, q: nat, r: nat)
    requires d > 0 && n == q * d + r && r < d
    ensures n / d == q && n % d == r
  {
    var x := n / d - q;
    assert n == (n / d) * d + n % d;
    assert x * d == (n / d) * d - q * d;
    AtLeastOne(x, d);
  }

  lemma AtLeastOne(x: int, d: int)
    requires d > 0
    ensures x >= 1 ==> x * d >= d
    ensures x <= -1 ==> x * d <= -d
  {
    if x >= 1 {
      assert x * d == (x - 1) * d + d;
    } else if x <= -1 {
      assert x * d == -((-x - 1) * d) - d;
    }
  }

  /** Without burst losses exactly every d-th media packet is dropped. */
  lemma {:induction false} DropsEveryNth(c: FaultConfig, arrivals: seq<Arrival>)
    requires !c.burst && c.dropEveryNth > 0
    ensures RunFaults(c, arrivals).state.packetsSeen == MediaCount(arrivals)
    ensures |RunFaults(c, arrivals).survivors| + MediaCount(arrivals) / c.dropEveryNth == MediaCount(arrivals)
    decreases |arrivals|
  {
    hide IsRtcp;
    if arrivals != [] {
      var last := |arrivals| - 1;
      DropsEveryNth(c, arrivals[..last]);
      NextQuotient(MediaCount(arrivals[..last]), c.dropEveryNth);
    } else {
      Quotient(0, c.dropEveryNth, 0, 0);
    }
  }

  // ---------------------------------------------------------------- which are dropped, which are swapped

  /** The media packets that are not lost: not those a burst takes, and not every d-th. */
  function NotLost(c: FaultConfig, arrivals: seq<Arrival>): seq<Packet>
  {
    if arrivals == [] then []
    else
      var last := arrivals[|arrivals| - 1];
      var before := NotLost(c, arrivals[..|arrivals| - 1]);
      if IsRtcp(last.packet) || (c.burst && last.burst)
         || (c.dropEveryNth > 0 && MediaCount(arrivals) % c.dropEveryNth == 0)
      then before else before + [last.packet]
  }

  lemma {:induction false} SurvivorsAreNotLost(c: FaultConfig, arrivals: seq<Arrival>)
    requires FaultsEnabled(c)
    ensures RunFaults(c, arrivals).survivors == NotLost(c, arrivals)
    ensures RunFaults(c, arrivals).state.packetsSeen == MediaCount(arrivals)
    decreases |arrivals|
  {
    hide IsRtcp, FaultsEnabled;
    if arrivals != [] {
      SurvivorsAreNotLost(c, arrivals[..|arrivals| - 1]);
    }
  }

  /** The packet that is held back after these arrivals: the last one, if it is not lost,
      nothing was held before it, and its number is a multiple; control and lost packets
      leave the held one where it is. */
  function HeldBack(c: FaultConfig, arrivals: seq<Arrival>): Option<Packet>
  {
    if arrivals == [] then None
    else
      var before := arrivals[..|arrivals| - 1];
      if NotLost(c, arrivals) == NotLost(c, before) then HeldBack(c, before)
      else if HeldBack(c, before).None? && c.reorderEveryNth > 0 && MediaCount(arrivals) % c.reorderEveryNth == 0
      then Some(arrivals[|arrivals| - 1].packet)
      else None
  }

  /** With any settings, over every run: control goes out at once, a lost packet does not, a
      survivor goes out in front of the held packet, or is held itself, or goes out alone. */
  lemma {:induction false} HoldsExactly(c: FaultConfig, arrivals: seq<Arrival>)
    requires FaultsEnabled(c)
    ensures RunFaults(c, arrivals).state.delayed == HeldBack(c, arrivals)
    ensures arrivals != [] ==>
              var p, before := arrivals[|arrivals| - 1].packet, arrivals[..|arrivals| - 1];
              RunFaults(c, arrivals).out == RunFaults(c, before).out
                + (if IsRtcp(p) then [p]
                   else if NotLost(c, arrivals) == NotLost(c, before) then []
                   else if HeldBack(c, before).Some? then [p, HeldBack(c, before).value]
                   else if HeldBack(c, arrivals).Some? then [] else [p])
    decreases |arrivals|
  {
    hide IsRtcp, FaultsEnabled;
    if arrivals != [] {
      HoldsExactly(c, arrivals[..|arrivals| - 1]);
      SurvivorsAreNotLost(c, arrivals);
      SurvivorsAreNotLost(c, arrivals[..|arrivals| - 1]);
    }
  }

  /** Where the packet at place `x` of the output came from, when every n-th packet is held
      back: packets n, 2n and so on change places with their successors; with n = 1 the
      packets change places in pairs. */
  function Origin(n: nat, x: nat): nat
    requires n > 0
  {
    if n == 1 then (if x % 2 == 0 then x + 1 else x - 1)
    else if (x + 1) % n == 0 then x + 1
    else if x > 0 && x % n == 0 then x - 1
    else x
  }

  /** After `count` packets the last one is held back. */
  predicate Holding(n: nat, count: nat)
    requires n > 0
  {
    if n == 1 then count % 2 == 1 else count > 0 && count % n == 0
  }

  lemma HoldingNext(n: nat, count: nat)
    requires n > 0
    ensures Holding(n, count) ==> !Holding(n, count + 1) && count > 0
    ensures Holding(n, count) ==> Origin(n, count - 1) == count && Origin(n, count) == count - 1
    ensures !Holding(n, count) ==> (Holding(n, count + 1) <==> (count + 1) % n == 0)
    ensures !Holding(n, count) && !Holding(n, count + 1) ==> Origin(n, count) == count
  {
    if n == 1 {
      EveryOther(count);
    } else {
      EveryNth(n, count);
    }
  }

  lemma EveryNth(n: nat, count: nat)
    requires n > 1
    ensures Holding(n, count) ==> !Holding(n, count + 1) && count > 0
    ensures Holding(n, count) ==> Origin(n, count - 1) == count && Origin(n, count) == count - 1
    ensures !Holding(n, count) ==> (Holding(n, count + 1) <==> (count + 1) % n == 0)
    ensures !Holding(n, count) && !Holding(n, count + 1) ==> Origin(n, count) == count
  {
    hide Holding, Origin;
    NextRemainder(n, count);
    NextRemainder(n, count + 1);
    HoldingIs(n, count);
    HoldingIs(n, count + 1);
  }

  lemma NextRemainder(n: nat, count: nat)
    requires n > 1
    ensures count % n == 0 ==> (count + 1) % n != 0
  {
    if count % n == 0 {
      Quotient(count + 1, n, count / n, 1);
    }
  }

  lemma HoldingIs(n: nat, count: nat)
    requires n > 1 && (count % n == 0 ==> (count + 1) % n != 0)
    ensures Holding(n, count) <==> count > 0 && count % n == 0
    ensures count > 0 && count % n == 0 ==> Origin(n, count - 1) == count && Origin(n, count) == count - 1
    ensures count % n != 0 && (count + 1) % n != 0 ==> Origin(n, count) == count
    ensures count == 0 && (count + 1) % n != 0 ==> Origin(n, count) == count
  {
  }

  lemma EveryOther(count: nat)
    ensures Holding(1, count) <==> count % 2 == 1
    ensures Holding(1, count + 1) <==> count % 2 == 0
    ensures count % 2 == 1 ==> Origin(1, count - 1) == count && Origin(1, count) == count - 1
    ensures (count + 1) % 1 == 0
  {
  }

  /** What came out after `media` packets: each place holds the packet of its origin. */
  ghost predicate Reordered(n: nat, media: seq<Packet>, r: FaultRun)
    requires n > 0
  {
    var out := MediaOf(r.out);
    && r.survivors == media && r.state.packetsSeen == |media|
    && r.state.delayed == (if Holding(n, |media|) && media != [] then Some(media[|media| - 1]) else None)
    && |out| + |Held(r.state)| == |media|
    && forall x :: 0 <= x < |out| ==> Origin(n, x) < |media| && out[x] == media[Origin(n, x)]
  }

  /** With nothing but the reordering configured, every media packet comes out, and exactly
      every n-th has changed places with its successor. */
  lemma {:induction false} ReordersEveryNth(c: FaultConfig, arrivals: seq<Arrival>)
    requires !c.burst && c.dropEveryNth == 0 && c.reorderEveryNth > 0
    ensures Reordered(c.reorderEveryNth, MediaOf(PacketsOf(arrivals)), RunFaults(c, arrivals))
    decreases |arrivals|
  {
    hide IsRtcp, Reordered, MediaOf, Fault;
    if arrivals == [] {
      assert PacketsOf(arrivals) == [];
      NothingReordered(c.reorderEveryNth);
    } else {
      var last := |arrivals| - 1;
      ReordersEveryNth(c, arrivals[..last]);
      RunAccounted(c, arrivals[..last]);
      var p := arrivals[last].packet;
      assert PacketsOf(arrivals) == PacketsOf(arrivals[..last]) + [p];
      MediaOfConcat(PacketsOf(arrivals[..last]), [p]);
      MediaOfOne(p);
      ReorderNext(c, MediaOf(PacketsOf(arrivals[..last])), RunFaults(c, arrivals[..last]), p, arrivals[last].burst);
    }
  }

  lemma NothingReordered(n: nat)
    requires n > 0
    ensures Reordered(n, MediaOf([]), FaultRun(NO_FAULTS, [], []))
  {
  }

  lemma MediaOfOne(p: Packet)
    ensures MediaOf([p]) == if IsRtcp(p) then [] else [p]
  {
    hide IsRtcp;
    assert [p][..0] == [];
  }

  lemma ReorderNext(c: FaultConfig, media: seq<Packet>, r: FaultRun, p: Packet, burst: bool)
    requires !c.burst && c.dropEveryNth == 0 && c.reorderEveryNth > 0 && Reordered(c.reorderEveryNth, media, r)
    requires r.state.delayed.Some? ==> !IsRtcp(r.state.delayed.value)
    ensures var (state, out, dropped) := Fault(c, r.state, p, burst);
            Reordered(c.reorderEveryNth, media + (if IsRtcp(p) then [] else [p]),
                      FaultRun(state, r.out + out, if dropped || IsRtcp(p) then r.survivors else r.survivors + [p]))
  {
    hide IsRtcp, MediaOf, Holding, Origin;
    var n: nat := c.reorderEveryNth;
    MediaOfOne(p);
    HoldingNext(n, |media|);
    var (state, out, dropped) := Fault(c, r.state, p, burst);
    MediaOfConcat(r.out, out);
    assert MediaOf([]) == [] by { NoMedia(); }
    assert media + [] == media;
    if r.state.delayed.Some? && !IsRtcp(p) {
      MediaPair(p, r.state.delayed.value);
    }
    assert Nth(0, |media| + 1) == false;
  }

  lemma NoMedia()
    ensures MediaOf([]) == []
  {
  }
}
