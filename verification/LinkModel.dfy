/** The simulated link: a serialiser with a fixed capacity, a delay behind it and a
    bounded queue in front of the receiver. Times are microseconds. */
module LinkModel {
  import opened Words

  datatype LinkConfig = LinkConfig(
    queueDelayMs: int,
    deviationMs: int,
    queueLength: nat,
    capacityKbps: u32,
    allowReordering: bool,
    duplicateEveryNth: u32)

  predicate LinkEnabled(c: LinkConfig)
  {
    c.queueDelayMs > 0 || c.deviationMs > 0 || c.capacityKbps > 0 || c.duplicateEveryNth > 0
  }

  datatype LinkState = LinkState(packetsSeen: nat, busyUntil: int, lastDeparture: int, queued: nat)

  const IDLE_LINK := LinkState(0, 0, 0, 0)

  /** An accepted packet: when its transmission starts and finishes, and when it leaves. */
  datatype Sent = Sent(arrival: int, bytes: nat, start: int, finish: int, departure: int, duplicate: bool)

  function Max(a: int, b: int): int { if a < b then b else a }

  function Serialization(c: LinkConfig, bytes: nat): nat
  {
    if c.capacityKbps == 0 then 0 else bytes * 8_000 / c.capacityKbps
  }

  /** The delay added behind the serialiser. The jitter is drawn by chance: `drawn` is
      whatever came out, cut off at zero. */
  function Delay(c: LinkConfig, drawn: nat): nat
  {
    if c.deviationMs > 0 then drawn
    else if c.queueDelayMs > 0 then c.queueDelayMs * 1_000
    else 0
  }

  function Schedule(c: LinkConfig, s: LinkState, arrival: int, bytes: nat, drawn: nat): (LinkState, Option<Sent>)
    requires LinkEnabled(c)
  {
    var seen := s.(packetsSeen := s.packetsSeen + 1);
    var start := Max(arrival, s.busyUntil);
    var finish := start + Serialization(c, bytes);
    var free := finish + Delay(c, drawn);
    var departure := if c.allowReordering then free else Max(free, s.lastDeparture);
    if departure > arrival && c.queueLength != 0 && s.queued >= c.queueLength then (seen, None)
    else
      (seen.(busyUntil := finish, lastDeparture := departure,
             queued := if departure > arrival then s.queued + 1 else s.queued),
       Some(Sent(arrival, bytes, start, finish, departure,
                 c.duplicateEveryNth != 0 && seen.packetsSeen % c.duplicateEveryNth == 0)))
  }

  /** A delayed packet left the queue. */
  function Departed(s: LinkState): LinkState
  {
    s.(queued := if s.queued > 0 then s.queued - 1 else 0)
  }

  class Link {
    const config: LinkConfig
    var packetsSeen: nat
    var capacityBusyUntil: int
    var lastDeparture: int
    var queuedPackets: nat

    ghost function Value(): LinkState
      reads this
    {
      LinkState(packetsSeen, capacityBusyUntil, lastDeparture, queuedPackets)
    }

    constructor (config: LinkConfig)
      ensures Value() == IDLE_LINK && this.config == config
    {
      this.config := config;
      packetsSeen, capacityBusyUntil, lastDeparture, queuedPackets := 0, 0, 0, 0;
    }

    /** `schedule_packet_departure`: the departure time and whether to send twice. A link
        that is not configured passes every packet at once. */
    method SchedulePacketDeparture(arrival: int, bytes: nat, drawn: nat) returns (result: Option<(int, bool)>)
      modifies this
      ensures !LinkEnabled(config) ==> result == Some((arrival, false)) && Value() == old(Value())
      ensures LinkEnabled(config) ==>
                var (value, sent) := Schedule(config, old(Value()), arrival, bytes, drawn);
                && Value() == value
                && result == if sent.Some? then Some((sent.value.departure, sent.value.duplicate)) else None
    {
      hide Serialization;
      if !LinkEnabled(config) {
        return Some((arrival, false));
      }
      packetsSeen := packetsSeen + 1;
      var start := if arrival < capacityBusyUntil then capacityBusyUntil else arrival;
      var serialization := Serialization(config, bytes);
      var departure: int := start + serialization;
      if config.queueDelayMs > 0 || config.deviationMs > 0 {
        departure := departure + (if config.deviationMs > 0 then drawn else config.queueDelayMs * 1_000);
      }
      if !config.allowReordering && departure < lastDeparture {
        departure := lastDeparture;
      }
      if departure > arrival && config.queueLength != 0 && queuedPackets >= config.queueLength {
        return None;
      }
      capacityBusyUntil := start + serialization;
      lastDeparture := departure;
      if departure > arrival {
        queuedPackets := queuedPackets + 1;
      }
      return Some((departure, config.duplicateEveryNth != 0 && packetsSeen % config.duplicateEveryNth == 0));
    }

    /** What `forward_delayed` does when a delayed packet is taken out. */
    method PacketForwarded()
      modifies this`queuedPackets
      ensures Value() == Departed(old(Value()))
    {
      if queuedPackets > 0 {
        queuedPackets := queuedPackets - 1;
      }
    }
  }

  // ---------------------------------------------------------------- runs

  datatype LinkEvent = Arrive(arrival: int, bytes: nat, drawn: nat) | Forwarded

  /** The state after a run, and the accepted packets in order. */
  function RunLink(c: LinkConfig, events: seq<LinkEvent>): (LinkState, seq<Sent>)
    requires LinkEnabled(c)
    decreases |events|
  {
    if events == [] then (IDLE_LINK, [])
    else
      var last := |events| - 1;
      var (s, log) := RunLink(c, events[..last]);
      match events[last]
      case Forwarded => (Departed(s), log)
      case Arrive(arrival, bytes, drawn) =>
        var (next, sent) := Schedule(c, s, arrival, bytes, drawn);
        (next, if sent.Some? then log + [sent.value] else log)
  }

  predicate LinkInv(c: LinkConfig, s: LinkState, log: seq<Sent>)
  {
    && s.busyUntil == FinishBefore(log, |log|)
    && s.lastDeparture == DepartureBefore(log, |log|)
    && forall m :: 0 <= m < |log| ==> Follows(c, log[m], FinishBefore(log, m), DepartureBefore(log, m))
  }

  /** One packet after the finish and the departure of the one before. */
  predicate Follows(c: LinkConfig, sent: Sent, finish: int, departure: int)
  {
    && sent.start == Max(sent.arrival, finish)
    && sent.finish == sent.start + Serialization(c, sent.bytes)
    && sent.departure >= sent.finish
    && (!c.allowReordering ==> sent.departure >= departure)
  }

  function FinishBefore(log: seq<Sent>, m: nat): int
    requires m <= |log|
  {
    if m == 0 then 0 else log[m - 1].finish
  }

  function DepartureBefore(log: seq<Sent>, m: nat): int
    requires m <= |log|
  {
    if m == 0 then 0 else log[m - 1].departure
  }

  lemma ScheduleKeeps(c: LinkConfig, s: LinkState, log: seq<Sent>, arrival: int, bytes: nat, drawn: nat)
    requires LinkEnabled(c) && LinkInv(c, s, log)
    ensures var (next, sent) := Schedule(c, s, arrival, bytes, drawn);
            LinkInv(c, next, if sent.Some? then log + [sent.value] else log)
  {
    hide Serialization, Delay, Follows;
    var (next, sent) := Schedule(c, s, arrival, bytes, drawn);
    if sent.Some? {
      var all := log + [sent.value];
      SentFollows(c, s, arrival, bytes, drawn);
      forall m | 0 <= m <= |log|
        ensures FinishBefore(all, m) == FinishBefore(log, m) && DepartureBefore(all, m) == DepartureBefore(log, m)
      {
      }
    }
  }

  lemma SentFollows(c: LinkConfig, s: LinkState, arrival: int, bytes: nat, drawn: nat)
    requires LinkEnabled(c)
    ensures var sent := Schedule(c, s, arrival, bytes, drawn).1;
            sent.Some? ==> Follows(c, sent.value, s.busyUntil, s.lastDeparture)
  {
    hide Serialization;
  }

  lemma {:induction false} RunLinkInv(c: LinkConfig, events: seq<LinkEvent>)
    requires LinkEnabled(c)
    ensures LinkInv(c, RunLink(c, events).0, RunLink(c, events).1)
    decreases |events|
  {
    hide Schedule, LinkInv;
    if events == [] {
      NothingSent(c);
    } else {
      var last := |events| - 1;
      var (s, log) := RunLink(c, events[..last]);
      RunLinkInv(c, events[..last]);
      match events[last] {
        case Forwarded => QueueIsApart(c, s, log);
        case Arrive(arrival, bytes, drawn) => ScheduleKeeps(c, s, log, arrival, bytes, drawn);
      }
    }
  }

  lemma NothingSent(c: LinkConfig)
    ensures LinkInv(c, IDLE_LINK, [])
  {
  }

  lemma QueueIsApart(c: LinkConfig, s: LinkState, log: seq<Sent>)
    requires LinkInv(c, s, log)
    ensures forall queued :: LinkInv(c, s.(queued := queued), log)
  {
  }

  // ---------------------------------------------------------------- the rate bound

  function Bytes(log: seq<Sent>, i: nat, j: nat): nat
    requires i <= j <= |log|
    decreases j - i
  {
    if i == j then 0 else Bytes(log, i, j - 1) + log[j - 1].bytes
  }

  /** One packet takes at least its share of the capacity, up to one rounded-off tick. */
  lemma OnePacket(c: LinkConfig, bytes: nat)
    requires c.capacityKbps > 0
    ensures 8_000 * bytes <= c.capacityKbps * (Serialization(c, bytes) + 1)
  {
    var k: int := c.capacityKbps;
    var q, r := bytes * 8_000 / k, bytes * 8_000 % k;
    assert bytes * 8_000 == q * k + r;
    assert k * (q + 1) == q * k + k;
  }

  lemma {:induction false} RateUpTo(c: LinkConfig, s: LinkState, log: seq<Sent>, i: nat, j: nat)
    requires c.capacityKbps > 0 && LinkInv(c, s, log) && i < j <= |log|
    ensures 8_000 * Bytes(log, i, j) <= c.capacityKbps * (log[j - 1].finish - log[i].start + (j - i))
    decreases j - i
  {
    hide Serialization, LinkInv;
    var last := log[j - 1];
    var one := Serialization(c, last.bytes) + 1;
    OnePacket(c, last.bytes);
    PacketFollows(c, s, log, j - 1);
    if j - 1 == i {
      assert Bytes(log, i, j) == last.bytes;
    } else {
      RateUpTo(c, s, log, i, j - 1);
      var before := log[j - 2].finish - log[i].start + (j - 1 - i);
      Share(c.capacityKbps, before, one, last.finish - log[i].start + (j - i));
    }
  }

  lemma PacketFollows(c: LinkConfig, s: LinkState, log: seq<Sent>, m: nat)
    requires LinkInv(c, s, log) && m < |log|
    ensures Follows(c, log[m], FinishBefore(log, m), DepartureBefore(log, m))
  {
    hide Follows;
  }

  lemma Share(k: int, a: int, b: int, c: int)
    requires k > 0 && a + b <= c
    ensures k * a + k * b <= k * c
  {
    assert k * a + k * b == k * (a + b);
    assert k * (c - (a + b)) >= 0;
  }

  /** The link never carries more than its capacity: for every stretch of accepted
      packets, and whatever arrived, was drawn, refused or forwarded in between. */
  lemma CapacityIsKept(c: LinkConfig, events: seq<LinkEvent>, i: nat, j: nat)
    requires c.capacityKbps > 0 && i <= j < |RunLink(c, events).1|
    ensures var log := RunLink(c, events).1;
            8_000 * Bytes(log, i, j + 1) <= c.capacityKbps * ((log[j].finish - log[i].start) + (j - i + 1))
  {
    hide RunLink, LinkInv;
    RunLinkInv(c, events);
    RateUpTo(c, RunLink(c, events).0, RunLink(c, events).1, i, j + 1);
  }

  // ---------------------------------------------------------------- the link never idles

  /** The transmission time of packets i to j together. */
  function Work(c: LinkConfig, log: seq<Sent>, i: nat, j: nat): nat
    requires i <= j <= |log|
    decreases j - i
  {
    if i == j then 0 else Work(c, log, i, j - 1) + Serialization(c, log[j - 1].bytes)
  }

  lemma {:induction false} FinishAfterEach(c: LinkConfig, s: LinkState, log: seq<Sent>, i: nat, j: nat)
    requires LinkInv(c, s, log) && i <= j < |log|
    ensures log[j].finish >= log[i].arrival + Work(c, log, i, j + 1)
    decreases j - i
  {
    hide Serialization, LinkInv;
    PacketFollows(c, s, log, j);
    assert Work(c, log, i, j + 1) == Work(c, log, i, j) + Serialization(c, log[j].bytes);
    if i < j {
      FinishAfterEach(c, s, log, i, j - 1);
    } else {
      assert Work(c, log, i, i) == 0;
    }
  }

  lemma FirstFollows(c: LinkConfig, s: LinkState, log: seq<Sent>)
    requires LinkInv(c, s, log) && log != []
    ensures log[0].start == Max(log[0].arrival, 0)
  {
    hide Serialization;
    PacketFollows(c, s, log, 0);
  }

  lemma {:induction false} FinishIsReached(c: LinkConfig, s: LinkState, log: seq<Sent>, j: nat) returns (i: nat)
    requires LinkInv(c, s, log) && j < |log| && log[0].arrival >= 0
    ensures i <= j && log[j].finish == log[i].arrival + Work(c, log, i, j + 1)
    decreases j
  {
    hide Serialization, LinkInv;
    PacketFollows(c, s, log, j);
    FirstFollows(c, s, log);
    if log[j].start == log[j].arrival {
      i := j;
      assert Work(c, log, j, j) == 0;
    } else {
      i := FinishIsReached(c, s, log, j - 1);
    }
    assert Work(c, log, i, j + 1) == Work(c, log, i, j) + Serialization(c, log[j].bytes);
  }

  /** The finish of a packet is exactly the latest of the times at which some earlier
      packet arrived plus all the transmission work since: the link neither runs early
      nor idles while there is work. */
  lemma FinishIsExact(c: LinkConfig, events: seq<LinkEvent>, j: nat)
    requires LinkEnabled(c)
    requires j < |RunLink(c, events).1| && RunLink(c, events).1[0].arrival >= 0
    ensures var log := RunLink(c, events).1;
            && (forall i: nat :: i <= j ==> log[j].finish >= log[i].arrival + Work(c, log, i, j + 1))
            && (exists i: nat :: i <= j && log[j].finish == log[i].arrival + Work(c, log, i, j + 1))
  {
    hide RunLink, LinkInv;
    RunLinkInv(c, events);
    var (s, log) := RunLink(c, events);
    forall i: nat | i <= j ensures log[j].finish >= log[i].arrival + Work(c, log, i, j + 1) {
      FinishAfterEach(c, s, log, i, j);
    }
    var i := FinishIsReached(c, s, log, j);
  }

  // ---------------------------------------------------------------- departures

  lemma {:induction false} DeparturesInOrder(c: LinkConfig, s: LinkState, log: seq<Sent>, i: nat, j: nat)
    requires LinkInv(c, s, log) && i <= j < |log| && !c.allowReordering
    ensures log[i].departure <= log[j].departure
    decreases j - i
  {
    hide Serialization, LinkInv;
    if i < j {
      PacketFollows(c, s, log, j);
      DeparturesInOrder(c, s, log, i, j - 1);
    }
  }

  /** No packet leaves before it is fully transmitted, and without reordering the
      accepted packets leave in the order they came. */
  lemma DeparturesAreSound(c: LinkConfig, events: seq<LinkEvent>, i: nat, j: nat)
    requires LinkEnabled(c) && i <= j < |RunLink(c, events).1|
    ensures var log := RunLink(c, events).1;
            && log[i].departure >= log[i].finish >= log[i].start >= log[i].arrival
            && (!c.allowReordering ==> log[i].departure <= log[j].departure)
  {
    hide RunLink, LinkInv, Serialization;
    RunLinkInv(c, events);
    PacketFollows(c, RunLink(c, events).0, RunLink(c, events).1, i);
    if !c.allowReordering {
      DeparturesInOrder(c, RunLink(c, events).0, RunLink(c, events).1, i, j);
    }
  }

  // ---------------------------------------------------------------- each packet, decided by the run before it

  /** How many accepted packets with a delay have not been forwarded yet. */
  function Waiting(c: LinkConfig, events: seq<LinkEvent>): nat
    requires LinkEnabled(c)
    decreases |events|
  {
    if events == [] then 0
    else
      var before := Waiting(c, events[..|events| - 1]);
      match events[|events| - 1]
      case Forwarded => if before > 0 then before - 1 else 0
      case Arrive(_, _, _) =>
        var log := RunLink(c, events).1;
        if |log| > |RunLink(c, events[..|events| - 1]).1| && log[|log| - 1].departure > log[|log| - 1].arrival
        then before + 1 else before
  }

  function Arrivals(events: seq<LinkEvent>): nat
  {
    if events == [] then 0 else Arrivals(events[..|events| - 1]) + (if events[|events| - 1].Arrive? then 1 else 0)
  }

  lemma {:induction false} RunCounts(c: LinkConfig, events: seq<LinkEvent>)
    requires LinkEnabled(c)
    ensures var s := RunLink(c, events).0; s.queued == Waiting(c, events) && s.packetsSeen == Arrivals(events)
    decreases |events|
  {
    hide Serialization, Delay, LinkEnabled;
    if events != [] {
      RunCounts(c, events[..|events| - 1]);
    }
  }

  /** When a packet that arrives now would leave: it starts when the one before it has
      finished, takes its transmission time and the delay, and without reordering waits for
      the one before it to leave. */
  function DueTime(c: LinkConfig, log: seq<Sent>, arrival: int, bytes: nat, drawn: nat): (int, int, int)
  {
    var free := FinishBefore(log, |log|);
    var start := if arrival > free then arrival else free;
    var finish := start + (if c.capacityKbps > 0 then bytes * 8_000 / c.capacityKbps else 0);
    var ready := finish + (if c.deviationMs > 0 then drawn else if c.queueDelayMs > 0 then c.queueDelayMs * 1_000 else 0);
    var previous := DepartureBefore(log, |log|);
    (start, finish, if !c.allowReordering && previous > ready then previous else ready)
  }

  /** After any run, a packet is refused exactly when it would have to wait and the queue is
      full; an accepted one leaves exactly at its due time, and twice exactly when its turn
      to be duplicated has come. */
  lemma ArrivalIsDecided(c: LinkConfig, events: seq<LinkEvent>, arrival: int, bytes: nat, drawn: nat)
    requires LinkEnabled(c)
    ensures var log := RunLink(c, events).1;
            var next := RunLink(c, events + [Arrive(arrival, bytes, drawn)]).1;
            var (start, finish, due) := DueTime(c, log, arrival, bytes, drawn);
            var refused := due > arrival && c.queueLength > 0 && Waiting(c, events) >= c.queueLength;
            var twice := c.duplicateEveryNth > 0 && (Arrivals(events) + 1) % c.duplicateEveryNth == 0;
            next == if refused then log else log + [Sent(arrival, bytes, start, finish, due, twice)]
  {
    hide LinkEnabled, RunLink, Waiting, Arrivals, Schedule, DueTime, LinkInv;
    RunLinkInv(c, events);
    RunCounts(c, events);
    RunNext(c, events, arrival, bytes, drawn);
    var (s, log) := RunLink(c, events);
    ScheduleIsDue(c, s, log, arrival, bytes, drawn);
  }

  lemma RunNext(c: LinkConfig, events: seq<LinkEvent>, arrival: int, bytes: nat, drawn: nat)
    requires LinkEnabled(c)
    ensures var (s, log) := RunLink(c, events);
            var (next, sent) := Schedule(c, s, arrival, bytes, drawn);
            RunLink(c, events + [Arrive(arrival, bytes, drawn)]).1 == if sent.Some? then log + [sent.value] else log
  {
    hide LinkEnabled, Schedule;
    var all := events + [Arrive(arrival, bytes, drawn)];
    assert all[..|all| - 1] == events;
  }

  lemma ScheduleIsDue(c: LinkConfig, s: LinkState, log: seq<Sent>, arrival: int, bytes: nat, drawn: nat)
    requires LinkEnabled(c) && LinkInv(c, s, log)
    ensures var (start, finish, due) := DueTime(c, log, arrival, bytes, drawn);
            Schedule(c, s, arrival, bytes, drawn).1
            == if due > arrival && c.queueLength > 0 && s.queued >= c.queueLength then None
               else Some(Sent(arrival, bytes, start, finish, due,
                              c.duplicateEveryNth > 0 && (s.packetsSeen + 1) % c.duplicateEveryNth == 0))
  {
    hide LinkEnabled, Follows;
    TimeFor(c, bytes);
  }

  lemma TimeFor(c: LinkConfig, bytes: nat)
    ensures Serialization(c, bytes) == if c.capacityKbps > 0 then bytes * 8_000 / c.capacityKbps else 0
  {
  }

  /** A link that forwards in time never refuses: with an empty queue in front of it every
      packet is accepted. */
  lemma EmptyQueueAccepts(c: LinkConfig, events: seq<LinkEvent>, arrival: int, bytes: nat, drawn: nat)
    requires LinkEnabled(c) && Waiting(c, events) == 0
    ensures |RunLink(c, events + [Arrive(arrival, bytes, drawn)]).1| == |RunLink(c, events).1| + 1
  {
    hide RunLink, Waiting, LinkEnabled, DueTime;
    ArrivalIsDecided(c, events, arrival, bytes, drawn);
  }
}
