/** Whole runs of one splicer, against a counter that never wraps. */
module SplicerRuns {
  import opened Words
  import opened Identity
  import opened Splicer

  const HALF := 0x8000
  const SPAN := 0x1_0000

  datatype Event = Begin(publisher: PeerId) | End | Packet(generation: nat, input: Numbers)

  // ---------------------------------------------------------------- the unbounded counter

  /** `bases[k]` is the position of the first packet of the k-th source that sent one,
      `top` the largest position so far, `anchor` the first input sequence number of
      the current source. */
  datatype Counter = Counter(generation: nat, bases: seq<nat>, top: nat, anchor: Option<u16>)

  const FRESH_COUNTER := Counter(0, [], 0, None)

  predicate CounterValid(c: Counter)
  {
    && (c.anchor.Some? ==> c.bases != [])
    && (c.bases != [] ==> Base(c) <= c.top < Base(c) + HALF)
  }

  function Base(c: Counter): nat
    requires c.bases != []
  {
    c.bases[|c.bases| - 1]
  }

  /** A new source starts one past the largest position; a packet of a running source
      is as far from the base as its number is ahead of the anchor, and a packet from
      behind the anchor is refused. */
  function Place(c: Counter, generation: nat, sequence: u16): (Counter, Option<nat>)
    requires CounterValid(c)
  {
    if generation != c.generation then (c, None)
    else match c.anchor
      case None =>
        var base := if c.bases == [] then sequence else c.top + 1;
        (Counter(c.generation, c.bases + [base], base, Some(sequence)), Some(base))
      case Some(anchor) =>
        var ahead := Sub16(sequence, anchor);
        if ahead >= HALF then (c, None)
        else
          var position := Base(c) + ahead;
          (c.(top := if position > c.top then position else c.top), Some(position))
  }

  function CounterStep(c: Counter, e: Event): (r: (Counter, Option<nat>))
    requires CounterValid(c)
    ensures CounterValid(r.0)
  {
    match e
    case Packet(generation, input) => Place(c, generation, input.sequence)
    case _ => (c.(generation := c.generation + 1, anchor := None), None)
  }

  function TimelineStep(t: Timeline, e: Event): (Timeline, Option<Numbers>)
  {
    match e
    case Packet(generation, input) => Splice(t, generation, input)
    case _ => (NextGeneration(t), None)
  }

  function Outputs(t: Timeline, events: seq<Event>): (o: seq<Option<Numbers>>)
    ensures |o| == |events|
    decreases |events|
  {
    if events == [] then []
    else
      var (next, output) := TimelineStep(t, events[0]);
      [output] + Outputs(next, events[1..])
  }

  function Positions(c: Counter, events: seq<Event>): (p: seq<Option<nat>>)
    requires CounterValid(c)
    ensures |p| == |events|
    decreases |events|
  {
    if events == [] then []
    else
      var (next, position) := CounterStep(c, events[0]);
      [position] + Positions(next, events[1..])
  }

  /** How the wrapped fields stand for the unbounded ones. */
  predicate Represents(t: Timeline, c: Counter)
    requires CounterValid(c)
  {
    && t.generation == c.generation
    && (t.outputInitialized <==> c.bases != [])
    && (t.outputInitialized ==> t.latestOutput.sequence == c.top % SPAN)
    && (t.sourceInitialized <==> c.anchor.Some?)
    && (t.sourceInitialized ==>
          && t.sourceAnchorSequence == c.anchor.value
          && t.offset.sequence == (Base(c) - c.anchor.value) % SPAN
          && t.latestInput.sequence == (c.anchor.value + (c.top - Base(c))) % SPAN)
  }

  /** The two serial comparisons of the code (section 3.2 of RFC 1982), read without wrap-around. */
  lemma SerialOrder(anchor: u16, x: u16, latest: u16, ahead: nat)
    requires ahead < HALF && latest == (anchor + ahead) % SPAN
    ensures Int16(Sub16(x, anchor)) < 0 <==> Sub16(x, anchor) >= HALF
    ensures Sub16(x, anchor) < HALF ==>
              (Int16(Sub16(x, latest)) > 0 <==> Sub16(x, anchor) > ahead)
    ensures x == (anchor + Sub16(x, anchor)) % SPAN
  {
  }

  /** The output number is the position, wrapped. */
  lemma WrappedPosition(anchor: u16, x: u16, base: nat)
    ensures Add16(x, (base - anchor) % SPAN) == (base + Sub16(x, anchor)) % SPAN
  {
  }

  lemma Undo16(next: u16, x: u16)
    ensures Add16(x, Sub16(next, x)) == next && Add16(x, 0) == x
  {
  }

  lemma FirstWrapped(x: u16, top: nat)
    ensures Sub16(Add16(top % SPAN, 1), x) == (top + 1 - x) % SPAN
    ensures Add16(x, Sub16(Add16(top % SPAN, 1), x)) == (top + 1) % SPAN
    ensures Add16(x, 0) == x
  {
    assert Add16(top % SPAN, 1) == (top + 1) % SPAN;
    Undo16(Add16(top % SPAN, 1), x);
  }

  lemma StepRefines(t: Timeline, c: Counter, e: Event)
    requires CounterValid(c) && Represents(t, c)
    ensures var (t', output) := TimelineStep(t, e);
            var (c', position) := CounterStep(c, e);
            && Represents(t', c')
            && (output.Some? <==> position.Some?)
            && (output.Some? ==> output.value.sequence == position.value % SPAN)
  {
    hide Add16, Sub16, Add32, Sub32, Int16;
    if e.Packet? && e.generation == c.generation {
      var x := e.input.sequence;
      if c.anchor.Some? {
        SerialOrder(c.anchor.value, x, t.latestInput.sequence, c.top - Base(c));
        WrappedPosition(c.anchor.value, x, Base(c));
      } else {
        FirstWrapped(x, c.top);
      }
    }
  }

  /** The 16-bit machine refines the counter: over every run the two accept the same
      packets, and each emitted sequence number is the packet's position mod 2^16. */
  lemma {:induction false} RunRefines(t: Timeline, c: Counter, events: seq<Event>)
    requires CounterValid(c) && Represents(t, c)
    ensures forall i :: 0 <= i < |events| ==>
              var output, position := Outputs(t, events)[i], Positions(c, events)[i];
              && (output.Some? <==> position.Some?)
              && (output.Some? ==> output.value.sequence == position.value % SPAN)
    decreases |events|
  {
    if events != [] {
      StepRefines(t, c, events[0]);
      RunRefines(TimelineStep(t, events[0]).0, CounterStep(c, events[0]).0, events[1..]);
    }
  }

  lemma SplicerRefinesCounter(clockRate: u32, step: u32, events: seq<Event>)
    ensures forall i :: 0 <= i < |events| ==>
              var output := Outputs(FreshTimeline(clockRate, step), events)[i];
              var position := Positions(FRESH_COUNTER, events)[i];
              && (output.Some? <==> position.Some?)
              && (output.Some? ==> output.value.sequence == position.value % SPAN)
  {
    RunRefines(FreshTimeline(clockRate, step), FRESH_COUNTER, events);
  }

  // ---------------------------------------------------------------- what a slot has sent

  datatype Emission = Emission(generation: nat, source: nat, input: Numbers, output: Numbers, position: nat)

  /** A splicer together with its history: which publisher each generation was begun
      for, the offsets each source used, every packet sent, and the step it was made with. */
  datatype Stream = Stream(
    timeline: Timeline,
    counter: Counter,
    owners: map<nat, PeerId>,
    offsets: seq<Numbers>,
    log: seq<Emission>,
    defaultStep: u32)

  function FreshStream(clockRate: u32, step: u32): Stream
  {
    Stream(FreshTimeline(clockRate, step), FRESH_COUNTER, map[], [], [], step)
  }

  type LiveStream = s: Stream | CounterValid(s.counter) witness FreshStream(0, 0)

  function StreamStep(s: LiveStream, e: Event): (r: LiveStream)
  {
    var (timeline, output) := TimelineStep(s.timeline, e);
    var (counter, position) := CounterStep(s.counter, e);
    match e
    case Begin(publisher) =>
      s.(timeline := timeline, counter := counter, owners := s.owners[counter.generation := publisher])
    case End => s.(timeline := timeline, counter := counter)
    case Packet(generation, input) =>
      if output.None? || position.None? then s
      else
        s.(timeline := timeline, counter := counter,
           offsets := if s.counter.anchor.None? then s.offsets + [timeline.offset] else s.offsets,
           log := s.log + [Emission(generation, |counter.bases| - 1, input, output.value, position.value)])
  }

  function RunStream(s: LiveStream, events: seq<Event>): (r: LiveStream)
    decreases |events|
  {
    if events == [] then s else RunStream(StreamStep(s, events[0]), events[1..])
  }

  predicate FirstOfSource(log: seq<Emission>, j: nat)
    requires j < |log|
  {
    forall i :: 0 <= i < j ==> log[i].source != log[j].source
  }

  /** The newest of the first `n` packets: the first one at the largest position. */
  function Newest(log: seq<Emission>, n: nat): (i: nat)
    requires 0 < n <= |log|
    ensures i < n
  {
    if n == 1 then 0
    else
      var i := Newest(log, n - 1);
      if log[n - 1].position > log[i].position then n - 1 else i
  }

  /** The last difference of at most ten seconds between two successive newest packets of
      one source, among the first `n` packets, or the default step if there was none. */
  function LearntStep(log: seq<Emission>, n: nat, clockRate: u32, defaultStep: u32): u32
    requires n <= |log|
  {
    if n <= 1 then defaultStep
    else
      var before, i := LearntStep(log, n - 1, clockRate, defaultStep), Newest(log, n - 1);
      var delta := Sub32(log[n - 1].input.timestamp, log[i].input.timestamp);
      if log[n - 1].position > log[i].position && log[n - 1].source == log[i].source && 0 < delta <= clockRate * 10
      then delta else before
  }

  lemma {:induction false} NewestIsLargest(log: seq<Emission>, n: nat)
    requires 0 < n <= |log|
    ensures forall m :: 0 <= m < n ==> log[m].position <= log[Newest(log, n)].position
  {
    if n > 1 {
      NewestIsLargest(log, n - 1);
    }
  }

  lemma {:induction false} LearntInRange(log: seq<Emission>, n: nat, clockRate: u32, defaultStep: u32)
    requires n <= |log| && 1 <= defaultStep <= clockRate * 10
    ensures 1 <= LearntStep(log, n, clockRate, defaultStep) <= clockRate * 10
  {
    hide Newest, Sub32;
    if n > 1 {
      LearntInRange(log, n - 1, clockRate, defaultStep);
    }
  }

  /** What was newest and learnt does not depend on later packets. */
  lemma {:induction false} LearntBefore(log: seq<Emission>, e: Emission, n: nat, clockRate: u32, defaultStep: u32)
    requires n <= |log|
    ensures n > 0 ==> Newest(log + [e], n) == Newest(log, n)
    ensures LearntStep(log + [e], n, clockRate, defaultStep) == LearntStep(log, n, clockRate, defaultStep)
  {
    hide Sub32;
    if n > 1 {
      LearntBefore(log, e, n - 1, clockRate, defaultStep);
    }
  }

  predicate InOrder(log: seq<Emission>)
  {
    forall i, j :: 0 <= i < j < |log| ==>
      && log[i].source <= log[j].source
      && log[i].generation <= log[j].generation
      && (log[i].source == log[j].source <==> log[i].generation == log[j].generation)
  }

  predicate WrapsPositions(log: seq<Emission>)
  {
    forall i :: 0 <= i < |log| ==> log[i].output.sequence == log[i].position % SPAN
  }

  /** Later sources lie strictly after earlier ones, and two neighbours share no number. */
  predicate SourcesApart(log: seq<Emission>)
  {
    forall i, j :: 0 <= i < j < |log| && log[i].source < log[j].source ==>
      && log[i].position < log[j].position
      && (log[j].source == log[i].source + 1 ==> log[i].output.sequence != log[j].output.sequence)
  }

  /** Inside one source every difference survives. */
  predicate KeepsDifferences(log: seq<Emission>)
  {
    forall i, j :: 0 <= i < j < |log| && log[j].source == log[i].source ==>
      && Sub16(log[j].output.sequence, log[i].output.sequence) == Sub16(log[j].input.sequence, log[i].input.sequence)
      && Sub32(log[j].output.timestamp, log[i].output.timestamp) == Sub32(log[j].input.timestamp, log[i].input.timestamp)
  }

  /** The first packet of a later source comes one past the newest packet so far, and the
      step learnt so far after it. */
  predicate SwitchesAt(log: seq<Emission>, j: nat, clockRate: u32, defaultStep: u32)
    requires j < |log|
  {
    && j > 0
    && var newest := log[Newest(log, j)];
       && log[j].position == newest.position + 1
       && log[j].output.timestamp == Add32(newest.output.timestamp, LearntStep(log, j, clockRate, defaultStep))
  }

  ghost predicate Switches(log: seq<Emission>, clockRate: u32, defaultStep: u32)
  {
    forall j :: 0 <= j < |log| && log[j].source > 0 && FirstOfSource(log, j) ==> SwitchesAt(log, j, clockRate, defaultStep)
  }

  /** The numbers of the first source are not changed. */
  predicate FirstUnchanged(log: seq<Emission>)
  {
    forall i :: 0 <= i < |log| && log[i].source == 0 ==> log[i].output == log[i].input
  }

  /** What a receiver of the slot can rely on. */
  ghost predicate Continuous(log: seq<Emission>, clockRate: u32, defaultStep: u32)
  {
    && InOrder(log) && WrapsPositions(log) && SourcesApart(log) && KeepsDifferences(log) && FirstUnchanged(log)
    && Switches(log, clockRate, defaultStep)
  }

  // ---------------------------------------------------------------- the invariant behind it

  predicate BasesGrow(bases: seq<nat>)
  {
    && (forall k, l :: 0 <= k < l < |bases| ==> bases[k] < bases[l])
    && (forall k :: 0 <= k < |bases| - 1 ==> bases[k + 1] <= bases[k] + HALF)
  }

  predicate Placed(s: Stream, e: Emission)
    requires |s.offsets| == |s.counter.bases|
  {
    var c := s.counter;
    && e.source < |c.bases|
    && c.bases[e.source] <= e.position < c.bases[e.source] + HALF
    && e.position <= c.top
    && (e.source + 1 < |c.bases| ==> e.position < c.bases[e.source + 1])
    && e.output.sequence == e.position % SPAN
    && e.output == Shifted(e.input, s.offsets[e.source])
    && e.generation <= c.generation
    && (e.generation == c.generation <==> c.anchor.Some? && e.source == |c.bases| - 1)
  }

  /** The machine remembers the newest packet and the step. */
  predicate Remembers(s: Stream)
  {
    && (s.log == [] <==> s.counter.bases == [])
    && s.timeline.timestampStep == LearntStep(s.log, |s.log|, s.timeline.clockRate, s.defaultStep)
    && (s.log != [] ==>
          var newest := s.log[Newest(s.log, |s.log|)];
          && newest.position == s.counter.top
          && newest.source == |s.counter.bases| - 1
          && newest.output.timestamp == s.timeline.latestOutput.timestamp
          && (s.counter.anchor.Some? ==> newest.input.timestamp == s.timeline.latestInput.timestamp))
  }

  function Limit(t: Timeline): nat { t.clockRate * 10 }

  /** What a splicer was made with: its clock and its default step. */
  function Make(s: Stream): (u32, u32) { (s.timeline.clockRate, s.defaultStep) }

  /** The numbers of the machine agree with the history kept beside it. */
  ghost predicate NumbersInv(s: Stream)
    ensures NumbersInv(s) ==>
              && CounterValid(s.counter) && |s.offsets| == |s.counter.bases|
              && 1 <= s.timeline.timestampStep <= Limit(s.timeline) && 1 <= s.defaultStep <= Limit(s.timeline)
  {
    && CounterValid(s.counter) && Represents(s.timeline, s.counter)
    && 1 <= s.timeline.timestampStep <= Limit(s.timeline) < 0x1_0000_0000
    && 1 <= s.defaultStep <= Limit(s.timeline)
    && (s.offsets != [] ==> s.offsets[0] == Numbers(0, 0))
    && (forall g :: g in s.owners ==> g <= s.counter.generation)
    && |s.offsets| == |s.counter.bases| && BasesGrow(s.counter.bases)
    && (s.counter.anchor.Some? ==> s.timeline.offset == s.offsets[|s.offsets| - 1])
  }

  ghost predicate LogInv(s: Stream)
    requires |s.offsets| == |s.counter.bases|
  {
    && (forall i :: 0 <= i < |s.log| ==> Placed(s, s.log[i]))
    && InOrder(s.log)
    && Remembers(s)
    && Switches(s.log, s.timeline.clockRate, s.defaultStep)
  }

  ghost predicate StreamInv(s: Stream)
    ensures StreamInv(s) ==> CounterValid(s.counter)
  {
    NumbersInv(s) && LogInv(s)
  }

  lemma BumpKeeps(s: Stream, e: Event)
    requires StreamInv(s) && !e.Packet?
    ensures StreamInv(StreamStep(s, e))
  {
    hide Represents, Switches, InOrder, Shifted, BasesGrow;
    StepRefines(s.timeline, s.counter, e);
    var r := StreamStep(s, e);
    forall i | 0 <= i < |r.log| ensures Placed(r, r.log[i]) {
      assert Placed(s, s.log[i]);
    }
  }

  lemma AppendKeepsSwitches(log: seq<Emission>, e: Emission, clockRate: u32, defaultStep: u32)
    requires Switches(log, clockRate, defaultStep)
    requires e.source > 0 && FirstOfSource(log + [e], |log|) ==> SwitchesAt(log + [e], |log|, clockRate, defaultStep)
    ensures Switches(log + [e], clockRate, defaultStep)
  {
    hide Newest, LearntStep, Add32;
    var all := log + [e];
    forall j | 0 <= j < |all| && all[j].source > 0 && FirstOfSource(all, j) ensures SwitchesAt(all, j, clockRate, defaultStep) {
      if j < |log| {
        assert FirstOfSource(log, j) by {
          forall i | 0 <= i < j ensures log[i].source != log[j].source {
            assert all[i].source != all[j].source;
          }
        }
        LearntBefore(log, e, j, clockRate, defaultStep);
        assert SwitchesAt(log, j, clockRate, defaultStep);
      }
    }
  }

  /** The offset a source uses keeps the timestamp step: the first packet of a later
      source is stamped the latest timestamp plus the step. */
  lemma FirstStamp(latest: u32, step: u32, input: u32)
    ensures Add32(input, Sub32(Add32(latest, step), input)) == Add32(latest, step)
    ensures Sub32(Add32(latest, step), latest) == step
  {
  }

  lemma StepInRange(t: Timeline, input: Numbers)
    requires 1 <= t.timestampStep <= Limit(t) < 0x1_0000_0000
    ensures 1 <= StepAfter(t, input) <= Limit(t)
    ensures StepAfter(t.(latestInput := input), input) == t.timestampStep
    ensures var delta := Sub32(input.timestamp, t.latestInput.timestamp);
            StepAfter(t, input) == if 0 < delta <= Limit(t) then delta else t.timestampStep
  {
  }

  /** What an accepted packet does, in the terms of the invariant. */
  lemma AcceptedNumbers(s: Stream, generation: nat, input: Numbers)
    requires NumbersInv(s) && Place(s.counter, generation, input.sequence).1.Some?
    ensures var r := StreamStep(s, Packet(generation, input));
            var (counter, position) := Place(s.counter, generation, input.sequence);
            && NumbersInv(r)
            && r.counter == counter && Make(r) == Make(s)
            && |r.log| == |s.log| + 1
            && var x := r.log[|s.log|];
               && r.log == s.log + [x]
               && x.generation == generation && x.input == input && x.position == position.value
               && x.source == |counter.bases| - 1
               && x.output == Shifted(input, r.offsets[x.source])
               && x.output.sequence == x.position % SPAN
               && r.offsets[..|s.offsets|] == s.offsets
               && (s.counter.anchor.Some? ==> r.offsets == s.offsets)
               && (s.counter.anchor.None? && s.counter.bases != [] ==>
                     x.output.timestamp == Add32(s.timeline.latestOutput.timestamp, s.timeline.timestampStep))
               && r.timeline.latestOutput.timestamp
                  == (if s.counter.anchor.None? || position.value > s.counter.top
                      then x.output.timestamp else s.timeline.latestOutput.timestamp)
               && r.timeline.latestInput.timestamp
                  == (if s.counter.anchor.None? || position.value > s.counter.top
                      then input.timestamp else s.timeline.latestInput.timestamp)
               && r.timeline.timestampStep
                  == var delta := Sub32(input.timestamp, s.timeline.latestInput.timestamp);
                     if s.counter.anchor.Some? && position.value > s.counter.top && 0 < delta <= Limit(s.timeline)
                     then delta else s.timeline.timestampStep
  {
    hide Add16, Sub16, Add32, Sub32, Int16;
    StepRefines(s.timeline, s.counter, Packet(generation, input));
    StepInRange(s.timeline, input);
    if s.counter.anchor.None? {
      FirstStamp(s.timeline.latestOutput.timestamp, s.timeline.timestampStep, input.timestamp);
    } else {
      SerialOrder(s.counter.anchor.value, input.sequence, s.timeline.latestInput.sequence, s.counter.top - Base(s.counter));
    }
  }

  /** One more packet: it is newest at a larger position, and may teach the step. */
  lemma RemembersNext(s: Stream, r: Stream, x: Emission)
    requires NumbersInv(s) && Remembers(s) && r.log == s.log + [x] && Make(r) == Make(s)
    requires r.counter.bases != [] && x.source == |r.counter.bases| - 1
    requires s.counter.anchor.Some? ==> s.log != [] && r.counter.bases == s.counter.bases
    requires s.counter.anchor.None? ==> |r.counter.bases| == |s.counter.bases| + 1
    requires s.counter.anchor.None? ==> x.position == r.counter.top && (s.log != [] ==> x.position == s.counter.top + 1)
    requires s.counter.anchor.Some? ==> r.counter.top == if x.position > s.counter.top then x.position else s.counter.top
    requires var newer := s.counter.anchor.None? || x.position > s.counter.top;
             && r.timeline.latestOutput.timestamp == (if newer then x.output.timestamp else s.timeline.latestOutput.timestamp)
             && r.timeline.latestInput.timestamp == (if newer then x.input.timestamp else s.timeline.latestInput.timestamp)
    requires r.timeline.timestampStep
             == var delta := Sub32(x.input.timestamp, s.timeline.latestInput.timestamp);
                if s.counter.anchor.Some? && x.position > s.counter.top && 0 < delta <= Limit(s.timeline)
                then delta else s.timeline.timestampStep
    ensures Remembers(r)
    ensures s.log != [] ==> Newest(r.log, |s.log|) == Newest(s.log, |s.log|)
    ensures LearntStep(r.log, |s.log|, s.timeline.clockRate, s.defaultStep) == s.timeline.timestampStep
  {
    hide Represents, BasesGrow, Sub32;
    LearntBefore(s.log, x, |s.log|, s.timeline.clockRate, s.defaultStep);
  }

  lemma EarlierPlace(s: Stream, r: Stream, e: Emission)
    requires |s.offsets| == |s.counter.bases| && |r.offsets| == |r.counter.bases| && Placed(s, e)
    requires s.counter.anchor.None? && r.counter.anchor.Some?
    requires s.counter.bases != [] ==> r.counter.top == s.counter.top + 1
    requires r.counter.bases == s.counter.bases + [r.counter.top] && r.offsets[..|s.offsets|] == s.offsets
    requires r.counter.generation == s.counter.generation
    ensures Placed(r, e) && e.source < |r.counter.bases| - 1 && e.generation < r.counter.generation
  {
  }

  lemma NewSourceLog(s: Stream, generation: nat, input: Numbers)
    requires StreamInv(s) && generation == s.counter.generation && s.counter.anchor.None?
    ensures StreamInv(StreamStep(s, Packet(generation, input)))
  {
    hide NumbersInv, StreamStep, Shifted, Sub32, Add32, Switches, Placed, Newest, LearntStep;
    AcceptedNumbers(s, generation, input);
    var r := StreamStep(s, Packet(generation, input));
    var x := r.log[|s.log|];
    RemembersNext(s, r, x);
    forall i | 0 <= i < |s.log|
      ensures Placed(r, s.log[i]) && s.log[i].source < x.source && s.log[i].generation < x.generation
    {
      assert Placed(s, s.log[i]);
      EarlierPlace(s, r, s.log[i]);
    }
    NewestPlaced(r, x);
    AppendKeepsSwitches(s.log, x, s.timeline.clockRate, s.defaultStep);
  }

  lemma SamePlace(s: Stream, r: Stream, e: Emission)
    requires |s.offsets| == |s.counter.bases| && Placed(s, e)
    requires r.offsets == s.offsets && r.counter.bases == s.counter.bases
    requires r.counter.generation == s.counter.generation && r.counter.anchor == s.counter.anchor
    requires s.counter.top <= r.counter.top
    ensures Placed(r, e)
  {
  }

  lemma NewestPlaced(r: Stream, x: Emission)
    requires NumbersInv(r) && r.counter.anchor.Some? && x.source == |r.counter.bases| - 1
    requires Base(r.counter) <= x.position <= r.counter.top && x.generation == r.counter.generation
    requires x.output.sequence == x.position % SPAN && x.output == Shifted(x.input, r.offsets[x.source])
    ensures Placed(r, x)
  {
  }

  lemma PlacedFacts(s: Stream, e: Emission)
    requires |s.offsets| == |s.counter.bases| && Placed(s, e)
    ensures e.source < |s.counter.bases| && e.generation <= s.counter.generation
    ensures e.generation == s.counter.generation <==> s.counter.anchor.Some? && e.source == |s.counter.bases| - 1
  {
  }

  lemma SameSourceLog(s: Stream, generation: nat, input: Numbers)
    requires StreamInv(s) && s.counter.anchor.Some? && Place(s.counter, generation, input.sequence).1.Some?
    ensures StreamInv(StreamStep(s, Packet(generation, input)))
  {
    hide NumbersInv, StreamStep, Shifted, Sub16, Sub32, Add32, Switches, Placed, Newest, LearntStep;
    AcceptedNumbers(s, generation, input);
    var r := StreamStep(s, Packet(generation, input));
    var x := r.log[|s.log|];
    forall i | 0 <= i < |s.log|
      ensures Placed(r, s.log[i]) && s.log[i].source <= x.source && s.log[i].generation <= x.generation
      ensures s.log[i].source == x.source <==> s.log[i].generation == x.generation
    {
      assert Placed(s, s.log[i]);
      SamePlace(s, r, s.log[i]);
      PlacedFacts(s, s.log[i]);
    }
    RemembersNext(s, r, x);
    assert Placed(r, x) by {
      NewestPlaced(r, x);
    }
    assert !FirstOfSource(r.log, |s.log|) by {
      assert r.log[Newest(s.log, |s.log|)].source == r.log[|s.log|].source;
    }
    AppendKeepsSwitches(s.log, x, s.timeline.clockRate, s.defaultStep);
  }

  lemma StreamStepKeeps(s: Stream, e: Event)
    requires StreamInv(s)
    ensures StreamInv(StreamStep(s, e))
  {
    if !e.Packet? {
      BumpKeeps(s, e);
    } else if StreamStep(s, e) != s {
      if s.counter.anchor.None? {
        NewSourceLog(s, e.generation, e.input);
      } else {
        SameSourceLog(s, e.generation, e.input);
      }
    }
  }

  /** What beginning or ending a source does to the generations. */
  lemma BumpOwners(s: Stream, e: Event)
    requires StreamInv(s) && !e.Packet?
    ensures var r := StreamStep(s, e);
            && StreamInv(r)
            && r.timeline.generation == s.timeline.generation + 1
            && r.owners == (if e.Begin? then s.owners[r.timeline.generation := e.publisher] else s.owners)
            && r.log == s.log && Make(r) == Make(s)
    ensures forall g :: g in s.owners ==> g <= s.timeline.generation
  {
    hide LogInv, Switches;
    BumpKeeps(s, e);
  }

  /** A packet changes neither the generation nor the owners. */
  lemma PacketOwners(s: Stream, generation: nat, input: Numbers)
    requires StreamInv(s)
    ensures var r := StreamStep(s, Packet(generation, input));
            && StreamInv(r)
            && r.timeline.generation == s.timeline.generation && r.owners == s.owners
            && Make(r) == Make(s)
            && (r.log != s.log ==> generation == s.timeline.generation)
            && (r == s || (|r.log| == |s.log| + 1 && r.log[..|s.log|] == s.log
                           && r.log[|s.log|].generation == generation))
  {
    hide StreamInv, Add16, Sub16, Add32, Sub32, Int16, StepAfter, Shifted;
    StreamStepKeeps(s, Packet(generation, input));
  }

  /** What a splicer hears: its current generation, from the first number of a source or
      inside the half window after it. */
  predicate Hears(t: Timeline, generation: nat, sequence: u16)
  {
    generation == t.generation && (!t.sourceInitialized || Sub16(sequence, t.sourceAnchorSequence) < HALF)
  }

  lemma AcceptsExactly(s: Stream, generation: nat, input: Numbers)
    requires StreamInv(s)
    ensures StreamStep(s, Packet(generation, input)).log != s.log <==> Hears(s.timeline, generation, input.sequence)
  {
    hide LogInv, Add16, Add32, Sub32, Shifted, StepAfter, BasesGrow;
    var x := Sub16(input.sequence, s.timeline.sourceAnchorSequence);
    assert Int16(x) < 0 <==> x >= HALF;
    var r := StreamStep(s, Packet(generation, input));
    assert r == s || |r.log| == |s.log| + 1;
  }

  lemma {:induction false} RunKeeps(s: Stream, events: seq<Event>)
    requires StreamInv(s)
    ensures StreamInv(RunStream(s, events))
    decreases |events|
  {
    if events != [] {
      StreamStepKeeps(s, events[0]);
      RunKeeps(StreamStep(s, events[0]), events[1..]);
    }
  }

  // ---------------------------------------------------------------- theorems over runs

  lemma SameOffset16(a: u16, b: u16, offset: u16)
    ensures Sub16(Add16(b, offset), Add16(a, offset)) == Sub16(b, a)
  {
  }

  lemma SameOffset32(a: u32, b: u32, offset: u32)
    ensures Sub32(Add32(b, offset), Add32(a, offset)) == Sub32(b, a)
  {
  }

  lemma NeighboursDiffer(p: nat, q: nat)
    requires p < q < p + SPAN
    ensures p % SPAN != q % SPAN
  {
  }

  lemma LaterSource(s: Stream, i: nat, j: nat)
    requires StreamInv(s) && i < j < |s.log| && s.log[i].source < s.log[j].source
    ensures s.log[i].position < s.log[j].position
    ensures s.log[j].source == s.log[i].source + 1 ==> s.log[i].output.sequence != s.log[j].output.sequence
  {
    hide Shifted, Represents, Switches, InOrder, Remembers;
    assert Placed(s, s.log[i]) && Placed(s, s.log[j]);
    assert s.counter.bases[s.log[i].source + 1] <= s.counter.bases[s.log[j].source];
    if s.log[j].source == s.log[i].source + 1 {
      NeighboursDiffer(s.log[i].position, s.log[j].position);
    }
  }

  lemma SameSource(s: Stream, i: nat, j: nat)
    requires StreamInv(s) && i < j < |s.log| && s.log[i].source == s.log[j].source
    ensures Sub16(s.log[j].output.sequence, s.log[i].output.sequence) == Sub16(s.log[j].input.sequence, s.log[i].input.sequence)
    ensures Sub32(s.log[j].output.timestamp, s.log[i].output.timestamp) == Sub32(s.log[j].input.timestamp, s.log[i].input.timestamp)
  {
    hide Add16, Sub16, Add32, Sub32, Represents, Switches, InOrder, Remembers;
    assert Placed(s, s.log[i]) && Placed(s, s.log[j]);
    var offset := s.offsets[s.log[i].source];
    SameOffset16(s.log[i].input.sequence, s.log[j].input.sequence, offset.sequence);
    SameOffset32(s.log[i].input.timestamp, s.log[j].input.timestamp, offset.timestamp);
  }

  lemma Wrapped(s: Stream, i: nat)
    requires StreamInv(s) && i < |s.log|
    ensures s.log[i].output.sequence == s.log[i].position % SPAN
    ensures s.log[i].source == 0 ==> s.log[i].output == s.log[i].input
  {
    hide Switches, Remembers, InOrder;
    assert Placed(s, s.log[i]);
  }

  lemma InvImpliesContinuous(s: Stream)
    requires StreamInv(s)
    ensures Continuous(s.log, s.timeline.clockRate, s.defaultStep)
  {
    hide Sub16, Sub32, NumbersInv, Placed, Switches, InOrder, Remembers;
    var log := s.log;
    assert SourcesApart(log) by {
      forall i, j | 0 <= i < j < |log| && log[i].source < log[j].source
        ensures log[i].position < log[j].position
        ensures log[j].source == log[i].source + 1 ==> log[i].output.sequence != log[j].output.sequence
      {
        LaterSource(s, i, j);
      }
    }
    assert KeepsDifferences(log) by {
      forall i, j | 0 <= i < j < |log| && log[j].source == log[i].source
        ensures Sub16(log[j].output.sequence, log[i].output.sequence) == Sub16(log[j].input.sequence, log[i].input.sequence)
        ensures Sub32(log[j].output.timestamp, log[i].output.timestamp) == Sub32(log[j].input.timestamp, log[i].input.timestamp)
      {
        SameSource(s, i, j);
      }
    }
    forall i | 0 <= i < |log|
      ensures log[i].output.sequence == log[i].position % SPAN && (log[i].source == 0 ==> log[i].output == log[i].input)
    {
      Wrapped(s, i);
    }
  }

  /** Every run of one slot, with a default step between 1 tick and 10 seconds, sends a
      continuous stream. The step at a switch is the learnt one, so it has these bounds. */
  lemma EveryRunIsContinuous(clockRate: u32, step: u32, events: seq<Event>)
    requires 1 <= step <= clockRate * 10 < 0x1_0000_0000
    ensures var log := RunStream(FreshStream(clockRate, step), events).log;
            && Continuous(log, clockRate, step)
            && forall n :: 0 <= n <= |log| ==> 1 <= LearntStep(log, n, clockRate, step) <= clockRate * 10
  {
    hide Continuous, StreamInv;
    var s := FreshStream(clockRate, step);
    FreshInv(clockRate, step);
    RunKeeps(s, events);
    ClockIsFixed(s, events);
    var log := RunStream(s, events).log;
    InvImpliesContinuous(RunStream(s, events));
    forall n | 0 <= n <= |log| ensures 1 <= LearntStep(log, n, clockRate, step) <= clockRate * 10 {
      LearntInRange(log, n, clockRate, step);
    }
  }

  lemma FreshInv(clockRate: u32, step: u32)
    requires 1 <= step <= clockRate * 10 < 0x1_0000_0000
    ensures StreamInv(FreshStream(clockRate, step))
  {
  }

  lemma {:induction false} ClockIsFixed(s: LiveStream, events: seq<Event>)
    ensures Make(RunStream(s, events)) == Make(s)
    decreases |events|
  {
    if events != [] {
      ClockIsFixed(StreamStep(s, events[0]), events[1..]);
    }
  }

  function Sent(outputs: seq<Option<Numbers>>): seq<Numbers>
  {
    if outputs == [] then []
    else (if outputs[0].Some? then [outputs[0].value] else []) + Sent(outputs[1..])
  }

  function LogNumbers(log: seq<Emission>): seq<Numbers>
  {
    seq(|log|, i requires 0 <= i < |log| => log[i].output)
  }

  /** The history holds exactly the packets the splicer let through, in order. */
  lemma {:induction false} LogIsWhatWasSent(s: Stream, events: seq<Event>)
    requires StreamInv(s)
    ensures LogNumbers(RunStream(s, events).log) == LogNumbers(s.log) + Sent(Outputs(s.timeline, events))
    decreases |events|
  {
    hide StreamInv, StreamStep, TimelineStep, LogNumbers;
    if events == [] {
      assert LogNumbers(s.log) + [] == LogNumbers(s.log);
    } else {
      var e := events[0];
      var next := StreamStep(s, e);
      StreamStepKeeps(s, e);
      StepIsWhatWasSent(s, e);
      LogIsWhatWasSent(next, events[1..]);
      assert Outputs(s.timeline, events)[1..] == Outputs(next.timeline, events[1..]);
    }
  }

  lemma StepIsWhatWasSent(s: Stream, e: Event)
    requires StreamInv(s)
    ensures var next := StreamStep(s, e);
            var (timeline, output) := TimelineStep(s.timeline, e);
            && next.timeline == timeline
            && LogNumbers(next.log) == LogNumbers(s.log) + (if output.Some? then [output.value] else [])
  {
    hide Add16, Sub16, Add32, Sub32, Int16, LogInv;
    StepRefines(s.timeline, s.counter, e);
  }

  // ---------------------------------------------------------------- how long a source is heard

  function Packets(generation: nat, inputs: seq<Numbers>): (e: seq<Event>)
    ensures |e| == |inputs|
  {
    seq(|inputs|, i requires 0 <= i < |inputs| => Packet(generation, inputs[i]))
  }

  /** The anchor of a running source never moves: a packet is sent exactly when it lies
      in the half of the number space that starts there. */
  lemma {:induction false} RunningSourceWindow(t: Timeline, inputs: seq<Numbers>)
    requires t.sourceInitialized
    ensures forall i :: 0 <= i < |inputs| ==>
              (Outputs(t, Packets(t.generation, inputs))[i].Some?
               <==> Sub16(inputs[i].sequence, t.sourceAnchorSequence) < HALF)
    decreases |inputs|
  {
    if inputs != [] {
      hide Sub16, Add16, Add32, Sub32;
      var events := Packets(t.generation, inputs);
      var next := Splice(t, t.generation, inputs[0]).0;
      assert next.sourceInitialized && next.generation == t.generation
          && next.sourceAnchorSequence == t.sourceAnchorSequence;
      assert events[1..] == Packets(t.generation, inputs[1..]);
      RunningSourceWindow(next, inputs[1..]);
      var rest := Outputs(next, events[1..]);
      forall i | 0 <= i < |inputs|
        ensures Outputs(t, events)[i].Some? <==> Sub16(inputs[i].sequence, t.sourceAnchorSequence) < HALF
      {
        if i > 0 {
          assert Outputs(t, events)[i] == rest[i - 1];
        }
      }
    }
  }

  /** A source that sends every number in turn is not heard for ever: the packet after i
      others is forwarded exactly when i mod 2^16 < 2^15. */
  lemma PlainStreamWindow(t: Timeline, inputs: seq<Numbers>)
    requires forall i :: 0 <= i < |inputs| ==> inputs[i].sequence == Add16(inputs[0].sequence, i)
    ensures var begun := NextGeneration(t);
            forall i :: 0 <= i < |inputs| ==>
              (Outputs(begun, Packets(begun.generation, inputs))[i].Some? <==> i % SPAN < HALF)
  {
    hide Add16, Sub16, Add32, Sub32;
    if inputs != [] {
      var begun := NextGeneration(t);
      var events := Packets(begun.generation, inputs);
      var anchored := Splice(begun, begun.generation, inputs[0]).0;
      assert events[1..] == Packets(begun.generation, inputs[1..]);
      RunningSourceWindow(anchored, inputs[1..]);
      forall i | 0 <= i < |inputs|
        ensures Outputs(begun, events)[i].Some? <==> i % SPAN < HALF
      {
        AheadOf(inputs[0].sequence, i);
        if i > 0 {
          assert Outputs(begun, events)[i] == Outputs(anchored, events[1..])[i - 1];
          assert inputs[1..][i - 1] == inputs[i];
        }
      }
    }
  }

  lemma AheadOf(x: u16, i: nat)
    ensures Sub16(Add16(x, i), x) == i % SPAN
  {
  }
}
