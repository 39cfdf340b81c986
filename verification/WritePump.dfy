/** The write pump of a session: many threads enqueue, one strand writes. A write is
    started by whoever makes the queue nonempty, and each completion starts the next. */
module WritePump {
  import opened Words

  type Message = seq<u8>

  const MAX_WRITE_QUEUE_SIZE: nat := 128

  datatype PushResult = Accepted | DroppedFull | Closed

  class BoundedQueue {
    const capacity: nat
    var closed: bool
    var items: seq<Message>

    constructor (capacity: nat)
      ensures items == [] && !closed && this.capacity == capacity
    {
      this.capacity := capacity;
      closed, items := false, [];
    }

    /** Accepted exactly when the queue is open and has room; the order is kept. */
    method PushBack(value: Message) returns (r: PushResult)
      modifies this`items
      ensures r == if closed then Closed else if |old(items)| >= capacity then DroppedFull else Accepted
      ensures items == old(items) + if r.Accepted? then [value] else []
    {
      if closed {
        return Closed;
      }
      if |items| >= capacity {
        return DroppedFull;
      }
      items := items + [value];
      return Accepted;
    }

    method PopFront()
      requires items != []
      modifies this`items
      ensures old(items) == [old(items)[0]] + items
    {
      items := items[1..];
    }

    method Close()
      modifies this`closed
      ensures closed
    {
      closed := true;
    }
  }

  // ---------------------------------------------------------------- the protocol

  /** `deciding`: threads that made the queue nonempty and have not posted yet.
      `posted`: handlers on the strand. `continuing`: a completion that saw more work and
      has not taken it yet. `inFlight`: the outstanding write. The last three fields are
      the history: accepted messages, started writes, completed writes. */
  datatype Pump = Pump(
    queue: seq<Message>,
    closed: bool,
    deciding: nat,
    posted: nat,
    continuing: bool,
    inFlight: Option<Message>,
    failed: bool,
    taken: seq<Message>,
    started: seq<Message>,
    written: seq<Message>)

  const IDLE_PUMP := Pump([], false, 0, 0, false, None, false, [], [], [])

  datatype Step = Enqueue(msg: Message) | Post | RunPosted | Continue | Completed(ok: bool) | CloseQueue

  /** The strand runs one handler at a time: nothing posted runs while a completion goes on. */
  predicate Enabled(s: Pump, step: Step)
  {
    match step
    case Enqueue(_) => true
    case Post => s.deciding > 0
    case RunPosted => s.posted > 0 && !s.continuing
    case Continue => s.continuing
    case Completed(_) => s.inFlight.Some? && !s.continuing
    case CloseQueue => true
  }

  function DoWrite(s: Pump): Pump
  {
    if s.queue == [] then s
    else s.(inFlight := Some(s.queue[0]), started := s.started + [s.queue[0]])
  }

  function Next(s: Pump, step: Step): Pump
    requires Enabled(s, step)
  {
    match step
    case Enqueue(msg) =>
      if s.closed || |s.queue| >= MAX_WRITE_QUEUE_SIZE then s
      else s.(queue := s.queue + [msg], taken := s.taken + [msg],
              deciding := if s.queue == [] then s.deciding + 1 else s.deciding)
    case Post => s.(deciding := s.deciding - 1, posted := s.posted + 1)
    case RunPosted => DoWrite(s.(posted := s.posted - 1))
    case Continue => DoWrite(s.(continuing := false))
    case Completed(ok) =>
      var done := s.(inFlight := None);
      if !ok then done.(failed := true)
      else if s.queue == [] then done.(written := s.written + [s.inFlight.value])
      else done.(queue := s.queue[1..], continuing := s.queue[1..] != [], written := s.written + [s.inFlight.value])
    case CloseQueue => s.(closed := true)
  }

  class Session {
    const writeQueue: BoundedQueue
    var inFlight: Option<Message>
    ghost var deciding: nat
    ghost var posted: nat
    ghost var continuing: bool
    ghost var failed: bool
    ghost var taken: seq<Message>
    ghost var started: seq<Message>
    ghost var written: seq<Message>

    ghost function Value(): Pump
      reads this, writeQueue
    {
      Pump(writeQueue.items, writeQueue.closed, deciding, posted, continuing, inFlight, failed, taken, started, written)
    }

    ghost predicate Valid()
      reads this, writeQueue
    {
      writeQueue.capacity == MAX_WRITE_QUEUE_SIZE && PumpInv(Value())
    }

    constructor ()
      ensures Valid() && Value() == IDLE_PUMP && fresh(writeQueue)
    {
      writeQueue := new BoundedQueue(MAX_WRITE_QUEUE_SIZE);
      inFlight := None;
      deciding, posted, continuing, failed := 0, 0, false, false;
      taken, started, written := [], [], [];
    }

    /** The locked part of `enqueue`: does the caller have to post a write? */
    method EnqueueLocked(msg: Message) returns (startWrite: bool)
      requires Valid()
      modifies this, writeQueue
      ensures Valid() && Value() == Next(old(Value()), Enqueue(msg))
      ensures startWrite == (deciding == old(deciding) + 1)
    {
      NextInv(Value(), Enqueue(msg));
      var pushed := writeQueue.PushBack(msg);
      if pushed.DroppedFull? {
        return false;
      }
      if pushed.Closed? {
        return false;
      }
      taken := taken + [msg];
      startWrite := |writeQueue.items| == 1;
      if startWrite {
        deciding := deciding + 1;
      }
    }

    method PostWrite()
      requires Valid() && deciding > 0
      modifies this
      ensures Valid() && Value() == Next(old(Value()), Post)
    {
      NextInv(Value(), Post);
      deciding := deciding - 1;
      posted := posted + 1;
    }

    /** `do_write`, run from the strand by a posted handler or by a completion. */
    method DoWrite(fromCompletion: bool)
      requires Valid() && (if fromCompletion then continuing else posted > 0 && !continuing)
      modifies this
      ensures Valid() && Value() == Next(old(Value()), if fromCompletion then Continue else RunPosted)
      ensures inFlight.Some?
    {
      NextInv(Value(), if fromCompletion then Continue else RunPosted);
      if fromCompletion {
        continuing := false;
      } else {
        posted := posted - 1;
      }
      if writeQueue.items == [] {
        return;
      }
      var msg := writeQueue.items[0];
      inFlight := Some(msg);
      started := started + [msg];
    }

    /** `on_write` up to the decision whether to write again. */
    method OnWrite(error: bool) returns (haveMore: bool)
      requires Valid() && inFlight.Some? && !continuing
      modifies this, writeQueue
      ensures Valid() && Value() == Next(old(Value()), Completed(!error))
      ensures haveMore == continuing
    {
      NextInv(Value(), Completed(!error));
      var msg := inFlight.value;
      inFlight := None;
      if error {
        failed := true;
        return false;
      }
      written := written + [msg];
      if writeQueue.items != [] {
        writeQueue.PopFront();
      }
      haveMore := writeQueue.items != [];
      continuing := haveMore;
    }

    /** The locked part of `on_close`. */
    method OnClose()
      requires Valid()
      modifies writeQueue`closed
      ensures Valid() && Value() == Next(old(Value()), CloseQueue)
    {
      NextInv(Value(), CloseQueue);
      writeQueue.Close();
    }
  }

  // ---------------------------------------------------------------- what every interleaving keeps

  /** How many threads or handlers are about to write or writing. */
  function Activity(s: Pump): nat
  {
    s.deciding + s.posted + (if s.continuing then 1 else 0) + (if s.inFlight.Some? then 1 else 0)
  }

  predicate PumpInv(s: Pump)
  {
    && Activity(s) == (if !s.failed && s.queue != [] then 1 else 0)
    && (s.failed ==> s.queue != [])
    && |s.queue| <= MAX_WRITE_QUEUE_SIZE
    && s.taken == s.written + s.queue
    && (s.inFlight.Some? ==> s.inFlight.value == s.queue[0])
    && s.started == s.written + (if s.inFlight.Some? || s.failed then [s.queue[0]] else [])
  }

  lemma NextInv(s: Pump, step: Step)
    requires PumpInv(s) && Enabled(s, step)
    ensures PumpInv(Next(s, step))
  {
    if step.Enqueue? {
      assert (s.written + s.queue) + [step.msg] == s.written + (s.queue + [step.msg]);
    } else if step.Completed? && step.ok {
      assert s.queue == [s.queue[0]] + s.queue[1..];
      assert s.written + s.queue == (s.written + [s.queue[0]]) + s.queue[1..];
    }
  }

  ghost predicate PumpRun(states: seq<Pump>, steps: seq<Step>)
  {
    && |states| == |steps| + 1 && states[0] == IDLE_PUMP
    && forall k :: 0 <= k < |steps| ==> Enabled(states[k], steps[k]) && states[k + 1] == Next(states[k], steps[k])
  }

  lemma {:induction false} RunInv(states: seq<Pump>, steps: seq<Step>, k: nat)
    requires PumpRun(states, steps) && k < |states|
    ensures PumpInv(states[k])
  {
    hide Next, Enabled, PumpInv;
    if k == 0 {
      IdleInv();
    } else {
      RunInv(states, steps, k - 1);
      assert states[k - 1 + 1] == Next(states[k - 1], steps[k - 1]);
      NextInv(states[k - 1], steps[k - 1]);
    }
  }

  lemma IdleInv()
    ensures PumpInv(IDLE_PUMP)
  {
  }

  /** In every interleaving: at most one write is outstanding and no second one is on its
      way; writes start in the order of acceptance with none skipped; and until a write
      fails, a nonempty queue has exactly one writer, so no wake-up is lost. */
  lemma OneWriterInOrder(states: seq<Pump>, steps: seq<Step>, k: nat)
    requires PumpRun(states, steps) && k < |states|
    ensures var s := states[k];
            && Activity(s) <= 1
            && s.started <= s.taken && s.written <= s.started && |s.started| <= |s.written| + 1
            && (!s.failed ==> (s.queue != [] <==> Activity(s) == 1))
  {
    RunInv(states, steps, k);
  }

  /** A handler never finds the queue empty, and after a failed write none starts again. */
  lemma WritesAreNeverIdle(states: seq<Pump>, steps: seq<Step>, k: nat)
    requires PumpRun(states, steps) && k < |steps| && (steps[k].RunPosted? || steps[k].Continue?)
    ensures states[k].queue != [] && !states[k].failed
  {
    RunInv(states, steps, k);
    assert Enabled(states[k], steps[k]);
  }

  // ---------------------------------------------------------------- everything accepted is written

  /** What the pump itself does next, when every write succeeds. */
  function OwnStep(s: Pump): Step
    requires PumpInv(s) && !s.failed && s.queue != []
    ensures Enabled(s, OwnStep(s))
  {
    if s.deciding > 0 then Post
    else if s.posted > 0 then RunPosted
    else if s.continuing then Continue
    else Completed(true)
  }

  /** Steps left for the message at the front. */
  function Stage(s: Pump): nat
  {
    if s.deciding > 0 then 3 else if s.posted > 0 || s.continuing then 2 else 1
  }

  function Drain(s: Pump): Pump
    requires PumpInv(s) && !s.failed
    decreases |s.queue|, Stage(s)
  {
    if s.queue == [] then s
    else
      NextInv(s, OwnStep(s));
      Drain(Next(s, OwnStep(s)))
  }

  /** From any state before a failure the pump, left alone, writes all it accepted. */
  lemma {:induction false} DrainWritesAll(s: Pump)
    requires PumpInv(s) && !s.failed
    ensures var r := Drain(s);
            r.queue == [] && r.written == s.taken && r.started == s.taken && Activity(r) == 0
    decreases |s.queue|, Stage(s)
  {
    if s.queue != [] {
      NextInv(s, OwnStep(s));
      DrainWritesAll(Next(s, OwnStep(s)));
    }
  }

  // ---------------------------------------------------------------- what is accepted

  /** In every interleaving a message is accepted exactly when the session was not closed
      and fewer than 128 accepted messages are still to be written. */
  lemma AcceptsExactly(states: seq<Pump>, steps: seq<Step>, k: nat)
    requires PumpRun(states, steps) && k < |steps| && steps[k].Enqueue?
    ensures var s, next := states[k], states[k + 1];
            next.taken == if CloseQueue !in steps[..k] && |s.taken| - |s.written| < 128 then s.taken + [steps[k].msg] else s.taken
  {
    RunInv(states, steps, k);
    ClosedIsHistory(states, steps, k);
    assert Enabled(states[k], steps[k]) && states[k + 1] == Next(states[k], steps[k]);
  }

  lemma {:induction false} ClosedIsHistory(states: seq<Pump>, steps: seq<Step>, k: nat)
    requires PumpRun(states, steps) && k < |states|
    ensures states[k].closed <==> CloseQueue in steps[..k]
  {
    hide DoWrite;
    if k > 0 {
      ClosedIsHistory(states, steps, k - 1);
      assert steps[..k] == steps[..k - 1] + [steps[k - 1]];
      assert Enabled(states[k - 1], steps[k - 1]) && states[k - 1 + 1] == Next(states[k - 1], steps[k - 1]);
      ClosedNext(states[k - 1], steps[k - 1]);
    }
  }

  lemma ClosedNext(s: Pump, step: Step)
    requires Enabled(s, step)
    ensures Next(s, step).closed <==> s.closed || step == CloseQueue
  {
  }
}
