/** The room with each operation split in two: its section under the mutex of the rooms,
    and later its call to the screen router. Sessions run these sections in any order. */
module RoomSections {
  import opened Words
  import opened Identity
  import opened SlotBoard
  import opened BoardEffects
  import opened ScreenModel
  import opened RoomRegistry
  import Safety = ScreenSafety

  /** The call to the router that a registry section leaves to be made. */
  datatype Command = Stream(id: PeerId, on: bool) | Watch(id: PeerId, publisher: PeerId, on: bool) | Leave(id: PeerId)

  /** What both sides know about a room. */
  datatype Fact = Streaming(p: PeerId) | Watching(id: PeerId, p: PeerId)

  /** What a command makes of a fact; a watch of oneself is no fact to either side. */
  function Effect(c: Command, f: Fact): Option<bool>
  {
    match c
    case Stream(id, on) => if f == Streaming(id) then Some(on) else None
    case Watch(id, publisher, on) => if f == Watching(id, publisher) && id != publisher then Some(on) else None
    case Leave(id) =>
      if f == Streaming(id) || (f.Watching? && (f.id == id || f.p == id)) then Some(false) else None
  }

  /** The fact after these commands: the last one that touches it decides. */
  function After(commands: seq<Command>, f: Fact): bool
  {
    if commands == [] then false
    else
      var last := Effect(commands[|commands| - 1], f);
      if last.Some? then last.value else After(commands[..|commands| - 1], f)
  }

  /** The commands that touch a fact, in order. */
  function About(commands: seq<Command>, f: Fact): seq<Command>
  {
    if commands == [] then []
    else
      var rest := About(commands[..|commands| - 1], f);
      if Effect(commands[|commands| - 1], f).Some? then rest + [commands[|commands| - 1]] else rest
  }

  lemma {:induction false} OnlyThoseDecide(commands: seq<Command>, f: Fact)
    ensures After(About(commands, f), f) == After(commands, f)
    decreases |commands|
  {
    hide Effect;
    if commands != [] {
      var n := |commands| - 1;
      OnlyThoseDecide(commands[..n], f);
      var rest := About(commands[..n], f);
      assert (rest + [commands[n]])[..|rest|] == rest;
    }
  }

  lemma AfterNext(commands: seq<Command>, c: Command, f: Fact)
    ensures After(commands + [c], f) == if Effect(c, f).Some? then Effect(c, f).value else After(commands, f)
  {
    hide Effect;
    assert (commands + [c])[..|commands|] == commands;
  }

  // ---------------------------------------------------------------- the two sections

  /** The section under the mutex of the rooms: the router is not touched yet. */
  ghost function RegistrySection(room: Room, op: RoomOp): Room
    requires !op.OpMedia?
  {
    var n := match op
      case OpRegister(id) => Register(room, id)
      case OpUnregister(id) => Unregister(room, id)
      case OpAddStreaming(id) => AddStreaming(room, id)
      case OpRemoveStreaming(id) => RemoveStreaming(room, id)
      case OpAddWatcher(id, publisher) => AddWatcher(room, id, publisher)
      case OpRemoveWatcher(id, publisher) => RemoveWatcher(room, id, publisher);
    n.(router := room.router)
  }

  /** The call that the section leaves to be made, if any. */
  function Issued(room: Room, op: RoomOp): Option<Command>
    requires !op.OpMedia?
  {
    match op
    case OpRegister(_) => None
    case OpUnregister(id) => if id in room.sessions then Some(Leave(id)) else None
    case OpAddStreaming(id) => Some(Stream(id, true))
    case OpRemoveStreaming(id) => Some(Stream(id, false))
    case OpAddWatcher(id, publisher) =>
      if id !in room.sessions || Rejection(room, id, publisher).Some? || publisher in WatchedBy(room, id) then None
      else Some(Watch(id, publisher, true))
    case OpRemoveWatcher(id, publisher) => Some(Watch(id, publisher, false))
  }

  /** The section inside the router, with its publishing. */
  ghost function Execute(r: Router, c: Command): Router
  {
    PublishAll(match c
               case Stream(id, on) => SetStreaming(r, id, on)
               case Watch(id, publisher, on) => SetWatching(r, id, publisher, on)
               case Leave(id) => RemovePeer(r, id))
  }

  /** `waiting` are calls whose registry section is over and that were not made yet. */
  datatype Sections = Sections(room: Room, waiting: seq<Command>, issued: seq<Command>, executed: seq<Command>)

  const NEW_SECTIONS := Sections(NEW_ROOM, [], [], [])

  datatype SectionStep = InRegistry(op: RoomOp) | InRouter(i: nat) | InMedia(media: Op)

  predicate SectionEnabled(s: Sections, step: SectionStep)
  {
    match step
    case InRegistry(op) => !op.OpMedia?
    case InRouter(i) => i < |s.waiting| && Idle(s.room.router)
    case InMedia(media) => IsMedia(media) && Enabled(s.room.router, media)
  }

  ghost function SectionNext(s: Sections, step: SectionStep): Sections
    requires SectionEnabled(s, step)
  {
    match step
    case InRegistry(op) =>
      var c := Issued(s.room, op);
      var more := if c.Some? then [c.value] else [];
      s.(room := RegistrySection(s.room, op), waiting := s.waiting + more, issued := s.issued + more)
    case InRouter(i) =>
      s.(room := s.room.(router := Execute(s.room.router, s.waiting[i])),
         waiting := s.waiting[..i] + s.waiting[i + 1..],
         executed := s.executed + [s.waiting[i]])
    case InMedia(media) => s.(room := s.room.(router := Step(s.room.router, media)))
  }

  // ---------------------------------------------------------------- what each side believes

  predicate InRegistryIs(room: Room, f: Fact)
  {
    match f
    case Streaming(p) => p in room.streaming
    case Watching(id, p) => p in WatchedBy(room, id)
  }

  predicate InRouterIs(r: Router, f: Fact)
  {
    match f
    case Streaming(p) => Streams(r, p)
    case Watching(id, p) => p in Watches(r, id)
  }

  lemma InStepIsAgreement(room: Room)
    ensures InStep(room) <==> forall f :: InRegistryIs(room, f) == InRouterIs(room.router, f)
  {
    hide Streams, Watches, WatchedBy;
    if forall f :: InRegistryIs(room, f) == InRouterIs(room.router, f) {
      forall p ensures p in room.streaming <==> Streams(room.router, p) {
        assert InRegistryIs(room, Streaming(p)) == InRouterIs(room.router, Streaming(p));
      }
      forall id ensures WatchedBy(room, id) == Watches(room.router, id) {
        forall p ensures p in WatchedBy(room, id) <==> p in Watches(room.router, id) {
          assert InRegistryIs(room, Watching(id, p)) == InRouterIs(room.router, Watching(id, p));
        }
      }
    }
  }

  lemma RegistryEffect(room: Room, op: RoomOp, f: Fact)
    requires Admitted(room) && !op.OpMedia?
    ensures var c := Issued(room, op);
            InRegistryIs(RegistrySection(room, op), f)
            == if c.Some? && Effect(c.value, f).Some? then Effect(c.value, f).value else InRegistryIs(room, f)
  {
    hide RemovePeer, SetStreaming, SetWatching, PublishAll, Admitted, UnwatchAll, Unwatch, Rejection, WatchedBy;
    var n := RegistrySection(room, op);
    match op {
      case OpUnregister(id) =>
        if id in room.sessions {
          LeavingAdmitted(room, id, n);
        }
      case OpAddWatcher(id, publisher) => WatchAdded(room, id, publisher, n);
      case OpRemoveWatcher(id, publisher) =>
        UnwatchAdmitted(room, id, publisher, n);
        NotWatchingSelf(room, id);
      case _ => SameWatches(room, n);
    }
  }

  lemma SameWatches(a: Room, b: Room)
    requires b.watchers == a.watchers
    ensures forall id :: WatchedBy(a, id) == WatchedBy(b, id)
  {
  }

  lemma WatchAdded(room: Room, id: PeerId, p: PeerId, n: Room)
    requires n == RegistrySection(room, OpAddWatcher(id, p))
    ensures Issued(room, OpAddWatcher(id, p)).None? ==> n == room
    ensures Issued(room, OpAddWatcher(id, p)).Some? ==>
              && n.streaming == room.streaming && id != p
              && forall x :: WatchedBy(n, x) == if x == id then WatchedBy(room, x) + {p} else WatchedBy(room, x)
  {
    hide SetWatching, PublishAll;
  }

  lemma RegistryAdmits(room: Room, op: RoomOp)
    requires Admitted(room) && !op.OpMedia?
    ensures Admitted(RegistrySection(room, op))
  {
    hide RemovePeer, SetStreaming, SetWatching, PublishAll;
    var n := RegistrySection(room, op);
    match op {
      case OpUnregister(id) =>
        if id in room.sessions {
          LeavingAdmitted(room, id, n);
        }
      case OpRemoveWatcher(id, publisher) => UnwatchAdmitted(room, id, publisher, n);
      case _ =>
    }
  }

  ghost predicate Open(r: Router)
  {
    Safety.Inv(r) && Safety.LockOk(r) && !r.closed
  }

  lemma ExecuteEffect(r: Router, c: Command)
    requires Open(r) && Idle(r)
    ensures Open(Execute(r, c)) && Idle(Execute(r, c))
    ensures forall f :: InRouterIs(Execute(r, c), f)
                        == if Effect(c, f).Some? then Effect(c, f).value else InRouterIs(r, f)
  {
    hide Safety.Inv, Safety.LockOk, Idle, PublishAll, RemovePeer, SetStreaming, SetWatching, Watches, Streams;
    Safety.SamePending(r);
    match c {
      case Stream(id, on) =>
        Safety.StepInv(r, OpSetStreaming(id, on));
        SetStreamingTells(r, id, on);
        Settle(SetStreaming(r, id, on));
        Safety.PublishAllInv(SetStreaming(r, id, on));
      case Watch(id, publisher, on) =>
        Safety.StepInv(r, OpSetWatching(id, publisher, on));
        Settle(SetWatching(r, id, publisher, on));
        Safety.PublishAllInv(SetWatching(r, id, publisher, on));
        if id != publisher {
          SetWatchingTells(r, id, publisher, on);
        } else {
          SelfWatchIsNothing(r, id, on);
        }
      case Leave(id) =>
        Safety.StepInv(r, OpRemovePeer(id));
        RemovePeerTells(r, id);
        Settle(RemovePeer(r, id));
        Safety.PublishAllInv(RemovePeer(r, id));
    }
  }

  lemma SelfWatchIsNothing(r: Router, id: PeerId, on: bool)
    ensures SetWatching(r, id, id, on) == r
  {
    hide WithPeer, AssignAll, ClearFrom;
  }

  // ---------------------------------------------------------------- every interleaving

  /** Each side believes what the commands it has seen say, in the order it saw them. */
  ghost predicate SectionsInv(s: Sections)
  {
    && Admitted(s.room) && Open(s.room.router)
    && multiset(s.issued) == multiset(s.executed) + multiset(s.waiting)
    && (forall f :: InRegistryIs(s.room, f) == After(s.issued, f))
    && (forall f :: InRouterIs(s.room.router, f) == After(s.executed, f))
  }

  lemma InRegistryKeeps(s: Sections, op: RoomOp)
    requires SectionsInv(s) && !op.OpMedia?
    ensures SectionsInv(SectionNext(s, InRegistry(op)))
  {
    hide Open, Admitted, InRegistryIs, InRouterIs, After, Effect, Issued;
    var n := SectionNext(s, InRegistry(op));
    var c := Issued(s.room, op);
    RegistryAdmits(s.room, op);
    SameRouter(s.room, op);
    forall f ensures InRegistryIs(n.room, f) == After(n.issued, f) {
      RegistryEffect(s.room, op, f);
      if c.Some? {
        AfterNext(s.issued, c.value, f);
      } else {
        assert n.issued == s.issued;
      }
    }
    assert c.None? ==> n.waiting == s.waiting && n.issued == s.issued;
  }

  lemma SameRouter(room: Room, op: RoomOp)
    requires !op.OpMedia?
    ensures RegistrySection(room, op).router == room.router
  {
    hide RemovePeer, SetStreaming, SetWatching, PublishAll;
  }

  lemma InRouterKeeps(s: Sections, i: nat)
    requires SectionsInv(s) && SectionEnabled(s, InRouter(i))
    ensures SectionsInv(SectionNext(s, InRouter(i)))
  {
    hide Open, Admitted, InRegistryIs, InRouterIs, After, Effect, Execute, Idle;
    var n := SectionNext(s, InRouter(i));
    var c := s.waiting[i];
    ExecuteEffect(s.room.router, c);
    forall f ensures InRouterIs(n.room.router, f) == After(n.executed, f) {
      AfterNext(s.executed, c, f);
    }
    SameRegistry(s.room, n.room);
    assert s.waiting == s.waiting[..i] + [c] + s.waiting[i + 1..];
  }

  lemma SameRegistry(a: Room, b: Room)
    requires b == a.(router := b.router)
    ensures Admitted(a) ==> Admitted(b)
    ensures forall f :: InRegistryIs(b, f) == InRegistryIs(a, f)
  {
  }

  lemma InMediaKeeps(s: Sections, media: Op)
    requires SectionsInv(s) && IsMedia(media) && Enabled(s.room.router, media)
    ensures SectionsInv(SectionNext(s, InMedia(media)))
  {
    hide Admitted, InRegistryIs, After, Step, Enabled, Safety.Inv, Safety.LockOk, Streams, Watches;
    var n := SectionNext(s, InMedia(media));
    Safety.StepInv(s.room.router, media);
    MediaTellsSame(s.room.router, media);
    SameRegistry(s.room, n.room);
    forall f ensures InRouterIs(n.room.router, f) == InRouterIs(s.room.router, f) {
    }
  }

  ghost predicate SectionRun(states: seq<Sections>, steps: seq<SectionStep>)
    ensures SectionRun(states, steps) ==> |states| == |steps| + 1
  {
    && |states| == |steps| + 1 && states[0] == NEW_SECTIONS
    && forall k :: 0 <= k < |steps| ==> SectionEnabled(states[k], steps[k]) && states[k + 1] == SectionNext(states[k], steps[k])
  }

  lemma NewSectionsInv()
    ensures SectionsInv(NEW_SECTIONS)
  {
    Safety.NewRouterInv();
  }

  lemma {:induction false} SectionRunInv(states: seq<Sections>, steps: seq<SectionStep>, k: nat)
    requires SectionRun(states, steps) && k < |states|
    ensures SectionsInv(states[k])
  {
    hide SectionsInv, SectionNext;
    if k == 0 {
      NewSectionsInv();
    } else {
      SectionRunInv(states, steps, k - 1);
      assert states[k - 1 + 1] == SectionNext(states[k - 1], steps[k - 1]);
      match steps[k - 1] {
        case InRegistry(op) => InRegistryKeeps(states[k - 1], op);
        case InRouter(i) => InRouterKeeps(states[k - 1], i);
        case InMedia(media) => InMediaKeeps(states[k - 1], media);
      }
    }
  }

  /** In every interleaving of sections, once no call is waiting: registry and router agree
      exactly when for every fact the last command to touch it is of the same kind in both
      orders. */
  lemma AgreementIsDecidedByTheLast(states: seq<Sections>, steps: seq<SectionStep>, k: nat)
    requires SectionRun(states, steps) && k < |states| && states[k].waiting == []
    ensures InStep(states[k].room) <==> forall f :: After(states[k].issued, f) == After(states[k].executed, f)
    ensures multiset(states[k].executed) == multiset(states[k].issued)
  {
    hide Open, Admitted, InRegistryIs, InRouterIs, After, InStep, SectionRun;
    SectionRunInv(states, steps, k);
    InStepIsAgreement(states[k].room);
    var s := states[k];
    if InStep(s.room) {
      forall f ensures After(s.issued, f) == After(s.executed, f) {
        assert InRegistryIs(s.room, f) == InRouterIs(s.room.router, f);
      }
    } else {
      var f :| InRegistryIs(s.room, f) != InRouterIs(s.room.router, f);
      assert After(s.issued, f) != After(s.executed, f);
    }
  }

  /** So agreement returns whenever, for every stream and every pair of peers, the calls to
      the router were made in the order of the registry sections. */
  lemma AgreementReturns(states: seq<Sections>, steps: seq<SectionStep>, k: nat)
    requires SectionRun(states, steps) && k < |states| && states[k].waiting == []
    requires forall f :: About(states[k].executed, f) == About(states[k].issued, f)
    ensures InStep(states[k].room)
  {
    hide SectionRun, InStep, After, About;
    AgreementIsDecidedByTheLast(states, steps, k);
    forall f ensures After(states[k].issued, f) == After(states[k].executed, f) {
      OnlyThoseDecide(states[k].issued, f);
      OnlyThoseDecide(states[k].executed, f);
      assert About(states[k].executed, f) == About(states[k].issued, f);
    }
  }

  /** And then admission control guarantees service again, whatever the sessions did between. */
  lemma ServiceReturns(states: seq<Sections>, steps: seq<SectionStep>, k: nat, id: PeerId, p: PeerId)
    requires SectionRun(states, steps) && k < |states| && states[k].waiting == []
    requires forall f :: About(states[k].executed, f) == About(states[k].issued, f)
    requires var room := states[k].room;
             && room.router.pending.None?
             && |UsablePairs(room.router, id)| >= 8
             && p in WatchedBy(room, id) && p in room.streaming
             && p in room.router.peers && Alive(room.router.peers[p].inputVideo, room.router.expired)
    ensures id in states[k].room.router.peers && Carries(states[k].room.router.peers[id].board.slots, p)
  {
    hide SectionRun, InStep, After, About, Admitted, UsablePairs, Assigned, Carries, Safety.Inv, Safety.LockOk;
    AgreementReturns(states, steps, k);
    SectionRunInv(states, steps, k);
    ServedNow(states[k].room, id, p);
    CarriesAssigned(states[k].room.router.peers[id].board.slots, p);
  }

  // ---------------------------------------------------------------- an interleaving that disagrees

  lemma Extend(states: seq<Sections>, steps: seq<SectionStep>, s: Sections, step: SectionStep) returns (more: seq<Sections>, all: seq<SectionStep>)
    requires SectionRun(states, steps) && states[|steps|] == s && SectionEnabled(s, step)
    ensures SectionRun(more, all) && more[|all|] == SectionNext(s, step)
  {
    hide SectionNext, SectionEnabled;
    more, all := states + [SectionNext(s, step)], steps + [step];
    forall k | 0 <= k < |all| ensures SectionEnabled(more[k], all[k]) && more[k + 1] == SectionNext(more[k], all[k]) {
      if k < |steps| {
        assert more[k] == states[k] && more[k + 1] == states[k + 1] && all[k] == steps[k];
      }
    }
  }

  /** Both are in the room, and the first one streams. */
  lemma StreamingRoom() returns (states: seq<Sections>, steps: seq<SectionStep>)
    ensures SectionRun(states, steps)
    ensures var s := states[|steps|];
            && s.waiting == [] && Idle(s.room.router)
            && s.room.sessions == {"a", "b"} && s.room.streaming == {"a"} && s.room.watchers == map[]
  {
    hide Execute, SectionRun, Idle, SetStreaming, PublishAll;
    NewIsRun();
    states, steps := [NEW_SECTIONS], [];
    var s := NEW_SECTIONS;
    states, steps := Extend(states, steps, s, InRegistry(OpRegister("a")));
    s := SectionNext(s, InRegistry(OpRegister("a")));
    states, steps := Extend(states, steps, s, InRegistry(OpRegister("b")));
    s := SectionNext(s, InRegistry(OpRegister("b")));
    states, steps := Extend(states, steps, s, InRegistry(OpAddStreaming("a")));
    s := SectionNext(s, InRegistry(OpAddStreaming("a")));
    assert s.room == Room({"a", "b"}, {"a"}, map[], NEW_ROUTER) && s.waiting == [Stream("a", true)];
    NewIsOpen();
    ExecuteEffect(NEW_ROUTER, Stream("a", true));
    states, steps := Extend(states, steps, s, InRouter(0));
  }

  /** The registry sections of a watch and of the publisher's leaving, with both calls still
      to be made. */
  lemma WatchAndLeave() returns (states: seq<Sections>, steps: seq<SectionStep>)
    ensures SectionRun(states, steps)
    ensures var s := states[|steps|];
            && s.waiting == [Watch("b", "a", true), Leave("a")] && Idle(s.room.router)
            && s.room.sessions == {"b"} && s.room.watchers == map[]
  {
    hide Execute, SectionRun, Idle, SetWatching, RemovePeer, PublishAll;
    states, steps := StreamingRoom();
    var s := states[|steps|];
    states, steps := Extend(states, steps, s, InRegistry(OpAddWatcher("b", "a")));
    var t := SectionNext(s, InRegistry(OpAddWatcher("b", "a")));
    assert t.room.watchers == map["b" := {"a"}] && t.waiting == [Watch("b", "a", true)];
    states, steps := Extend(states, steps, t, InRegistry(OpUnregister("a")));
    var u := SectionNext(t, InRegistry(OpUnregister("a")));
    assert {"a"} - {"a"} == {};
    assert u.room.watchers == map[] && u.room.sessions == {"b"};
  }

  /** The publisher leaves between the two sections of somebody's watch: the late call
      brings the watch back in the router, and the registry knows nothing of it. */
  lemma LateWatchDisagrees() returns (states: seq<Sections>, steps: seq<SectionStep>)
    ensures SectionRun(states, steps)
    ensures var s := states[|steps|];
            && s.waiting == [] && !InStep(s.room)
            && "a" !in s.room.sessions && WatchedBy(s.room, "b") == {} && "a" in Watches(s.room.router, "b")
  {
    hide Execute, Idle, SectionRun, InStep, SectionsInv, Watches;
    states, steps := WatchAndLeave();
    var s := states[|steps|];
    states, steps := LateCall(states, steps, s, 1);
    var t := SectionNext(s, InRouter(1));
    assert t.waiting == [Watch("b", "a", true)];
    states, steps := LateCall(states, steps, t, 0);
    var u := SectionNext(t, InRouter(0));
    assert InRouterIs(u.room.router, Watching("b", "a"));
    InStepIsAgreement(u.room);
    assert !InRegistryIs(u.room, Watching("b", "a"));
  }

  lemma LateCall(states: seq<Sections>, steps: seq<SectionStep>, s: Sections, i: nat) returns (more: seq<Sections>, all: seq<SectionStep>)
    requires SectionRun(states, steps) && states[|steps|] == s && SectionEnabled(s, InRouter(i))
    ensures SectionRun(more, all) && more[|all|] == SectionNext(s, InRouter(i)) && Idle(more[|all|].room.router)
    ensures forall f :: Effect(s.waiting[i], f).Some? ==>
              InRouterIs(more[|all|].room.router, f) == Effect(s.waiting[i], f).value
  {
    hide Execute, Idle, SectionRun, InRouterIs, Effect, After, InRegistryIs, Open, Admitted;
    SectionRunInv(states, steps, |steps|);
    ExecuteEffect(s.room.router, s.waiting[i]);
    more, all := Extend(states, steps, s, InRouter(i));
  }

  lemma NewIsRun()
    ensures SectionRun([NEW_SECTIONS], [])
  {
  }

  lemma NewIsOpen()
    ensures Open(NEW_ROUTER) && Idle(NEW_ROUTER)
  {
    Safety.NewRouterInv();
  }
}
