/** One room of the signaling server: who is there, who streams, who watches whom, with
    the cap on watches, and the screen router the room keeps in step with itself. */
module RoomRegistry {
  import opened Words
  import opened Identity
  import opened Splicer
  import opened SplicerRuns
  import opened ClientBindings
  import opened Ordering
  import opened SlotBoard
  import opened BoardEffects
  import opened ScreenModel
  import opened Pigeonhole
  import Safety = ScreenSafety
  import ScreenRouter

  const SCREEN_RECEIVE_SLOTS := 8

  datatype Reject = UnknownPeer | NotStreaming | Capacity

  datatype Room = Room(
    sessions: set<PeerId>,
    streaming: set<PeerId>,
    watchers: map<PeerId, set<PeerId>>,
    router: Router)

  const NEW_ROOM := Room({}, {}, map[], NEW_ROUTER)

  function WatchedBy(room: Room, id: PeerId): set<PeerId>
  {
    if id in room.watchers then room.watchers[id] else {}
  }

  /** The map without one watch; a watcher without watches has no entry. */
  function Unwatch(watchers: map<PeerId, set<PeerId>>, id: PeerId, p: PeerId): map<PeerId, set<PeerId>>
  {
    if id !in watchers then watchers
    else if watchers[id] - {p} == {} then watchers - {id}
    else watchers[id := watchers[id] - {p}]
  }

  /** Nobody watches `p` any more. */
  function UnwatchAll(watchers: map<PeerId, set<PeerId>>, p: PeerId): map<PeerId, set<PeerId>>
  {
    map id | id in watchers && watchers[id] - {p} != {} :: watchers[id] - {p}
  }

  // ---------------------------------------------------------------- operations

  function Register(room: Room, id: PeerId): Room
  {
    room.(sessions := room.sessions + {id})
  }

  ghost function Unregister(room: Room, id: PeerId): Room
  {
    if id !in room.sessions then room
    else Room(room.sessions - {id}, room.streaming - {id}, UnwatchAll(room.watchers - {id}, id), PublishAll(RemovePeer(room.router, id)))
  }

  ghost function AddStreaming(room: Room, id: PeerId): Room
  {
    room.(streaming := room.streaming + {id}, router := PublishAll(SetStreaming(room.router, id, true)))
  }

  ghost function RemoveStreaming(room: Room, id: PeerId): Room
  {
    room.(streaming := room.streaming - {id}, router := PublishAll(SetStreaming(room.router, id, false)))
  }

  /** The admission rule, in the order the server checks. */
  function Rejection(room: Room, id: PeerId, p: PeerId): Option<Reject>
  {
    if id !in room.sessions then None
    else if p !in room.sessions || id == p then Some(UnknownPeer)
    else if p !in room.streaming then Some(NotStreaming)
    else if p !in WatchedBy(room, id) && |WatchedBy(room, id)| >= SCREEN_RECEIVE_SLOTS then Some(Capacity)
    else None
  }

  ghost function AddWatcher(room: Room, id: PeerId, p: PeerId): Room
  {
    if id !in room.sessions || Rejection(room, id, p).Some? || p in WatchedBy(room, id) then room
    else room.(watchers := room.watchers[id := WatchedBy(room, id) + {p}], router := PublishAll(SetWatching(room.router, id, p, true)))
  }

  ghost function RemoveWatcher(room: Room, id: PeerId, p: PeerId): Room
  {
    room.(watchers := Unwatch(room.watchers, id, p), router := PublishAll(SetWatching(room.router, id, p, false)))
  }

  // ---------------------------------------------------------------- registry and router agree

  predicate Streams(r: Router, p: PeerId)
  {
    p in r.peers && r.peers[p].streaming
  }

  function Watches(r: Router, id: PeerId): set<PeerId>
  {
    if id in r.peers then r.peers[id].watched.Keys else {}
  }

  /** The two sides tell the same story about streams and watches. */
  ghost predicate InStep(room: Room)
  {
    && (forall p :: p in room.streaming <==> Streams(room.router, p))
    && (forall id {:trigger WatchedBy(room, id)} :: WatchedBy(room, id) == Watches(room.router, id))
  }

  /** Watches are capped, between different peers of the room, and no entry is empty. */
  predicate Admitted(room: Room)
  {
    forall id :: id in room.watchers ==>
      && id in room.sessions && id !in room.watchers[id] && room.watchers[id] != {}
      && room.watchers[id] <= room.sessions && |room.watchers[id]| <= SCREEN_RECEIVE_SLOTS
  }

  ghost predicate RoomInv(room: Room)
  {
    && InStep(room) && Admitted(room) && !room.router.closed
    && Safety.Inv(room.router) && Safety.LockOk(room.router)
  }

  /** Two routers with the same streams and watches. */
  ghost predicate SameStory(a: Router, b: Router)
  {
    && b.closed == a.closed
    && (forall p :: Streams(b, p) <==> Streams(a, p))
    && (forall id {:trigger Watches(b, id)} :: Watches(b, id) == Watches(a, id))
  }

  lemma AssignTellsSame(r: Router)
    ensures SameStory(r, AssignAll(r))
  {
    hide Assign, Ordered, Servable;
  }

  lemma WithPeerTellsSame(r: Router, id: PeerId)
    ensures SameStory(r, WithPeer(r, id))
  {
  }

  lemma BoardsTellSame(r: Router, peers: map<PeerId, PeerState>)
    requires peers.Keys == r.peers.Keys
    requires forall id :: id in peers ==> peers[id].streaming == r.peers[id].streaming && peers[id].watched == r.peers[id].watched
    ensures SameStory(r, r.(peers := peers))
  {
  }

  /** Tracks and packets change neither streams nor watches. */
  predicate IsMedia(op: Op)
  {
    !op.OpSetStreaming? && !op.OpSetWatching? && !op.OpRemovePeer? && !op.OpClose?
  }

  lemma MediaTellsSame(r: Router, op: Op)
    requires Enabled(r, op) && IsMedia(op)
    ensures SameStory(r, Step(r, op))
  {
    hide AssignAll, ClearFrom, RestartFrom, PairFor, ClearedPair, NewHalf, MarkReady, DeliverBoard, Targets, SameStory, WithPeer;
    match op {
      case OpRegisterInput(owner, track, media) => RegisterInputTellsSame(r, owner, track, media);
      case OpRegisterOutput(owner, mid, media, track) => RegisterOutputTellsSame(r, owner, mid, media, track);
      case OpOutputReady => OutputReadyTellsSame(r);
      case OpDeliver(f, input) => DeliverTellsSame(r, f, input);
      case OpPublish(id) => BoardsTellSame(r, PublishNext(r, id).peers);
      case OpExpire(_) => QuietTellsSame(r, Step(r, op));
      case OpRoute(_, _, _) => QuietTellsSame(r, Step(r, op));
    }
  }

  lemma QuietTellsSame(a: Router, b: Router)
    requires b.peers == a.peers && b.closed == a.closed
    ensures SameStory(a, b)
  {
  }

  lemma TellsSameTransitive(a: Router, b: Router, c: Router, d: Router)
    requires SameStory(a, b) && SameStory(b, c) && SameStory(c, d)
    ensures SameStory(a, d)
  {
    hide Streams, Watches;
    assert forall p :: Streams(d, p) <==> Streams(c, p);
    assert forall id {:trigger Watches(d, id)} :: Watches(d, id) == Watches(c, id) == Watches(b, id) == Watches(a, id);
  }

  lemma PublishTellsSame(r: Router)
    ensures SameStory(r, PublishAll(r))
  {
    BoardsTellSame(r, PublishAll(r).peers);
  }

  lemma RegisterInputTellsSame(r: Router, owner: PeerId, track: TrackId, media: Media)
    ensures SameStory(r, RegisterInput(r, owner, track, media))
  {
    hide AssignAll, RestartFrom, SameStory, Lock;
    WithPeerTellsSame(r, owner);
    var known := WithPeer(r, owner);
    var peers := known.peers[owner := WithInput(known.peers[owner], media, track)];
    var restarted := RestartPeers(peers, owner, media);
    AssignTellsSame(known.(peers := peers));
    AssignTellsSame(known.(peers := restarted));
    BoardsTellSame(known, peers);
    BoardsTellSame(known, restarted);
    TellsSameTransitive(r, known, known.(peers := peers), AssignAll(known.(peers := peers)));
    TellsSameTransitive(r, known, known.(peers := restarted), AssignAll(known.(peers := restarted)));
    QuietTellsSame(r, r);
  }

  lemma RegisterOutputTellsSame(r: Router, owner: PeerId, mid: Mid, media: Media, track: TrackId)
    ensures SameStory(r, RegisterOutputBegin(r, owner, mid, media, track))
  {
    hide ClearedPair, PairFor, NewHalf, WithHalf, HalfOf, HalfOrphan;
    WithPeerTellsSame(r, owner);
    if !r.closed {
      BoardsTellSame(WithPeer(r, owner), RegisterOutputBegin(r, owner, mid, media, track).peers);
    }
  }

  lemma OutputReadyTellsSame(r: Router)
    requires r.pending.Some?
    ensures SameStory(r, RegisterOutputFinish(r))
  {
    hide AssignAll, MarkReady;
    var Pending(owner, mid, media, track) := r.pending.value;
    if owner in r.peers {
      var peer := r.peers[owner];
      var peers := r.peers[owner := peer.(board := peer.board.(slots := MarkReady(peer.board.slots, mid, media, track)))];
      BoardsTellSame(r, peers);
      AssignTellsSame(r.(pending := None, peers := peers));
    }
  }

  lemma DeliverTellsSame(r: Router, f: Flight, input: Numbers)
    ensures SameStory(r, Deliver(r, f, input))
  {
    hide DeliverBoard, StreamStep;
    BoardsTellSame(r, Deliver(r, f, input).peers);
  }

  /** What the three signaling operations change in the story of an open router. */
  lemma SetStreamingTells(r: Router, id: PeerId, streaming: bool)
    requires !r.closed
    ensures var n := SetStreaming(r, id, streaming);
            && !n.closed
            && (forall p :: Streams(n, p) <==> if p == id then streaming else Streams(r, p))
            && (forall x :: Watches(n, x) == Watches(r, x))
  {
    hide AssignAll, ClearFrom;
    WithPeerTellsSame(r, id);
    var known := WithPeer(r, id);
    var peers := known.peers[id := known.peers[id].(streaming := streaming)];
    AssignTellsSame(known.(peers := peers));
    AssignTellsSame(known.(peers := ClearPeers(peers, id)));
    BoardsTellSame(known.(peers := peers), ClearPeers(peers, id));
    assert forall x :: Watches(known.(peers := peers), x) == Watches(known, x);
  }

  lemma SetWatchingTells(r: Router, id: PeerId, p: PeerId, watching: bool)
    requires !r.closed && id != p
    ensures var n := SetWatching(r, id, p, watching);
            && !n.closed
            && (forall x :: Streams(n, x) <==> Streams(r, x))
            && (forall x :: Watches(n, x) == if x == id then (if watching then Watches(r, x) + {p} else Watches(r, x) - {p}) else Watches(r, x))
  {
    hide AssignAll, ClearFrom;
    WithPeerTellsSame(r, id);
    var known := WithPeer(r, id);
    var peer := known.peers[id];
    var more := known.(peers := known.peers[id := peer.(
      watched := peer.watched[p := peer.nextWatchOrder], nextWatchOrder := peer.nextWatchOrder + 1)]);
    var fewer := known.(peers := known.peers[id := peer.(watched := peer.watched - {p}, board := ClearFrom(peer.board, p, 0))]);
    AssignTellsSame(more);
    AssignTellsSame(fewer);
    assert Watches(more, id) == Watches(known, id) + {p} && Watches(fewer, id) == Watches(known, id) - {p};
    assert forall x :: x != id ==> Watches(more, x) == Watches(known, x) == Watches(fewer, x);
    assert forall x :: (Streams(more, x) <==> Streams(known, x)) && (Streams(fewer, x) <==> Streams(known, x));
  }

  lemma RemovePeerTells(r: Router, id: PeerId)
    requires !r.closed
    ensures var n := RemovePeer(r, id);
            && !n.closed
            && (forall p :: Streams(n, p) <==> p != id && Streams(r, p))
            && (forall x :: Watches(n, x) == if x == id then {} else Watches(r, x) - {id})
  {
    hide AssignAll, ClearFrom, Orphaned;
    var rest := r.peers - {id};
    var left := r.(
      peers := map other | other in rest :: ForgetWatch(rest[other], id),
      orphans := r.orphans + Orphaned(map other | other in r.peers && other == id :: r.peers[other], r.nextRewriter));
    AssignTellsSame(left);
    assert forall x :: Watches(left, x) == if x == id then {} else Watches(r, x) - {id};
    assert forall p :: Streams(left, p) <==> p != id && Streams(r, p);
  }

  // ---------------------------------------------------------------- every operation keeps the room sound

  datatype RoomOp =
    | OpRegister(id: PeerId)
    | OpUnregister(id: PeerId)
    | OpAddStreaming(id: PeerId)
    | OpRemoveStreaming(id: PeerId)
    | OpAddWatcher(id: PeerId, publisher: PeerId)
    | OpRemoveWatcher(id: PeerId, publisher: PeerId)
    | OpMedia(op: Op)

  /** Whole operations, one after the other; tracks and packets in between. */
  predicate RoomEnabled(room: Room, op: RoomOp)
  {
    match op
    case OpMedia(media) => IsMedia(media) && Enabled(room.router, media)
    case OpRegister(_) => true
    case _ => Idle(room.router)
  }

  ghost function RoomStep(room: Room, op: RoomOp): Room
    requires RoomEnabled(room, op)
  {
    match op
    case OpRegister(id) => Register(room, id)
    case OpUnregister(id) => Unregister(room, id)
    case OpAddStreaming(id) => AddStreaming(room, id)
    case OpRemoveStreaming(id) => RemoveStreaming(room, id)
    case OpAddWatcher(id, publisher) => AddWatcher(room, id, publisher)
    case OpRemoveWatcher(id, publisher) => RemoveWatcher(room, id, publisher)
    case OpMedia(media) => room.(router := Step(room.router, media))
  }

  /** Publishing what an operation queued. */
  lemma Settle(r: Router)
    requires Safety.Inv(r) && Safety.LockOk(r)
    ensures Safety.Inv(PublishAll(r)) && Safety.LockOk(PublishAll(r))
    ensures PublishAll(r).closed == r.closed
    ensures forall p :: Streams(PublishAll(r), p) <==> Streams(r, p)
    ensures forall id {:trigger Watches(PublishAll(r), id)} :: Watches(PublishAll(r), id) == Watches(r, id)
  {
    hide Safety.Inv, Safety.LockOk, Streams, Watches, PublishAll;
    Safety.PublishAllInv(r);
    PublishTellsSame(r);
  }

  lemma LeavingAdmitted(room: Room, id: PeerId, n: Room)
    requires Admitted(room) && n.sessions == room.sessions - {id} && n.watchers == UnwatchAll(room.watchers - {id}, id)
    ensures Admitted(n)
    ensures forall x :: WatchedBy(n, x) == if x == id then {} else WatchedBy(room, x) - {id}
  {
    forall x | x in n.watchers ensures |n.watchers[x]| <= SCREEN_RECEIVE_SLOTS {
      SubsetSize(n.watchers[x], room.watchers[x]);
    }
  }

  lemma UnregisterInv(room: Room, id: PeerId)
    requires RoomInv(room) && Idle(room.router)
    ensures RoomInv(Unregister(room, id))
  {
    hide Safety.Inv, Safety.LockOk, Idle, PublishAll, RemovePeer, Watches, Streams, Admitted, UnwatchAll;
    if id in room.sessions {
      Safety.StepInv(room.router, OpRemovePeer(id));
      RemovePeerTells(room.router, id);
      Settle(RemovePeer(room.router, id));
      LeavingAdmitted(room, id, Unregister(room, id));
    }
  }

  lemma StreamingInv(room: Room, id: PeerId, streaming: bool)
    requires RoomInv(room) && Idle(room.router)
    ensures RoomInv(if streaming then AddStreaming(room, id) else RemoveStreaming(room, id))
  {
    hide Safety.Inv, Safety.LockOk, Idle, PublishAll, SetStreaming, Watches, Streams;
    Safety.StepInv(room.router, OpSetStreaming(id, streaming));
    SetStreamingTells(room.router, id, streaming);
    Settle(SetStreaming(room.router, id, streaming));
    var n := if streaming then AddStreaming(room, id) else RemoveStreaming(room, id);
    forall x ensures WatchedBy(n, x) == WatchedBy(room, x) {
    }
  }

  lemma AddWatcherInv(room: Room, id: PeerId, p: PeerId)
    requires RoomInv(room) && Idle(room.router)
    ensures RoomInv(AddWatcher(room, id, p))
  {
    hide Safety.Inv, Safety.LockOk, Idle, PublishAll, SetWatching, Watches, Streams;
    if id != p {
      Safety.StepInv(room.router, OpSetWatching(id, p, true));
      SetWatchingTells(room.router, id, p, true);
      Settle(SetWatching(room.router, id, p, true));
      var n := AddWatcher(room, id, p);
      forall x ensures WatchedBy(n, x) == Watches(n.router, x) {
        assert WatchedBy(room, x) == Watches(room.router, x);
      }
    }
  }

  lemma UnwatchAdmitted(room: Room, id: PeerId, p: PeerId, n: Room)
    requires Admitted(room) && n.sessions == room.sessions && n.watchers == Unwatch(room.watchers, id, p)
    ensures Admitted(n)
    ensures forall x :: WatchedBy(n, x) == if x == id then WatchedBy(room, x) - {p} else WatchedBy(room, x)
  {
    forall x | x in n.watchers ensures |n.watchers[x]| <= SCREEN_RECEIVE_SLOTS {
      SubsetSize(n.watchers[x], room.watchers[x]);
    }
  }

  lemma RemoveWatcherInv(room: Room, id: PeerId, p: PeerId)
    requires RoomInv(room) && Idle(room.router)
    ensures RoomInv(RemoveWatcher(room, id, p))
  {
    hide Safety.Inv, Safety.LockOk, Idle, PublishAll, Watches, Streams, WithPeer, AssignAll, ClearFrom, Admitted, Unwatch;
    var n := RemoveWatcher(room, id, p);
    Safety.StepInv(room.router, OpSetWatching(id, p, false));
    Settle(SetWatching(room.router, id, p, false));
    UnwatchAdmitted(room, id, p, n);
    if id == p {
      NotWatchingSelf(room, id);
    } else {
      SetWatchingTells(room.router, id, p, false);
    }
    forall x ensures WatchedBy(n, x) == Watches(n.router, x) {
      assert WatchedBy(room, x) == Watches(room.router, x);
    }
  }

  lemma NotWatchingSelf(room: Room, id: PeerId)
    requires Admitted(room)
    ensures id !in WatchedBy(room, id) && Unwatch(room.watchers, id, id) == room.watchers
  {
    if id in room.watchers {
      assert room.watchers[id] - {id} == room.watchers[id];
      assert room.watchers[id := room.watchers[id] - {id}] == room.watchers;
    }
  }

  lemma RoomStepInv(room: Room, op: RoomOp)
    requires RoomInv(room) && RoomEnabled(room, op)
    ensures RoomInv(RoomStep(room, op))
  {
    hide Safety.Inv, Safety.LockOk, Step, Enabled, Watches, Streams, Unregister, AddStreaming, RemoveStreaming, AddWatcher, RemoveWatcher;
    match op {
      case OpRegister(id) => RegisterInv(room, id);
      case OpUnregister(id) => UnregisterInv(room, id);
      case OpAddStreaming(id) => StreamingInv(room, id, true);
      case OpRemoveStreaming(id) => StreamingInv(room, id, false);
      case OpAddWatcher(id, publisher) => AddWatcherInv(room, id, publisher);
      case OpRemoveWatcher(id, publisher) => RemoveWatcherInv(room, id, publisher);
      case OpMedia(media) => MediaInv(room, media);
    }
  }

  lemma RegisterInv(room: Room, id: PeerId)
    requires RoomInv(room)
    ensures RoomInv(Register(room, id))
  {
    hide Safety.Inv, Safety.LockOk, Watches, Streams;
    var n := Register(room, id);
    forall x ensures WatchedBy(n, x) == WatchedBy(room, x) {
    }
  }

  lemma MediaInv(room: Room, op: Op)
    requires RoomInv(room) && IsMedia(op) && Enabled(room.router, op)
    ensures RoomInv(room.(router := Step(room.router, op)))
  {
    hide Safety.Inv, Safety.LockOk, Step, Enabled, Watches, Streams;
    Safety.StepInv(room.router, op);
    MediaTellsSame(room.router, op);
    var n := room.(router := Step(room.router, op));
    forall x ensures WatchedBy(n, x) == Watches(n.router, x) {
      assert WatchedBy(room, x) == Watches(room.router, x);
    }
  }

  // ---------------------------------------------------------------- runs

  ghost predicate RoomRun(states: seq<Room>, ops: seq<RoomOp>)
  {
    && |states| == |ops| + 1 && states[0] == NEW_ROOM
    && forall k :: 0 <= k < |ops| ==> RoomEnabled(states[k], ops[k]) && states[k + 1] == RoomStep(states[k], ops[k])
  }

  lemma NewRoomInv()
    ensures RoomInv(NEW_ROOM)
  {
    Safety.NewRouterInv();
  }

  lemma {:induction false} RoomRunInv(states: seq<Room>, ops: seq<RoomOp>, k: nat)
    requires RoomRun(states, ops) && k < |states|
    ensures RoomInv(states[k])
  {
    hide RoomInv, RoomStep, RoomEnabled;
    if k == 0 {
      NewRoomInv();
    } else {
      RoomRunInv(states, ops, k - 1);
      assert states[k - 1 + 1] == RoomStep(states[k - 1], ops[k - 1]);
      RoomStepInv(states[k - 1], ops[k - 1]);
    }
  }

  /** After every operation of every run, registry and router agree on who streams and
      who watches whom, and nobody watches more than eight. */
  lemma RegistryAndRouterAgree(states: seq<Room>, ops: seq<RoomOp>, k: nat, id: PeerId)
    requires RoomRun(states, ops) && k < |states|
    ensures var room := states[k];
            && (forall p :: p in room.streaming <==> Streams(room.router, p))
            && WatchedBy(room, id) == Watches(room.router, id)
            && |Watches(room.router, id)| <= SCREEN_RECEIVE_SLOTS
            && id !in WatchedBy(room, id) && WatchedBy(room, id) <= room.sessions
  {
    hide RoomRun, Safety.Inv, Safety.LockOk, Streams, Watches;
    RoomRunInv(states, ops, k);
  }

  /** The pairs of a watcher that are ready with live tracks. */
  function UsablePairs(r: Router, id: PeerId): set<nat>
  {
    if id !in r.peers then {}
    else set i: nat | 0 <= i < |r.peers[id].board.slots|
                      && LiveHalf(r.peers[id].board.slots[i].video, r.expired) && LiveHalf(r.peers[id].board.slots[i].audio, r.expired)
  }

  /** Admission control guarantees service: a watcher with eight usable pairs is bound to
      every publisher it watches that streams and has live video. */
  lemma AdmissionGuaranteesService(states: seq<Room>, ops: seq<RoomOp>, k: nat, id: PeerId, p: PeerId)
    requires RoomRun(states, ops) && k < |states|
    requires var room := states[k];
             && room.router.pending.None?
             && |UsablePairs(room.router, id)| >= 8
             && p in WatchedBy(room, id) && p in room.streaming
             && p in room.router.peers && Alive(room.router.peers[p].inputVideo, room.router.expired)
    ensures id in states[k].router.peers && Carries(states[k].router.peers[id].board.slots, p)
  {
    hide RoomRun, RoomInv, Carries, Assigned, UsablePairs;
    RoomRunInv(states, ops, k);
    ServedNow(states[k], id, p);
    CarriesAssigned(states[k].router.peers[id].board.slots, p);
  }

  lemma ServedNow(room: Room, id: PeerId, p: PeerId)
    requires RoomInv(room) && room.router.pending.None?
    requires |UsablePairs(room.router, id)| >= SCREEN_RECEIVE_SLOTS
    requires p in WatchedBy(room, id) && p in room.streaming
    requires p in room.router.peers && Lock(room.router.peers[p].inputVideo, room.router.expired).Some?
    ensures id in room.router.peers && p in Assigned(room.router.peers[id].board.slots)
  {
    hide Safety.Inv, Safety.LockOk, UsablePairs, Assigned, Free, Conserving, DistinctPublishers;
    var r := room.router;
    assert id in r.peers && WatchedBy(room, id) == Watches(r, id) && p != id && Streams(r, p);
    var slots := r.peers[id].board.slots;
    RouterFacts(r, id, p);
    if p !in Assigned(slots) {
      NoPairIsFree(slots, Safety.Due(r.peers, r.expired, id), r.expired, p);
      UsablePairsHeld(r, id);
      EveryoneIsShown(slots, UsablePairs(r, id), Watches(r, id));
    }
  }

  lemma RouterFacts(r: Router, id: PeerId, p: PeerId)
    requires Safety.Inv(r) && r.pending.None? && id in r.peers
    requires p in Watches(r, id) && p != id && Streams(r, p) && Lock(r.peers[p].inputVideo, r.expired).Some?
    ensures var slots := r.peers[id].board.slots;
            && DistinctPublishers(slots) && Assigned(slots) <= Watches(r, id)
            && Conserving(Paired, slots, Safety.Due(r.peers, r.expired, id), r.expired)
            && p in Safety.Due(r.peers, r.expired, id)
  {
    hide Safety.SplicersOk, SlotOk, Agrees, DistinctMids, Assigned, DistinctPublishers, Conserving, Safety.WatchesOk;
    assert Safety.PeerOk(r.peers[id]) && Assigned(r.peers[id].board.slots) <= Safety.Allowed(r.peers, id);
  }

  lemma NoPairIsFree(slots: seq<Slot>, wanted: set<PeerId>, expired: set<TrackId>, p: PeerId)
    requires Conserving(Paired, slots, wanted, expired) && p in wanted && p !in Assigned(slots)
    ensures forall i :: 0 <= i < |slots| ==> !Free(Paired, slots[i], expired)
  {
    hide Assigned, Free;
  }

  lemma UsablePairsHeld(r: Router, id: PeerId)
    requires id in r.peers
    requires forall i :: 0 <= i < |r.peers[id].board.slots| ==> !Free(Paired, r.peers[id].board.slots[i], r.expired)
    ensures forall i :: i in UsablePairs(r, id) ==> i < |r.peers[id].board.slots| && r.peers[id].board.slots[i].publisher.Some?
  {
  }

  // ---------------------------------------------------------------- the room as the server updates it

  /** The watches while `p` is being removed: the watchers in `todo` are still untouched. */
  function UnwatchAllBut(was: map<PeerId, set<PeerId>>, p: PeerId, todo: set<PeerId>): map<PeerId, set<PeerId>>
  {
    map id | id in was && (id in todo || was[id] - {p} != {}) :: if id in todo then was[id] else was[id] - {p}
  }

  lemma UnwatchEnds(was: map<PeerId, set<PeerId>>, p: PeerId)
    ensures UnwatchAllBut(was, p, was.Keys) == was && UnwatchAllBut(was, p, {}) == UnwatchAll(was, p)
  {
  }

  lemma UnwatchNext(was: map<PeerId, set<PeerId>>, p: PeerId, todo: set<PeerId>, id: PeerId)
    requires id in todo && todo <= was.Keys
    ensures var now, next := UnwatchAllBut(was, p, todo), UnwatchAllBut(was, p, todo - {id});
            && id in now && now[id] == was[id]
            && next == if was[id] - {p} == {} then now - {id} else now[id := was[id] - {p}]
  {
  }


  class RoomState {
    var sessions: set<PeerId>
    var streamingPeers: set<PeerId>
    var videoWatchers: map<PeerId, set<PeerId>>
    const screenRouter: ScreenRouter.Impl

    ghost function Value(): Room
      reads this, screenRouter
    {
      Room(sessions, streamingPeers, videoWatchers, screenRouter.Value())
    }

    ghost predicate Valid()
      reads this, screenRouter
    {
      RoomInv(Value())
    }

    constructor ()
      ensures Valid() && Value() == NEW_ROOM && fresh(screenRouter)
    {
      sessions, streamingPeers, videoWatchers := {}, {}, map[];
      screenRouter := new ScreenRouter.Impl();
      new;
      NewRoomInv();
    }

    method RegisterSession(id: PeerId)
      requires Valid()
      modifies this
      ensures Valid() && Value() == Register(old(Value()), id)
    {
      hide RoomInv;
      RegisterInv(Value(), id);
      sessions := sessions + {id};
    }

    /** `unregister_session`; the server drops the room when nobody is left. */
    method UnregisterSession(id: PeerId) returns (wasStreaming: bool, empty: bool)
      requires Valid() && Idle(screenRouter.Value())
      modifies this, screenRouter
      ensures Valid() && Idle(screenRouter.Value()) && Value() == Unregister(old(Value()), id)
      ensures wasStreaming == (id in old(sessions) && id in old(streamingPeers))
      ensures empty == (id in old(sessions) && sessions == {})
    {
      hide Safety.Inv, Safety.LockOk, Idle, PublishAll, RemovePeer, InStep, Admitted;
      UnregisterInv(Value(), id);
      if id !in sessions {
        return false, false;
      }
      sessions := sessions - {id};
      wasStreaming := id in streamingPeers;
      streamingPeers := streamingPeers - {id};
      ForgetWatches(id);
      empty := sessions == {};
      screenRouter.RemovePeer(id);
    }

    method ForgetWatches(id: PeerId)
      modifies this`videoWatchers
      ensures videoWatchers == UnwatchAll(old(videoWatchers) - {id}, id)
    {
      hide UnwatchAllBut;
      videoWatchers := videoWatchers - {id};
      ghost var was := videoWatchers;
      var todo := videoWatchers.Keys;
      UnwatchEnds(was, id);
      while todo != {}
        invariant todo <= was.Keys && videoWatchers == UnwatchAllBut(was, id, todo)
        decreases |todo|
      {
        var watcher :| watcher in todo;
        UnwatchNext(was, id, todo, watcher);
        var left := videoWatchers[watcher] - {id};
        if left == {} {
          videoWatchers := videoWatchers - {watcher};
        } else {
          videoWatchers := videoWatchers[watcher := left];
        }
        todo := todo - {watcher};
      }
    }

    method AddStreamingPeer(id: PeerId)
      requires Valid() && Idle(screenRouter.Value())
      modifies this, screenRouter
      ensures Valid() && Idle(screenRouter.Value()) && Value() == AddStreaming(old(Value()), id)
    {
      hide Safety.Inv, Safety.LockOk, Idle, PublishAll, SetStreaming, InStep, Admitted;
      StreamingInv(Value(), id, true);
      streamingPeers := streamingPeers + {id};
      screenRouter.SetStreaming(id, true);
    }

    method RemoveStreamingPeer(id: PeerId)
      requires Valid() && Idle(screenRouter.Value())
      modifies this, screenRouter
      ensures Valid() && Idle(screenRouter.Value()) && Value() == RemoveStreaming(old(Value()), id)
    {
      hide Safety.Inv, Safety.LockOk, Idle, PublishAll, SetStreaming, InStep, Admitted;
      StreamingInv(Value(), id, false);
      streamingPeers := streamingPeers - {id};
      screenRouter.SetStreaming(id, false);
    }

    method AddVideoWatcher(id: PeerId, publisher: PeerId) returns (rejection: Option<Reject>)
      requires Valid() && Idle(screenRouter.Value())
      modifies this, screenRouter
      ensures Valid() && Idle(screenRouter.Value()) && Value() == AddWatcher(old(Value()), id, publisher)
      ensures rejection == Rejection(old(Value()), id, publisher)
    {
      hide Safety.Inv, Safety.LockOk, Idle, PublishAll, SetWatching, InStep, Admitted;
      AddWatcherInv(Value(), id, publisher);
      rejection := None;
      if id !in sessions {
        return;
      }
      if publisher !in sessions || id == publisher {
        return Some(UnknownPeer);
      }
      if publisher !in streamingPeers {
        return Some(NotStreaming);
      }
      var watched := if id in videoWatchers then videoWatchers[id] else {};
      if publisher in watched {
        return;
      }
      if |watched| >= SCREEN_RECEIVE_SLOTS {
        return Some(Capacity);
      }
      videoWatchers := videoWatchers[id := watched + {publisher}];
      screenRouter.SetWatching(id, publisher, true);
    }

    method RemoveVideoWatcher(id: PeerId, publisher: PeerId)
      requires Valid() && Idle(screenRouter.Value())
      modifies this, screenRouter
      ensures Valid() && Idle(screenRouter.Value()) && Value() == RemoveWatcher(old(Value()), id, publisher)
    {
      hide Safety.Inv, Safety.LockOk, Idle, PublishAll, SetWatching, InStep, Admitted;
      RemoveWatcherInv(Value(), id, publisher);
      if id in videoWatchers {
        var left := videoWatchers[id] - {publisher};
        if left == {} {
          videoWatchers := videoWatchers - {id};
        } else {
          videoWatchers := videoWatchers[id := left];
        }
      }
      screenRouter.SetWatching(id, publisher, false);
    }
  }
}
