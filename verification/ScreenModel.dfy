/** The screen router's state and its operations, as a state machine.

    An operation that changes bindings holds `publish_mutex` from start to end. Its
    critical section is one step, two for `register_output`, which lets go of the state
    mutex in the middle. The notices it collected go out afterwards, one by one. Packets
    and track expiries can come between any two of these steps. */
module ScreenModel {
  import opened Words
  import opened Identity
  import opened Splicer
  import opened SplicerRuns
  import opened ClientBindings
  import opened Ordering
  import opened SlotBoard

  /** The first `published` notices of the board went out, the others are queued. */
  datatype PeerState = PeerState(
    order: nat,
    inputVideo: Option<TrackId>,
    inputAudio: Option<TrackId>,
    board: Board,
    streaming: bool,
    watched: map<PeerId, nat>,
    nextWatchOrder: nat,
    published: nat)

  /** A packet target as `route` snapshots it: it keeps the generation it saw. */
  datatype Flight = Flight(publisher: PeerId, media: Media, rewriter: nat, generation: nat)

  datatype Pending = Pending(owner: PeerId, mid: Mid, media: Media, track: TrackId)

  /** `expired` holds the tracks whose last reference is gone. `orphans` are splicers no
      slot holds any more but a target may; `flights` are all targets ever snapshotted. */
  datatype Router = Router(
    peers: map<PeerId, PeerState>,
    nextPeerOrder: nat,
    closed: bool,
    expired: set<TrackId>,
    nextRewriter: nat,
    orphans: map<nat, LiveStream>,
    flights: set<Flight>,
    pending: Option<Pending>)

  const NEW_ROUTER := Router(map[], 0, false, {}, 0, map[], {}, None)

  function NewPeer(order: nat): PeerState
  {
    PeerState(order, None, None, Board([], []), false, map[], 0, 0)
  }

  /** Locking a weak pointer. */
  function Lock(track: Option<TrackId>, expired: set<TrackId>): Option<TrackId>
  {
    if track.Some? && track.value !in expired then track else None
  }

  function InputOf(peer: PeerState, media: Media): Option<TrackId>
  {
    if media.Video? then peer.inputVideo else peer.inputAudio
  }

  function WithInput(peer: PeerState, media: Media, track: TrackId): PeerState
  {
    if media.Video? then peer.(inputVideo := Some(track)) else peer.(inputAudio := Some(track))
  }

  function WithPeer(r: Router, id: PeerId): Router
  {
    if id in r.peers then r
    else r.(peers := r.peers[id := NewPeer(r.nextPeerOrder)], nextPeerOrder := r.nextPeerOrder + 1)
  }

  // ---------------------------------------------------------------- assignment

  predicate Serves(peer: PeerState, expired: set<TrackId>)
  {
    peer.streaming && Lock(peer.inputVideo, expired).Some?
  }

  function Servable(peers: map<PeerId, PeerState>, expired: set<TrackId>): set<PeerId>
  {
    set p | p in peers && Serves(peers[p], expired)
  }

  ghost function AssignPeer(id: PeerId, peer: PeerState, servable: set<PeerId>, expired: set<TrackId>): PeerState
  {
    peer.(board := Assign(Paired, peer.board, Ordered(peer.watched), servable - {id}, expired))
  }

  ghost function AssignPeers(peers: map<PeerId, PeerState>, expired: set<TrackId>): map<PeerId, PeerState>
  {
    map id | id in peers :: AssignPeer(id, peers[id], Servable(peers, expired), expired)
  }

  ghost function AssignAll(r: Router): Router
  {
    r.(peers := AssignPeers(r.peers, r.expired))
  }

  // ---------------------------------------------------------------- operations

  function ClearPeers(peers: map<PeerId, PeerState>, p: PeerId): map<PeerId, PeerState>
  {
    map id | id in peers :: peers[id].(board := ClearFrom(peers[id].board, p, 0))
  }

  function RestartPeers(peers: map<PeerId, PeerState>, p: PeerId, media: Media): map<PeerId, PeerState>
  {
    map id | id in peers :: peers[id].(board := RestartFrom(peers[id].board, p, media, 0))
  }

  ghost function RegisterInput(r: Router, owner: PeerId, track: TrackId, media: Media): Router
  {
    if r.closed then r
    else
      var known := WithPeer(r, owner);
      var peer := known.peers[owner];
      var changed := Lock(InputOf(peer, media), r.expired) != Some(track);
      var peers := known.peers[owner := WithInput(peer, media, track)];
      AssignAll(known.(peers := if changed then RestartPeers(peers, owner, media) else peers))
  }

  ghost function SetStreaming(r: Router, id: PeerId, streaming: bool): Router
  {
    if r.closed then r
    else
      var known := WithPeer(r, id);
      if known.peers[id].streaming == streaming then known
      else
        var peers := known.peers[id := known.peers[id].(streaming := streaming)];
        AssignAll(known.(peers := if streaming then peers else ClearPeers(peers, id)))
  }

  ghost function SetWatching(r: Router, id: PeerId, publisher: PeerId, watching: bool): Router
  {
    if id == publisher || r.closed then r
    else
      var known := WithPeer(r, id);
      var peer := known.peers[id];
      if watching then
        if publisher in peer.watched then known
        else
          AssignAll(known.(peers := known.peers[id := peer.(
            watched := peer.watched[publisher := peer.nextWatchOrder],
            nextWatchOrder := peer.nextWatchOrder + 1)]))
      else if publisher !in peer.watched then known
      else
        AssignAll(known.(peers := known.peers[id := peer.(
          watched := peer.watched - {publisher},
          board := ClearFrom(peer.board, publisher, 0))]))
  }

  function HalfOrphan(h: Option<Half>): map<nat, LiveStream>
  {
    if h.Some? then map[h.value.rewriter := h.value.stream] else map[]
  }

  /** Where a splicer lives: the half at (id, i, media). */
  predicate At(peers: map<PeerId, PeerState>, id: PeerId, i: nat, media: Media)
  {
    id in peers && i < |peers[id].board.slots| && HalfOf(peers[id].board.slots[i], media).Some?
  }

  function HalfAt(peers: map<PeerId, PeerState>, id: PeerId, i: nat, media: Media): Half
    requires At(peers, id, i, media)
  {
    HalfOf(peers[id].board.slots[i], media).value
  }

  predicate Holds(peers: map<PeerId, PeerState>, id: PeerId, i: nat, media: Media, rewriter: nat)
  {
    At(peers, id, i, media) && HalfAt(peers, id, i, media).rewriter == rewriter
  }

  ghost predicate Held(peers: map<PeerId, PeerState>, rewriter: nat)
  {
    exists id, i, media :: Holds(peers, id, i, media, rewriter)
  }

  ghost function StreamOf(peers: map<PeerId, PeerState>, rewriter: nat): LiveStream
    requires Held(peers, rewriter)
  {
    var id, i, media :| Holds(peers, id, i, media, rewriter);
    HalfAt(peers, id, i, media).stream
  }

  /** The splicers of peers that go away: no slot holds them, but targets still may. */
  ghost function Orphaned(peers: map<PeerId, PeerState>, nextRewriter: nat): map<nat, LiveStream>
  {
    map rewriter | 0 <= rewriter < nextRewriter && Held(peers, rewriter) :: StreamOf(peers, rewriter)
  }

  function ForgetWatch(peer: PeerState, p: PeerId): PeerState
  {
    peer.(watched := peer.watched - {p}, board := ClearFrom(peer.board, p, 0))
  }

  ghost function RemovePeer(r: Router, id: PeerId): Router
  {
    if r.closed then r
    else
      var rest := r.peers - {id};
      AssignAll(r.(
        peers := map other | other in rest :: ForgetWatch(rest[other], id),
        orphans := r.orphans + Orphaned(map other | other in r.peers && other == id :: r.peers[other], r.nextRewriter)))
  }

  /** `output_pair_for`: the pair that has this mid, else the first one without such a
      half, else a new one at the end. */
  function PairFor(slots: seq<Slot>, mid: Mid, media: Media): (i: nat)
    ensures i <= |slots|
    ensures i < |slots| ==> HalfOf(slots[i], media).None? || HalfOf(slots[i], media).value.mid == mid
  {
    match PairWithMid(slots, mid, media, 0)
    case Some(i) => i
    case None =>
      var lacking := PairLacking(slots, media, 0);
      if lacking.Some? then lacking.value else |slots|
  }

  function PairWithMid(slots: seq<Slot>, mid: Mid, media: Media, from: nat): (r: Option<nat>)
    requires from <= |slots|
    ensures r.Some? ==> from <= r.value < |slots| && HalfOf(slots[r.value], media).Some? && HalfOf(slots[r.value], media).value.mid == mid
    ensures r.None? ==> forall i :: from <= i < |slots| && HalfOf(slots[i], media).Some? ==> HalfOf(slots[i], media).value.mid != mid
    decreases |slots| - from
  {
    if from == |slots| then None
    else if HalfOf(slots[from], media).Some? && HalfOf(slots[from], media).value.mid == mid then Some(from)
    else PairWithMid(slots, mid, media, from + 1)
  }

  function PairLacking(slots: seq<Slot>, media: Media, from: nat): (r: Option<nat>)
    requires from <= |slots|
    ensures r.Some? ==> from <= r.value < |slots| && HalfOf(slots[r.value], media).None?
    decreases |slots| - from
  {
    if from == |slots| then None
    else if HalfOf(slots[from], media).None? then Some(from)
    else PairLacking(slots, media, from + 1)
  }

  const EMPTY_SLOT := Slot(None, None, None)

  function ClockRate(media: Media): u32 { if media.Video? then 90_000 else 48_000 }

  function DefaultStep(media: Media): u32 { if media.Video? then 3_000 else 960 }

  function NewHalf(mid: Mid, track: TrackId, rewriter: nat, media: Media): Half
  {
    Half(mid, track, false, rewriter, FreshStream(ClockRate(media), DefaultStep(media)), 0)
  }

  /** The board with the chosen pair cleared, before the new half goes in. */
  function ClearedPair(b: Board, i: nat): (n: Board)
    requires i <= |b.slots|
    ensures i < |n.slots|
  {
    if i < |b.slots| then ClearAt(b, i) else b.(slots := b.slots + [EMPTY_SLOT])
  }

  function RegisterOutputBegin(r: Router, owner: PeerId, mid: Mid, media: Media, track: TrackId): Router
  {
    if r.closed then r
    else
      var known := WithPeer(r, owner);
      var peer := known.peers[owner];
      var i := PairFor(peer.board.slots, mid, media);
      var board := ClearedPair(peer.board, i);
      var replaced := HalfOf(board.slots[i], media);
      var slot := WithHalf(board.slots[i], media, Some(NewHalf(mid, track, r.nextRewriter, media)));
      known.(peers := known.peers[owner := peer.(board := board.(slots := board.slots[i := slot]))],
             nextRewriter := r.nextRewriter + 1,
             orphans := r.orphans + HalfOrphan(replaced),
             pending := Some(Pending(owner, mid, media, track)))
  }

  function MarkReady(slots: seq<Slot>, mid: Mid, media: Media, track: TrackId): (r: seq<Slot>)
    ensures |r| == |slots|
  {
    match PairWithMid(slots, mid, media, 0)
    case None => slots
    case Some(i) =>
      var half := HalfOf(slots[i], media).value;
      if half.track == track
      then slots[i := WithHalf(slots[i], media, Some(half.(ready := true)))]
      else slots
  }

  ghost function RegisterOutputFinish(r: Router): Router
    requires r.pending.Some?
  {
    var Pending(owner, mid, media, track) := r.pending.value;
    var done := r.(pending := None);
    if r.closed || owner !in r.peers then done
    else
      var peer := r.peers[owner];
      AssignAll(done.(peers := r.peers[owner := peer.(
        board := peer.board.(slots := MarkReady(peer.board.slots, mid, media, track)))]))
  }

  // ---------------------------------------------------------------- packets

  function Targets(peers: map<PeerId, PeerState>, publisher: PeerId, media: Media): set<Flight>
  {
    set id, i | id in peers && 0 <= i < |peers[id].board.slots|
                && peers[id].board.slots[i].publisher == Some(publisher)
                && HalfOf(peers[id].board.slots[i], media).Some?
                && HalfOf(peers[id].board.slots[i], media).value.ready
      :: var h := HalfOf(peers[id].board.slots[i], media).value;
         Flight(publisher, media, h.rewriter, h.sourceGeneration)
  }

  /** The targets `route` and `forward_delayed` snapshot under the mutex. */
  function RouteTargets(r: Router, publisher: PeerId, media: Media, expected: TrackId): set<Flight>
  {
    if r.closed || publisher !in r.peers || !r.peers[publisher].streaming
       || Lock(InputOf(r.peers[publisher], media), r.expired) != Lock(Some(expected), r.expired)
    then {}
    else Targets(r.peers, publisher, media)
  }

  function Route(r: Router, publisher: PeerId, media: Media, expected: TrackId): Router
  {
    r.(flights := r.flights + RouteTargets(r, publisher, media, expected))
  }

  function DeliverHalf(h: Option<Half>, f: Flight, input: Numbers): Option<Half>
  {
    if h.Some? && h.value.rewriter == f.rewriter
    then Some(h.value.(stream := StreamStep(h.value.stream, Packet(f.generation, input))))
    else h
  }

  function DeliverSlot(slot: Slot, f: Flight, input: Numbers): Slot
  {
    Slot(DeliverHalf(slot.video, f, input), DeliverHalf(slot.audio, f, input), slot.publisher)
  }

  function DeliverBoard(b: Board, f: Flight, input: Numbers): Board
  {
    b.(slots := seq(|b.slots|, i requires 0 <= i < |b.slots| => DeliverSlot(b.slots[i], f, input)))
  }

  /** One `rewrite` call of `send_packets`, on whatever the splicer has become by then. */
  function Deliver(r: Router, f: Flight, input: Numbers): Router
  {
    r.(peers := map id | id in r.peers :: r.peers[id].(board := DeliverBoard(r.peers[id].board, f, input)),
       orphans := if f.rewriter in r.orphans
                  then r.orphans[f.rewriter := StreamStep(r.orphans[f.rewriter], Packet(f.generation, input))]
                  else r.orphans)
  }

  // ---------------------------------------------------------------- publishing

  function Published(peer: PeerState): seq<Notice>
    requires peer.published <= |peer.board.notices|
  {
    peer.board.notices[..peer.published]
  }

  function Queued(peer: PeerState): seq<Notice>
    requires peer.published <= |peer.board.notices|
  {
    peer.board.notices[peer.published..]
  }

  /** `publish` hands the next notice of this subscriber to its sender. */
  function PublishNext(r: Router, id: PeerId): Router
    requires id in r.peers
  {
    r.(peers := r.peers[id := r.peers[id].(published := r.peers[id].published + 1)])
  }

  function PublishPeers(peers: map<PeerId, PeerState>): map<PeerId, PeerState>
  {
    map id | id in peers :: peers[id].(published := |peers[id].board.notices|)
  }

  /** The state when the whole list of notices is out. */
  function PublishAll(r: Router): Router
  {
    r.(peers := PublishPeers(r.peers))
  }

  /** No operation holds `publish_mutex`: nothing is half registered and nothing queued. */
  predicate Idle(r: Router)
  {
    r.pending.None? && forall id :: id in r.peers ==> r.peers[id].published == |r.peers[id].board.notices|
  }

  // ---------------------------------------------------------------- steps

  datatype Op =
    | OpRegisterInput(owner: PeerId, track: TrackId, media: Media)
    | OpRegisterOutput(owner: PeerId, mid: Mid, media: Media, track: TrackId)
    | OpOutputReady
    | OpPublish(id: PeerId)
    | OpSetStreaming(id: PeerId, streaming: bool)
    | OpSetWatching(id: PeerId, publisher: PeerId, watching: bool)
    | OpRemovePeer(id: PeerId)
    | OpClose
    | OpExpire(track: TrackId)
    | OpRoute(publisher: PeerId, media: Media, expected: TrackId)
    | OpDeliver(flight: Flight, input: Numbers)

  /** Steps that the lock and the tracks allow: binding changes wait for
      `publish_mutex`, and a caller holds the track it registers. */
  predicate Enabled(r: Router, op: Op)
  {
    match op
    case OpRegisterInput(_, track, _) => Idle(r) && track !in r.expired
    case OpRegisterOutput(_, _, _, track) => Idle(r) && track !in r.expired
    case OpOutputReady => r.pending.Some?
    case OpPublish(id) => r.pending.None? && id in r.peers && r.peers[id].published < |r.peers[id].board.notices|
    case OpSetStreaming(_, _) => Idle(r)
    case OpSetWatching(_, _, _) => Idle(r)
    case OpRemovePeer(_) => Idle(r)
    case OpClose => true
    case OpExpire(track) => r.pending.Some? ==> track != r.pending.value.track
    case OpRoute(_, _, _) => true
    case OpDeliver(flight, _) => flight in r.flights
  }

  ghost function Step(r: Router, op: Op): Router
    requires Enabled(r, op)
  {
    match op
    case OpRegisterInput(owner, track, media) => RegisterInput(r, owner, track, media)
    case OpRegisterOutput(owner, mid, media, track) => RegisterOutputBegin(r, owner, mid, media, track)
    case OpOutputReady => RegisterOutputFinish(r)
    case OpPublish(id) => PublishNext(r, id)
    case OpSetStreaming(id, streaming) => SetStreaming(r, id, streaming)
    case OpSetWatching(id, publisher, watching) => SetWatching(r, id, publisher, watching)
    case OpRemovePeer(id) => RemovePeer(r, id)
    case OpClose => r.(closed := true, peers := map[], orphans := r.orphans + Orphaned(r.peers, r.nextRewriter))
    case OpExpire(track) => r.(expired := r.expired + {track})
    case OpRoute(publisher, media, expected) => Route(r, publisher, media, expected)
    case OpDeliver(flight, input) => Deliver(r, flight, input)
  }
}
