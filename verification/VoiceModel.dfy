/** The state and the operations of the voice router, as functions. Its boards have one
    audio half per slot; everyone with a live input is to be heard by everyone else. */
module VoiceModel {
  import opened Words
  import opened Identity
  import opened Splicer
  import opened SplicerRuns
  import opened ClientBindings
  import opened Ordering
  import opened SlotBoard
  import Screen = ScreenModel

  type Flight = Screen.Flight

  datatype VoicePeer = VoicePeer(order: nat, input: Option<TrackId>, board: Board, published: nat)

  datatype Voice = Voice(
    peers: map<PeerId, VoicePeer>,
    nextPeerOrder: nat,
    closed: bool,
    expired: set<TrackId>,
    nextRewriter: nat,
    orphans: map<nat, LiveStream>,
    flights: set<Flight>)

  const NEW_VOICE := Voice(map[], 0, false, {}, 0, map[], {})

  function NewVoicePeer(order: nat): VoicePeer
  {
    VoicePeer(order, None, Board([], []), 0)
  }

  function WithVoicePeer(v: Voice, id: PeerId): Voice
  {
    if id in v.peers then v
    else v.(peers := v.peers[id := NewVoicePeer(v.nextPeerOrder)], nextPeerOrder := v.nextPeerOrder + 1)
  }

  // ---------------------------------------------------------------- the splicers, as the screen router sees them

  function SeenPeer(p: VoicePeer): Screen.PeerState
  {
    Screen.PeerState(p.order, None, p.input, p.board, false, map[], 0, p.published)
  }

  function SeenPeers(peers: map<PeerId, VoicePeer>): map<PeerId, Screen.PeerState>
  {
    map id | id in peers :: SeenPeer(peers[id])
  }

  /** The slots, splicers, orphans and targets of the voice router, as a screen router
      without video: what holds of splicers there is shared. */
  function Seen(v: Voice): Screen.Router
  {
    Screen.Router(SeenPeers(v.peers), v.nextPeerOrder, v.closed, v.expired, v.nextRewriter, v.orphans, v.flights, None)
  }

  // ---------------------------------------------------------------- operations

  function Orders(peers: map<PeerId, VoicePeer>): map<PeerId, nat>
  {
    map id | id in peers :: peers[id].order
  }

  function Speaking(peers: map<PeerId, VoicePeer>, expired: set<TrackId>): set<PeerId>
  {
    set p | p in peers && Screen.Lock(peers[p].input, expired).Some?
  }

  ghost function AssignVoice(id: PeerId, peer: VoicePeer, candidates: seq<PeerId>, speaking: set<PeerId>, expired: set<TrackId>): VoicePeer
  {
    peer.(board := Assign(Single, peer.board, candidates, speaking - {id}, expired))
  }

  ghost function AssignVoices(peers: map<PeerId, VoicePeer>, expired: set<TrackId>): map<PeerId, VoicePeer>
  {
    map id | id in peers :: AssignVoice(id, peers[id], Ordered(Orders(peers)), Speaking(peers, expired), expired)
  }

  ghost function AssignAll(v: Voice): Voice
  {
    v.(peers := AssignVoices(v.peers, v.expired))
  }

  function ClearVoices(peers: map<PeerId, VoicePeer>, p: PeerId): map<PeerId, VoicePeer>
  {
    map id | id in peers :: peers[id].(board := ClearFrom(peers[id].board, p, 0))
  }

  function RestartVoices(peers: map<PeerId, VoicePeer>, p: PeerId): map<PeerId, VoicePeer>
  {
    map id | id in peers :: peers[id].(board := RestartFrom(peers[id].board, p, Audio, 0))
  }

  ghost function RegisterInput(v: Voice, owner: PeerId, track: TrackId): Voice
  {
    if v.closed then v
    else
      var known := WithVoicePeer(v, owner);
      var changed := Screen.Lock(known.peers[owner].input, v.expired) != Some(track);
      var peers := known.peers[owner := known.peers[owner].(input := Some(track))];
      AssignAll(known.(peers := if changed then RestartVoices(peers, owner) else peers))
  }

  function NewVoiceHalf(mid: Mid, track: TrackId, rewriter: nat): Half
  {
    Screen.NewHalf(mid, track, rewriter, Audio).(ready := true)
  }

  /** The slot with this mid, or a new one at the end. */
  function SlotFor(slots: seq<Slot>, mid: Mid): (i: nat)
    ensures i <= |slots|
  {
    var found := Screen.PairWithMid(slots, mid, Audio, 0);
    if found.Some? then found.value else |slots|
  }

  /** The board with the slot cleared and a new splicer in it. */
  function RenewAt(b: Board, i: nat, half: Half): Board
    requires i <= |b.slots|
  {
    var cleared := Screen.ClearedPair(b, i);
    cleared.(slots := cleared.slots[i := WithHalf(cleared.slots[i], Audio, Some(half))])
  }

  ghost function RegisterOutput(v: Voice, owner: PeerId, mid: Mid, track: TrackId): Voice
  {
    if v.closed then v
    else
      var known := WithVoicePeer(v, owner);
      var peer := known.peers[owner];
      var i := SlotFor(peer.board.slots, mid);
      var replaced := HalfOf(Screen.ClearedPair(peer.board, i).slots[i], Audio);
      AssignAll(known.(
        peers := known.peers[owner := peer.(board := RenewAt(peer.board, i, NewVoiceHalf(mid, track, v.nextRewriter)))],
        nextRewriter := v.nextRewriter + 1,
        orphans := v.orphans + Screen.HalfOrphan(replaced)))
  }

  ghost function Gone(v: Voice, leaving: map<PeerId, VoicePeer>): map<nat, LiveStream>
  {
    Screen.Orphaned(SeenPeers(leaving), v.nextRewriter)
  }

  ghost function RemovePeer(v: Voice, id: PeerId): Voice
  {
    if v.closed then v
    else
      var leaving := map other | other in v.peers && other == id :: v.peers[other];
      AssignAll(v.(peers := ClearVoices(v.peers - {id}, id), orphans := v.orphans + Gone(v, leaving)))
  }

  /** The targets `route` and `forward_delayed` snapshot under the mutex. */
  function RouteTargets(v: Voice, publisher: PeerId, expected: TrackId): set<Flight>
  {
    if v.closed || publisher !in v.peers
       || Screen.Lock(v.peers[publisher].input, v.expired) != Screen.Lock(Some(expected), v.expired)
    then {}
    else Screen.Targets(SeenPeers(v.peers), publisher, Audio)
  }

  function Route(v: Voice, publisher: PeerId, expected: TrackId): Voice
  {
    v.(flights := v.flights + RouteTargets(v, publisher, expected))
  }

  function Deliver(v: Voice, f: Flight, input: Numbers): Voice
  {
    v.(peers := map id | id in v.peers :: v.peers[id].(board := Screen.DeliverBoard(v.peers[id].board, f, input)),
       orphans := if f.rewriter in v.orphans
                  then v.orphans[f.rewriter := StreamStep(v.orphans[f.rewriter], Packet(f.generation, input))]
                  else v.orphans)
  }

  // ---------------------------------------------------------------- publishing

  function Published(peer: VoicePeer): seq<Notice>
    requires peer.published <= |peer.board.notices|
  {
    peer.board.notices[..peer.published]
  }

  function Queued(peer: VoicePeer): seq<Notice>
    requires peer.published <= |peer.board.notices|
  {
    peer.board.notices[peer.published..]
  }

  function PublishNext(v: Voice, id: PeerId): Voice
    requires id in v.peers
  {
    v.(peers := v.peers[id := v.peers[id].(published := v.peers[id].published + 1)])
  }

  function PublishPeers(peers: map<PeerId, VoicePeer>): map<PeerId, VoicePeer>
  {
    map id | id in peers :: peers[id].(published := |peers[id].board.notices|)
  }

  /** The state when the whole list of notices is out. */
  function PublishAll(v: Voice): Voice
  {
    v.(peers := PublishPeers(v.peers))
  }

  /** No operation holds `publish_mutex` with notices to publish. */
  predicate Idle(v: Voice)
  {
    forall id :: id in v.peers ==> v.peers[id].published == |v.peers[id].board.notices|
  }

  // ---------------------------------------------------------------- steps

  datatype Op =
    | OpRegisterInput(owner: PeerId, track: TrackId)
    | OpRegisterOutput(owner: PeerId, mid: Mid, track: TrackId)
    | OpRemovePeer(id: PeerId)
    | OpPublish(id: PeerId)
    | OpClose
    | OpExpire(track: TrackId)
    | OpRoute(publisher: PeerId, expected: TrackId)
    | OpDeliver(flight: Flight, input: Numbers)

  /** Binding changes wait for `publish_mutex`, and a caller holds the track it registers. */
  predicate Enabled(v: Voice, op: Op)
  {
    match op
    case OpRegisterInput(_, track) => Idle(v) && track !in v.expired
    case OpRegisterOutput(_, _, track) => Idle(v) && track !in v.expired
    case OpRemovePeer(_) => Idle(v)
    case OpPublish(id) => id in v.peers && v.peers[id].published < |v.peers[id].board.notices|
    case OpDeliver(flight, _) => flight in v.flights
    case _ => true
  }

  ghost function Step(v: Voice, op: Op): Voice
    requires Enabled(v, op)
  {
    match op
    case OpRegisterInput(owner, track) => RegisterInput(v, owner, track)
    case OpRegisterOutput(owner, mid, track) => RegisterOutput(v, owner, mid, track)
    case OpRemovePeer(id) => RemovePeer(v, id)
    case OpPublish(id) => PublishNext(v, id)
    case OpClose => v.(closed := true, peers := map[], orphans := v.orphans + Gone(v, v.peers))
    case OpExpire(track) => v.(expired := v.expired + {track})
    case OpRoute(publisher, expected) => Route(v, publisher, expected)
    case OpDeliver(flight, input) => Deliver(v, flight, input)
  }
}
