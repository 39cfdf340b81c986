/** What each operation of the screen router does to the bindings, and to nothing else. */
module ScreenOperations {
  import opened Words
  import opened Identity
  import opened Splicer
  import opened SplicerRuns
  import opened ClientBindings
  import opened Ordering
  import opened SlotBoard
  import opened BoardEffects
  import opened ScreenModel
  import opened ScreenSafety
  import opened ScreenTheorems

  // ---------------------------------------------------------------- handing out slots

  /** `p` is a publisher that `id` watches, that streams, and whose video is alive. */
  predicate CanBeShown(r: Router, id: PeerId, p: PeerId)
    requires id in r.peers
  {
    && p != id && p in r.peers && p in r.peers[id].watched && r.peers[p].streaming
    && r.peers[p].inputVideo.Some? && r.peers[p].inputVideo.value !in r.expired
  }

  lemma HandsOut(r: Router, id: PeerId, j: nat)
    requires id in r.peers && BoardOk(Paired, r.peers[id].board) && j < |r.peers[id].board.slots|
    ensures var n := AssignAll(r);
            && id in n.peers && |n.peers[id].board.slots| == |r.peers[id].board.slots|
            && (|| n.peers[id].board.slots[j] == r.peers[id].board.slots[j]
                || (NewlyBound(Paired, r.peers[id].board.slots[j], n.peers[id].board.slots[j], r.expired)
                    && CanBeShown(r, id, n.peers[id].board.slots[j].publisher.value)))
  {
    hide BoardOk, NewlyBound, Assign, Ordered;
    var peer := r.peers[id];
    AssignTouchesFree(Paired, peer.board, Ordered(peer.watched), Servable(r.peers, r.expired) - {id}, r.expired);
  }

  /** A bound slot is not touched when slots are handed out. */
  lemma BoundIsKept(r: Router, id: PeerId, j: nat)
    requires id in r.peers && BoardOk(Paired, r.peers[id].board) && j < |r.peers[id].board.slots|
    requires r.peers[id].board.slots[j].publisher.Some?
    ensures var n := AssignAll(r);
            id in n.peers && |n.peers[id].board.slots| == |r.peers[id].board.slots| && n.peers[id].board.slots[j] == r.peers[id].board.slots[j]
  {
    hide BoardOk, AssignAll;
    HandsOut(r, id, j);
  }

  // ---------------------------------------------------------------- one operation, one slot

  /** The slot of `id` at `i`. */
  predicate HasSlot(r: Router, id: PeerId, i: nat)
  {
    id in r.peers && i < |r.peers[id].board.slots|
  }

  /** The stored track of this medium is alive and is this one. */
  predicate Stored(r: Router, owner: PeerId, media: Media, track: TrackId)
  {
    && owner in r.peers && track !in r.expired
    && (if media.Video? then r.peers[owner].inputVideo else r.peers[owner].inputAudio) == Some(track)
  }

  lemma PeerBoard(r: Router, id: PeerId)
    requires Inv(r) && id in r.peers
    ensures BoardOk(Paired, r.peers[id].board)
  {
    hide SplicersOk, WorkConserving, BoardOk;
    assert PeerOk(r.peers[id]);
  }

  lemma RegisterInputOnSlot(r: Router, owner: PeerId, track: TrackId, media: Media, id: PeerId, i: nat)
    requires Inv(r) && !r.closed && track !in r.expired && HasSlot(r, id, i) && r.peers[id].board.slots[i].publisher.Some?
    ensures var n := RegisterInput(r, owner, track, media);
            && HasSlot(n, id, i)
            && var a, b := r.peers[id].board.slots[i], n.peers[id].board.slots[i];
               if a.publisher == Some(owner) && !Stored(r, owner, media, track) then Restarted(a, b, media, owner) else b == a
  {
    hide Inv, BoardOk, AssignAll, RestartFrom, Restarted;
    PeerBoard(r, id);
    var known := WithPeer(r, owner);
    var peers := known.peers[owner := WithInput(known.peers[owner], media, track)];
    var restarted := RestartPeers(peers, owner, media);
    var b := r.peers[id].board;
    assert peers[id].board == b;
    RestartFromKeeps(Paired, b, owner, media, 0);
    KeepsOk(Paired, b, RestartFrom(b, owner, media, 0));
    RestartTouchesOnly(Paired, b, owner, media, 0);
    BoundIsKept(known.(peers := peers), id, i);
    RestartedPublisher(b.slots[i], restarted[id].board.slots[i], media, owner);
    BoundIsKept(known.(peers := restarted), id, i);
  }

  /** The input is stored for its medium, and that of the other medium stays. */
  lemma InputIsStored(r: Router, owner: PeerId, track: TrackId, media: Media)
    requires !r.closed
    ensures var n := RegisterInput(r, owner, track, media);
            && owner in n.peers
            && n.peers[owner].inputVideo == (if media.Video? then Some(track) else if owner in r.peers then r.peers[owner].inputVideo else None)
            && n.peers[owner].inputAudio == (if media.Audio? then Some(track) else if owner in r.peers then r.peers[owner].inputAudio else None)
            && (forall x :: x in r.peers && x != owner ==>
                  x in n.peers && n.peers[x].inputVideo == r.peers[x].inputVideo && n.peers[x].inputAudio == r.peers[x].inputAudio)
  {
    hide Assign, RestartFrom, Ordered, Servable;
  }

  lemma ClearedOnSlot(m: Router, boards: Router, p: PeerId, id: PeerId, i: nat)
    requires HasSlot(m, id, i) && BoardOk(Paired, m.peers[id].board)
    requires m.peers[id].board.slots[i].publisher.Some? && m.peers[id].board.slots[i].publisher != Some(p)
    requires id in boards.peers && boards.peers[id].board == ClearFrom(m.peers[id].board, p, 0)
    ensures var n := AssignAll(boards); HasSlot(n, id, i) && n.peers[id].board.slots[i] == m.peers[id].board.slots[i]
  {
    hide BoardOk, AssignAll, ClearFrom;
    ClearFromKeeps(Paired, m.peers[id].board, p, 0);
    KeepsOk(Paired, m.peers[id].board, boards.peers[id].board);
    ClearTouchesOnly(m.peers[id].board, p, 0);
    BoundIsKept(boards, id, i);
  }

  lemma SetStreamingOnSlot(r: Router, x: PeerId, streaming: bool, id: PeerId, i: nat)
    requires Inv(r) && !r.closed && HasSlot(r, id, i) && r.peers[id].board.slots[i].publisher.Some?
    requires streaming || r.peers[id].board.slots[i].publisher != Some(x)
    ensures var n := SetStreaming(r, x, streaming);
            HasSlot(n, id, i) && n.peers[id].board.slots[i] == r.peers[id].board.slots[i]
  {
    hide Inv, BoardOk, AssignAll, ClearFrom;
    PeerBoard(r, id);
    var known := WithPeer(r, x);
    var peers := known.peers[x := known.peers[x].(streaming := streaming)];
    assert peers[id].board == r.peers[id].board;
    BoundIsKept(known.(peers := peers), id, i);
    if !streaming {
      ClearedOnSlot(known.(peers := peers), known.(peers := ClearPeers(peers, x)), x, id, i);
    }
  }

  lemma SetWatchingOnSlot(r: Router, x: PeerId, p: PeerId, watching: bool, id: PeerId, i: nat)
    requires Inv(r) && !r.closed && HasSlot(r, id, i) && r.peers[id].board.slots[i].publisher.Some?
    requires watching || x != id || r.peers[id].board.slots[i].publisher != Some(p)
    ensures var n := SetWatching(r, x, p, watching);
            HasSlot(n, id, i) && n.peers[id].board.slots[i] == r.peers[id].board.slots[i]
  {
    hide Inv, BoardOk, AssignAll, ClearFrom;
    PeerBoard(r, id);
    var known := WithPeer(r, x);
    var peer := known.peers[x];
    var more := known.(peers := known.peers[x := peer.(
      watched := peer.watched[p := peer.nextWatchOrder], nextWatchOrder := peer.nextWatchOrder + 1)]);
    var fewer := known.(peers := known.peers[x := peer.(watched := peer.watched - {p}, board := ClearFrom(peer.board, p, 0))]);
    BoundIsKept(more, id, i);
    if x == id {
      if r.peers[id].board.slots[i].publisher != Some(p) {
        ClearedOnSlot(known, fewer, p, id, i);
      }
    } else {
      BoundIsKept(fewer, id, i);
    }
  }

  lemma RemovePeerOnSlot(r: Router, x: PeerId, id: PeerId, i: nat)
    requires Inv(r) && !r.closed && HasSlot(r, id, i) && r.peers[id].board.slots[i].publisher.Some?
    requires x != id && r.peers[id].board.slots[i].publisher != Some(x)
    ensures var n := RemovePeer(r, x);
            HasSlot(n, id, i) && n.peers[id].board.slots[i] == r.peers[id].board.slots[i]
  {
    hide Inv, BoardOk, AssignAll, ClearFrom, Orphaned;
    PeerBoard(r, id);
    var rest := r.peers - {x};
    var left := r.(
      peers := map other | other in rest :: ForgetWatch(rest[other], x),
      orphans := r.orphans + Orphaned(map other | other in r.peers && other == x :: r.peers[other], r.nextRewriter));
    ClearedOnSlot(r, left, x, id, i);
  }

  lemma RegisterOutputOnSlot(r: Router, owner: PeerId, mid: Mid, media: Media, track: TrackId, id: PeerId, i: nat)
    requires Inv(r) && !r.closed && HasSlot(r, id, i) && r.peers[id].board.slots[i].publisher.Some?
    requires owner != id || HalfOf(r.peers[id].board.slots[i], media).None?
             || HalfOf(r.peers[id].board.slots[i], media).value.mid != mid
    ensures var n := RegisterOutputBegin(r, owner, mid, media, track);
            HasSlot(n, id, i) && n.peers[id].board.slots[i] == r.peers[id].board.slots[i]
  {
    hide Inv, BoardOk, ClearedPair, PairFor, NewHalf;
    PeerBoard(r, id);
    if owner == id {
      var b := r.peers[id].board;
      BoundIsWhole(b, i);
      ClearedPairKeeps(Paired, b, PairFor(b.slots, mid, media));
    }
  }

  lemma BoundIsWhole(b: Board, i: nat)
    requires BoardOk(Paired, b) && i < |b.slots| && b.slots[i].publisher.Some?
    ensures b.slots[i].video.Some? && b.slots[i].video.value.ready && b.slots[i].audio.Some? && b.slots[i].audio.value.ready
  {
    hide StreamInv, Agrees, DistinctMids;
    assert SlotOk(Paired, b.slots[i]);
  }

  lemma OutputReadyOnSlot(r: Router, id: PeerId, i: nat)
    requires Inv(r) && !r.closed && r.pending.Some? && HasSlot(r, id, i) && r.peers[id].board.slots[i].publisher.Some?
    ensures var n := RegisterOutputFinish(r);
            HasSlot(n, id, i) && n.peers[id].board.slots[i] == r.peers[id].board.slots[i]
  {
    hide Inv, BoardOk, AssignAll, MarkReady;
    PeerBoard(r, id);
    var Pending(owner, mid, media, track) := r.pending.value;
    if owner in r.peers {
      var peer := r.peers[owner];
      var board := peer.board.(slots := MarkReady(peer.board.slots, mid, media, track));
      var mid' := r.(pending := None, peers := r.peers[owner := peer.(board := board)]);
      BoundIsWhole(r.peers[id].board, i);
      MarkKeepsReady(r.peers[id].board.slots, mid, media, track, i);
      if owner == id {
        MarkReadyOk(peer.board, mid, media, track);
      }
      BoundIsKept(mid', id, i);
    }
  }

  lemma MarkKeepsReady(slots: seq<Slot>, mid: Mid, media: Media, track: TrackId, i: nat)
    requires i < |slots| && slots[i].video.Some? && slots[i].video.value.ready && slots[i].audio.Some? && slots[i].audio.value.ready
    ensures MarkReady(slots, mid, media, track)[i] == slots[i]
  {
  }

  lemma DeliverOnSlot(r: Router, f: Flight, input: Numbers, id: PeerId, i: nat)
    requires Inv(r) && HasSlot(r, id, i)
    ensures var n := Deliver(r, f, input);
            HasSlot(n, id, i) && SameSources(r.peers[id].board.slots[i], n.peers[id].board.slots[i])
  {
    hide Inv, StreamInv, StreamStep, BoardOk;
    PeerBoard(r, id);
    var slot := r.peers[id].board.slots[i];
    SlotsSound(r.peers[id].board, i);
    if slot.video.Some? {
      PacketOwners(slot.video.value.stream, f.generation, input);
    }
    if slot.audio.Some? {
      PacketOwners(slot.audio.value.stream, f.generation, input);
    }
  }

  lemma SlotsSound(b: Board, i: nat)
    requires BoardOk(Paired, b) && i < |b.slots|
    ensures b.slots[i].video.Some? ==> StreamInv(b.slots[i].video.value.stream)
    ensures b.slots[i].audio.Some? ==> StreamInv(b.slots[i].audio.value.stream)
  {
    hide StreamInv, Agrees, DistinctMids;
    assert SlotOk(Paired, b.slots[i]);
  }

  // ---------------------------------------------------------------- only its own operations touch a binding

  /** The operations that end the binding of slot `i` of `id` to `p`. */
  predicate Ends(r: Router, op: Op, id: PeerId, i: nat, p: PeerId)
    requires HasSlot(r, id, i)
  {
    match op
    case OpRegisterOutput(owner, mid, media, _) =>
      var half := HalfOf(r.peers[id].board.slots[i], media);
      owner == id && half.Some? && half.value.mid == mid
    case OpSetStreaming(x, on) => x == p && !on
    case OpSetWatching(x, q, on) => x == id && q == p && !on
    case OpRemovePeer(x) => x == id || x == p
    case OpClose => true
    case _ => false
  }

  /** Over every run, a bound slot is left exactly as it is by every step but these: what
      ends its binding; a packet, which only moves its stream; and its publisher's new track
      of one medium, which starts a new source in the half of that medium alone. */
  lemma OnlyItsOwnOperationsTouchABinding(states: seq<Router>, ops: seq<Op>, k: nat, id: PeerId, i: nat)
    requires Run(states, ops) && k < |ops| && HasSlot(states[k], id, i) && SlotsOf(states[k], id)[i].publisher.Some?
    requires !Ends(states[k], ops[k], id, i, SlotsOf(states[k], id)[i].publisher.value)
    ensures HasSlot(states[k + 1], id, i)
    ensures var a, b := SlotsOf(states[k], id)[i], SlotsOf(states[k + 1], id)[i];
            match ops[k]
            case OpRegisterInput(owner, track, media) =>
              if a.publisher == Some(owner) && !Stored(states[k], owner, media, track) then Restarted(a, b, media, owner) else b == a
            case OpDeliver(_, _) => SameSources(a, b)
            case _ => b == a
  {
    hide Inv, LockOk, Run, Restarted, SameSources, RegisterInput, RegisterOutputBegin, RegisterOutputFinish, SetStreaming, SetWatching,
      RemovePeer, Deliver, Orphaned, Idle;
    RunInv(states, ops, k);
    var r, op := states[k], ops[k];
    RunStep(states, ops, k);
    OpenWithPeers(r, id);
    match op {
      case OpRegisterInput(owner, track, media) => RegisterInputOnSlot(r, owner, track, media, id, i);
      case OpRegisterOutput(owner, mid, media, track) => RegisterOutputOnSlot(r, owner, mid, media, track, id, i);
      case OpOutputReady => OutputReadyOnSlot(r, id, i);
      case OpSetStreaming(x, streaming) => SetStreamingOnSlot(r, x, streaming, id, i);
      case OpSetWatching(x, p, watching) => SetWatchingOnSlot(r, x, p, watching, id, i);
      case OpRemovePeer(x) => RemovePeerOnSlot(r, x, id, i);
      case OpDeliver(f, input) => DeliverOnSlot(r, f, input, id, i);
      case _ =>
    }
  }

  lemma RunStep(states: seq<Router>, ops: seq<Op>, k: nat)
    requires Run(states, ops) && k < |ops|
    ensures Enabled(states[k], ops[k]) && states[k + 1] == Step(states[k], ops[k])
  {
    hide Step, Enabled;
  }

  lemma OpenWithPeers(r: Router, id: PeerId)
    requires LockOk(r) && id in r.peers
    ensures !r.closed
  {
  }

  // ---------------------------------------------------------------- a new track of a publisher

  /** Over every run: registering a track stores it for its medium alone. When it is not the
      live stored one, every half of that medium that shows its owner starts a source of it,
      in which any first number is heard; otherwise no bound half changes. */
  lemma NewTrackStartsNewSources(states: seq<Router>, ops: seq<Op>, k: nat, id: PeerId, i: nat)
    requires Run(states, ops) && k < |ops| && ops[k].OpRegisterInput? && HasSlot(states[k], id, i)
    requires SlotsOf(states[k], id)[i].publisher == Some(ops[k].owner)
    ensures var r, n := states[k], states[k + 1];
            var OpRegisterInput(owner, track, media) := ops[k];
            && HasSlot(n, id, i) && SlotsOf(n, id)[i].publisher == Some(owner)
            && Stored(n, owner, media, track)
            && At(r.peers, id, i, media) && At(n.peers, id, i, media)
            && var before, after := HalfAt(r.peers, id, i, media), HalfAt(n.peers, id, i, media);
               && (Stored(r, owner, media, track) ==> after == before)
               && (!Stored(r, owner, media, track) ==>
                     && after.stream.timeline.generation > before.stream.timeline.generation
                     && after.sourceGeneration == after.stream.timeline.generation
                     && after.sourceGeneration in after.stream.owners && after.stream.owners[after.sourceGeneration] == owner
                     && after.stream.log == before.stream.log
                     && forall sequence :: Hears(after.stream.timeline, after.sourceGeneration, sequence))
    ensures var other := if ops[k].media.Video? then Audio else Video;
            HalfOf(SlotsOf(states[k + 1], id)[i], other) == HalfOf(SlotsOf(states[k], id)[i], other)
  {
    hide Inv, LockOk, Run, RegisterInput, BoardOk, Idle, NewSource;
    OnlyItsOwnOperationsTouchABinding(states, ops, k, id, i);
    RunInv(states, ops, k);
    RunStep(states, ops, k);
    OpenWithPeers(states[k], id);
    PeerBoard(states[k], id);
    BoundIsWhole(states[k].peers[id].board, i);
    var OpRegisterInput(owner, track, media) := ops[k];
    InputIsStored(states[k], owner, track, media);
    ExpiredStay(states[k], ops[k]);
    var before, after := HalfAt(states[k].peers, id, i, media), HalfAt(states[k + 1].peers, id, i, media);
    if !Stored(states[k], owner, media, track) {
      NewSourceIs(before, after, owner);
    }
  }

  /** And every subscriber is told once more of all its pairs that show the owner. */
  lemma NewTrackIsTold(states: seq<Router>, ops: seq<Op>, k: nat, id: PeerId)
    requires Run(states, ops) && k < |ops| && ops[k].OpRegisterInput? && id in states[k].peers
    requires !Stored(states[k], ops[k].owner, ops[k].media, ops[k].track)
    ensures id in states[k + 1].peers
    ensures states[k].peers[id].board.notices + SlotsSay(SlotsOf(states[k], id), ops[k].owner, 0) <= states[k + 1].peers[id].board.notices
  {
    hide Inv, LockOk, Run, BoardOk, Idle, AssignAll, RestartFrom, SlotsSay;
    RunInv(states, ops, k);
    RunStep(states, ops, k);
    OpenWithPeers(states[k], id);
    PeerBoard(states[k], id);
    var r := states[k];
    var OpRegisterInput(owner, track, media) := ops[k];
    var known := WithPeer(r, owner);
    var peers := known.peers[owner := WithInput(known.peers[owner], media, track)];
    var b := r.peers[id].board;
    assert peers[id].board == b;
    RestartIsTold(b, owner, media, 0);
    RestartFromKeeps(Paired, b, owner, media, 0);
    KeepsOk(Paired, b, RestartFrom(b, owner, media, 0));
    ToldMore(known.(peers := RestartPeers(peers, owner, media)), id);
  }

  lemma ToldMore(m: Router, id: PeerId)
    requires id in m.peers && BoardOk(Paired, m.peers[id].board)
    ensures id in AssignAll(m).peers && m.peers[id].board.notices <= AssignAll(m).peers[id].board.notices
  {
    hide BoardOk, Assign, Ordered, Servable;
    var peer := m.peers[id];
    AssignKeeps(Paired, peer.board, Ordered(peer.watched), Servable(m.peers, m.expired) - {id}, m.expired);
  }

  lemma ExpiredStay(r: Router, op: Op)
    requires Enabled(r, op) && op.OpRegisterInput?
    ensures Step(r, op).expired == r.expired && op.track !in r.expired
  {
    hide AssignPeers, RestartPeers, Idle;
  }

  // ---------------------------------------------------------------- what a peer is

  /** A peer as the router knows it; one it does not know yet has nothing. */
  function Known(r: Router, id: PeerId): PeerState
  {
    if id in r.peers then r.peers[id] else PeerState(r.nextPeerOrder, None, None, Board([], []), false, map[], 0, 0)
  }

  /** Whom the router knows after this step. */
  predicate KnownAfter(r: Router, op: Op, id: PeerId)
  {
    match op
    case OpRegisterInput(owner, _, _) => id in r.peers || (id == owner && !r.closed)
    case OpRegisterOutput(owner, _, _, _) => id in r.peers || (id == owner && !r.closed)
    case OpSetStreaming(x, _) => id in r.peers || (id == x && !r.closed)
    case OpSetWatching(x, p, _) => id in r.peers || (id == x && x != p && !r.closed)
    case OpRemovePeer(x) => id in r.peers && id != x
    case OpClose => false
    case _ => id in r.peers
  }

  /** The inputs and the streaming flag of `id` after this step. */
  predicate InputsAfter(a: PeerState, b: PeerState, op: Op, id: PeerId)
  {
    && b.inputVideo == (if op.OpRegisterInput? && op.owner == id && op.media.Video? then Some(op.track) else a.inputVideo)
    && b.inputAudio == (if op.OpRegisterInput? && op.owner == id && op.media.Audio? then Some(op.track) else a.inputAudio)
    && b.streaming == (if op.OpSetStreaming? && op.id == id then op.streaming else a.streaming)
  }

  /** Whom `id` watches after this step: a watch keeps its number, and a new one gets a
      larger number than all others. */
  ghost predicate WatchesAfter(a: map<PeerId, nat>, b: map<PeerId, nat>, op: Op, id: PeerId)
  {
    && (forall p {:trigger p in b} {:trigger p in a} :: p in b <==>
          match op
          case OpSetWatching(x, q, on) => if x == id && q == p && p != id then on else p in a
          case OpRemovePeer(x) => p != x && p in a
          case _ => p in a)
    && (forall p :: p in a && p in b ==> b[p] == a[p])
    && (forall p, q :: p in b && p !in a && q in b && q != p ==> b[q] < b[p])
  }

  lemma WatchNumbers(r: Router, id: PeerId)
    requires Safe(r.peers) && id in r.peers
    ensures forall p :: p in r.peers[id].watched ==> r.peers[id].watched[p] < r.peers[id].nextWatchOrder
  {
    hide BoardOk, Assigned;
    assert PeerOk(r.peers[id]);
  }

  ghost predicate Follows(r: Router, n: Router, op: Op, id: PeerId)
  {
    && (id in n.peers <==> KnownAfter(r, op, id))
    && (id in n.peers ==> InputsAfter(Known(r, id), n.peers[id], op, id) && WatchesAfter(Known(r, id).watched, n.peers[id].watched, op, id))
  }

  lemma AssignFollows(r: Router, m: Router, op: Op, id: PeerId)
    requires Follows(r, m, op, id)
    ensures Follows(r, AssignAll(m), op, id)
  {
    hide Assign, Ordered, Servable, WatchesAfter;
  }

  lemma InputFollows(r: Router, op: Op, id: PeerId)
    requires op.OpRegisterInput? && (r.closed ==> id !in r.peers)
    ensures Follows(r, RegisterInput(r, op.owner, op.track, op.media), op, id)
  {
    hide Follows, AssignAll, RestartFrom;
    KnownFollows(r, op, id);
    if !r.closed {
      var known := WithPeer(r, op.owner);
      var peers := known.peers[op.owner := WithInput(known.peers[op.owner], op.media, op.track)];
      InputStored(r, op, id);
      AssignFollows(r, known.(peers := peers), op, id);
      AssignFollows(r, known.(peers := RestartPeers(peers, op.owner, op.media)), op, id);
    }
  }

  /** Making a peer known is all that most operations that name it do to what it is. */
  lemma KnownFollows(r: Router, op: Op, id: PeerId)
    ensures r.closed && id !in r.peers ==> Follows(r, r, op, id)
  {
  }

  lemma InputStored(r: Router, op: Op, id: PeerId)
    requires op.OpRegisterInput? && !r.closed
    ensures var known := WithPeer(r, op.owner);
            var peers := known.peers[op.owner := WithInput(known.peers[op.owner], op.media, op.track)];
            Follows(r, known.(peers := peers), op, id) && Follows(r, known.(peers := RestartPeers(peers, op.owner, op.media)), op, id)
  {
    hide RestartFrom, WatchesAfter;
    KeptWatches(Known(r, id).watched, op, id);
  }

  lemma KeptWatches(a: map<PeerId, nat>, op: Op, id: PeerId)
    requires !op.OpSetWatching? && !op.OpRemovePeer?
    ensures WatchesAfter(a, a, op, id)
  {
  }

  lemma OutputFollows(r: Router, op: Op, id: PeerId)
    requires op.OpRegisterOutput? && (r.closed ==> id !in r.peers)
    ensures Follows(r, RegisterOutputBegin(r, op.owner, op.mid, op.media, op.track), op, id)
  {
    hide ClearedPair, PairFor, NewHalf, WatchesAfter;
    KeptWatches(Known(r, id).watched, op, id);
  }

  lemma ReadyFollows(r: Router, op: Op, id: PeerId)
    requires op.OpOutputReady? && r.pending.Some?
    ensures Follows(r, RegisterOutputFinish(r), op, id)
  {
    hide Follows, AssignAll, MarkReady;
    var Pending(owner, mid, media, track) := r.pending.value;
    SameFollows(r, r.(pending := None), op, id);
    if owner in r.peers {
      var peer := r.peers[owner];
      var m := r.(pending := None, peers := r.peers[owner := peer.(board := peer.board.(slots := MarkReady(peer.board.slots, mid, media, track)))]);
      SameFollows(r, m, op, id);
      AssignFollows(r, m, op, id);
    }
  }

  lemma SameFollows(r: Router, m: Router, op: Op, id: PeerId)
    requires op.OpOutputReady? && (id in m.peers <==> id in r.peers) && (id in r.peers ==> SameProfile(r.peers[id], m.peers[id]))
    ensures Follows(r, m, op, id)
  {
  }

  lemma StreamingFollows(r: Router, op: Op, id: PeerId)
    requires op.OpSetStreaming? && (r.closed ==> id !in r.peers)
    ensures Follows(r, SetStreaming(r, op.id, op.streaming), op, id)
  {
    hide Follows, AssignAll, ClearFrom;
    KnownFollows(r, op, id);
    if !r.closed {
      var known := WithPeer(r, op.id);
      var peers := known.peers[op.id := known.peers[op.id].(streaming := op.streaming)];
      StreamingStored(r, op, id);
      AssignFollows(r, known.(peers := peers), op, id);
      AssignFollows(r, known.(peers := ClearPeers(peers, op.id)), op, id);
      assert known.peers[op.id].streaming == op.streaming ==> peers == known.peers;
    }
  }

  lemma StreamingStored(r: Router, op: Op, id: PeerId)
    requires op.OpSetStreaming? && !r.closed
    ensures var known := WithPeer(r, op.id);
            var peers := known.peers[op.id := known.peers[op.id].(streaming := op.streaming)];
            Follows(r, known.(peers := peers), op, id) && Follows(r, known.(peers := ClearPeers(peers, op.id)), op, id)
  {
    hide ClearFrom, WatchesAfter;
    KeptWatches(Known(r, id).watched, op, id);
  }

  lemma WatchingFollows(r: Router, op: Op, id: PeerId)
    requires Safe(r.peers) && op.OpSetWatching? && (r.closed ==> id !in r.peers)
    ensures Follows(r, SetWatching(r, op.id, op.publisher, op.watching), op, id)
  {
    hide Safe, Follows, AssignAll, ClearFrom;
    KnownFollows(r, op, id);
    if op.id == op.publisher {
      SelfWatchFollows(r, op, id);
    } else if !r.closed {
      var known := WithPeer(r, op.id);
      var peer := known.peers[op.id];
      WatchingStored(r, op, id);
      if (op.publisher in peer.watched) != op.watching {
        AssignFollows(r, known.(peers := known.peers[op.id := WatchSet(peer, op.publisher, op.watching)]), op, id);
      }
    }
  }

  function WatchSet(peer: PeerState, p: PeerId, watching: bool): PeerState
  {
    if watching then peer.(watched := peer.watched[p := peer.nextWatchOrder], nextWatchOrder := peer.nextWatchOrder + 1)
    else peer.(watched := peer.watched - {p}, board := ClearFrom(peer.board, p, 0))
  }

  lemma SelfWatchFollows(r: Router, op: Op, id: PeerId)
    requires op.OpSetWatching? && op.id == op.publisher
    ensures Follows(r, r, op, id)
  {
  }

  lemma WatchingStored(r: Router, op: Op, id: PeerId)
    requires Safe(r.peers) && op.OpSetWatching? && op.id != op.publisher && !r.closed
    ensures var known := WithPeer(r, op.id);
            var peer := known.peers[op.id];
            if (op.publisher in peer.watched) == op.watching then Follows(r, known, op, id)
            else Follows(r, known.(peers := known.peers[op.id := WatchSet(peer, op.publisher, op.watching)]), op, id)
  {
    hide Safe, ClearFrom;
    if op.id in r.peers {
      WatchNumbers(r, op.id);
    }
  }

  lemma RemovalFollows(r: Router, op: Op, id: PeerId)
    requires op.OpRemovePeer? && (r.closed ==> id !in r.peers)
    ensures Follows(r, RemovePeer(r, op.id), op, id)
  {
    hide Follows, AssignAll, ClearFrom, Orphaned;
    KnownFollows(r, op, id);
    if !r.closed {
      var rest := r.peers - {op.id};
      var m := r.(
        peers := map other | other in rest :: ForgetWatch(rest[other], op.id),
        orphans := r.orphans + Orphaned(map other | other in r.peers && other == op.id :: r.peers[other], r.nextRewriter));
      ForgottenFollows(r, m, op, id);
      AssignFollows(r, m, op, id);
    }
  }

  lemma ForgottenFollows(r: Router, m: Router, op: Op, id: PeerId)
    requires op.OpRemovePeer? && (id in m.peers <==> id in r.peers && id != op.id)
    requires id in m.peers ==> m.peers[id] == ForgetWatch(r.peers[id], op.id)
    ensures Follows(r, m, op, id)
  {
    hide ClearFrom;
  }

  lemma OthersFollow(r: Router, op: Op, id: PeerId)
    requires Enabled(r, op) && (op.OpPublish? || op.OpClose? || op.OpExpire? || op.OpRoute? || op.OpDeliver?)
    ensures Follows(r, Step(r, op), op, id)
  {
    hide Idle, Orphaned, DeliverBoard, StreamStep, Targets, WatchesAfter;
    KeptWatches(Known(r, id).watched, op, id);
  }

  /** Over every run: who is known, the inputs, the streaming flag and the watches of every
      peer are changed by the operations that name them, and by nothing else. */
  lemma OnlyItsOwnOperationsTouchAPeer(states: seq<Router>, ops: seq<Op>, k: nat, id: PeerId)
    requires Run(states, ops) && k < |ops|
    ensures Follows(states[k], states[k + 1], ops[k], id)
  {
    hide SplicersOk, Safe, WorkConserving, Run, Follows, Idle, RegisterInput, RegisterOutputBegin, RegisterOutputFinish, SetStreaming,
      SetWatching, RemovePeer, Route, Deliver, Orphaned;
    RunInv(states, ops, k);
    RunStep(states, ops, k);
    var r, op := states[k], ops[k];
    match op {
      case OpRegisterInput(_, _, _) => InputFollows(r, op, id);
      case OpRegisterOutput(_, _, _, _) => OutputFollows(r, op, id);
      case OpOutputReady => ReadyFollows(r, op, id);
      case OpSetStreaming(_, _) => StreamingFollows(r, op, id);
      case OpSetWatching(_, _, _) => WatchingFollows(r, op, id);
      case OpRemovePeer(_) => RemovalFollows(r, op, id);
      case _ => OthersFollow(r, op, id);
    }
  }

  // ---------------------------------------------------------------- new bindings

  /** A slot that shows `p` after this step and did not before. */
  predicate BindsNow(r: Router, n: Router, id: PeerId, i: nat, p: PeerId)
  {
    && HasSlot(n, id, i) && n.peers[id].board.slots[i].publisher == Some(p)
    && !(HasSlot(r, id, i) && r.peers[id].board.slots[i].publisher == Some(p))
  }

  /** What makes a binding right at the moment it is made: the publisher is watched, streams
      and has live video, both halves are ready on live tracks, both start a source of it
      that nothing was heard of yet, and no slot before this one is left waiting. */
  ghost predicate BoundRightly(n: Router, id: PeerId, i: nat, p: PeerId)
    requires HasSlot(n, id, i)
  {
    var slot := n.peers[id].board.slots[i];
    && CanBeShown(n, id, p)
    && LiveHalf(slot.video, n.expired) && LiveHalf(slot.audio, n.expired)
    && FreshSource(slot.video.value, p) && FreshSource(slot.audio.value, p)
    && forall j :: 0 <= j < i ==> !Waiting(Paired, n.peers[id].board.slots[j], n.expired)
  }

  predicate FreshSource(h: Half, p: PeerId)
  {
    && !h.stream.timeline.sourceInitialized && h.sourceGeneration == h.stream.timeline.generation > 0
    && h.sourceGeneration in h.stream.owners && h.stream.owners[h.sourceGeneration] == p
  }

  lemma NewlyBoundRightly(a: Slot, b: Slot, expired: set<TrackId>)
    requires NewlyBound(Paired, a, b, expired)
    ensures LiveHalf(b.video, expired) && LiveHalf(b.audio, expired)
    ensures FreshSource(b.video.value, b.publisher.value) && FreshSource(b.audio.value, b.publisher.value)
  {
  }

  /** After handing out slots, every binding is one of before or made rightly. */
  lemma HandsOutRightly(r: Router, m: Router, id: PeerId, i: nat, p: PeerId)
    requires (forall x :: x in m.peers ==> BoardOk(Paired, m.peers[x].board))
    requires HasSlot(m, id, i) && m.peers[id].board.slots[i].publisher.Some? ==>
               HasSlot(r, id, i) && r.peers[id].board.slots[i].publisher == m.peers[id].board.slots[i].publisher
    requires BindsNow(r, AssignAll(m), id, i, p)
    ensures BoundRightly(AssignAll(m), id, i, p)
  {
    hide BoardOk, NewlyBound, FreshSource, LiveHalf, AssignAll, Waiting;
    var n := AssignAll(m);
    AssignKeepsSlots(m, id);
    HandsOut(m, id, i);
    forall j | 0 <= j < i ensures !Waiting(Paired, n.peers[id].board.slots[j], n.expired) {
      FrontFirst(m, id, j, i);
    }
    if NewlyBound(Paired, m.peers[id].board.slots[i], n.peers[id].board.slots[i], m.expired) {
      NewlyBoundRightly(m.peers[id].board.slots[i], n.peers[id].board.slots[i], m.expired);
      SameProfiles(m, id, p);
    }
  }

  lemma FrontFirst(m: Router, id: PeerId, j: nat, i: nat)
    requires id in m.peers && BoardOk(Paired, m.peers[id].board) && j < i < |m.peers[id].board.slots|
    requires var n := AssignAll(m);
             id in n.peers && |n.peers[id].board.slots| == |m.peers[id].board.slots| && n.peers[id].board.slots[i] != m.peers[id].board.slots[i]
    ensures !Waiting(Paired, AssignAll(m).peers[id].board.slots[j], AssignAll(m).expired)
  {
    hide BoardOk, Assign, Ordered, Waiting;
    var peer := m.peers[id];
    FrontSlotsFirst(Paired, peer.board, Ordered(peer.watched), Servable(m.peers, m.expired) - {id}, m.expired, j, i);
  }

  lemma AssignKeepsSlots(m: Router, id: PeerId)
    requires forall x :: x in m.peers ==> BoardOk(Paired, m.peers[x].board)
    ensures id in AssignAll(m).peers <==> id in m.peers
    ensures id in m.peers ==> |AssignAll(m).peers[id].board.slots| == |m.peers[id].board.slots|
  {
    hide BoardOk, Assign, Ordered;
    if id in m.peers {
      var peer := m.peers[id];
      hide NewlyBound;
      AssignTouchesFree(Paired, peer.board, Ordered(peer.watched), Servable(m.peers, m.expired) - {id}, m.expired);
    }
  }

  lemma SameProfiles(m: Router, id: PeerId, p: PeerId)
    requires id in m.peers && CanBeShown(m, id, p)
    ensures id in AssignAll(m).peers && AssignAll(m).expired == m.expired && CanBeShown(AssignAll(m), id, p)
  {
    hide Assign, Ordered, Servable;
  }

  /** The boards of `m` are sound, and bind nobody that those of `r` do not. */
  ghost predicate BindsNoMore(r: Router, m: Router)
  {
    forall x :: x in m.peers ==> BoardOk(Paired, m.peers[x].board) && PublishersFrom(r, x, m.peers[x].board)
  }

  predicate PublishersFrom(r: Router, x: PeerId, b: Board)
  {
    forall j :: 0 <= j < |b.slots| && b.slots[j].publisher.Some? ==>
      HasSlot(r, x, j) && r.peers[x].board.slots[j].publisher == b.slots[j].publisher
  }

  lemma KnownBindsNoMore(r: Router, x: PeerId)
    requires Inv(r)
    ensures BindsNoMore(r, WithPeer(r, x))
  {
    hide Inv, BoardOk;
    forall y | y in r.peers ensures BoardOk(Paired, r.peers[y].board) {
      PeerBoard(r, y);
    }
    EmptyBoard(r, x);
  }

  lemma EmptyBoard(r: Router, x: PeerId)
    ensures BoardOk(Paired, Board([], [])) && PublishersFrom(r, x, Board([], []))
  {
  }

  lemma ClearedFrom(r: Router, x: PeerId, b: Board, p: PeerId)
    requires BoardOk(Paired, b) && PublishersFrom(r, x, b)
    ensures BoardOk(Paired, ClearFrom(b, p, 0)) && PublishersFrom(r, x, ClearFrom(b, p, 0))
  {
    hide BoardOk, ClearFrom;
    ClearFromKeeps(Paired, b, p, 0);
    KeepsOk(Paired, b, ClearFrom(b, p, 0));
  }

  lemma RestartedFrom(r: Router, x: PeerId, b: Board, p: PeerId, media: Media)
    requires BoardOk(Paired, b) && PublishersFrom(r, x, b)
    ensures BoardOk(Paired, RestartFrom(b, p, media, 0)) && PublishersFrom(r, x, RestartFrom(b, p, media, 0))
  {
    hide BoardOk, RestartFrom;
    RestartFromKeeps(Paired, b, p, media, 0);
    KeepsOk(Paired, b, RestartFrom(b, p, media, 0));
  }

  lemma MarkedFrom(r: Router, x: PeerId, b: Board, mid: Mid, media: Media, track: TrackId)
    requires BoardOk(Paired, b) && PublishersFrom(r, x, b)
    ensures var n := b.(slots := MarkReady(b.slots, mid, media, track)); BoardOk(Paired, n) && PublishersFrom(r, x, n)
  {
    hide BoardOk;
    MarkReadyOk(b, mid, media, track);
  }

  lemma AssignedRightly(r: Router, m: Router, id: PeerId, i: nat, p: PeerId)
    requires BindsNoMore(r, m) && BindsNow(r, AssignAll(m), id, i, p)
    ensures BoundRightly(AssignAll(m), id, i, p)
  {
    hide BoardOk, BoundRightly, AssignAll;
    HandsOutRightly(r, m, id, i, p);
  }

  lemma InputBindsRightly(r: Router, owner: PeerId, track: TrackId, media: Media, id: PeerId, i: nat, p: PeerId)
    requires Inv(r) && BindsNow(r, RegisterInput(r, owner, track, media), id, i, p)
    ensures BoundRightly(RegisterInput(r, owner, track, media), id, i, p)
  {
    hide Inv, BoardOk, AssignAll, RestartFrom, BoundRightly, PublishersFrom;
    if !r.closed {
      KnownBindsNoMore(r, owner);
      var known := WithPeer(r, owner);
      var changed := Lock(InputOf(known.peers[owner], media), r.expired) != Some(track);
      var peers := known.peers[owner := WithInput(known.peers[owner], media, track)];
      var m := known.(peers := if changed then RestartPeers(peers, owner, media) else peers);
      forall x | x in m.peers ensures BoardOk(Paired, m.peers[x].board) && PublishersFrom(r, x, m.peers[x].board) {
        RestartedFrom(r, x, known.peers[x].board, owner, media);
      }
      AssignedRightly(r, m, id, i, p);
    }
  }

  lemma StreamingBindsRightly(r: Router, x: PeerId, streaming: bool, id: PeerId, i: nat, p: PeerId)
    requires Inv(r) && BindsNow(r, SetStreaming(r, x, streaming), id, i, p)
    ensures BoundRightly(SetStreaming(r, x, streaming), id, i, p)
  {
    hide Inv, BoardOk, AssignAll, ClearFrom, BoundRightly;
    if !r.closed {
      KnownBindsNoMore(r, x);
      var known := WithPeer(r, x);
      if known.peers[x].streaming != streaming {
        var peers := known.peers[x := known.peers[x].(streaming := streaming)];
        var m := known.(peers := if streaming then peers else ClearPeers(peers, x));
        forall y | y in m.peers ensures BoardOk(Paired, m.peers[y].board) && PublishersFrom(r, y, m.peers[y].board) {
          ClearedFrom(r, y, known.peers[y].board, x);
        }
        AssignedRightly(r, m, id, i, p);
      }
    }
  }

  lemma WatchingBindsRightly(r: Router, x: PeerId, q: PeerId, watching: bool, id: PeerId, i: nat, p: PeerId)
    requires Inv(r) && BindsNow(r, SetWatching(r, x, q, watching), id, i, p)
    ensures BoundRightly(SetWatching(r, x, q, watching), id, i, p)
  {
    hide Inv, BoardOk, AssignAll, ClearFrom, BoundRightly;
    if !r.closed && x != q {
      KnownBindsNoMore(r, x);
      var known := WithPeer(r, x);
      var peer := known.peers[x];
      if (q in peer.watched) != watching {
        var m := known.(peers := known.peers[x :=
          if watching then peer.(watched := peer.watched[q := peer.nextWatchOrder], nextWatchOrder := peer.nextWatchOrder + 1)
          else peer.(watched := peer.watched - {q}, board := ClearFrom(peer.board, q, 0))]);
        ClearedFrom(r, x, peer.board, q);
        assert BindsNoMore(r, m);
        AssignedRightly(r, m, id, i, p);
      }
    }
  }

  lemma RemovalBindsRightly(r: Router, x: PeerId, id: PeerId, i: nat, p: PeerId)
    requires Inv(r) && BindsNow(r, RemovePeer(r, x), id, i, p)
    ensures BoundRightly(RemovePeer(r, x), id, i, p)
  {
    hide Inv, BoardOk, AssignAll, ClearFrom, BoundRightly, Orphaned;
    if !r.closed {
      KnownBindsNoMore(r, x);
      var rest := r.peers - {x};
      var m := r.(
        peers := map other | other in rest :: ForgetWatch(rest[other], x),
        orphans := r.orphans + Orphaned(map other | other in r.peers && other == x :: r.peers[other], r.nextRewriter));
      forall y | y in m.peers ensures BoardOk(Paired, m.peers[y].board) && PublishersFrom(r, y, m.peers[y].board) {
        assert y in WithPeer(r, x).peers && WithPeer(r, x).peers[y] == r.peers[y];
        ClearedFrom(r, y, r.peers[y].board, x);
      }
      AssignedRightly(r, m, id, i, p);
    }
  }

  lemma OutputBindsRightly(r: Router, id: PeerId, i: nat, p: PeerId)
    requires Inv(r) && r.pending.Some? && BindsNow(r, RegisterOutputFinish(r), id, i, p)
    ensures BoundRightly(RegisterOutputFinish(r), id, i, p)
  {
    hide Inv, BoardOk, AssignAll, MarkReady, BoundRightly;
    var Pending(owner, mid, media, track) := r.pending.value;
    if !r.closed && owner in r.peers {
      KnownBindsNoMore(r, owner);
      var peer := r.peers[owner];
      var m := r.(pending := None, peers := r.peers[owner := peer.(
        board := peer.board.(slots := MarkReady(peer.board.slots, mid, media, track)))]);
      MarkedFrom(r, owner, peer.board, mid, media, track);
      assert BindsNoMore(r, m);
      AssignedRightly(r, m, id, i, p);
    }
  }

  lemma OutputBindsNobody(r: Router, owner: PeerId, mid: Mid, media: Media, track: TrackId, id: PeerId, i: nat, p: PeerId)
    requires Inv(r)
    ensures !BindsNow(r, RegisterOutputBegin(r, owner, mid, media, track), id, i, p)
  {
    hide Inv, BoardOk, ClearedPair, PairFor, NewHalf;
    if !r.closed {
      KnownBindsNoMore(r, owner);
      var b := WithPeer(r, owner).peers[owner].board;
      ClearedPairKeeps(Paired, b, PairFor(b.slots, mid, media));
    }
  }

  lemma DeliverBindsNobody(r: Router, f: Flight, input: Numbers, id: PeerId, i: nat, p: PeerId)
    ensures !BindsNow(r, Deliver(r, f, input), id, i, p)
  {
    hide StreamStep;
  }

  /** Over every run: whoever is newly shown is rightly shown at that moment. */
  lemma NewBindingsAreRight(states: seq<Router>, ops: seq<Op>, k: nat, id: PeerId, i: nat, p: PeerId)
    requires Run(states, ops) && k < |ops| && BindsNow(states[k], states[k + 1], id, i, p)
    ensures BoundRightly(states[k + 1], id, i, p)
  {
    hide Inv, LockOk, Run, BoundRightly, RegisterInput, RegisterOutputBegin, RegisterOutputFinish, SetStreaming, SetWatching,
      RemovePeer, Deliver, Orphaned, Idle, Targets;
    RunInv(states, ops, k);
    RunStep(states, ops, k);
    var r, op := states[k], ops[k];
    match op {
      case OpRegisterInput(owner, track, media) => InputBindsRightly(r, owner, track, media, id, i, p);
      case OpRegisterOutput(owner, mid, media, track) => OutputBindsNobody(r, owner, mid, media, track, id, i, p);
      case OpOutputReady => OutputBindsRightly(r, id, i, p);
      case OpSetStreaming(x, streaming) => StreamingBindsRightly(r, x, streaming, id, i, p);
      case OpSetWatching(x, q, watching) => WatchingBindsRightly(r, x, q, watching, id, i, p);
      case OpRemovePeer(x) => RemovalBindsRightly(r, x, id, i, p);
      case OpDeliver(f, input) => DeliverBindsNobody(r, f, input, id, i, p);
      case _ =>
    }
  }
}
