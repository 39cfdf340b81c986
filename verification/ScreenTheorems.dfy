/** The promises of the screen router, over every run: all interleavings of binding
    changes, packet snapshots, later rewrites and track expiries. */
module ScreenTheorems {
  import opened Words
  import opened Identity
  import opened Splicer
  import opened SplicerRuns
  import opened ClientBindings
  import opened Ordering
  import opened SlotBoard
  import opened BoardEffects
  import opened ScreenModel
  import opened ScreenSafety

  // ---------------------------------------------------------------- who is bound

  function SlotsOf(r: Router, id: PeerId): seq<Slot>
    requires id in r.peers
  {
    r.peers[id].board.slots
  }

  /** A half that runs for `p`: ready, and its splicer's current generation was begun for it. */
  predicate RunsFor(h: Option<Half>, p: PeerId)
  {
    && h.Some? && h.value.ready && h.value.sourceGeneration == h.value.stream.timeline.generation > 0
    && h.value.sourceGeneration in h.value.stream.owners && h.value.stream.owners[h.value.sourceGeneration] == p
  }

  lemma BindingsAreSafe(states: seq<Router>, ops: seq<Op>, k: nat, id: PeerId, i: nat)
    requires Run(states, ops) && k < |states|
    requires id in states[k].peers && i < |SlotsOf(states[k], id)| && SlotsOf(states[k], id)[i].publisher.Some?
    ensures var r := states[k];
            var slot := SlotsOf(r, id)[i];
            var p := slot.publisher.value;
            && p in r.peers && r.peers[p].streaming && p in r.peers[id].watched && p != id
            && (forall j :: 0 <= j < |SlotsOf(r, id)| && j != i ==> SlotsOf(r, id)[j].publisher != Some(p))
            && RunsFor(slot.video, p) && RunsFor(slot.audio, p)
  {
    hide Run, SplicersOk, WorkConserving, LockOk, WatchesOk, StreamInv, Agrees, DistinctMids;
    RunInv(states, ops, k);
    var r := states[k];
    var slot := SlotsOf(r, id)[i];
    assert PeerOk(r.peers[id]) && SlotOk(Paired, slot);
    assert slot.publisher.value in Assigned(SlotsOf(r, id));
    SamePublisherOnce(r.peers[id].board, i);
  }

  // ---------------------------------------------------------------- nobody waits for a free slot

  /** While no output is being registered, a subscriber that still waits for a watched,
      streaming publisher with live video has no free slot left. */
  lemma NobodyWaitsForAFreeSlot(states: seq<Router>, ops: seq<Op>, k: nat, id: PeerId, p: PeerId, i: nat)
    requires Run(states, ops) && k < |states| && states[k].pending.None?
    requires var r := states[k];
             && id in r.peers && p in r.peers && p != id && p in r.peers[id].watched
             && r.peers[p].streaming && Alive(r.peers[p].inputVideo, r.expired)
             && !Carries(SlotsOf(r, id), p)
             && i < |SlotsOf(r, id)|
    ensures !Waiting(Paired, SlotsOf(states[k], id)[i], states[k].expired)
  {
    hide Run, SplicersOk, Safe, LockOk, Free, Assigned, Waiting, Carries;
    RunInv(states, ops, k);
    var r := states[k];
    CarriesAssigned(SlotsOf(r, id), p);
    WaitingIsFree(Paired, SlotsOf(r, id)[i], r.expired);
    assert p in Due(r.peers, r.expired, id);
  }

  /** Handing out slots once more changes nothing. */
  lemma AssigningAgainIsIdle(states: seq<Router>, ops: seq<Op>, k: nat)
    requires Run(states, ops) && k < |states| && states[k].pending.None?
    ensures AssignAll(states[k]) == states[k]
  {
    hide Run, SplicersOk, Safe, LockOk, Assign, Conserving;
    RunInv(states, ops, k);
    var r := states[k];
    forall id | id in r.peers ensures AssignPeers(r.peers, r.expired)[id] == r.peers[id] {
      var eligible := Servable(r.peers, r.expired) - {id};
      assert Wanted(Ordered(r.peers[id].watched), eligible) == Due(r.peers, r.expired, id);
      ConservingIsFixed(Paired, r.peers[id].board, Ordered(r.peers[id].watched), eligible, r.expired);
    }
    assert AssignPeers(r.peers, r.expired) == r.peers;
  }

  /** The slots go to the oldest watches: nobody is newly bound while a publisher that
      the subscriber started to watch earlier could be shown and is not. */
  lemma OldestWatchFirst(peers: map<PeerId, PeerState>, expired: set<TrackId>, id: PeerId, p: PeerId, q: PeerId)
    requires id in peers && p in peers[id].watched && q in peers[id].watched
    requires peers[id].watched[p] < peers[id].watched[q] && p in Servable(peers, expired) && p != id
    requires q !in Assigned(peers[id].board.slots)
    requires q in Assigned(AssignPeers(peers, expired)[id].board.slots)
    ensures p in Assigned(AssignPeers(peers, expired)[id].board.slots)
  {
    hide Assigned, Assign, Ordered, Servable;
    var watched := peers[id].watched;
    var candidates := Ordered(watched);
    assert p in candidates && q in candidates;
    var i: nat :| i < |candidates| && candidates[i] == p;
    var j: nat :| j < |candidates| && candidates[j] == q;
    RankDecides(watched, candidates, i, j);
    AssignServesInOrder(Paired, peers[id].board, candidates, Servable(peers, expired) - {id}, expired, i, j);
  }

  // ---------------------------------------------------------------- what the client knows

  /** In every state, also in the middle of an operation: the published and the queued
      notices together are exactly the bindings. */
  lemma NoticesAgree(states: seq<Router>, ops: seq<Op>, k: nat, id: PeerId)
    requires Run(states, ops) && k < |states| && id in states[k].peers
    requires DistinctMids(SlotsOf(states[k], id))
    ensures states[k].peers[id].published <= |states[k].peers[id].board.notices|
    ensures forall mid, p :: Told(Published(states[k].peers[id]) + Queued(states[k].peers[id]), mid, p)
                             <==> Shown(SlotsOf(states[k], id), mid, p)
  {
    hide Run, SplicersOk, WorkConserving, LockOk, WatchesOk, DistinctMids, Told, Shown;
    RunInv(states, ops, k);
    var peer := states[k].peers[id];
    assert PeerOk(peer);
    assert Published(peer) + Queued(peer) == peer.board.notices;
  }

  /** Whenever no operation holds `publish_mutex`, the client knows exactly the bindings. */
  lemma ClientAgrees(states: seq<Router>, ops: seq<Op>, k: nat, id: PeerId)
    requires Run(states, ops) && k < |states| && id in states[k].peers && Idle(states[k])
    requires DistinctMids(SlotsOf(states[k], id))
    ensures forall mid, p :: Told(Published(states[k].peers[id]), mid, p) <==> Shown(SlotsOf(states[k], id), mid, p)
  {
    hide Run, DistinctMids, Told, Shown;
    NoticesAgree(states, ops, k, id);
    var peer := states[k].peers[id];
    assert Published(peer) + Queued(peer) == Published(peer);
  }

  // ---------------------------------------------------------------- packets reach the right slots

  /** One delivered packet is accepted by the slot at (id, i, media). */
  ghost predicate Accepts(before: Router, after: Router, id: PeerId, i: nat, media: Media)
  {
    && At(before.peers, id, i, media) && At(after.peers, id, i, media)
    && HalfAt(after.peers, id, i, media).stream.log != HalfAt(before.peers, id, i, media).stream.log
  }

  lemma AcceptedForTheBound(r: Router, f: Flight, input: Numbers, id: PeerId, i: nat, media: Media)
    requires Inv(r) && f in r.flights && Accepts(r, Deliver(r, f, input), id, i, media)
    ensures var slot := SlotsOf(r, id)[i];
            var h, n := HalfAt(r.peers, id, i, media), HalfAt(Deliver(r, f, input).peers, id, i, media);
            && slot.publisher == Some(f.publisher) && media == f.media && h.rewriter == f.rewriter
            && f.generation == h.stream.timeline.generation
            && |n.stream.log| == |h.stream.log| + 1 && n.stream.log[..|h.stream.log|] == h.stream.log
  {
    hide StreamInv, StreamStep, WatchesOk, WorkConserving, Owned, Agrees, DistinctMids, Assigned;
    var h := HalfAt(r.peers, id, i, media);
    var slot := SlotsOf(r, id)[i];
    assert PeerOk(r.peers[id]) && SlotOk(Paired, slot) && HalfOk(h, slot.publisher);
    PacketOwners(h.stream, f.generation, input);
    assert Holds(r.peers, id, i, media, f.rewriter);
    assert FlightOn(f, h.stream);
  }

  /** No cross-talk. Whatever happened between the snapshot and the rewrite, a slot
      accepts a packet only while it is bound to the packet's publisher; and its client
      has been told so, or the notice that tells it is queued. */
  lemma NoCrossTalk(states: seq<Router>, ops: seq<Op>, k: nat, id: PeerId, i: nat, media: Media)
    requires Run(states, ops) && k < |ops| && ops[k].OpDeliver?
    requires Accepts(states[k], states[k + 1], id, i, media)
    ensures var f := ops[k].flight;
            && SlotsOf(states[k], id)[i].publisher == Some(f.publisher) && media == f.media
            && states[k].peers[id].published <= |states[k].peers[id].board.notices|
            && (DistinctMids(SlotsOf(states[k], id)) ==>
                  ToldOf(states[k].peers[id], HalfAt(states[k].peers, id, i, media).mid, f.publisher))
  {
    hide Inv, Deliver, LockOk, DistinctMids, Told, Shows, Fold;
    var r, f := states[k], ops[k].flight;
    RunInv(states, ops, k);
    assert Enabled(r, ops[k]) && states[k + 1] == Step(r, ops[k]);
    AcceptedForTheBound(r, f, ops[k].input, id, i, media);
    PublishedBound(r, id);
    if DistinctMids(SlotsOf(r, id)) {
      NoticesAgree(states, ops, k, id);
      ShowsItsHalf(SlotsOf(r, id), i, media, f.publisher);
      ToldOrQueued(Published(r.peers[id]), Queued(r.peers[id]), HalfAt(r.peers, id, i, media).mid, f.publisher);
    }
  }

  /** The client of this peer has been told, or will be by a queued notice. */
  predicate ToldOf(peer: PeerState, mid: Mid, p: PeerId)
    requires peer.published <= |peer.board.notices|
  {
    Told(Published(peer), mid, p) || Notice(mid, Some(p)) in Queued(peer)
  }

  /** Exactly what a slot accepts: packets of a target that holds its splicer and the
      current generation, from the first packet of the source on inside its half window. */
  lemma SlotAcceptsExactly(r: Router, f: Flight, input: Numbers, id: PeerId, i: nat, media: Media)
    requires Inv(r) && f in r.flights && At(r.peers, id, i, media)
    ensures At(Deliver(r, f, input).peers, id, i, media)
    ensures Accepts(r, Deliver(r, f, input), id, i, media)
            <==> HalfAt(r.peers, id, i, media).rewriter == f.rewriter
                 && Hears(HalfAt(r.peers, id, i, media).stream.timeline, f.generation, input.sequence)
  {
    hide StreamInv, StreamStep, Safe, WorkConserving, Owned, Hears;
    AcceptsExactly(HalfAt(r.peers, id, i, media).stream, f.generation, input);
  }

  lemma ShowsItsHalf(slots: seq<Slot>, i: nat, media: Media, p: PeerId)
    requires i < |slots| && slots[i].publisher == Some(p) && HalfOf(slots[i], media).Some?
    ensures Shown(slots, HalfOf(slots[i], media).value.mid, p)
  {
    assert Shows(slots[i], HalfOf(slots[i], media).value.mid, p);
  }

  /** Where every target comes from: a snapshot taken while its publisher was there,
      streaming, and bound to the slot that held the splicer. */
  ghost predicate Snapshot(r: Router, op: Op, f: Flight)
  {
    && op.OpRoute? && op.publisher == f.publisher && op.media == f.media
    && f.publisher in r.peers && r.peers[f.publisher].streaming
    && exists id, i: nat :: Holds(r.peers, id, i, f.media, f.rewriter)
         && SlotsOf(r, id)[i].publisher == Some(f.publisher)
         && HalfAt(r.peers, id, i, f.media).stream.timeline.generation == f.generation
  }

  lemma TargetIsSnapshot(r: Router, publisher: PeerId, media: Media, expected: TrackId, f: Flight)
    requires Safe(r.peers) && f in Route(r, publisher, media, expected).flights && f !in r.flights
    ensures Snapshot(r, OpRoute(publisher, media, expected), f)
  {
    hide StreamInv, WatchesOk, Agrees, DistinctMids, Assigned, DistinctPublishers;
    var id, i :| id in r.peers && 0 <= i < |r.peers[id].board.slots|
                && r.peers[id].board.slots[i].publisher == Some(publisher)
                && HalfOf(r.peers[id].board.slots[i], media).Some?
                && HalfOf(r.peers[id].board.slots[i], media).value.ready
                && (var h := HalfOf(r.peers[id].board.slots[i], media).value;
                    f == Flight(publisher, media, h.rewriter, h.sourceGeneration));
    assert Holds(r.peers, id, i, media, f.rewriter);
    assert PeerOk(r.peers[id]) && SlotOk(Paired, SlotsOf(r, id)[i]);
  }

  lemma OnlyRoutesAddTargets(r: Router, op: Op)
    requires Enabled(r, op) && !op.OpRoute?
    ensures Step(r, op).flights == r.flights
  {
    hide AssignPeers, RestartPeers, ClearPeers, Orphaned, ClearedPair, PairFor, MarkReady, DeliverBoard;
  }

  lemma RoutesAddSnapshots(r: Router, op: Op, f: Flight)
    requires Safe(r.peers) && Enabled(r, op) && f in Step(r, op).flights && f !in r.flights
    ensures Snapshot(r, op, f)
  {
    hide Safe, Snapshot, Route;
    if op.OpRoute? {
      TargetIsSnapshot(r, op.publisher, op.media, op.expected, f);
    } else {
      OnlyRoutesAddTargets(r, op);
      assert false;
    }
  }

  /** Every packet that is ever delivered was snapshotted for its publisher before. */
  lemma {:induction false} EveryTargetWasSnapshotted(states: seq<Router>, ops: seq<Op>, k: nat, f: Flight) returns (j: nat)
    requires Run(states, ops) && k < |states| && f in states[k].flights
    ensures j < k && Snapshot(states[j], ops[j], f)
  {
    hide SplicersOk, Safe, WorkConserving, LockOk, Snapshot, Route, Step, Enabled;
    assert states[0].flights == {};
    j := k - 1;
    var r, op := states[j], ops[j];
    assert Enabled(r, op) && states[j + 1] == Step(r, op);
    if f in r.flights {
      j := EveryTargetWasSnapshotted(states, ops, j, f);
    } else {
      RunInv(states, ops, j);
      RoutesAddSnapshots(r, op, f);
    }
  }

  /** A splicer nobody holds any more forwards exactly the packets of a target that holds
      it and its current generation, inside the half window of the source; and then only
      for the publisher that generation was begun for. */
  lemma OrphansForwardForTheirOwner(states: seq<Router>, ops: seq<Op>, k: nat, rewriter: nat)
    requires Run(states, ops) && k < |ops| && ops[k].OpDeliver? && rewriter in states[k].orphans
    ensures rewriter in states[k + 1].orphans
    ensures var s, f := states[k].orphans[rewriter], ops[k].flight;
            && (states[k + 1].orphans[rewriter].log != s.log
                <==> f.rewriter == rewriter && Hears(s.timeline, f.generation, ops[k].input.sequence))
            && (states[k + 1].orphans[rewriter].log != s.log ==>
                  f.generation in s.owners && s.owners[f.generation] == f.publisher)
  {
    hide StreamInv, StreamStep, Safe, WorkConserving, Owned, LockOk, HalvesOk, Hears;
    RunInv(states, ops, k);
    assert Enabled(states[k], ops[k]) && states[k + 1] == Step(states[k], ops[k]);
    AcceptsExactly(states[k].orphans[rewriter], ops[k].flight.generation, ops[k].input);
  }

  /** Removing a peer leaves the splicers of its own slots as they are. */
  lemma RemovedSplicersLive(r: Router, id: PeerId, i: nat, media: Media)
    requires Inv(r) && !r.closed && At(r.peers, id, i, media)
    ensures var h := HalfAt(r.peers, id, i, media);
            var n := RemovePeer(r, id);
            id !in n.peers && n.flights == r.flights && h.rewriter in n.orphans && n.orphans[h.rewriter] == h.stream
  {
    hide StreamInv, Safe, WorkConserving, Owned, OrphansOk, FlightsOk, Assign, Ordered, Servable, ForgetWatch, ClearFrom;
    var leaving := map other | other in r.peers && other == id :: r.peers[other];
    var h := HalfAt(r.peers, id, i, media);
    assert Holds(leaving, id, i, media, h.rewriter);
    var id', i', media' := OrphanOf(leaving, h.rewriter);
    assert At(r.peers, id', i', media') && HalfAt(r.peers, id', i', media') == HalfAt(leaving, id', i', media');
  }

  // ---------------------------------------------------------------- what a slot sends

  /** The stream of every slot, over its whole life: continuous, each packet owned by the
      publisher its generation was begun for, and publishers kept apart. */
  lemma SlotStreamsAreContinuous(states: seq<Router>, ops: seq<Op>, k: nat, id: PeerId, i: nat, media: Media)
    requires Run(states, ops) && k < |states| && At(states[k].peers, id, i, media)
    ensures var s := HalfAt(states[k].peers, id, i, media).stream;
            && Continuous(s.log, if media.Video? then 90_000 else 48_000, if media.Video? then 3_000 else 960)
            && (forall m :: 0 <= m < |s.log| ==> s.log[m].generation in s.owners)
            && (forall m, n :: 0 <= m < n < |s.log| && s.owners[s.log[m].generation] != s.owners[s.log[n].generation] ==>
                  s.log[m].source < s.log[n].source && s.log[m].position < s.log[n].position)
  {
    hide StreamInv, Safe, WorkConserving, LockOk, Switches, WrapsPositions, KeepsDifferences, FirstUnchanged;
    RunInv(states, ops, k);
    var s := HalfAt(states[k].peers, id, i, media).stream;
    InvImpliesContinuous(s);
  }
}
