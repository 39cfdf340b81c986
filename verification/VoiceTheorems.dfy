/** The promises of the voice router, over every run. */
module VoiceTheorems {
  import opened Words
  import opened Identity
  import opened Splicer
  import opened SplicerRuns
  import opened ClientBindings
  import opened Ordering
  import opened SlotBoard
  import opened BoardEffects
  import opened Pigeonhole
  import opened VoiceModel
  import opened VoiceSafety
  import Screen = ScreenModel
  import Safety = ScreenSafety

  function SlotsOf(v: Voice, id: PeerId): seq<Slot>
    requires id in v.peers
  {
    v.peers[id].board.slots
  }

  /** A bound slot shows another peer of the room, nobody has two slots of one listener,
      and the splicer runs. */
  lemma BindingsAreSafe(states: seq<Voice>, ops: seq<Op>, k: nat, id: PeerId, i: nat)
    requires Run(states, ops) && k < |states|
    requires id in states[k].peers && i < |SlotsOf(states[k], id)| && SlotsOf(states[k], id)[i].publisher.Some?
    ensures var slot := SlotsOf(states[k], id)[i];
            var p := slot.publisher.value;
            && p in states[k].peers && p != id
            && (forall j :: 0 <= j < |SlotsOf(states[k], id)| && j != i ==> SlotsOf(states[k], id)[j].publisher != Some(p))
            && slot.audio.Some?
            && var h := slot.audio.value;
               && h.sourceGeneration == h.stream.timeline.generation > 0
               && h.sourceGeneration in h.stream.owners && h.stream.owners[h.sourceGeneration] == p
  {
    hide Run, Safety.SplicersOk, WorkConserving, OrdersOk, StreamInv, Agrees, DistinctMids;
    RunInv(states, ops, k);
    var v := states[k];
    var slot := SlotsOf(v, id)[i];
    assert VoicePeerOk(v.peers[id]) && SlotOk(Single, slot);
    assert slot.publisher.value in Assigned(SlotsOf(v, id));
    SamePublisherOnce(v.peers[id].board, i);
  }

  /** The slots of a listener whose tracks are alive. */
  function LiveSlots(slots: seq<Slot>, expired: set<TrackId>): set<nat>
  {
    set i: nat | 0 <= i < |slots| && slots[i].audio.Some? && slots[i].audio.value.track !in expired
  }

  /** Service: with as many live slots as there are others in the room, a listener is
      bound to every other peer that has a live input, whatever happened before. */
  lemma EveryoneIsHeard(states: seq<Voice>, ops: seq<Op>, k: nat, id: PeerId, p: PeerId)
    requires Run(states, ops) && k < |states| && id in states[k].peers
    requires |states[k].peers.Keys - {id}| <= |LiveSlots(SlotsOf(states[k], id), states[k].expired)|
    requires p in states[k].peers && p != id && Alive(states[k].peers[p].input, states[k].expired)
    ensures Carries(SlotsOf(states[k], id), p)
  {
    hide Run, Inv, Carries, Assigned, LiveSlots;
    RunInv(states, ops, k);
    HeardNow(states[k], id, p);
    CarriesAssigned(SlotsOf(states[k], id), p);
  }

  lemma HeardNow(v: Voice, id: PeerId, p: PeerId)
    requires Inv(v) && id in v.peers && |v.peers.Keys - {id}| <= |LiveSlots(SlotsOf(v, id), v.expired)|
    requires p in v.peers && p != id && Screen.Lock(v.peers[p].input, v.expired).Some?
    ensures p in Assigned(SlotsOf(v, id))
  {
    hide Inv, Assigned, DistinctPublishers, LiveSlots, VoiceSlots, Speaking, Conserving, Free;
    PeerFacts(v, id, p);
    var slots := SlotsOf(v, id);
    if p !in Assigned(slots) {
      NoSlotIsFree(slots, Speaking(v.peers, v.expired) - {id}, v.expired, p);
      LiveSlotsHeld(slots, v.expired);
      EveryoneIsShown(slots, LiveSlots(slots, v.expired), v.peers.Keys - {id});
    }
  }

  lemma PeerFacts(v: Voice, id: PeerId, p: PeerId)
    requires Inv(v) && id in v.peers
    requires p in v.peers && p != id && Screen.Lock(v.peers[p].input, v.expired).Some?
    ensures var slots := SlotsOf(v, id);
            && DistinctPublishers(slots) && VoiceSlots(slots) && Assigned(slots) <= v.peers.Keys - {id}
            && Conserving(Single, slots, Speaking(v.peers, v.expired) - {id}, v.expired)
            && p in Speaking(v.peers, v.expired) - {id}
  {
    hide Safety.SplicersOk, OrdersOk, SlotOk, Agrees, DistinctMids, Assigned, DistinctPublishers, VoiceSlots, Conserving;
    assert VoicePeerOk(v.peers[id]) && Assigned(SlotsOf(v, id)) <= v.peers.Keys - {id};
  }

  lemma NoSlotIsFree(slots: seq<Slot>, wanted: set<PeerId>, expired: set<TrackId>, p: PeerId)
    requires Conserving(Single, slots, wanted, expired) && p in wanted && p !in Assigned(slots)
    ensures forall i :: 0 <= i < |slots| ==> !Free(Single, slots[i], expired)
  {
    hide Assigned, Free;
  }

  lemma LiveSlotsHeld(slots: seq<Slot>, expired: set<TrackId>)
    requires VoiceSlots(slots) && forall i :: 0 <= i < |slots| ==> !Free(Single, slots[i], expired)
    ensures forall i :: i in LiveSlots(slots, expired) ==> i < |slots| && slots[i].publisher.Some?
  {
  }

  /** While anybody with a live input has no slot, no slot is free. */
  lemma NobodyWaitsForAFreeSlot(states: seq<Voice>, ops: seq<Op>, k: nat, id: PeerId, p: PeerId, i: nat)
    requires Run(states, ops) && k < |states| && id in states[k].peers && i < |SlotsOf(states[k], id)|
    requires p in states[k].peers && p != id && Alive(states[k].peers[p].input, states[k].expired)
    requires !Carries(SlotsOf(states[k], id), p)
    ensures !Waiting(Single, SlotsOf(states[k], id)[i], states[k].expired)
  {
    hide Run, Safety.SplicersOk, OrdersOk, Assigned, BoardOk, Waiting, Carries, Free;
    RunInv(states, ops, k);
    var v := states[k];
    CarriesAssigned(SlotsOf(v, id), p);
    WaitingIsFree(Single, SlotsOf(v, id)[i], v.expired);
    assert p in Speaking(v.peers, v.expired) - {id};
  }

  /** The slots go to those who joined first. */
  lemma EarlierPeerFirst(peers: map<PeerId, VoicePeer>, expired: set<TrackId>, id: PeerId, p: PeerId, q: PeerId)
    requires id in peers && p in Speaking(peers, expired) && q in peers && p != id && peers[p].order < peers[q].order
    requires q !in Assigned(peers[id].board.slots)
    requires q in Assigned(AssignVoices(peers, expired)[id].board.slots)
    ensures p in Assigned(AssignVoices(peers, expired)[id].board.slots)
  {
    hide Assigned, Assign, Ordered;
    var orders := Orders(peers);
    var candidates := Ordered(orders);
    assert p in candidates && q in candidates;
    var i: nat :| i < |candidates| && candidates[i] == p;
    var j: nat :| j < |candidates| && candidates[j] == q;
    RankDecides(orders, candidates, i, j);
    AssignServesInOrder(Single, peers[id].board, candidates, Speaking(peers, expired) - {id}, expired, i, j);
  }

  /** In every state, also in the middle of an operation, the published and the queued
      notices together are exactly the bindings: here the mids of a listener differ by
      themselves. */
  lemma NoticesAgree(states: seq<Voice>, ops: seq<Op>, k: nat, id: PeerId)
    requires Run(states, ops) && k < |states| && id in states[k].peers
    ensures states[k].peers[id].published <= |states[k].peers[id].board.notices|
    ensures forall mid, p :: Told(Published(states[k].peers[id]) + Queued(states[k].peers[id]), mid, p)
                             <==> SlotBoard.Shown(SlotsOf(states[k], id), mid, p)
  {
    hide Run, Safety.SplicersOk, WorkConserving, OrdersOk, SlotOk, Told, SlotBoard.Shown;
    RunInv(states, ops, k);
    var peer := states[k].peers[id];
    assert VoicePeerOk(peer);
    VoiceMids(SlotsOf(states[k], id));
    assert Published(peer) + Queued(peer) == peer.board.notices;
  }

  /** Whenever no operation holds `publish_mutex`, the client knows exactly the bindings. */
  lemma ClientAgrees(states: seq<Voice>, ops: seq<Op>, k: nat, id: PeerId)
    requires Run(states, ops) && k < |states| && id in states[k].peers && Idle(states[k])
    ensures forall mid, p :: Told(Published(states[k].peers[id]), mid, p)
                             <==> SlotBoard.Shown(SlotsOf(states[k], id), mid, p)
  {
    hide Run, Told, SlotBoard.Shown;
    NoticesAgree(states, ops, k, id);
    var peer := states[k].peers[id];
    assert Published(peer) + Queued(peer) == Published(peer);
  }

  lemma VoiceMids(slots: seq<Slot>)
    requires VoiceSlots(slots)
    ensures DistinctMids(slots)
  {
  }

  /** The client of this peer has been told, or will be by a queued notice. */
  predicate ToldOf(peer: VoicePeer, mid: Mid, p: PeerId)
    requires peer.published <= |peer.board.notices|
  {
    Told(Published(peer), mid, p) || Notice(mid, Some(p)) in Queued(peer)
  }

  /** No cross-talk, with packets in flight across any change of bindings; and the client
      has been told of the binding, or the notice that tells it is queued. */
  lemma NoCrossTalk(states: seq<Voice>, ops: seq<Op>, k: nat, id: PeerId, i: nat)
    requires Run(states, ops) && k < |ops| && ops[k].OpDeliver?
    requires id in states[k].peers && id in states[k + 1].peers
    requires i < |SlotsOf(states[k], id)| && i < |SlotsOf(states[k + 1], id)|
    requires SlotsOf(states[k], id)[i].audio.Some? && SlotsOf(states[k + 1], id)[i].audio.Some?
    requires SlotsOf(states[k + 1], id)[i].audio.value.stream.log != SlotsOf(states[k], id)[i].audio.value.stream.log
    ensures var slot, f := SlotsOf(states[k], id)[i], ops[k].flight;
            && slot.publisher == Some(f.publisher)
            && states[k].peers[id].published <= |states[k].peers[id].board.notices|
            && ToldOf(states[k].peers[id], slot.audio.value.mid, f.publisher)
  {
    hide Inv, Deliver, Told, SlotBoard.Shown, Shows;
    var v, f := states[k], ops[k].flight;
    RunInv(states, ops, k);
    assert Enabled(v, ops[k]) && states[k + 1] == Step(v, ops[k]);
    AcceptedForTheBound(v, f, ops[k].input, id, i);
    NoticesAgree(states, ops, k, id);
    var peer, mid := v.peers[id], SlotsOf(v, id)[i].audio.value.mid;
    ShowsItsHalf(SlotsOf(v, id), i, f.publisher);
    ToldOrQueued(Published(peer), Queued(peer), mid, f.publisher);
  }

  lemma ShowsItsHalf(slots: seq<Slot>, i: nat, p: PeerId)
    requires i < |slots| && slots[i].publisher == Some(p) && slots[i].audio.Some?
    ensures SlotBoard.Shown(slots, slots[i].audio.value.mid, p)
  {
    assert Shows(slots[i], slots[i].audio.value.mid, p);
  }

  lemma AcceptedForTheBound(v: Voice, f: Flight, input: Numbers, id: PeerId, i: nat)
    requires Inv(v) && f in v.flights && id in v.peers && i < |SlotsOf(v, id)| && SlotsOf(v, id)[i].audio.Some?
    requires var slots := SlotsOf(Deliver(v, f, input), id);
             i < |slots| && slots[i].audio.Some? && slots[i].audio.value.stream.log != SlotsOf(v, id)[i].audio.value.stream.log
    ensures SlotsOf(v, id)[i].publisher == Some(f.publisher)
  {
    hide WorkConserving, OrdersOk, StreamInv, StreamStep, Agrees, DistinctMids, Assigned, Safety.Owned, Safety.HalvesOk, Safety.HeldOnce, Safety.OrphansOk, VoiceSlots;
    var slot := SlotsOf(v, id)[i];
    var h := slot.audio.value;
    assert VoicePeerOk(v.peers[id]) && SlotOk(Single, slot) && HalfOk(h, slot.publisher);
    PacketOwners(h.stream, f.generation, input);
    assert Screen.Holds(SeenPeers(v.peers), id, i, Audio, f.rewriter);
    assert Safety.FlightOn(f, h.stream);
  }

  /** The stream of every slot is continuous over its whole life, and every packet in it
      belongs to the publisher its generation was begun for. */
  lemma SlotStreamsAreContinuous(states: seq<Voice>, ops: seq<Op>, k: nat, id: PeerId, i: nat)
    requires Run(states, ops) && k < |states| && id in states[k].peers
    requires i < |SlotsOf(states[k], id)| && SlotsOf(states[k], id)[i].audio.Some?
    ensures var s := SlotsOf(states[k], id)[i].audio.value.stream;
            && Continuous(s.log, 48_000, 960)
            && (forall m :: 0 <= m < |s.log| ==> s.log[m].generation in s.owners)
            && (forall m, n :: 0 <= m < n < |s.log| && s.owners[s.log[m].generation] != s.owners[s.log[n].generation] ==>
                  s.log[m].source < s.log[n].source && s.log[m].position < s.log[n].position)
  {
    hide Run, Safe, WorkConserving, OrdersOk, StreamInv, Switches, FirstUnchanged, WrapsPositions, KeepsDifferences;
    RunInv(states, ops, k);
    assert Screen.At(SeenPeers(states[k].peers), id, i, Audio);
    InvImpliesContinuous(SlotsOf(states[k], id)[i].audio.value.stream);
  }
}
