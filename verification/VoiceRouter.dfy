/** `VoiceRouter::Impl`: the fields the router updates in place, and its methods proved
    against the operations of `VoiceModel`. */
module VoiceRouter {
  import opened Words
  import opened Identity
  import opened SplicerRuns
  import opened ClientBindings
  import opened Ordering
  import opened SlotBoard
  import opened VoiceModel
  import opened VoiceSafety
  import Screen = ScreenModel
  import Safety = ScreenSafety

  class Impl {
    var peers: map<PeerId, VoicePeer>
    var nextPeerOrder: nat
    var closed: bool
    var nextRewriter: nat
    /** The tracks whose last reference is gone: what `expired()` of a weak pointer says. */
    var expired: set<TrackId>
    ghost var orphans: map<nat, LiveStream>
    ghost var flights: set<Flight>

    ghost function Value(): Voice
      reads this
    {
      Voice(peers, nextPeerOrder, closed, expired, nextRewriter, orphans, flights)
    }

    ghost predicate Valid()
      reads this
    {
      Inv(Value())
    }

    constructor ()
      ensures Valid() && Value() == NEW_VOICE
    {
      peers, nextPeerOrder, closed, nextRewriter, expired := map[], 0, false, 0, {};
      orphans, flights := map[], {};
      new;
      NewVoiceInv();
    }

    // -------------------------------------------------------------- one slot

    /** Replaces the slot at `i` and tells the subscriber about it. */
    method SetAndNotify(id: PeerId, i: nat, slot: Slot)
      requires id in peers && i < |peers[id].board.slots|
      requires slot.video.None? && slot.audio.Some? && slot.audio.value.ready
      modifies this`peers
      ensures peers == old(peers)[id := old(peers[id]).(board := Put(old(peers[id].board), i, slot, slot.publisher))]
    {
      var board := peers[id].board;
      var notice := Notice(slot.audio.value.mid, slot.publisher);
      assert [notice] == SlotNotices(slot, slot.publisher);
      peers := peers[id := peers[id].(board := Board(board.slots[i := slot], board.notices + [notice]))];
    }

    method ClearSlot(id: PeerId, i: nat)
      requires id in peers && VoiceSlots(peers[id].board.slots)
      requires i < |peers[id].board.slots| && peers[id].board.slots[i].publisher.Some?
      modifies this`peers
      ensures peers == old(peers)[id := old(peers[id]).(board := ClearAt(old(peers[id].board), i))]
    {
      hide StreamStep;
      var slot := peers[id].board.slots[i];
      SetAndNotify(id, i, slot.(audio := Some(EndHalf(slot.audio.value)), publisher := None));
    }

    method RestartSlot(id: PeerId, i: nat)
      requires id in peers && VoiceSlots(peers[id].board.slots)
      requires i < |peers[id].board.slots| && peers[id].board.slots[i].publisher.Some?
      modifies this`peers
      ensures peers == old(peers)[id := old(peers[id]).(board := RestartAt(old(peers[id].board), i, Audio))]
    {
      hide StreamStep;
      var slot := peers[id].board.slots[i];
      SetAndNotify(id, i, slot.(audio := Some(BeginHalf(slot.audio.value, slot.publisher.value))));
    }

    method BindSlot(id: PeerId, i: nat, publisher: PeerId)
      requires id in peers && VoiceSlots(peers[id].board.slots) && i < |peers[id].board.slots|
      modifies this`peers
      ensures peers == old(peers)[id := old(peers[id]).(board := BindAt(old(peers[id].board), i, publisher))]
    {
      hide StreamStep;
      var slot := peers[id].board.slots[i];
      SetAndNotify(id, i, slot.(audio := Some(BeginHalf(slot.audio.value, publisher)), publisher := Some(publisher)));
    }

    // -------------------------------------------------------------- one subscriber

    method ClearSubscriber(id: PeerId, publisher: PeerId)
      requires id in peers && VoiceSlots(peers[id].board.slots)
      modifies this`peers
      ensures peers == old(peers)[id := old(peers[id]).(board := ClearFrom(old(peers[id].board), publisher, 0))]
    {
      hide ClearAt, VoiceSlots;
      ghost var was := peers;
      var i := 0;
      while i < |peers[id].board.slots|
        invariant id in peers && i <= |peers[id].board.slots| && VoiceSlots(peers[id].board.slots)
        invariant peers == was[id := was[id].(board := peers[id].board)]
        invariant ClearFrom(peers[id].board, publisher, i) == ClearFrom(was[id].board, publisher, 0)
        decreases |peers[id].board.slots| - i
      {
        if peers[id].board.slots[i].publisher == Some(publisher) {
          ClearedVoiceSlots(peers[id].board, i);
          ClearSlot(id, i);
        }
        i := i + 1;
      }
    }

    method RestartSubscriber(id: PeerId, publisher: PeerId)
      requires id in peers && VoiceSlots(peers[id].board.slots)
      modifies this`peers
      ensures peers == old(peers)[id := old(peers[id]).(board := RestartFrom(old(peers[id].board), publisher, Audio, 0))]
      ensures VoiceSlots(peers[id].board.slots)
    {
      hide RestartAt, VoiceSlots;
      ghost var was := peers;
      var i := 0;
      while i < |peers[id].board.slots|
        invariant id in peers && i <= |peers[id].board.slots| && VoiceSlots(peers[id].board.slots)
        invariant peers == was[id := was[id].(board := peers[id].board)]
        invariant RestartFrom(peers[id].board, publisher, Audio, i) == RestartFrom(was[id].board, publisher, Audio, 0)
        decreases |peers[id].board.slots| - i
      {
        if peers[id].board.slots[i].publisher == Some(publisher) {
          RestartedVoiceSlots(peers[id].board, i);
          RestartSlot(id, i);
        }
        i := i + 1;
      }
    }

    /** The `find_if` for a slot that is unbound and live. */
    method FindFreeSlot(id: PeerId) returns (found: Option<nat>)
      requires id in peers && VoiceSlots(peers[id].board.slots)
      ensures found == FindFree(Single, peers[id].board.slots, expired, 0)
    {
      var slots := peers[id].board.slots;
      var i := 0;
      while i < |slots|
        invariant i <= |slots|
        invariant FindFree(Single, slots, expired, i) == FindFree(Single, slots, expired, 0)
      {
        if slots[i].publisher.None? && slots[i].audio.value.track !in expired {
          return Some(i);
        }
        i := i + 1;
      }
      return None;
    }

    method AssignedOf(id: PeerId) returns (served: set<PeerId>)
      requires id in peers
      ensures served == Assigned(peers[id].board.slots)
    {
      var slots := peers[id].board.slots;
      served := {};
      var i := 0;
      while i < |slots|
        invariant i <= |slots|
        invariant forall p :: p in served <==> exists j :: 0 <= j < i && slots[j].publisher == Some(p)
      {
        if slots[i].publisher.Some? {
          served := served + {slots[i].publisher.value};
        }
        i := i + 1;
      }
      forall p ensures p in served <==> p in Assigned(slots) {
        assert p in Assigned(slots) <==> exists j :: 0 <= j < |slots| && slots[j].publisher == Some(p);
      }
    }

    method AssignSubscriber(id: PeerId, candidates: seq<PeerId>)
      requires id in peers && VoiceSlots(peers[id].board.slots)
      requires forall p :: p in candidates ==> p in peers
      modifies this`peers
      ensures peers == old(peers)[id := AssignVoice(id, old(peers[id]), candidates, Speaking(old(peers), expired), expired)]
    {
      hide Assign, Assigned, FindFree, BindAt, Free, Speaking, VoiceSlots;
      ghost var was := peers;
      ghost var eligible := Speaking(was, expired) - {id};
      var served := AssignedOf(id);
      var n := 0;
      var full := false;
      assert candidates[0..] == candidates;
      while n < |candidates| && !full
        invariant n <= |candidates| && id in peers && VoiceSlots(peers[id].board.slots)
        invariant peers == was[id := was[id].(board := peers[id].board)]
        invariant served == Assigned(peers[id].board.slots)
        invariant Assign(Single, was[id].board, candidates, eligible, expired)
                  == if full then peers[id].board else Assign(Single, peers[id].board, candidates[n..], eligible, expired)
        decreases |candidates| - n, !full
      {
        var publisher := candidates[n];
        AssignNext(peers[id].board, candidates, n, eligible, expired);
        SpeakingIs(was, peers, id, publisher, expired);
        if publisher == id || Screen.Lock(peers[publisher].input, expired).None? || publisher in served {
          n := n + 1;
        } else {
          var slot := FindFreeSlot(id);
          if slot.None? {
            full := true;
          } else {
            BoundVoiceSlots(peers[id].board, slot.value, publisher, expired);
            BindSlot(id, slot.value, publisher);
            served := served + {publisher};
            n := n + 1;
          }
        }
      }
      assert !full ==> candidates[n..] == [];
      AssignDone(peers[id].board, eligible, expired);
    }

    // -------------------------------------------------------------- all subscribers

    /** `assign_available_locked` */
    method AssignAvailable()
      requires Injective(Orders(peers)) && forall id :: id in peers ==> VoiceSlots(peers[id].board.slots)
      modifies this`peers
      ensures peers == AssignVoices(old(peers), expired)
    {
      hide AssignVoice, Injective, Speaking, VoiceSlots, Ordered;
      ghost var was := peers;
      ghost var speaking := Speaking(was, expired);
      var orders := map id | id in peers :: peers[id].order;
      assert orders == Orders(was);
      var ordered := SortByRank(orders);
      forall i | 0 <= i < |ordered| ensures ordered[i] in was {
        assert ordered[i] in ordered;
      }
      var n := 0;
      while n < |ordered|
        invariant n <= |ordered| && was.Keys == peers.Keys
        invariant forall i :: 0 <= i < |ordered| ==> ordered[i] in was
        invariant forall i :: n <= i < |ordered| ==> peers[ordered[i]] == was[ordered[i]]
        invariant forall i :: 0 <= i < n ==>
                    peers[ordered[i]] == AssignVoice(ordered[i], was[ordered[i]], ordered, speaking, expired)
      {
        var id := ordered[n];
        SameInputs(was, peers, ordered, n, speaking, expired);
        AssignSubscriber(id, ordered);
        n := n + 1;
      }
      forall id | id in was ensures peers[id] == AssignVoice(id, was[id], ordered, speaking, expired) {
        assert id in ordered;
      }
    }

    method ClearEverywhere(publisher: PeerId)
      requires forall id :: id in peers ==> VoiceSlots(peers[id].board.slots)
      modifies this`peers
      ensures peers == ClearVoices(old(peers), publisher)
    {
      hide ClearFrom, VoiceSlots;
      ghost var was := peers;
      var todo := peers.Keys;
      while todo != {}
        invariant todo <= was.Keys == peers.Keys
        invariant forall id :: id in was ==>
                    peers[id] == if id in todo then was[id] else was[id].(board := ClearFrom(was[id].board, publisher, 0))
        decreases |todo|
      {
        var id :| id in todo;
        ClearSubscriber(id, publisher);
        todo := todo - {id};
      }
    }

    method RestartEverywhere(publisher: PeerId)
      requires forall id :: id in peers ==> VoiceSlots(peers[id].board.slots)
      modifies this`peers
      ensures peers == RestartVoices(old(peers), publisher)
    {
      hide RestartFrom, VoiceSlots;
      ghost var was := peers;
      var todo := peers.Keys;
      while todo != {}
        invariant todo <= was.Keys == peers.Keys
        invariant forall id :: id in was ==>
                    peers[id] == if id in todo then was[id] else was[id].(board := RestartFrom(was[id].board, publisher, Audio, 0))
        decreases |todo|
      {
        var id :| id in todo;
        RestartSubscriber(id, publisher);
        todo := todo - {id};
      }
    }

    /** `peer_for_locked` */
    method PeerFor(id: PeerId)
      modifies this`peers, this`nextPeerOrder
      ensures Value() == WithVoicePeer(old(Value()), id) && id in peers
    {
      if id !in peers {
        peers := peers[id := NewVoicePeer(nextPeerOrder)];
        nextPeerOrder := nextPeerOrder + 1;
      }
    }

    // -------------------------------------------------------------- critical sections

    method RegisterInputLocked(owner: PeerId, track: TrackId)
      requires Valid()
      modifies this
      ensures Valid() && Value() == VoiceModel.RegisterInput(old(Value()), owner, track)
    {
      hide Inv, VoiceSlots, Injective, AssignVoices, RestartVoices, WithVoicePeer, Orders;
      RegisterInputInv(Value(), owner, track);
      ghost var was := Value();
      if closed {
        return;
      }
      InvKnown(was, owner);
      PeerFor(owner);
      var sourceChanged := Screen.Lock(peers[owner].input, expired) != Some(track);
      ghost var before := peers;
      peers := peers[owner := peers[owner].(input := Some(track))];
      SameOrderMap(before, peers);
      if sourceChanged {
        RestartedPeers(peers, owner);
        RestartEverywhere(owner);
      }
      AssignAvailable();
    }

    method RegisterOutputLocked(owner: PeerId, mid: Mid, track: TrackId)
      requires Valid()
      modifies this
      ensures Valid() && Value() == VoiceModel.RegisterOutput(old(Value()), owner, mid, track)
    {
      hide Inv, Injective, AssignVoices, WithVoicePeer, Orders, ClearAt, VoiceSlots, Screen.HalfOrphan, NewVoiceHalf;
      RegisterOutputInv(Value(), owner, mid, track);
      ghost var was := Value();
      if closed {
        return;
      }
      InvKnown(was, owner);
      PeerFor(owner);
      ghost var known := Value();
      var existing := FindMid(owner, mid);
      var half := NewVoiceHalf(mid, track, nextRewriter);
      ghost var b := known.peers[owner].board;
      RenewedSlots(was, owner, mid, track);
      if existing == |peers[owner].board.slots| {
        AppendSlot(owner, half);
      } else {
        orphans := orphans + Screen.HalfOrphan(HalfOf(ClearAt(b, existing).slots[existing], Audio));
        RenewSlot(owner, existing, half);
      }
      nextRewriter := nextRewriter + 1;
      assert orphans == known.orphans + Screen.HalfOrphan(HalfOf(Screen.ClearedPair(b, existing).slots[existing], Audio)) by {
        NoOrphan();
      }
      SameOrderMap(known.peers, peers);
      AssignAvailable();
    }

    /** The `find_if` by mid: the index of the slot, or the number of slots. */
    method FindMid(id: PeerId, mid: Mid) returns (i: nat)
      requires id in peers && VoiceSlots(peers[id].board.slots)
      ensures i == SlotFor(peers[id].board.slots, mid)
    {
      var slots := peers[id].board.slots;
      i := 0;
      while i < |slots| && slots[i].audio.value.mid != mid
        invariant i <= |slots| && Screen.PairWithMid(slots, mid, Audio, i) == Screen.PairWithMid(slots, mid, Audio, 0)
      {
        i := i + 1;
      }
    }

    method AppendSlot(id: PeerId, half: Half)
      requires id in peers
      modifies this`peers
      ensures var b := old(peers[id].board);
              peers == old(peers)[id := old(peers[id]).(board := RenewAt(b, |b.slots|, half))]
    {
      var board := peers[id].board;
      var slot := Slot(None, Some(half), None);
      assert (board.slots + [Screen.EMPTY_SLOT])[|board.slots| := slot] == board.slots + [slot];
      peers := peers[id := peers[id].(board := board.(slots := board.slots + [slot]))];
    }

    method RenewSlot(id: PeerId, i: nat, half: Half)
      requires id in peers && i < |peers[id].board.slots| && VoiceSlots(peers[id].board.slots)
      modifies this`peers
      ensures peers == old(peers)[id := old(peers[id]).(board := RenewAt(old(peers[id].board), i, half))]
    {
      hide EndHalf;
      ghost var b := peers[id].board;
      ClearedSlot(b, i);
      if peers[id].board.slots[i].publisher.Some? {
        ClearSlot(id, i);
      }
      var board := peers[id].board;
      var slot := board.slots[i].(audio := Some(half), publisher := None);
      peers := peers[id := peers[id].(board := board.(slots := board.slots[i := slot]))];
    }

    method RemovePeerLocked(id: PeerId)
      requires Valid()
      modifies this
      ensures Valid() && Value() == VoiceModel.RemovePeer(old(Value()), id)
    {
      hide Inv, VoiceSlots, Injective, AssignVoices, ClearVoices, Gone, Orders;
      RemovePeerInv(Value(), id);
      ghost var was := Value();
      if closed {
        return;
      }
      InvRest(was, id);
      ghost var leaving := map other | other in peers && other == id :: peers[other];
      orphans := orphans + Gone(was, leaving);
      peers := peers - {id};
      ClearedPeers(peers, id);
      ClearEverywhere(id);
      AssignAvailable();
    }

    // -------------------------------------------------------------- publishing

    /** The notices of one subscriber go out in order. */
    method PublishTo(id: PeerId)
      requires id in peers && peers[id].published <= |peers[id].board.notices|
      modifies this`peers
      ensures peers == old(peers)[id := old(peers[id]).(published := |old(peers[id]).board.notices|)]
    {
      ghost var was := peers;
      while peers[id].published < |peers[id].board.notices|
        invariant id in peers && peers == was[id := was[id].(published := peers[id].published)]
        invariant peers[id].published <= |was[id].board.notices|
        decreases |was[id].board.notices| - peers[id].published
      {
        peers := peers[id := peers[id].(published := peers[id].published + 1)];
      }
    }

    method PublishEach()
      requires forall id :: id in peers ==> peers[id].published <= |peers[id].board.notices|
      modifies this`peers
      ensures peers == PublishPeers(old(peers))
    {
      ghost var was := peers;
      var todo := peers.Keys;
      while todo != {}
        invariant todo <= was.Keys == peers.Keys
        invariant forall id :: id in was ==>
                    peers[id] == if id in todo then was[id] else was[id].(published := |was[id].board.notices|)
        decreases |todo|
      {
        var id :| id in todo;
        PublishTo(id);
        todo := todo - {id};
      }
    }

    /** `publish`, after the state mutex was released. */
    method Publish()
      requires Valid()
      modifies this`peers
      ensures Valid() && Value() == PublishAll(old(Value())) && Idle(Value())
    {
      hide Inv, PublishPeers, Idle;
      PublishAllInv(Value());
      forall id | id in peers ensures peers[id].published <= |peers[id].board.notices| {
        PublishedBound(Value(), id);
      }
      PublishEach();
    }

    // -------------------------------------------------------------- operations

    method RegisterInput(owner: PeerId, track: TrackId)
      requires Valid() && Idle(Value())
      modifies this
      ensures Valid() && Idle(Value()) && Value() == PublishAll(VoiceModel.RegisterInput(old(Value()), owner, track))
    {
      hide Inv, PublishAll, Idle, VoiceModel.RegisterInput;
      RegisterInputLocked(owner, track);
      Publish();
    }

    method RegisterOutput(owner: PeerId, mid: Mid, track: TrackId)
      requires Valid() && Idle(Value())
      modifies this
      ensures Valid() && Idle(Value()) && Value() == PublishAll(VoiceModel.RegisterOutput(old(Value()), owner, mid, track))
    {
      hide Inv, PublishAll, Idle, VoiceModel.RegisterOutput;
      RegisterOutputLocked(owner, mid, track);
      Publish();
    }

    method RemovePeer(id: PeerId)
      requires Valid() && Idle(Value())
      modifies this
      ensures Valid() && Idle(Value()) && Value() == PublishAll(VoiceModel.RemovePeer(old(Value()), id))
    {
      hide Inv, PublishAll, Idle, VoiceModel.RemovePeer;
      RemovePeerLocked(id);
      Publish();
    }

    method Close()
      requires Valid()
      modifies this
      ensures Valid() && Value() == Step(old(Value()), OpClose)
    {
      hide Inv, Gone;
      CloseInv(Value());
      orphans := orphans + Gone(Value(), peers);
      closed := true;
      peers := map[];
    }

    // -------------------------------------------------------------- packets

    /** `collect_targets_locked`, with its inner loop as a set of its own. */
    method CollectTargets(publisher: PeerId) returns (targets: set<Flight>)
      requires forall id :: id in peers ==> VoiceSlots(peers[id].board.slots)
      ensures targets == Screen.Targets(SeenPeers(peers), publisher, Audio)
    {
      hide VoiceSlots, TargetAt, Screen.Targets, SeenPeers;
      targets := {};
      var todo := peers.Keys;
      while todo != {}
        invariant todo <= peers.Keys
        invariant forall f :: f in targets <==>
                    exists id :: id in peers && id !in todo && TargetOf(peers[id].board.slots, |peers[id].board.slots|, publisher, f)
        decreases |todo|
      {
        var id :| id in todo;
        var more := SubscriberTargets(id, publisher);
        targets := targets + more;
        todo := todo - {id};
      }
      TargetsAre(peers, publisher);
    }

    method SubscriberTargets(id: PeerId, publisher: PeerId) returns (targets: set<Flight>)
      requires id in peers && VoiceSlots(peers[id].board.slots)
      ensures forall f :: f in targets <==> TargetOf(peers[id].board.slots, |peers[id].board.slots|, publisher, f)
    {
      var slots := peers[id].board.slots;
      targets := {};
      var i := 0;
      while i < |slots|
        invariant i <= |slots|
        invariant forall f :: f in targets <==> TargetOf(slots, i, publisher, f)
      {
        ghost var before := targets;
        if slots[i].publisher == Some(publisher) {
          var output := slots[i].audio.value;
          targets := targets + {Screen.Flight(publisher, Audio, output.rewriter, output.sourceGeneration)};
        }
        forall f ensures f in targets <==> TargetOf(slots, i + 1, publisher, f) {
          assert f in targets <==> f in before || TargetAt(slots, i, publisher, f);
        }
        i := i + 1;
      }
    }

    /** The critical section of `route` and of `forward_delayed`. */
    method Route(publisher: PeerId, expected: TrackId) returns (targets: set<Flight>)
      requires Valid()
      modifies this`flights
      ensures Valid() && Value() == VoiceModel.Route(old(Value()), publisher, expected)
      ensures targets == RouteTargets(old(Value()), publisher, expected)
    {
      hide Inv, Screen.Targets, SeenPeers, VoiceSlots;
      RouteInv(Value(), publisher, expected);
      targets := {};
      if closed || publisher !in peers {
        return;
      }
      if Screen.Lock(peers[publisher].input, expired) != Screen.Lock(Some(expected), expired) {
        return;
      }
      InvSlots(Value());
      targets := CollectTargets(publisher);
      flights := flights + targets;
    }
  }

  // ---------------------------------------------------------------- lemmas for the loops

  lemma ClearedVoiceSlots(b: Board, i: nat)
    requires i < |b.slots| && VoiceSlots(b.slots)
    ensures |ClearAt(b, i).slots| == |b.slots| && VoiceSlots(ClearAt(b, i).slots)
  {
    hide StreamStep;
  }

  lemma RestartedVoiceSlots(b: Board, i: nat)
    requires i < |b.slots| && VoiceSlots(b.slots) && b.slots[i].publisher.Some?
    ensures |RestartAt(b, i, Audio).slots| == |b.slots| && VoiceSlots(RestartAt(b, i, Audio).slots)
  {
    hide StreamStep;
  }

  lemma BoundVoiceSlots(b: Board, i: nat, p: PeerId, expired: set<TrackId>)
    requires i < |b.slots| && VoiceSlots(b.slots) && Free(Single, b.slots[i], expired)
    ensures VoiceSlots(BindAt(b, i, p).slots) && Assigned(BindAt(b, i, p).slots) == Assigned(b.slots) + {p}
  {
    hide StreamStep;
    AssignedAfterBind(b, i, p, BindAt(b, i, p));
  }

  lemma AssignNext(b: Board, candidates: seq<PeerId>, n: nat, eligible: set<PeerId>, expired: set<TrackId>)
    requires n < |candidates|
    ensures var p, slot := candidates[n], FindFree(Single, b.slots, expired, 0);
            Assign(Single, b, candidates[n..], eligible, expired)
            == if p !in eligible || p in Assigned(b.slots) then Assign(Single, b, candidates[n + 1..], eligible, expired)
               else if slot.None? then b
               else Assign(Single, BindAt(b, slot.value, p), candidates[n + 1..], eligible, expired)
  {
    assert candidates[n..][1..] == candidates[n + 1..];
  }

  lemma AssignDone(b: Board, eligible: set<PeerId>, expired: set<TrackId>)
    ensures Assign(Single, b, [], eligible, expired) == b
  {
  }

  lemma SpeakingIs(was: map<PeerId, VoicePeer>, peers: map<PeerId, VoicePeer>, id: PeerId, p: PeerId, expired: set<TrackId>)
    requires id in was && id in peers && peers == was[id := was[id].(board := peers[id].board)] && p in peers
    ensures p in Speaking(was, expired) - {id} <==> p != id && Screen.Lock(peers[p].input, expired).Some?
  {
  }

  lemma SameInputs(was: map<PeerId, VoicePeer>, peers: map<PeerId, VoicePeer>, ordered: seq<PeerId>, n: nat, speaking: set<PeerId>, expired: set<TrackId>)
    requires n <= |ordered| && was.Keys == peers.Keys && Sorted(Orders(was), ordered)
    requires forall i :: n <= i < |ordered| ==> ordered[i] in was && peers[ordered[i]] == was[ordered[i]]
    requires forall i :: 0 <= i < n ==>
               ordered[i] in was && peers[ordered[i]] == AssignVoice(ordered[i], was[ordered[i]], ordered, speaking, expired)
    ensures Speaking(peers, expired) == Speaking(was, expired)
  {
    hide Assign;
    forall id | id in was ensures peers[id].input == was[id].input {
      assert id in ordered;
      var i :| 0 <= i < |ordered| && ordered[i] == id;
    }
    SameSpeaking(was, peers, expired);
  }

  lemma SameOrderMap(a: map<PeerId, VoicePeer>, b: map<PeerId, VoicePeer>)
    requires a.Keys == b.Keys && forall id :: id in a ==> b[id].order == a[id].order
    ensures Orders(a) == Orders(b)
  {
  }

  lemma InvSlots(v: Voice)
    requires Inv(v)
    ensures Injective(Orders(v.peers)) && forall id :: id in v.peers ==> VoiceSlots(v.peers[id].board.slots)
  {
    hide Safety.SplicersOk, BoardOk, Assigned, VoiceSlots, WorkConserving, Injective;
    forall id | id in v.peers ensures VoiceSlots(v.peers[id].board.slots) {
      assert VoicePeerOk(v.peers[id]);
    }
  }

  lemma InvKnown(v: Voice, id: PeerId)
    requires Inv(v)
    ensures var n := WithVoicePeer(v, id);
            Injective(Orders(n.peers)) && forall other :: other in n.peers ==> VoiceSlots(n.peers[other].board.slots)
  {
    hide Safety.SplicersOk, WorkConserving;
    WithPeerOrders(v, id);
    InvSlots(v);
  }

  lemma InvRest(v: Voice, id: PeerId)
    requires Inv(v)
    ensures Injective(Orders(v.peers - {id}))
    ensures forall other :: other in v.peers - {id} ==> VoiceSlots((v.peers - {id})[other].board.slots)
  {
    hide Safety.SplicersOk, Safe, WorkConserving, VoiceSlots, Injective, Orders;
    InvSlots(v);
    FewerOrders(v, v.peers - {id});
  }

  lemma {:induction false} ClearFromSlots(b: Board, p: PeerId, i: nat)
    requires i <= |b.slots| && VoiceSlots(b.slots)
    ensures VoiceSlots(ClearFrom(b, p, i).slots)
    decreases |b.slots| - i
  {
    hide ClearAt, VoiceSlots;
    if i < |b.slots| {
      ClearedVoiceSlots(b, i);
      ClearFromSlots(if b.slots[i].publisher == Some(p) then ClearAt(b, i) else b, p, i + 1);
    }
  }

  lemma {:induction false} RestartFromSlots(b: Board, p: PeerId, i: nat)
    requires i <= |b.slots| && VoiceSlots(b.slots)
    ensures VoiceSlots(RestartFrom(b, p, Audio, i).slots)
    decreases |b.slots| - i
  {
    hide RestartAt, VoiceSlots;
    if i < |b.slots| {
      if b.slots[i].publisher == Some(p) {
        RestartedVoiceSlots(b, i);
        RestartFromSlots(RestartAt(b, i, Audio), p, i + 1);
      } else {
        RestartFromSlots(b, p, i + 1);
      }
    }
  }

  lemma ClearedPeers(peers: map<PeerId, VoicePeer>, p: PeerId)
    requires forall id :: id in peers ==> VoiceSlots(peers[id].board.slots)
    ensures var r := ClearVoices(peers, p);
            Orders(r) == Orders(peers) && forall id :: id in r ==> VoiceSlots(r[id].board.slots)
  {
    hide ClearFrom, VoiceSlots;
    forall id | id in peers ensures VoiceSlots(ClearFrom(peers[id].board, p, 0).slots) {
      ClearFromSlots(peers[id].board, p, 0);
    }
    SameOrderMap(peers, ClearVoices(peers, p));
  }

  lemma RestartedPeers(peers: map<PeerId, VoicePeer>, p: PeerId)
    requires forall id :: id in peers ==> VoiceSlots(peers[id].board.slots)
    ensures var r := RestartVoices(peers, p);
            Orders(r) == Orders(peers) && forall id :: id in r ==> VoiceSlots(r[id].board.slots)
  {
    hide RestartFrom, VoiceSlots;
    forall id | id in peers ensures VoiceSlots(RestartFrom(peers[id].board, p, Audio, 0).slots) {
      RestartFromSlots(peers[id].board, p, 0);
    }
    SameOrderMap(peers, RestartVoices(peers, p));
  }

  lemma ClearedSlot(b: Board, i: nat)
    requires i < |b.slots|
    ensures Screen.ClearedPair(b, i) == ClearAt(b, i)
    ensures ClearAt(b, i).slots[i].publisher.None?
    ensures |ClearAt(b, i).slots| == |b.slots|
  {
  }

  lemma NoOrphan()
    ensures Screen.HalfOrphan(None) == map[]
  {
  }

  lemma RenewedSlots(v: Voice, owner: PeerId, mid: Mid, track: TrackId)
    requires Inv(v)
    ensures var known := WithVoicePeer(v, owner);
            var b := known.peers[owner].board;
            VoiceSlots(RenewAt(b, SlotFor(b.slots, mid), NewVoiceHalf(mid, track, v.nextRewriter)).slots)
  {
    hide Safety.SplicersOk, WorkConserving, Assigned, BoardOk, VoiceSlots, HalfOk, NewVoiceHalf, SlotFor, RenewAt;
    WithPeerOk(v, owner);
    var known := WithVoicePeer(v, owner);
    assert VoicePeerOk(known.peers[owner]);
    NewVoiceHalfOk(mid, track, v.nextRewriter);
    RenewAtOk(known.peers[owner].board, mid, NewVoiceHalf(mid, track, v.nextRewriter));
  }

  predicate TargetAt(slots: seq<Slot>, i: nat, publisher: PeerId, f: Flight)
  {
    && i < |slots| && slots[i].publisher == Some(publisher) && slots[i].audio.Some?
    && f == Screen.Flight(publisher, Audio, slots[i].audio.value.rewriter, slots[i].audio.value.sourceGeneration)
  }

  predicate TargetOf(slots: seq<Slot>, upTo: nat, publisher: PeerId, f: Flight)
  {
    exists j: nat :: j < upTo && TargetAt(slots, j, publisher, f)
  }

  lemma TargetsAre(peers: map<PeerId, VoicePeer>, publisher: PeerId)
    requires forall id :: id in peers ==> VoiceSlots(peers[id].board.slots)
    ensures forall f :: f in Screen.Targets(SeenPeers(peers), publisher, Audio)
                        <==> exists id :: id in peers && TargetOf(peers[id].board.slots, |peers[id].board.slots|, publisher, f)
  {
    var seen := SeenPeers(peers);
    forall f | f in Screen.Targets(seen, publisher, Audio)
      ensures exists id :: id in peers && TargetOf(peers[id].board.slots, |peers[id].board.slots|, publisher, f)
    {
      var id, i :| id in seen && 0 <= i < |seen[id].board.slots|
                   && seen[id].board.slots[i].publisher == Some(publisher)
                   && HalfOf(seen[id].board.slots[i], Audio).Some?
                   && HalfOf(seen[id].board.slots[i], Audio).value.ready
                   && (var h := HalfOf(seen[id].board.slots[i], Audio).value;
                       f == Screen.Flight(publisher, Audio, h.rewriter, h.sourceGeneration));
      assert TargetAt(peers[id].board.slots, i, publisher, f);
      assert TargetOf(peers[id].board.slots, |peers[id].board.slots|, publisher, f);
    }
    forall f, id | id in peers && TargetOf(peers[id].board.slots, |peers[id].board.slots|, publisher, f)
      ensures f in Screen.Targets(seen, publisher, Audio)
    {
      var j: nat :| j < |peers[id].board.slots| && TargetAt(peers[id].board.slots, j, publisher, f);
      assert id in seen && seen[id].board.slots[j] == peers[id].board.slots[j];
    }
  }
}
