/** `ScreenRouter::Impl`: the fields the router updates in place, and its methods proved
    against the operations of `ScreenModel`. */
module ScreenRouter {
  import opened Words
  import opened Identity
  import opened SplicerRuns
  import opened ClientBindings
  import opened Ordering
  import opened SlotBoard
  import opened ScreenModel
  import opened ScreenSafety

  class Impl {
    var peers: map<PeerId, PeerState>
    var nextPeerOrder: nat
    var closed: bool
    var nextRewriter: nat
    /** The tracks whose last reference is gone: what `expired()` of a weak pointer says. */
    var expired: set<TrackId>
    ghost var orphans: map<nat, LiveStream>
    ghost var flights: set<Flight>
    ghost var pending: Option<Pending>

    ghost function Value(): Router
      reads this
    {
      Router(peers, nextPeerOrder, closed, expired, nextRewriter, orphans, flights, pending)
    }

    ghost predicate Valid()
      reads this
    {
      Inv(Value()) && LockOk(Value())
    }

    constructor ()
      ensures Valid() && Value() == NEW_ROUTER
    {
      peers, nextPeerOrder, closed, nextRewriter, expired := map[], 0, false, 0, {};
      orphans, flights, pending := map[], {}, None;
      new;
      NewRouterInv();
    }

    // -------------------------------------------------------------- one slot

    /** `append_pair_notices`: what the subscriber is told about a slot. */
    method AppendPairNotices(id: PeerId, i: nat, publisher: Option<PeerId>)
      requires id in peers && i < |peers[id].board.slots|
      modifies this`peers
      ensures var b := old(peers[id].board);
              peers == old(peers)[id := old(peers[id]).(board := b.(notices := b.notices + SlotNotices(b.slots[i], publisher)))]
    {
      var board := peers[id].board;
      var slot := board.slots[i];
      var notices := [];
      if slot.video.Some? && slot.video.value.ready {
        notices := notices + [Notice(slot.video.value.mid, publisher)];
      }
      if slot.audio.Some? && slot.audio.value.ready {
        notices := notices + [Notice(slot.audio.value.mid, publisher)];
      }
      assert notices == SlotNotices(slot, publisher);
      peers := peers[id := peers[id].(board := board.(notices := board.notices + notices))];
    }

    method SetSlot(id: PeerId, i: nat, slot: Slot)
      requires id in peers && i < |peers[id].board.slots|
      modifies this`peers
      ensures var b := old(peers[id].board);
              peers == old(peers)[id := old(peers[id]).(board := b.(slots := b.slots[i := slot]))]
    {
      var board := peers[id].board;
      peers := peers[id := peers[id].(board := board.(slots := board.slots[i := slot]))];
    }

    /** `clear_pair_locked` */
    method ClearPair(id: PeerId, i: nat)
      requires id in peers && i < |peers[id].board.slots|
      modifies this`peers
      ensures peers == old(peers)[id := old(peers[id]).(board := ClearAt(old(peers[id].board), i))]
    {
      hide StreamStep, SlotNotices;
      var slot := peers[id].board.slots[i];
      if slot.publisher.None? {
        return;
      }
      if slot.video.Some? {
        slot := slot.(video := Some(EndHalf(slot.video.value)));
      }
      if slot.audio.Some? {
        slot := slot.(audio := Some(EndHalf(slot.audio.value)));
      }
      slot := slot.(publisher := None);
      SetSlot(id, i, slot);
      AppendPairNotices(id, i, None);
    }

    /** The restart of one bound pair in `register_input`. */
    method RestartPair(id: PeerId, i: nat, media: Media)
      requires id in peers && i < |peers[id].board.slots| && peers[id].board.slots[i].publisher.Some?
      modifies this`peers
      ensures peers == old(peers)[id := old(peers[id]).(board := RestartAt(old(peers[id].board), i, media))]
    {
      hide StreamStep, SlotNotices;
      var slot := peers[id].board.slots[i];
      var owner := slot.publisher.value;
      var output := HalfOf(slot, media);
      if output.Some? {
        slot := WithHalf(slot, media, Some(BeginHalf(output.value, owner)));
      }
      SetSlot(id, i, slot);
      AppendPairNotices(id, i, Some(owner));
    }

    /** The binding of one free pair in `assign_available_locked`. */
    method BindPair(id: PeerId, i: nat, publisher: PeerId)
      requires id in peers && i < |peers[id].board.slots|
      requires peers[id].board.slots[i].video.Some? && peers[id].board.slots[i].audio.Some?
      modifies this`peers
      ensures peers == old(peers)[id := old(peers[id]).(board := BindAt(old(peers[id].board), i, publisher))]
    {
      hide StreamStep, SlotNotices;
      var slot := peers[id].board.slots[i];
      slot := slot.(publisher := Some(publisher));
      slot := slot.(video := Some(BeginHalf(slot.video.value, publisher)));
      slot := slot.(audio := Some(BeginHalf(slot.audio.value, publisher)));
      SetSlot(id, i, slot);
      AppendPairNotices(id, i, Some(publisher));
    }

    // -------------------------------------------------------------- one subscriber

    method ClearSubscriber(id: PeerId, publisher: PeerId)
      requires id in peers
      modifies this`peers
      ensures peers == old(peers)[id := old(peers[id]).(board := ClearFrom(old(peers[id].board), publisher, 0))]
    {
      hide ClearAt;
      ghost var was := peers;
      var i := 0;
      while i < |peers[id].board.slots|
        invariant id in peers && i <= |peers[id].board.slots|
        invariant peers == was[id := was[id].(board := peers[id].board)]
        invariant ClearFrom(peers[id].board, publisher, i) == ClearFrom(was[id].board, publisher, 0)
        decreases |peers[id].board.slots| - i
      {
        if peers[id].board.slots[i].publisher == Some(publisher) {
          ClearedSize(peers[id].board, i);
          ClearPair(id, i);
        }
        i := i + 1;
      }
    }

    method RestartSubscriber(id: PeerId, publisher: PeerId, media: Media)
      requires id in peers
      modifies this`peers
      ensures peers == old(peers)[id := old(peers[id]).(board := RestartFrom(old(peers[id].board), publisher, media, 0))]
    {
      hide RestartAt;
      ghost var was := peers;
      var i := 0;
      while i < |peers[id].board.slots|
        invariant id in peers && i <= |peers[id].board.slots|
        invariant peers == was[id := was[id].(board := peers[id].board)]
        invariant RestartFrom(peers[id].board, publisher, media, i) == RestartFrom(was[id].board, publisher, media, 0)
        decreases |peers[id].board.slots| - i
      {
        if peers[id].board.slots[i].publisher == Some(publisher) {
          RestartedSize(peers[id].board, i, media);
          RestartPair(id, i, media);
        }
        i := i + 1;
      }
    }

    /** The `find_if` for a pair that is unbound, complete, ready and live. */
    method FindFreePair(id: PeerId) returns (found: Option<nat>)
      requires id in peers
      ensures found == FindFree(Paired, peers[id].board.slots, expired, 0)
    {
      var slots := peers[id].board.slots;
      var i := 0;
      while i < |slots|
        invariant i <= |slots|
        invariant FindFree(Paired, slots, expired, i) == FindFree(Paired, slots, expired, 0)
      {
        var pair := slots[i];
        if pair.publisher.None? && pair.video.Some? && pair.audio.Some?
           && pair.video.value.ready && pair.audio.value.ready
           && pair.video.value.track !in expired && pair.audio.value.track !in expired
        {
          return Some(i);
        }
        i := i + 1;
      }
      return None;
    }

    method AssignedOf(id: PeerId) returns (served: set<PeerId>)
      requires id in peers
      ensures served == Assigned(peers[id].board.slots)
    {
      var slots := peers[id].board.slots;
      served := {};
      var i := 0;
      while i < |slots|
        invariant i <= |slots| && served == Assigned(slots[..i])
      {
        assert slots[..i + 1] == slots[..i] + [slots[i]];
        if slots[i].publisher.Some? {
          served := served + {slots[i].publisher.value};
        }
        AssignedSnoc(slots[..i], slots[i]);
        i := i + 1;
      }
      assert slots[..|slots|] == slots;
    }

    method AssignSubscriber(id: PeerId)
      requires id in peers && Injective(peers[id].watched)
      modifies this`peers
      ensures peers == old(peers)[id := AssignPeer(id, old(peers[id]), Servable(old(peers), expired), expired)]
    {
      hide Assign, Assigned, FindFree, BindAt, Free, Ordered, Injective, Servable;
      ghost var was := peers;
      ghost var eligible := Servable(was, expired) - {id};
      var watches := SortByRank(peers[id].watched);
      var served := AssignedOf(id);
      var n := 0;
      var full := false;
      assert watches[0..] == watches;
      while n < |watches| && !full
        invariant n <= |watches| && id in peers
        invariant peers == was[id := was[id].(board := peers[id].board)]
        invariant served == Assigned(peers[id].board.slots)
        invariant Assign(Paired, was[id].board, watches, eligible, expired)
                  == if full then peers[id].board else Assign(Paired, peers[id].board, watches[n..], eligible, expired)
        decreases |watches| - n, !full
      {
        var publisher := watches[n];
        AssignNext(peers[id].board, watches, n, eligible, expired);
        ServableIs(was, peers, id, publisher, expired);
        if publisher !in peers || publisher == id || !peers[publisher].streaming
           || Lock(peers[publisher].inputVideo, expired).None? || publisher in served
        {
          n := n + 1;
        } else {
          var slot := FindFreePair(id);
          if slot.None? {
            full := true;
          } else {
            FreePair(peers[id].board, slot.value, publisher, expired);
            BindPair(id, slot.value, publisher);
            served := served + {publisher};
            n := n + 1;
          }
        }
      }
      assert !full ==> watches[n..] == [];
      AssignDone(peers[id].board, eligible, expired);
    }

    // -------------------------------------------------------------- all subscribers

    /** `assign_available_locked`. The order in which subscribers are visited does not
        matter: what one gets depends on its own slots and the profiles of the others. */
    method AssignAvailable()
      requires forall id :: id in peers ==> Injective(peers[id].watched)
      modifies this`peers
      ensures peers == AssignPeers(old(peers), expired)
    {
      hide AssignPeer, Injective, Servable;
      ghost var was := peers;
      ghost var servable := Servable(was, expired);
      var todo := peers.Keys;
      while todo != {}
        invariant todo <= was.Keys == peers.Keys
        invariant forall id :: id in was ==>
                    peers[id] == if id in todo then was[id] else AssignPeer(id, was[id], servable, expired)
        decreases |todo|
      {
        var id :| id in todo;
        SameServable(was, peers, servable, todo, expired);
        AssignSubscriber(id);
        todo := todo - {id};
      }
    }

    method ClearEverywhere(publisher: PeerId)
      modifies this`peers
      ensures peers == ClearPeers(old(peers), publisher)
    {
      hide ClearFrom;
      ghost var was := peers;
      var todo := peers.Keys;
      while todo != {}
        invariant todo <= was.Keys == peers.Keys
        invariant forall id :: id in was ==>
                    peers[id] == if id in todo then was[id] else was[id].(board := ClearFrom(was[id].board, publisher, 0))
        decreases |todo|
      {
        var id :| id in todo;
        ClearSubscriber(id, publisher);
        todo := todo - {id};
      }
    }

    method RestartEverywhere(publisher: PeerId, media: Media)
      modifies this`peers
      ensures peers == RestartPeers(old(peers), publisher, media)
    {
      hide RestartFrom;
      ghost var was := peers;
      var todo := peers.Keys;
      while todo != {}
        invariant todo <= was.Keys == peers.Keys
        invariant forall id :: id in was ==>
                    peers[id] == if id in todo then was[id] else was[id].(board := RestartFrom(was[id].board, publisher, media, 0))
        decreases |todo|
      {
        var id :| id in todo;
        RestartSubscriber(id, publisher, media);
        todo := todo - {id};
      }
    }

    /** `peer_for_locked` */
    method PeerFor(id: PeerId)
      modifies this`peers, this`nextPeerOrder
      ensures Value() == WithPeer(old(Value()), id) && id in peers
    {
      if id !in peers {
        peers := peers[id := NewPeer(nextPeerOrder)];
        nextPeerOrder := nextPeerOrder + 1;
      }
    }

    // -------------------------------------------------------------- critical sections

    method RegisterInputLocked(owner: PeerId, track: TrackId, media: Media)
      requires Valid() && pending.None?
      modifies this
      ensures Valid() && Value() == ScreenModel.RegisterInput(old(Value()), owner, track, media)
    {
      hide SplicersOk, WorkConserving, Assigned, BoardOk, AssignPeers, RestartPeers, Allowed;
      RegisterInputInv(Value(), owner, track, media);
      ghost var was := Value();
      if closed {
        return;
      }
      PeerFor(owner);
      KnownWatches(was, owner);
      var peer := peers[owner];
      var sourceChanged;
      if media.Video? {
        sourceChanged := Lock(peer.inputVideo, expired) != Some(track);
        peer := peer.(inputVideo := Some(track));
      } else {
        sourceChanged := Lock(peer.inputAudio, expired) != Some(track);
        peer := peer.(inputAudio := Some(track));
      }
      peers := peers[owner := peer];
      if sourceChanged {
        RestartedWatches(peers, owner, media);
        RestartEverywhere(owner, media);
      }
      AssignAvailable();
    }

    method SetStreamingLocked(id: PeerId, streaming: bool)
      requires Valid() && pending.None?
      modifies this
      ensures Valid() && Value() == ScreenModel.SetStreaming(old(Value()), id, streaming)
    {
      hide SplicersOk, WorkConserving, Assigned, BoardOk, AssignPeers, ClearPeers, Allowed;
      SetStreamingInv(Value(), id, streaming);
      ghost var was := Value();
      if closed {
        return;
      }
      PeerFor(id);
      KnownWatches(was, id);
      if peers[id].streaming == streaming {
        return;
      }
      peers := peers[id := peers[id].(streaming := streaming)];
      if !streaming {
        ClearedWatches(peers, id);
        ClearEverywhere(id);
      }
      AssignAvailable();
    }

    method SetWatchingLocked(id: PeerId, publisher: PeerId, watching: bool)
      requires Valid() && pending.None?
      modifies this
      ensures Valid() && Value() == ScreenModel.SetWatching(old(Value()), id, publisher, watching)
    {
      hide SplicersOk, WorkConserving, Assigned, BoardOk, AssignPeers, ClearFrom, Allowed;
      SetWatchingInv(Value(), id, publisher, watching);
      ghost var was := Value();
      if id == publisher || closed {
        return;
      }
      PeerFor(id);
      KnownWatches(was, id);
      ghost var known := Value();
      var peer := peers[id];
      if watching {
        if publisher in peer.watched {
          return;
        }
        WatchAdded(peer.watched, peer.nextWatchOrder, publisher);
        peers := peers[id := peer.(
          watched := peer.watched[publisher := peer.nextWatchOrder],
          nextWatchOrder := peer.nextWatchOrder + 1)];
      } else {
        if publisher !in peer.watched {
          return;
        }
        WatchDropped(peer.watched, peer.nextWatchOrder, publisher);
        peers := peers[id := peer.(watched := peer.watched - {publisher})];
        ClearSubscriber(id, publisher);
        assert peers == known.peers[id := ForgetWatch(peer, publisher)];
      }
      AssignAvailable();
    }

    /** Every subscriber stops watching a peer that left, and drops its binding. */
    method ForgetEverywhere(id: PeerId)
      modifies this`peers
      ensures peers == map other | other in old(peers) :: ForgetWatch(old(peers)[other], id)
    {
      hide ClearFrom;
      ghost var was := peers;
      var todo := peers.Keys;
      while todo != {}
        invariant todo <= was.Keys == peers.Keys
        invariant forall other :: other in was ==>
                    peers[other] == if other in todo then was[other] else ForgetWatch(was[other], id)
        decreases |todo|
      {
        var other :| other in todo;
        peers := peers[other := peers[other].(watched := peers[other].watched - {id})];
        ClearSubscriber(other, id);
        todo := todo - {other};
      }
    }

    method RemovePeerLocked(id: PeerId)
      requires Valid() && pending.None?
      modifies this
      ensures Valid() && Value() == ScreenModel.RemovePeer(old(Value()), id)
    {
      hide Safe, SplicersOk, WorkConserving, AssignPeers, ForgetWatch, Orphaned, Injective;
      RemovePeerInv(Value(), id);
      ghost var was := Value();
      if closed {
        return;
      }
      ghost var leaving := map other | other in peers && other == id :: peers[other];
      peers := peers - {id};
      orphans := orphans + Orphaned(leaving, nextRewriter);
      ForgottenWatches(was, peers, id);
      ForgetEverywhere(id);
      AssignAvailable();
    }

    /** `output_pair_for`, up to the choice of the pair. */
    method ChoosePair(id: PeerId, mid: Mid, media: Media) returns (chosen: nat)
      requires id in peers
      ensures chosen == PairFor(peers[id].board.slots, mid, media)
    {
      var slots := peers[id].board.slots;
      var i := 0;
      while i < |slots|
        invariant i <= |slots| && PairWithMid(slots, mid, media, i) == PairWithMid(slots, mid, media, 0)
      {
        var output := HalfOf(slots[i], media);
        if output.Some? && output.value.mid == mid {
          return i;
        }
        i := i + 1;
      }
      i := 0;
      while i < |slots|
        invariant i <= |slots| && PairLacking(slots, media, i) == PairLacking(slots, media, 0)
      {
        if HalfOf(slots[i], media).None? {
          return i;
        }
        i := i + 1;
      }
      return |slots|;
    }

    /** The chosen pair, cleared; a new one when there is none to choose. */
    method ClearChosen(id: PeerId, i: nat)
      requires id in peers && i <= |peers[id].board.slots|
      modifies this`peers
      ensures peers == old(peers)[id := old(peers[id]).(board := ClearedPair(old(peers[id].board), i))]
    {
      hide ClearAt;
      if i == |peers[id].board.slots| {
        var board := peers[id].board;
        peers := peers[id := peers[id].(board := board.(slots := board.slots + [EMPTY_SLOT]))];
      } else {
        ClearPair(id, i);
      }
    }

    /** `register_output` up to the release of the state mutex. */
    method RegisterOutputBegin(owner: PeerId, mid: Mid, media: Media, track: TrackId)
      requires Valid() && pending.None?
      modifies this
      ensures Valid() && Value() == ScreenModel.RegisterOutputBegin(old(Value()), owner, mid, media, track)
    {
      hide Inv, ClearedPair, PairFor, NewHalf, HalfOrphan, HalfOf, WithHalf, WithPeer;
      RegisterOutputInv(Value(), owner, mid, media, track);
      if closed {
        return;
      }
      PeerFor(owner);
      ghost var known := Value();
      var i := ChoosePair(owner, mid, media);
      ClearChosen(owner, i);
      ghost var board := ClearedPair(known.peers[owner].board, i);
      var slot := peers[owner].board.slots[i];
      orphans := orphans + HalfOrphan(HalfOf(slot, media));
      SetSlot(owner, i, WithHalf(slot, media, Some(NewHalf(mid, track, nextRewriter, media))));
      nextRewriter := nextRewriter + 1;
      pending := Some(Pending(owner, mid, media, track));
      assert peers == known.peers[owner := known.peers[owner].(board := board.(slots :=
        board.slots[i := WithHalf(slot, media, Some(NewHalf(mid, track, known.nextRewriter, media)))]))];
    }

    /** The second critical section of `register_output`. */
    method RegisterOutputFinish(owner: PeerId, mid: Mid, media: Media, track: TrackId)
      requires Valid() && pending == Some(Pending(owner, mid, media, track))
      modifies this
      ensures Valid() && Value() == ScreenModel.RegisterOutputFinish(old(Value()))
    {
      hide SplicersOk, WorkConserving, Assigned, BoardOk, AssignPeers, Allowed;
      OutputReadyInv(Value());
      ghost var was := Value();
      pending := None;
      if closed || owner !in peers {
        return;
      }
      var slots := peers[owner].board.slots;
      var i := 0;
      var found := false;
      while i < |slots| && !found
        invariant i <= |slots| && Value() == was.(pending := None)
        invariant found ==> i < |slots| && PairWithMid(slots, mid, media, 0) == Some(i)
        invariant !found ==> PairWithMid(slots, mid, media, i) == PairWithMid(slots, mid, media, 0)
        decreases |slots| - i, !found
      {
        var output := HalfOf(slots[i], media);
        if output.Some? && output.value.mid == mid {
          found := true;
        } else {
          i := i + 1;
        }
      }
      if found {
        var output := HalfOf(slots[i], media).value;
        if output.track == track {
          SetSlot(owner, i, WithHalf(slots[i], media, Some(output.(ready := true))));
        }
      }
      assert peers == was.peers[owner := was.peers[owner].(board := was.peers[owner].board.(slots := MarkReady(slots, mid, media, track)))];
      forall id | id in peers ensures Injective(peers[id].watched) {
        assert PeerOk(was.peers[id]);
      }
      AssignAvailable();
    }

    // -------------------------------------------------------------- publishing

    /** The notices of one subscriber go out in order. */
    method PublishTo(id: PeerId)
      requires id in peers && peers[id].published <= |peers[id].board.notices|
      modifies this`peers
      ensures peers == old(peers)[id := old(peers[id]).(published := |old(peers[id]).board.notices|)]
    {
      ghost var was := peers;
      while peers[id].published < |peers[id].board.notices|
        invariant id in peers && peers == was[id := was[id].(published := peers[id].published)]
        invariant peers[id].published <= |was[id].board.notices|
        decreases |was[id].board.notices| - peers[id].published
      {
        peers := peers[id := peers[id].(published := peers[id].published + 1)];
      }
    }

    method PublishEach()
      requires forall id :: id in peers ==> peers[id].published <= |peers[id].board.notices|
      modifies this`peers
      ensures peers == PublishPeers(old(peers))
    {
      ghost var was := peers;
      var todo := peers.Keys;
      while todo != {}
        invariant todo <= was.Keys == peers.Keys
        invariant forall id :: id in was ==>
                    peers[id] == if id in todo then was[id] else was[id].(published := |was[id].board.notices|)
        decreases |todo|
      {
        var id :| id in todo;
        PublishTo(id);
        todo := todo - {id};
      }
    }

    /** `publish`, after the state mutex was released. */
    method Publish()
      requires Valid() && pending.None?
      modifies this`peers
      ensures Valid() && Value() == PublishAll(old(Value())) && Idle(Value())
    {
      hide Inv, LockOk, PublishPeers, Idle;
      PublishAllInv(Value());
      forall id | id in peers ensures peers[id].published <= |peers[id].board.notices| {
        PublishedBound(Value(), id);
      }
      PublishEach();
    }

    // -------------------------------------------------------------- operations

    method RegisterInput(owner: PeerId, track: TrackId, media: Media)
      requires Valid() && Idle(Value())
      modifies this
      ensures Valid() && Idle(Value())
      ensures Value() == PublishAll(ScreenModel.RegisterInput(old(Value()), owner, track, media))
    {
      hide Inv, LockOk, PublishAll, Idle, ScreenModel.RegisterInput;
      SamePending(Value());
      RegisterInputLocked(owner, track, media);
      Publish();
    }

    method RegisterOutput(owner: PeerId, mid: Mid, media: Media, track: TrackId)
      requires Valid() && Idle(Value())
      modifies this
      ensures Valid() && Idle(Value())
      ensures Value() == if old(closed) then old(Value())
                         else PublishAll(ScreenModel.RegisterOutputFinish(ScreenModel.RegisterOutputBegin(old(Value()), owner, mid, media, track)))
    {
      hide Inv, LockOk, PublishAll, ScreenModel.RegisterOutputFinish, WithPeer, PairFor, ClearedPair, NewHalf;
      if closed {
        return;
      }
      RegisterOutputBegin(owner, mid, media, track);
      FinishedPending(Value());
      RegisterOutputFinish(owner, mid, media, track);
      Publish();
    }

    method SetStreaming(id: PeerId, streaming: bool)
      requires Valid() && Idle(Value())
      modifies this
      ensures Valid() && Idle(Value())
      ensures Value() == PublishAll(ScreenModel.SetStreaming(old(Value()), id, streaming))
    {
      hide Inv, LockOk, PublishAll, Idle, ScreenModel.SetStreaming;
      SamePending(Value());
      SetStreamingLocked(id, streaming);
      Publish();
    }

    method SetWatching(id: PeerId, publisher: PeerId, watching: bool)
      requires Valid() && Idle(Value())
      modifies this
      ensures Valid() && Idle(Value())
      ensures Value() == PublishAll(ScreenModel.SetWatching(old(Value()), id, publisher, watching))
    {
      hide Inv, LockOk, PublishAll, Idle, ScreenModel.SetWatching;
      SamePending(Value());
      SetWatchingLocked(id, publisher, watching);
      Publish();
    }

    method RemovePeer(id: PeerId)
      requires Valid() && Idle(Value())
      modifies this
      ensures Valid() && Idle(Value())
      ensures Value() == PublishAll(ScreenModel.RemovePeer(old(Value()), id))
    {
      hide Inv, LockOk, PublishAll, Idle, ScreenModel.RemovePeer;
      SamePending(Value());
      RemovePeerLocked(id);
      Publish();
    }

    method Close()
      requires Valid()
      modifies this
      ensures Valid() && Value() == Step(old(Value()), OpClose)
    {
      hide Inv, Orphaned;
      CloseInv(Value());
      orphans := orphans + Orphaned(peers, nextRewriter);
      closed := true;
      peers := map[];
    }

    // -------------------------------------------------------------- packets

    /** The outputs of one subscriber in `collect_targets_locked`. */
    method SubscriberTargets(id: PeerId, publisher: PeerId, media: Media) returns (targets: set<Flight>)
      requires id in peers
      ensures targets == Targets(map[id := peers[id]], publisher, media)
    {
      var slots := peers[id].board.slots;
      targets := {};
      var i := 0;
      while i < |slots|
        invariant i <= |slots|
        invariant forall f :: f in targets <==> exists j: nat :: j < i && TargetAt(slots, j, publisher, media, f)
      {
        ghost var before := targets;
        var pair := slots[i];
        if pair.publisher == Some(publisher) {
          var output := HalfOf(pair, media);
          if output.Some? && output.value.ready {
            targets := targets + {Flight(publisher, media, output.value.rewriter, output.value.sourceGeneration)};
          }
        }
        forall f ensures f in targets <==> exists j: nat :: j < i + 1 && TargetAt(slots, j, publisher, media, f) {
          assert f in targets <==> f in before || TargetAt(slots, i, publisher, media, f);
        }
        i := i + 1;
      }
      TargetsOfOne(id, peers[id], publisher, media);
    }

    /** `collect_targets_locked` */
    method CollectTargets(publisher: PeerId, media: Media) returns (targets: set<Flight>)
      ensures targets == Targets(peers, publisher, media)
    {
      hide TargetAt, Targets;
      targets := {};
      var todo := peers.Keys;
      while todo != {}
        invariant todo <= peers.Keys
        invariant forall f :: f in targets <==>
                    exists id :: id in peers && id !in todo && f in Targets(map[id := peers[id]], publisher, media)
        decreases |todo|
      {
        var id :| id in todo;
        var more := SubscriberTargets(id, publisher, media);
        targets := targets + more;
        todo := todo - {id};
      }
      TargetsOfAll(peers, publisher, media);
    }

    /** The critical section of `route` and of `forward_delayed`. */
    method Route(publisher: PeerId, media: Media, expected: TrackId) returns (targets: set<Flight>)
      requires Valid()
      modifies this`flights
      ensures Valid() && Value() == ScreenModel.Route(old(Value()), publisher, media, expected)
      ensures targets == RouteTargets(old(Value()), publisher, media, expected)
    {
      hide SplicersOk, WorkConserving, Safe, Targets;
      RouteInv(Value(), publisher, media, expected);
      targets := {};
      if closed || publisher !in peers {
        return;
      }
      var source := peers[publisher];
      var actual := if media.Video? then Lock(source.inputVideo, expired) else Lock(source.inputAudio, expired);
      if actual != Lock(Some(expected), expired) || !source.streaming {
        return;
      }
      targets := CollectTargets(publisher, media);
      flights := flights + targets;
    }
  }

  // ---------------------------------------------------------------- lemmas for the operations

  lemma FinishedPending(r: Router)
    requires r.pending.Some?
    ensures ScreenModel.RegisterOutputFinish(r).pending.None?
  {
    hide AssignPeers, MarkReady;
  }

  // ---------------------------------------------------------------- lemmas for the loops

  lemma ClearedSize(b: Board, i: nat)
    requires i < |b.slots|
    ensures |ClearAt(b, i).slots| == |b.slots|
  {
  }

  lemma RestartedSize(b: Board, i: nat, media: Media)
    requires i < |b.slots| && b.slots[i].publisher.Some?
    ensures |RestartAt(b, i, media).slots| == |b.slots|
  {
  }

  lemma AssignedSnoc(slots: seq<Slot>, slot: Slot)
    ensures Assigned(slots + [slot]) == Assigned(slots) + (if slot.publisher.Some? then {slot.publisher.value} else {})
  {
    var all := slots + [slot];
    forall p ensures p in Assigned(all) <==> p in Assigned(slots) || slot.publisher == Some(p) {
      if p in Assigned(slots) {
        var i :| 0 <= i < |slots| && slots[i].publisher.Some? && slots[i].publisher.value == p;
        assert all[i].publisher.value == p;
      }
      if slot.publisher == Some(p) {
        assert all[|slots|].publisher.value == p;
      }
    }
  }

  /** What the next candidate brings. */
  lemma AssignNext(b: Board, watches: seq<PeerId>, n: nat, eligible: set<PeerId>, expired: set<TrackId>)
    requires n < |watches|
    ensures var p, slot := watches[n], FindFree(Paired, b.slots, expired, 0);
            Assign(Paired, b, watches[n..], eligible, expired)
            == if p !in eligible || p in Assigned(b.slots) then Assign(Paired, b, watches[n + 1..], eligible, expired)
               else if slot.None? then b
               else Assign(Paired, BindAt(b, slot.value, p), watches[n + 1..], eligible, expired)
  {
    assert watches[n..][1..] == watches[n + 1..];
  }

  lemma AssignDone(b: Board, eligible: set<PeerId>, expired: set<TrackId>)
    ensures Assign(Paired, b, [], eligible, expired) == b
  {
  }

  lemma ServableIs(was: map<PeerId, PeerState>, peers: map<PeerId, PeerState>, id: PeerId, p: PeerId, expired: set<TrackId>)
    requires id in was && id in peers && peers == was[id := was[id].(board := peers[id].board)]
    ensures p in Servable(was, expired) - {id} <==>
              p in peers && p != id && peers[p].streaming && Lock(peers[p].inputVideo, expired).Some?
  {
  }

  lemma FreePair(b: Board, i: nat, p: PeerId, expired: set<TrackId>)
    requires i < |b.slots| && Free(Paired, b.slots[i], expired)
    ensures b.slots[i].video.Some? && b.slots[i].audio.Some?
    ensures Assigned(BindAt(b, i, p).slots) == Assigned(b.slots) + {p}
  {
    hide StreamStep;
    AssignedAfterBind(b, i, p, BindAt(b, i, p));
  }

  lemma SameServable(was: map<PeerId, PeerState>, peers: map<PeerId, PeerState>, servable: set<PeerId>, todo: set<PeerId>, expired: set<TrackId>)
    requires was.Keys == peers.Keys
    requires forall id :: id in was ==> peers[id] == if id in todo then was[id] else AssignPeer(id, was[id], servable, expired)
    ensures Servable(peers, expired) == Servable(was, expired)
    ensures forall id :: id in was ==> peers[id].watched == was[id].watched
  {
    hide Assign;
    forall id | id in was ensures SameProfile(was[id], peers[id]) {
    }
    ProfilesDecide(was, peers, expired);
  }

  /** Watch numbers differ, so the order of the watches is never in doubt. */
  lemma KnownWatches(r: Router, id: PeerId)
    requires Safe(r.peers)
    ensures forall other :: other in WithPeer(r, id).peers ==>
              var peer := WithPeer(r, id).peers[other];
              WatchesOk(peer.watched, peer.nextWatchOrder)
  {
    hide BoardOk, Assigned, Allowed;
    forall other | other in WithPeer(r, id).peers
      ensures WatchesOk(WithPeer(r, id).peers[other].watched, WithPeer(r, id).peers[other].nextWatchOrder)
    {
      if other in r.peers {
        assert PeerOk(r.peers[other]);
      }
    }
  }

  lemma ForgottenWatches(r: Router, rest: map<PeerId, PeerState>, id: PeerId)
    requires Safe(r.peers) && rest == r.peers - {id}
    ensures forall other :: other in rest ==> Injective(ForgetWatch(rest[other], id).watched)
  {
    hide BoardOk, Assigned, Allowed, ClearFrom;
    forall other | other in rest ensures Injective(ForgetWatch(rest[other], id).watched) {
      assert PeerOk(r.peers[other]);
      WatchDropped(rest[other].watched, rest[other].nextWatchOrder, id);
    }
  }

  lemma RestartedWatches(peers: map<PeerId, PeerState>, owner: PeerId, media: Media)
    ensures forall id :: id in RestartPeers(peers, owner, media) ==>
              id in peers && RestartPeers(peers, owner, media)[id].watched == peers[id].watched
  {
    hide RestartFrom;
  }

  lemma ClearedWatches(peers: map<PeerId, PeerState>, p: PeerId)
    ensures forall id :: id in ClearPeers(peers, p) ==> id in peers && ClearPeers(peers, p)[id].watched == peers[id].watched
  {
    hide ClearFrom;
  }

  predicate TargetAt(slots: seq<Slot>, i: nat, publisher: PeerId, media: Media, f: Flight)
  {
    && i < |slots| && slots[i].publisher == Some(publisher) && HalfOf(slots[i], media).Some?
    && var h := HalfOf(slots[i], media).value;
       h.ready && f == Flight(publisher, media, h.rewriter, h.sourceGeneration)
  }

  lemma TargetsOfOne(id: PeerId, peer: PeerState, publisher: PeerId, media: Media)
    ensures forall f :: f in Targets(map[id := peer], publisher, media)
                        <==> exists j: nat :: j < |peer.board.slots| && TargetAt(peer.board.slots, j, publisher, media, f)
  {
    var slots := peer.board.slots;
    var only := map[id := peer];
    forall f, j: nat | j < |slots| && TargetAt(slots, j, publisher, media, f) ensures f in Targets(only, publisher, media) {
      assert id in only && only[id].board.slots[j] == slots[j];
    }
    forall f | f in Targets(only, publisher, media)
      ensures exists j: nat :: j < |slots| && TargetAt(slots, j, publisher, media, f)
    {
      var other, i :| other in only && 0 <= i < |only[other].board.slots|
                      && only[other].board.slots[i].publisher == Some(publisher)
                      && HalfOf(only[other].board.slots[i], media).Some?
                      && HalfOf(only[other].board.slots[i], media).value.ready
                      && (var h := HalfOf(only[other].board.slots[i], media).value;
                          f == Flight(publisher, media, h.rewriter, h.sourceGeneration));
      assert TargetAt(slots, i, publisher, media, f);
    }
  }

  lemma TargetsOfAll(peers: map<PeerId, PeerState>, publisher: PeerId, media: Media)
    ensures forall f :: f in Targets(peers, publisher, media)
                        <==> exists id :: id in peers && f in Targets(map[id := peers[id]], publisher, media)
  {
    forall f | f in Targets(peers, publisher, media)
      ensures exists id :: id in peers && f in Targets(map[id := peers[id]], publisher, media)
    {
      var id, i :| id in peers && 0 <= i < |peers[id].board.slots|
                   && peers[id].board.slots[i].publisher == Some(publisher)
                   && HalfOf(peers[id].board.slots[i], media).Some?
                   && HalfOf(peers[id].board.slots[i], media).value.ready
                   && (var h := HalfOf(peers[id].board.slots[i], media).value;
                       f == Flight(publisher, media, h.rewriter, h.sourceGeneration));
      TargetsOfOne(id, peers[id], publisher, media);
      assert TargetAt(peers[id].board.slots, i, publisher, media, f);
    }
    forall f, id | id in peers && f in Targets(map[id := peers[id]], publisher, media)
      ensures f in Targets(peers, publisher, media)
    {
      TargetsOfOne(id, peers[id], publisher, media);
      var j: nat :| j < |peers[id].board.slots| && TargetAt(peers[id].board.slots, j, publisher, media, f);
      assert peers[id].board.slots[j].publisher == Some(publisher);
    }
  }
}
