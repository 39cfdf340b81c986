/** What every reachable state of the screen router keeps. */
module ScreenSafety {
  import opened Words
  import opened Identity
  import opened Splicer
  import opened SplicerRuns
  import opened ClientBindings
  import opened Ordering
  import opened SlotBoard
  import opened ScreenModel

  // ---------------------------------------------------------------- bindings

  /** The publishers a subscriber may show: present, streaming, watched, not itself. */
  function Allowed(peers: map<PeerId, PeerState>, id: PeerId): set<PeerId>
    requires id in peers
  {
    set p | p in peers[id].watched && p != id && p in peers && peers[p].streaming
  }

  ghost predicate WatchesOk(watched: map<PeerId, nat>, next: nat)
  {
    Injective(watched) && forall p :: p in watched ==> watched[p] < next
  }

  ghost predicate PeerOk(peer: PeerState)
  {
    && BoardOk(Paired, peer.board) && WatchesOk(peer.watched, peer.nextWatchOrder)
    && peer.published <= |peer.board.notices|
  }

  /** Binding safety, with one publisher that is still to be cleared. */
  ghost predicate SafeExcept(peers: map<PeerId, PeerState>, leaving: set<PeerId>)
  {
    forall id :: id in peers ==>
      PeerOk(peers[id]) && Assigned(peers[id].board.slots) <= Allowed(peers, id) + leaving
  }

  ghost predicate Safe(peers: map<PeerId, PeerState>)
  {
    SafeExcept(peers, {})
  }

  /** The publishers a subscriber should show: also with a live video input. */
  function Due(peers: map<PeerId, PeerState>, expired: set<TrackId>, id: PeerId): set<PeerId>
    requires id in peers
  {
    set p | p in peers[id].watched && p in Servable(peers, expired) && p != id
  }

  predicate WorkConserving(peers: map<PeerId, PeerState>, expired: set<TrackId>)
  {
    forall id :: id in peers ==> Conserving(Paired, peers[id].board.slots, Due(peers, expired, id), expired)
  }

  predicate SameProfile(a: PeerState, b: PeerState)
  {
    b == a.(board := b.board)
  }

  ghost predicate PeersKeep(a: map<PeerId, PeerState>, b: map<PeerId, PeerState>)
  {
    a.Keys == b.Keys
    && forall id :: id in a ==> SameProfile(a[id], b[id]) && Keeps(Paired, a[id].board, b[id].board)
  }

  lemma ProfilesDecide(a: map<PeerId, PeerState>, b: map<PeerId, PeerState>, expired: set<TrackId>)
    requires a.Keys == b.Keys && forall id :: id in a ==> SameProfile(a[id], b[id])
    ensures Servable(a, expired) == Servable(b, expired)
    ensures forall id :: id in a ==> Allowed(a, id) == Allowed(b, id) && Due(a, expired, id) == Due(b, expired, id)
  {
    assert forall p :: p in a ==> (Serves(a[p], expired) <==> Serves(b[p], expired));
  }

  lemma AssignPeersSafe(peers: map<PeerId, PeerState>, expired: set<TrackId>)
    requires Safe(peers)
    ensures var r := AssignPeers(peers, expired);
            Safe(r) && WorkConserving(r, expired) && PeersKeep(peers, r)
  {
    hide BoardOk, Keeps, Assign, Conserving, Assigned, WatchesOk;
    var r := AssignPeers(peers, expired);
    var servable := Servable(peers, expired);
    forall id | id in peers
      ensures SameProfile(peers[id], r[id]) && Keeps(Paired, peers[id].board, r[id].board) && PeerOk(r[id])
      ensures Assigned(r[id].board.slots) <= Allowed(peers, id)
      ensures Conserving(Paired, r[id].board.slots, Due(peers, expired, id), expired)
    {
      var peer := peers[id];
      var candidates := Ordered(peer.watched);
      AssignKeeps(Paired, peer.board, candidates, servable - {id}, expired);
      KeepsOk(Paired, peer.board, r[id].board);
      assert Wanted(candidates, servable - {id}) == Due(peers, expired, id);
      assert Due(peers, expired, id) <= Allowed(peers, id);
    }
    ProfilesDecide(peers, r, expired);
  }

  lemma ClearPeersSafe(peers: map<PeerId, PeerState>, p: PeerId)
    requires SafeExcept(peers, {p})
    ensures var r := ClearPeers(peers, p);
            PeersKeep(peers, r) && SafeExcept(r, {}) && (forall id :: id in r ==> p !in Assigned(r[id].board.slots))
  {
    hide BoardOk, Keeps, ClearFrom, WatchesOk;
    var r := ClearPeers(peers, p);
    forall id | id in peers
      ensures SameProfile(peers[id], r[id]) && Keeps(Paired, peers[id].board, r[id].board) && PeerOk(r[id])
      ensures Assigned(r[id].board.slots) == Assigned(peers[id].board.slots) - {p}
    {
      ClearFromKeeps(Paired, peers[id].board, p, 0);
      KeepsOk(Paired, peers[id].board, r[id].board);
      AssignedAfterClear(peers[id].board.slots, r[id].board.slots, p);
    }
    ProfilesDecide(peers, r, {});
  }

  lemma AssignedAfterClear(a: seq<Slot>, b: seq<Slot>, p: PeerId)
    requires |a| == |b|
    requires forall j :: 0 <= j < |a| ==> b[j].publisher == if a[j].publisher == Some(p) then None else a[j].publisher
    ensures Assigned(b) == Assigned(a) - {p}
  {
    forall q ensures q in Assigned(b) <==> q in Assigned(a) - {p} {
      if q in Assigned(a) && q != p {
        var j :| 0 <= j < |a| && a[j].publisher.Some? && a[j].publisher.value == q;
        assert b[j].publisher.value == q;
      }
      if q in Assigned(b) {
        var j :| 0 <= j < |b| && b[j].publisher.Some? && b[j].publisher.value == q;
        assert a[j].publisher.value == q;
      }
    }
  }

  lemma SameAssigned(a: seq<Slot>, b: seq<Slot>)
    requires |a| == |b| && forall j :: 0 <= j < |a| ==> b[j].publisher == a[j].publisher
    ensures Assigned(a) == Assigned(b)
  {
    forall q ensures q in Assigned(a) <==> q in Assigned(b) {
      if q in Assigned(a) {
        var j :| 0 <= j < |a| && a[j].publisher.Some? && a[j].publisher.value == q;
        assert b[j].publisher.value == q;
      }
      if q in Assigned(b) {
        var j :| 0 <= j < |b| && b[j].publisher.Some? && b[j].publisher.value == q;
        assert a[j].publisher.value == q;
      }
    }
  }

  lemma RestartPeersSafe(peers: map<PeerId, PeerState>, p: PeerId, media: Media)
    requires Safe(peers)
    ensures var r := RestartPeers(peers, p, media); PeersKeep(peers, r) && Safe(r)
  {
    hide BoardOk, Keeps, RestartFrom, WatchesOk, Assigned;
    var r := RestartPeers(peers, p, media);
    forall id | id in peers
      ensures SameProfile(peers[id], r[id]) && Keeps(Paired, peers[id].board, r[id].board) && PeerOk(r[id])
      ensures Assigned(r[id].board.slots) == Assigned(peers[id].board.slots)
    {
      RestartFromKeeps(Paired, peers[id].board, p, media, 0);
      KeepsOk(Paired, peers[id].board, r[id].board);
      SameAssigned(peers[id].board.slots, r[id].board.slots);
    }
    ProfilesDecide(peers, r, {});
  }

  // ---------------------------------------------------------------- splicers and targets

  predicate FlightOn(f: Flight, s: Stream)
  {
    f.generation <= s.timeline.generation && f.generation in s.owners && s.owners[f.generation] == f.publisher
  }

  /** Every packet a slot ever sent was sent for the publisher its generation belongs to. */
  predicate Owned(s: Stream)
  {
    forall k :: 0 <= k < |s.log| ==> s.log[k].generation in s.owners
  }

  ghost predicate HalvesOk(r: Router)
  {
    forall id, i: nat, media :: At(r.peers, id, i, media) ==>
      var h := HalfAt(r.peers, id, i, media);
      && h.rewriter < r.nextRewriter && h.rewriter !in r.orphans
      && StreamInv(h.stream) && Owned(h.stream)
      && Make(h.stream) == (ClockRate(media), DefaultStep(media))
  }

  /** No splicer is held by two slots: a shared object would have one owner only. */
  ghost predicate HeldOnce(peers: map<PeerId, PeerState>)
  {
    forall id, i: nat, media, id', i': nat, media' ::
      At(peers, id, i, media) && At(peers, id', i', media')
      && HalfAt(peers, id, i, media).rewriter == HalfAt(peers, id', i', media').rewriter
      ==> id == id' && i == i' && media == media'
  }

  ghost predicate OrphansOk(r: Router)
  {
    forall k :: k in r.orphans ==> k < r.nextRewriter && StreamInv(r.orphans[k]) && Owned(r.orphans[k])
  }

  ghost predicate FlightsOk(r: Router)
  {
    forall f :: f in r.flights ==>
      && f.rewriter < r.nextRewriter
      && (forall id, i: nat, media :: Holds(r.peers, id, i, media, f.rewriter) ==>
            media == f.media && FlightOn(f, HalfAt(r.peers, id, i, media).stream))
      && (f.rewriter in r.orphans ==> FlightOn(f, r.orphans[f.rewriter]))
  }

  ghost predicate SplicersOk(r: Router)
  {
    HalvesOk(r) && HeldOnce(r.peers) && OrphansOk(r) && FlightsOk(r)
  }

  /** Every half of `b` continues the half of `a` at the same place. */
  ghost predicate HalvesEvolve(a: map<PeerId, PeerState>, b: map<PeerId, PeerState>)
  {
    forall id, i: nat, media :: At(b, id, i, media) ==>
      At(a, id, i, media) && HalfEvolves(HalfAt(a, id, i, media), HalfAt(b, id, i, media))
  }

  ghost predicate SlotsOk(shape: Shape, peers: map<PeerId, PeerState>)
  {
    forall id, i: nat :: id in peers && i < |peers[id].board.slots| ==> SlotOk(shape, peers[id].board.slots[i])
  }

  ghost predicate StreamsOk(peers: map<PeerId, PeerState>)
  {
    forall id, i: nat, media :: At(peers, id, i, media) ==> StreamInv(HalfAt(peers, id, i, media).stream)
  }

  lemma SafeSlots(peers: map<PeerId, PeerState>)
    requires Safe(peers)
    ensures SlotsOk(Paired, peers)
  {
    hide SlotOk, WatchesOk, Assigned, Agrees, DistinctMids;
  }

  lemma SlotStreams(shape: Shape, peers: map<PeerId, PeerState>)
    requires SlotsOk(shape, peers)
    ensures StreamsOk(peers)
  {
    hide StreamInv;
    forall id, i: nat, media | At(peers, id, i, media) ensures StreamInv(HalfAt(peers, id, i, media).stream) {
      assert SlotOk(shape, peers[id].board.slots[i]);
    }
  }

  lemma SafeStreams(peers: map<PeerId, PeerState>)
    requires Safe(peers)
    ensures StreamsOk(peers)
  {
    SafeSlots(peers);
    SlotStreams(Paired, peers);
  }

  lemma KeepEvolves(a: map<PeerId, PeerState>, b: map<PeerId, PeerState>)
    requires PeersKeep(a, b)
    ensures HalvesEvolve(a, b)
  {
    hide HalfEvolves, BoardOk, Agrees;
    forall id, i: nat, media | At(b, id, i, media)
      ensures At(a, id, i, media) && HalfEvolves(HalfAt(a, id, i, media), HalfAt(b, id, i, media))
    {
      assert SlotEvolves(a[id].board.slots[i], b[id].board.slots[i]);
    }
  }

  lemma EvolveTransitive(a: map<PeerId, PeerState>, b: map<PeerId, PeerState>, c: map<PeerId, PeerState>)
    requires HalvesEvolve(a, b) && HalvesEvolve(b, c)
    ensures HalvesEvolve(a, c)
  {
  }

  /** Whatever the bindings do, targets that were snapshotted stay good. */
  lemma EvolveKeepsSplicers(r: Router, peers: map<PeerId, PeerState>)
    requires SplicersOk(r) && HalvesEvolve(r.peers, peers) && StreamsOk(peers)
    ensures SplicersOk(r.(peers := peers))
  {
    hide StreamInv, HalfEvolves, FlightOn, Owned;
    var n := r.(peers := peers);
    forall id, i: nat, media | At(peers, id, i, media)
      ensures HalfAt(peers, id, i, media).rewriter == HalfAt(r.peers, id, i, media).rewriter
      ensures Owned(HalfAt(peers, id, i, media).stream)
      ensures Make(HalfAt(peers, id, i, media).stream) == (ClockRate(media), DefaultStep(media))
      ensures forall f :: FlightOn(f, HalfAt(r.peers, id, i, media).stream) ==> FlightOn(f, HalfAt(peers, id, i, media).stream)
    {
      SameRewriter(HalfAt(r.peers, id, i, media), HalfAt(peers, id, i, media));
    }
  }

  lemma SameRewriter(a: Half, b: Half)
    requires HalfEvolves(a, b)
    ensures a.rewriter == b.rewriter && Make(a.stream) == Make(b.stream)
    ensures Owned(a.stream) ==> Owned(b.stream)
    ensures forall f :: FlightOn(f, a.stream) ==> FlightOn(f, b.stream)
  {
  }

  // ---------------------------------------------------------------- every step

  ghost predicate Inv(r: Router)
  {
    && Safe(r.peers) && SplicersOk(r)
    && (r.pending.None? ==> WorkConserving(r.peers, r.expired))
  }

  predicate SameSplicers(a: Router, b: Router)
  {
    b.nextRewriter == a.nextRewriter && b.orphans == a.orphans && b.flights == a.flights
  }

  lemma SplicersFollow(a: Router, b: Router)
    requires SplicersOk(a) && SameSplicers(a, b) && Safe(b.peers) && HalvesEvolve(a.peers, b.peers)
    ensures SplicersOk(b)
  {
    SafeStreams(b.peers);
    EvolveKeepsSplicers(a, b.peers);
    var n := a.(peers := b.peers);
    hide StreamInv, Owned, FlightOn;
    assert HalvesOk(b) && HeldOnce(b.peers) && OrphansOk(b) && FlightsOk(b) by {
      assert HalvesOk(n) && HeldOnce(n.peers) && OrphansOk(n) && FlightsOk(n);
    }
  }

  /** A change of bindings that ends with handing out free slots. */
  lemma AssignAllInv(a: Router, b: Router)
    requires SplicersOk(a) && SameSplicers(a, b) && Safe(b.peers) && HalvesEvolve(a.peers, b.peers)
    ensures Inv(AssignAll(b))
  {
    hide Safe, WorkConserving, SplicersOk, PeersKeep, HalvesEvolve, AssignPeers;
    AssignPeersSafe(b.peers, b.expired);
    KeepEvolves(b.peers, AssignAll(b).peers);
    EvolveTransitive(a.peers, b.peers, AssignAll(b).peers);
    SplicersFollow(a, AssignAll(b));
  }

  lemma SameBoardsEvolve(a: map<PeerId, PeerState>, b: map<PeerId, PeerState>)
    requires forall id :: id in b ==> b[id].board.slots == [] || (id in a && b[id].board == a[id].board)
    ensures HalvesEvolve(a, b)
  {
    forall id, i: nat, media | At(b, id, i, media)
      ensures At(a, id, i, media) && HalfEvolves(HalfAt(a, id, i, media), HalfAt(b, id, i, media))
    {
      assert b[id].board == a[id].board;
    }
  }

  lemma NewPeerOk(order: nat)
    ensures PeerOk(NewPeer(order)) && Assigned(NewPeer(order).board.slots) == {}
  {
  }

  lemma WithPeerSafe(r: Router, id: PeerId)
    requires Safe(r.peers)
    ensures var n := WithPeer(r, id); Safe(n.peers) && HalvesEvolve(r.peers, n.peers)
  {
    hide PeerOk, Assigned, HalvesEvolve;
    var n := WithPeer(r, id);
    NewPeerOk(r.nextPeerOrder);
    SameBoardsEvolve(r.peers, n.peers);
    forall other | other in n.peers
      ensures PeerOk(n.peers[other]) && Assigned(n.peers[other].board.slots) <= Allowed(n.peers, other)
    {
      if other in r.peers {
        assert Allowed(r.peers, other) <= Allowed(n.peers, other);
      }
    }
  }

  lemma WithPeerConserving(r: Router, id: PeerId)
    requires WorkConserving(r.peers, r.expired)
    ensures WorkConserving(WithPeer(r, id).peers, r.expired)
  {
    var n := WithPeer(r, id);
    forall other | other in n.peers
      ensures Conserving(Paired, n.peers[other].board.slots, Due(n.peers, r.expired, other), r.expired)
    {
      if other in r.peers {
        assert Due(n.peers, r.expired, other) <= Due(r.peers, r.expired, other);
      }
    }
  }

  lemma WithPeerInv(r: Router, id: PeerId)
    requires Inv(r)
    ensures Inv(WithPeer(r, id)) && HalvesEvolve(r.peers, WithPeer(r, id).peers)
  {
    hide Safe, WorkConserving, SplicersOk, HalvesEvolve;
    WithPeerSafe(r, id);
    if r.pending.None? {
      WithPeerConserving(r, id);
    }
    SplicersFollow(r, WithPeer(r, id));
  }

  lemma RegisterInputInv(r: Router, owner: PeerId, track: TrackId, media: Media)
    requires Inv(r)
    ensures Inv(RegisterInput(r, owner, track, media))
  {
    hide PeerOk, Assigned, SplicersOk, HalvesEvolve, PeersKeep, AssignAll, RestartPeers, WorkConserving;
    if !r.closed {
      WithPeerInv(r, owner);
      var known := WithPeer(r, owner);
      var peers := known.peers[owner := WithInput(known.peers[owner], media, track)];
      assert Safe(peers) by {
        forall id | id in peers
          ensures PeerOk(peers[id]) && Assigned(peers[id].board.slots) <= Allowed(peers, id)
        {
          SamePeerOk(known.peers[id], peers[id]);
          assert Allowed(known.peers, id) == Allowed(peers, id);
        }
      }
      SameBoardsEvolve(known.peers, peers);
      RestartPeersSafe(peers, owner, media);
      KeepEvolves(peers, RestartPeers(peers, owner, media));
      EvolveTransitive(known.peers, peers, RestartPeers(peers, owner, media));
      AssignAllInv(known, known.(peers := peers));
      AssignAllInv(known, known.(peers := RestartPeers(peers, owner, media)));
    }
  }

  lemma SamePeerOk(a: PeerState, b: PeerState)
    requires PeerOk(a) && b.board == a.board && b.watched == a.watched && b.nextWatchOrder == a.nextWatchOrder && b.published == a.published
    ensures PeerOk(b)
  {
  }

  lemma SetStreamingInv(r: Router, id: PeerId, streaming: bool)
    requires Inv(r)
    ensures Inv(SetStreaming(r, id, streaming))
  {
    hide PeerOk, Assigned, SplicersOk, HalvesEvolve, PeersKeep, AssignAll, ClearPeers, WorkConserving;
    if !r.closed {
      WithPeerInv(r, id);
      var known := WithPeer(r, id);
      if known.peers[id].streaming != streaming {
        var peers := known.peers[id := known.peers[id].(streaming := streaming)];
        forall other | other in peers
          ensures PeerOk(peers[other])
          ensures Assigned(peers[other].board.slots) <= Allowed(peers, other) + (if streaming then {} else {id})
        {
          SamePeerOk(known.peers[other], peers[other]);
          assert Allowed(known.peers, other) <= Allowed(peers, other) + (if streaming then {} else {id});
        }
        SameBoardsEvolve(known.peers, peers);
        if streaming {
          AssignAllInv(known, known.(peers := peers));
        } else {
          ClearPeersSafe(peers, id);
          KeepEvolves(peers, ClearPeers(peers, id));
          EvolveTransitive(known.peers, peers, ClearPeers(peers, id));
          AssignAllInv(known, known.(peers := ClearPeers(peers, id)));
        }
      }
    }
  }

  lemma WatchAdded(watched: map<PeerId, nat>, next: nat, p: PeerId)
    requires WatchesOk(watched, next) && p !in watched
    ensures WatchesOk(watched[p := next], next + 1)
  {
  }

  lemma WatchDropped(watched: map<PeerId, nat>, next: nat, p: PeerId)
    requires WatchesOk(watched, next)
    ensures WatchesOk(watched - {p}, next)
  {
  }

  lemma WatchInv(r: Router, id: PeerId, publisher: PeerId)
    requires Inv(r) && id in r.peers && publisher !in r.peers[id].watched
    ensures var peer := r.peers[id];
            Inv(AssignAll(r.(peers := r.peers[id := peer.(
              watched := peer.watched[publisher := peer.nextWatchOrder],
              nextWatchOrder := peer.nextWatchOrder + 1)])))
  {
    hide BoardOk, WatchesOk, Assigned, SplicersOk, HalvesEvolve, AssignAll, WorkConserving;
    var peer := r.peers[id];
    var next := peer.(watched := peer.watched[publisher := peer.nextWatchOrder], nextWatchOrder := peer.nextWatchOrder + 1);
    var peers := r.peers[id := next];
    WatchAdded(peer.watched, peer.nextWatchOrder, publisher);
    assert Safe(peers) by {
      forall other | other in peers
        ensures PeerOk(peers[other]) && Assigned(peers[other].board.slots) <= Allowed(peers, other)
      {
        assert Allowed(r.peers, other) <= Allowed(peers, other);
      }
    }
    SameBoardsEvolve(r.peers, peers);
    AssignAllInv(r, r.(peers := peers));
  }

  lemma UnwatchInv(r: Router, id: PeerId, publisher: PeerId)
    requires Inv(r) && id in r.peers
    ensures Inv(AssignAll(r.(peers := r.peers[id := ForgetWatch(r.peers[id], publisher)])))
  {
    hide BoardOk, WatchesOk, Assigned, SplicersOk, HalvesEvolve, AssignAll, ClearFrom, WorkConserving, Keeps;
    var peers := r.peers[id := ForgetWatch(r.peers[id], publisher)];
    ForgetWatchOk(r.peers[id], publisher);
    assert Safe(peers) by {
      forall other | other in peers
        ensures PeerOk(peers[other]) && Assigned(peers[other].board.slots) <= Allowed(peers, other)
      {
        assert Allowed(r.peers, other) <= Allowed(peers, other) + (if other == id then {publisher} else {});
      }
    }
    OneBoardEvolves(r.peers, id, peers);
    AssignAllInv(r, r.(peers := peers));
  }

  lemma ForgetWatchOk(peer: PeerState, p: PeerId)
    requires PeerOk(peer)
    ensures var n := ForgetWatch(peer, p);
            && PeerOk(n) && Keeps(Paired, peer.board, n.board)
            && Assigned(n.board.slots) == Assigned(peer.board.slots) - {p}
  {
    hide BoardOk, WatchesOk, Assigned, ClearFrom, Keeps;
    var n := ForgetWatch(peer, p);
    WatchDropped(peer.watched, peer.nextWatchOrder, p);
    ClearFromKeeps(Paired, peer.board, p, 0);
    KeepsOk(Paired, peer.board, n.board);
    AssignedAfterClear(peer.board.slots, n.board.slots, p);
  }

  lemma SetWatchingInv(r: Router, id: PeerId, publisher: PeerId, watching: bool)
    requires Inv(r)
    ensures Inv(SetWatching(r, id, publisher, watching))
  {
    hide Inv, AssignAll, ClearFrom;
    if id != publisher && !r.closed {
      WithPeerInv(r, id);
      var known := WithPeer(r, id);
      if watching && publisher !in known.peers[id].watched {
        WatchInv(known, id, publisher);
      } else if !watching {
        UnwatchInv(known, id, publisher);
      }
    }
  }

  lemma OneBoardEvolves(a: map<PeerId, PeerState>, id: PeerId, b: map<PeerId, PeerState>)
    requires id in a && a.Keys == b.Keys && Keeps(Paired, a[id].board, b[id].board)
    requires forall other :: other in a && other != id ==> b[other].board == a[other].board
    ensures HalvesEvolve(a, b)
  {
    hide BoardOk, Agrees;
    forall other, i: nat, media | At(b, other, i, media)
      ensures At(a, other, i, media) && HalfEvolves(HalfAt(a, other, i, media), HalfAt(b, other, i, media))
    {
      if other == id {
        assert SlotEvolves(a[id].board.slots[i], b[id].board.slots[i]);
      } else {
        SelfEvolves(a[other].board.slots[i]);
      }
    }
  }

  // ---------------------------------------------------------------- peers that leave

  lemma OrphanOf(peers: map<PeerId, PeerState>, rewriter: nat) returns (id: PeerId, i: nat, media: Media)
    requires Held(peers, rewriter)
    ensures Holds(peers, id, i, media, rewriter) && StreamOf(peers, rewriter) == HalfAt(peers, id, i, media).stream
  {
    id, i, media :| Holds(peers, id, i, media, rewriter) && StreamOf(peers, rewriter) == HalfAt(peers, id, i, media).stream;
  }

  ghost predicate Part(peers: map<PeerId, PeerState>, part: map<PeerId, PeerState>)
  {
    forall id :: id in part ==> id in peers && part[id] == peers[id]
  }

  lemma GoneStream(r: Router, leaving: map<PeerId, PeerState>, k: nat)
    requires SplicersOk(r) && Part(r.peers, leaving) && k in Orphaned(leaving, r.nextRewriter)
    ensures var s := Orphaned(leaving, r.nextRewriter)[k];
            && k < r.nextRewriter && StreamInv(s) && Owned(s)
            && forall f :: f in r.flights && f.rewriter == k ==> FlightOn(f, s)
  {
    hide StreamInv, Owned, FlightOn;
    var id, i, media := OrphanOf(leaving, k);
    assert At(r.peers, id, i, media) && Holds(r.peers, id, i, media, k);
    assert HalfAt(r.peers, id, i, media) == HalfAt(leaving, id, i, media);
  }

  lemma StayingElsewhere(r: Router, leaving: map<PeerId, PeerState>, staying: map<PeerId, PeerState>, id: PeerId, i: nat, media: Media)
    requires HeldOnce(r.peers) && Part(r.peers, leaving) && Part(r.peers, staying) && leaving.Keys !! staying.Keys
    requires At(staying, id, i, media)
    ensures HalfAt(staying, id, i, media).rewriter !in Orphaned(leaving, r.nextRewriter)
    ensures At(r.peers, id, i, media) && HalfAt(r.peers, id, i, media) == HalfAt(staying, id, i, media)
  {
    var k := HalfAt(staying, id, i, media).rewriter;
    if k in Orphaned(leaving, r.nextRewriter) {
      var id', i', media' := OrphanOf(leaving, k);
      ApartRewriters(r.peers, leaving, staying, id', i', media', id, i, media);
      assert false;
    }
  }

  lemma ApartRewriters(
    peers: map<PeerId, PeerState>, leaving: map<PeerId, PeerState>, staying: map<PeerId, PeerState>,
    id': PeerId, i': nat, media': Media, id: PeerId, i: nat, media: Media)
    requires HeldOnce(peers) && Part(peers, leaving) && Part(peers, staying) && leaving.Keys !! staying.Keys
    requires At(leaving, id', i', media') && At(staying, id, i, media)
    ensures HalfAt(leaving, id', i', media').rewriter != HalfAt(staying, id, i, media).rewriter
  {
    assert At(peers, id', i', media') && HalfAt(peers, id', i', media') == HalfAt(leaving, id', i', media');
    assert At(peers, id, i, media) && HalfAt(peers, id, i, media) == HalfAt(staying, id, i, media);
  }

  /** Splicers of leaving peers become orphans; targets that hold them stay good. */
  lemma LeavingKeepsSplicers(r: Router, leaving: map<PeerId, PeerState>, staying: map<PeerId, PeerState>)
    requires SplicersOk(r)
    requires Part(r.peers, leaving) && Part(r.peers, staying) && leaving.Keys !! staying.Keys
    ensures SplicersOk(r.(peers := staying, orphans := r.orphans + Orphaned(leaving, r.nextRewriter)))
  {
    hide StreamInv, Owned, FlightOn, Orphaned;
    var gone := Orphaned(leaving, r.nextRewriter);
    var n := r.(peers := staying, orphans := r.orphans + gone);
    forall id, i: nat, media | At(staying, id, i, media)
      ensures HalfAt(staying, id, i, media).rewriter !in gone
      ensures At(r.peers, id, i, media) && HalfAt(r.peers, id, i, media) == HalfAt(staying, id, i, media)
    {
      StayingElsewhere(r, leaving, staying, id, i, media);
    }
    forall k | k in gone
      ensures k < r.nextRewriter && StreamInv(gone[k]) && Owned(gone[k])
      ensures forall f :: f in r.flights && f.rewriter == k ==> FlightOn(f, gone[k])
    {
      GoneStream(r, leaving, k);
    }
    LeavingFlights(r, gone, staying);
  }

  lemma LeavingFlights(r: Router, gone: map<nat, LiveStream>, staying: map<PeerId, PeerState>)
    requires FlightsOk(r)
    requires forall id, i: nat, media :: At(staying, id, i, media) ==>
               At(r.peers, id, i, media) && HalfAt(r.peers, id, i, media) == HalfAt(staying, id, i, media)
    requires forall k, f :: k in gone && f in r.flights && f.rewriter == k ==> FlightOn(f, gone[k])
    ensures FlightsOk(r.(peers := staying, orphans := r.orphans + gone))
  {
    hide FlightOn;
    forall f | f in r.flights
      ensures forall id, i: nat, media :: Holds(staying, id, i, media, f.rewriter) ==>
                media == f.media && FlightOn(f, HalfAt(staying, id, i, media).stream)
    {
      forall id, i: nat, media | Holds(staying, id, i, media, f.rewriter)
        ensures media == f.media && FlightOn(f, HalfAt(staying, id, i, media).stream)
      {
        assert Holds(r.peers, id, i, media, f.rewriter);
      }
    }
  }

  lemma RemovePeerInv(r: Router, id: PeerId)
    requires Inv(r)
    ensures Inv(RemovePeer(r, id))
  {
    hide PeerOk, Assigned, SplicersOk, HalvesEvolve, AssignAll, ForgetWatch, WorkConserving, Keeps, Orphaned;
    if !r.closed {
      var leaving := map other | other in r.peers && other == id :: r.peers[other];
      var rest := r.peers - {id};
      LeavingKeepsSplicers(r, leaving, rest);
      var left := r.(peers := rest, orphans := r.orphans + Orphaned(leaving, r.nextRewriter));
      var peers := map other | other in rest :: ForgetWatch(rest[other], id);
      forall other | other in rest
        ensures PeerOk(peers[other]) && Assigned(peers[other].board.slots) <= Allowed(peers, other)
        ensures Keeps(Paired, rest[other].board, peers[other].board)
      {
        ForgetWatchOk(rest[other], id);
        ForgetWatchProfile(r.peers, id, peers, other);
      }
      ForgettingEvolves(rest, id, peers);
      AssignAllInv(left, left.(peers := peers));
    }
  }

  lemma ForgetWatchProfile(peers: map<PeerId, PeerState>, id: PeerId, n: map<PeerId, PeerState>, other: PeerId)
    requires n.Keys == peers.Keys - {id} && other in n
    requires forall x :: x in n ==> n[x] == ForgetWatch(peers[x], id)
    ensures Allowed(peers, other) - {id} <= Allowed(n, other)
  {
    hide ClearFrom;
  }

  lemma ForgettingEvolves(rest: map<PeerId, PeerState>, id: PeerId, n: map<PeerId, PeerState>)
    requires n.Keys == rest.Keys && forall other :: other in rest ==> Keeps(Paired, rest[other].board, n[other].board)
    ensures HalvesEvolve(rest, n)
  {
    hide BoardOk, Agrees, HalfEvolves;
    forall other, i: nat, media | At(n, other, i, media)
      ensures At(rest, other, i, media) && HalfEvolves(HalfAt(rest, other, i, media), HalfAt(n, other, i, media))
    {
      assert SlotEvolves(rest[other].board.slots[i], n[other].board.slots[i]);
    }
  }

  lemma CloseInv(r: Router)
    requires Inv(r)
    ensures Inv(r.(closed := true, peers := map[], orphans := r.orphans + Orphaned(r.peers, r.nextRewriter)))
  {
    hide Orphaned;
    LeavingKeepsSplicers(r, r.peers, map[]);
    SameSplicersOk(r.(peers := map[], orphans := r.orphans + Orphaned(r.peers, r.nextRewriter)),
                   r.(closed := true, peers := map[], orphans := r.orphans + Orphaned(r.peers, r.nextRewriter)));
  }

  lemma SameSplicersOk(a: Router, b: Router)
    requires SplicersOk(a) && SameSplicers(a, b) && a.peers == b.peers
    ensures SplicersOk(b)
  {
    hide StreamInv, Owned, FlightOn;
    assert HalvesOk(a) && HeldOnce(a.peers) && OrphansOk(a) && FlightsOk(a);
  }

  // ---------------------------------------------------------------- packets and tracks

  lemma ExpireInv(r: Router, track: TrackId)
    requires Inv(r)
    ensures Inv(r.(expired := r.expired + {track}))
  {
    var n := r.(expired := r.expired + {track});
    SameSplicersOk(r, n);
    if r.pending.None? {
      hide Safe, SplicersOk, Assigned;
      forall id | id in n.peers
        ensures Conserving(Paired, n.peers[id].board.slots, Due(n.peers, n.expired, id), n.expired)
      {
        assert Due(n.peers, n.expired, id) <= Due(r.peers, r.expired, id);
        assert forall i :: 0 <= i < |n.peers[id].board.slots| ==>
          (Free(Paired, n.peers[id].board.slots[i], n.expired) ==> Free(Paired, r.peers[id].board.slots[i], r.expired));
      }
    }
  }

  lemma TargetIsGood(shape: Shape, r: Router, publisher: PeerId, media: Media, f: Flight)
    requires SlotsOk(shape, r.peers) && SplicersOk(r) && f in Targets(r.peers, publisher, media)
    ensures f.rewriter < r.nextRewriter && f.rewriter !in r.orphans
    ensures forall id, i: nat, media' :: Holds(r.peers, id, i, media', f.rewriter) ==>
              media' == f.media && FlightOn(f, HalfAt(r.peers, id, i, media').stream)
  {
    hide StreamInv, Owned, Make, ClockRate;
    var id, i :| id in r.peers && 0 <= i < |r.peers[id].board.slots|
                && r.peers[id].board.slots[i].publisher == Some(publisher)
                && HalfOf(r.peers[id].board.slots[i], media).Some?
                && HalfOf(r.peers[id].board.slots[i], media).value.ready
                && (var h := HalfOf(r.peers[id].board.slots[i], media).value;
                    f == Flight(publisher, media, h.rewriter, h.sourceGeneration));
    assert At(r.peers, id, i, media);
    assert SlotOk(shape, r.peers[id].board.slots[i]);
  }

  /** Targets are good at the moment they are snapshotted. */
  lemma TargetsKeepSplicers(shape: Shape, r: Router, publisher: PeerId, media: Media)
    requires SlotsOk(shape, r.peers) && SplicersOk(r)
    ensures SplicersOk(r.(flights := r.flights + Targets(r.peers, publisher, media)))
  {
    hide StreamInv, Owned, FlightOn, Targets, SlotsOk, Make, ClockRate;
    var n := r.(flights := r.flights + Targets(r.peers, publisher, media));
    forall f | f in Targets(r.peers, publisher, media)
      ensures f.rewriter < r.nextRewriter && f.rewriter !in r.orphans
      ensures forall id, i: nat, media' :: Holds(r.peers, id, i, media', f.rewriter) ==>
                media' == f.media && FlightOn(f, HalfAt(r.peers, id, i, media').stream)
    {
      TargetIsGood(shape, r, publisher, media, f);
    }
    assert FlightsOk(n);
  }

  lemma RouteInv(r: Router, publisher: PeerId, media: Media, expected: TrackId)
    requires Inv(r)
    ensures Inv(Route(r, publisher, media, expected))
  {
    hide Safe, SplicersOk, SlotsOk, Targets, WorkConserving;
    SafeSlots(r.peers);
    TargetsKeepSplicers(Paired, r, publisher, media);
    assert r.(flights := r.flights + {}) == r;
  }

  /** A half after one more packet. */
  lemma DeliverHalfOk(h: Half, publisher: Option<PeerId>, f: Flight, input: Numbers)
    requires StreamInv(h.stream)
    ensures var n := DeliverHalf(Some(h), f, input).value;
            && StreamInv(n.stream) && Make(n.stream) == Make(h.stream)
            && n == h.(stream := n.stream)
            && (HalfOk(h, publisher) ==> HalfOk(n, publisher))
            && (forall g :: FlightOn(g, h.stream) ==> FlightOn(g, n.stream))
            && (Owned(h.stream) && (h.rewriter == f.rewriter ==> FlightOn(f, h.stream)) ==> Owned(n.stream))
  {
    hide StreamInv, StreamStep;
    if h.rewriter == f.rewriter {
      PacketOwners(h.stream, f.generation, input);
      PacketOwned(h.stream, f, input);
    }
  }

  lemma PacketOwned(s: Stream, f: Flight, input: Numbers)
    requires StreamInv(s)
    ensures Owned(s) && FlightOn(f, s) ==> Owned(StreamStep(s, Packet(f.generation, input)))
  {
    hide StreamInv, StreamStep;
    PacketOwners(s, f.generation, input);
    var r := StreamStep(s, Packet(f.generation, input));
    if Owned(s) && FlightOn(f, s) && r != s {
      forall k | 0 <= k < |r.log| ensures r.log[k].generation in r.owners {
        assert k < |s.log| ==> r.log[k] == r.log[..|s.log|][k] == s.log[k];
      }
    }
  }

  lemma DeliverBoardOk(shape: Shape, b: Board, f: Flight, input: Numbers)
    requires BoardOk(shape, b)
    ensures BoardOk(shape, DeliverBoard(b, f, input)) && Assigned(DeliverBoard(b, f, input).slots) == Assigned(b.slots)
    ensures forall i, expired :: 0 <= i < |b.slots| ==>
              (Free(shape, DeliverBoard(b, f, input).slots[i], expired) <==> Free(shape, b.slots[i], expired))
  {
    hide HalfOk, StreamInv, StreamStep, DeliverHalf;
    var n := DeliverBoard(b, f, input);
    forall i | 0 <= i < |b.slots|
      ensures SlotOk(shape, n.slots[i]) && n.slots[i].publisher == b.slots[i].publisher
      ensures forall expired :: Free(shape, n.slots[i], expired) <==> Free(shape, b.slots[i], expired)
    {
      assert SlotOk(shape, b.slots[i]);
      DeliverSlotOk(shape, b.slots[i], f, input);
    }
    SameAssigned(b.slots, n.slots);
    DeliverQuiet(b, f, input);
    QuietAgrees(b, n);
  }

  lemma DeliverQuiet(b: Board, f: Flight, input: Numbers)
    ensures QuietBoard(b, DeliverBoard(b, f, input))
  {
    hide StreamStep;
  }

  lemma DeliverSlotOk(shape: Shape, slot: Slot, f: Flight, input: Numbers)
    requires SlotOk(shape, slot)
    ensures var n := DeliverSlot(slot, f, input);
            && SlotOk(shape, n) && n.publisher == slot.publisher
            && forall expired :: Free(shape, n, expired) <==> Free(shape, slot, expired)
  {
    hide StreamInv, StreamStep;
    if slot.video.Some? {
      DeliverHalfOk(slot.video.value, slot.publisher, f, input);
    }
    if slot.audio.Some? {
      DeliverHalfOk(slot.audio.value, slot.publisher, f, input);
    }
  }

  lemma DeliverSafe(r: Router, f: Flight, input: Numbers)
    requires Inv(r)
    ensures var n := Deliver(r, f, input);
            Safe(n.peers) && (r.pending.None? ==> WorkConserving(n.peers, n.expired))
  {
    hide BoardOk, WatchesOk, SplicersOk, DeliverBoard, Assigned, Free;
    var n := Deliver(r, f, input);
    forall id | id in r.peers
      ensures BoardOk(Paired, n.peers[id].board) && Assigned(n.peers[id].board.slots) == Assigned(r.peers[id].board.slots)
      ensures |n.peers[id].board.slots| == |r.peers[id].board.slots| && n.peers[id].board.notices == r.peers[id].board.notices
      ensures forall i, expired :: 0 <= i < |r.peers[id].board.slots| ==>
                (Free(Paired, n.peers[id].board.slots[i], expired) <==> Free(Paired, r.peers[id].board.slots[i], expired))
    {
      DeliverBoardOk(Paired, r.peers[id].board, f, input);
      DeliverBoardSize(r.peers[id].board, f, input);
    }
    ProfilesDecide(r.peers, n.peers, r.expired);
  }

  lemma DeliverBoardSize(b: Board, f: Flight, input: Numbers)
    ensures |DeliverBoard(b, f, input).slots| == |b.slots| && DeliverBoard(b, f, input).notices == b.notices
  {
  }

  lemma DeliverAt(r: Router, f: Flight, input: Numbers, id: PeerId, i: nat, media: Media)
    requires SplicersOk(r) && f in r.flights && At(Deliver(r, f, input).peers, id, i, media)
    ensures At(r.peers, id, i, media)
    ensures var h, n := HalfAt(r.peers, id, i, media), HalfAt(Deliver(r, f, input).peers, id, i, media);
            && n.rewriter == h.rewriter && StreamInv(n.stream) && Owned(n.stream)
            && Make(n.stream) == Make(h.stream)
            && forall g :: FlightOn(g, h.stream) ==> FlightOn(g, n.stream)
  {
    hide StreamInv, StreamStep, Owned, FlightOn, PeerOk;
    assert At(r.peers, id, i, media);
    var h := HalfAt(r.peers, id, i, media);
    DeliverHalfOk(h, None, f, input);
    assert h.rewriter == f.rewriter ==> Holds(r.peers, id, i, media, f.rewriter);
  }

  lemma DeliverInv(r: Router, f: Flight, input: Numbers)
    requires Inv(r) && f in r.flights
    ensures Inv(Deliver(r, f, input))
  {
    hide Safe, SplicersOk, WorkConserving, DeliverBoard, StreamStep;
    DeliverSafe(r, f, input);
    DeliverKeepsSplicers(r, f, input);
  }

  lemma DeliverKeepsSplicers(r: Router, f: Flight, input: Numbers)
    requires SplicersOk(r) && f in r.flights
    ensures SplicersOk(Deliver(r, f, input))
  {
    hide StreamInv, StreamStep, Owned, FlightOn;
    var n := Deliver(r, f, input);
    forall id, i: nat, media | At(n.peers, id, i, media)
      ensures At(r.peers, id, i, media)
      ensures var h, m := HalfAt(r.peers, id, i, media), HalfAt(n.peers, id, i, media);
              && m.rewriter == h.rewriter && StreamInv(m.stream) && Owned(m.stream)
              && Make(m.stream) == Make(h.stream)
              && forall g :: FlightOn(g, h.stream) ==> FlightOn(g, m.stream)
    {
      DeliverAt(r, f, input, id, i, media);
    }
    if f.rewriter in r.orphans {
      DeliverOrphan(r.orphans[f.rewriter], f, input);
    }
    DeliverFlights(r, n);
  }

  lemma DeliverOrphan(s: Stream, f: Flight, input: Numbers)
    requires StreamInv(s) && FlightOn(f, s)
    ensures var n := StreamStep(s, Packet(f.generation, input));
            && StreamInv(n) && (Owned(s) ==> Owned(n))
            && forall g :: FlightOn(g, s) ==> FlightOn(g, n)
  {
    hide StreamInv, StreamStep;
    PacketOwners(s, f.generation, input);
    PacketOwned(s, f, input);
  }

  lemma DeliverFlights(r: Router, n: Router)
    requires FlightsOk(r) && n.flights == r.flights && n.nextRewriter == r.nextRewriter && n.orphans.Keys == r.orphans.Keys
    requires forall id, i: nat, media :: At(n.peers, id, i, media) ==>
               && At(r.peers, id, i, media)
               && HalfAt(n.peers, id, i, media).rewriter == HalfAt(r.peers, id, i, media).rewriter
               && forall g :: FlightOn(g, HalfAt(r.peers, id, i, media).stream) ==> FlightOn(g, HalfAt(n.peers, id, i, media).stream)
    requires forall k, g :: k in r.orphans && FlightOn(g, r.orphans[k]) ==> FlightOn(g, n.orphans[k])
    ensures FlightsOk(n)
  {
    hide FlightOn;
    forall f | f in n.flights
      ensures forall id, i: nat, media :: Holds(n.peers, id, i, media, f.rewriter) ==>
                media == f.media && FlightOn(f, HalfAt(n.peers, id, i, media).stream)
    {
      forall id, i: nat, media | Holds(n.peers, id, i, media, f.rewriter)
        ensures media == f.media && FlightOn(f, HalfAt(n.peers, id, i, media).stream)
      {
        assert Holds(r.peers, id, i, media, f.rewriter);
      }
    }
  }

  // ---------------------------------------------------------------- new output tracks

  lemma FreshHalfOk(mid: Mid, track: TrackId, rewriter: nat, media: Media)
    ensures var h := NewHalf(mid, track, rewriter, media);
            HalfOk(h, None) && Owned(h.stream) && Make(h.stream) == (ClockRate(media), DefaultStep(media))
  {
  }

  lemma ClearedPairKeeps(shape: Shape, b: Board, i: nat)
    requires i <= |b.slots| && BoardOk(shape, b)
    ensures var n := ClearedPair(b, i);
            && i < |n.slots| && BoardOk(shape, n) && n.slots[i].publisher.None?
            && Assigned(n.slots) <= Assigned(b.slots) && b.notices <= n.notices
            && (forall j :: 0 <= j < |b.slots| && j != i ==> n.slots[j] == b.slots[j])
            && (i < |b.slots| ==> |n.slots| == |b.slots| && SlotEvolves(b.slots[i], n.slots[i]))
            && (i == |b.slots| ==> n.slots == b.slots + [EMPTY_SLOT] && n.notices == b.notices)
  {
    hide SlotOk, HalfEvolves, ClearAt;
    var n := ClearedPair(b, i);
    if i < |b.slots| {
      ClearAtKeeps(shape, b, i);
      KeepsOk(shape, b, n);
    } else {
      EmptySlotOk(shape);
      assert QuietBoard(b, n);
      QuietAgrees(b, n);
    }
    forall q | q in Assigned(n.slots) ensures q in Assigned(b.slots) {
      var j :| 0 <= j < |n.slots| && n.slots[j].publisher.Some? && n.slots[j].publisher.value == q;
      assert b.slots[j].publisher.value == q;
    }
  }

  lemma EmptySlotOk(shape: Shape)
    ensures SlotOk(shape, EMPTY_SLOT)
  {
  }

  lemma ReplaceHalfOk(shape: Shape, b: Board, i: nat, media: Media, h: Half)
    requires BoardOk(shape, b) && i < |b.slots| && b.slots[i].publisher.None? && HalfOk(h, None)
    requires shape.Single? ==> media.Audio?
    requires KeepsMid(HalfOf(b.slots[i], media), Some(h))
    ensures var n := b.(slots := b.slots[i := WithHalf(b.slots[i], media, Some(h))]);
            BoardOk(shape, n) && Assigned(n.slots) == Assigned(b.slots)
  {
    hide HalfOk;
    var n := b.(slots := b.slots[i := WithHalf(b.slots[i], media, Some(h))]);
    forall j | 0 <= j < |n.slots| ensures SlotOk(shape, n.slots[j]) {
      assert SlotOk(shape, b.slots[j]);
    }
    SameAssigned(b.slots, n.slots);
    assert QuietBoard(b, n);
    QuietAgrees(b, n);
  }

  lemma OneBoardSafe(peers: map<PeerId, PeerState>, id: PeerId, board: Board)
    requires Safe(peers) && id in peers && BoardOk(Paired, board)
    requires Assigned(board.slots) <= Assigned(peers[id].board.slots) && peers[id].board.notices <= board.notices
    ensures Safe(peers[id := peers[id].(board := board)])
  {
    hide BoardOk, WatchesOk, Assigned;
    var n := peers[id := peers[id].(board := board)];
    forall other | other in n ensures PeerOk(n[other]) && Assigned(n[other].board.slots) <= Allowed(n, other) {
      assert PeerOk(peers[other]) && Allowed(n, other) == Allowed(peers, other);
    }
  }

  /** The first critical section of `register_output`. Work conservation waits for the second. */
  lemma RegisterOutputSafe(r: Router, owner: PeerId, mid: Mid, media: Media, track: TrackId)
    requires Inv(r) && !r.closed
    ensures Safe(RegisterOutputBegin(r, owner, mid, media, track).peers)
  {
    hide BoardOk, Assigned, ClearedPair, PairFor, NewHalf, Safe, SplicersOk, HalvesEvolve, WorkConserving, WithHalf, HalfOf, HalfOrphan;
    WithPeerInv(r, owner);
    var known := WithPeer(r, owner);
    var b := known.peers[owner].board;
    var i := PairFor(b.slots, mid, media);
    KnownBoardOk(known.peers, owner);
    NewPairOk(b, i, mid, track, r.nextRewriter, media);
    var c := ClearedPair(b, i);
    OneBoardSafe(known.peers, owner, c.(slots := c.slots[i := WithHalf(c.slots[i], media, Some(NewHalf(mid, track, r.nextRewriter, media)))]));
  }

  lemma KnownBoardOk(peers: map<PeerId, PeerState>, id: PeerId)
    requires Safe(peers) && id in peers
    ensures BoardOk(Paired, peers[id].board)
  {
    hide BoardOk, WatchesOk, Assigned;
    assert PeerOk(peers[id]);
  }

  lemma NewPairOk(b: Board, i: nat, mid: Mid, track: TrackId, rewriter: nat, media: Media)
    requires BoardOk(Paired, b) && i == PairFor(b.slots, mid, media)
    ensures var c := ClearedPair(b, i);
            var n := c.(slots := c.slots[i := WithHalf(c.slots[i], media, Some(NewHalf(mid, track, rewriter, media)))]);
            BoardOk(Paired, n) && Assigned(n.slots) <= Assigned(b.slots) && b.notices <= n.notices
  {
    hide BoardOk, Assigned, ClearedPair, PairFor;
    ClearedPairKeeps(Paired, b, i);
    FreshHalfOk(mid, track, rewriter, media);
    assert KeepsMid(HalfOf(ClearedPair(b, i).slots[i], media), Some(NewHalf(mid, track, rewriter, media)));
    ReplaceHalfOk(Paired, ClearedPair(b, i), i, media, NewHalf(mid, track, rewriter, media));
  }

  /** Where the halves of the new state come from. */
  ghost predicate Replaces(a: map<PeerId, PeerState>, b: map<PeerId, PeerState>, owner: PeerId, i: nat, media: Media, newHalf: Half)
    ensures Replaces(a, b, owner, i, media, newHalf) ==> At(b, owner, i, media) && HalfAt(b, owner, i, media) == newHalf
  {
    && At(b, owner, i, media) && HalfAt(b, owner, i, media) == newHalf
    && forall id, j: nat, m :: At(b, id, j, m) && !(id == owner && j == i && m == media) ==>
         At(a, id, j, m) && HalfEvolves(HalfAt(a, id, j, m), HalfAt(b, id, j, m))
  }

  lemma RegisterOutputReplaces(r: Router, owner: PeerId, mid: Mid, media: Media, track: TrackId)
    requires Inv(r) && !r.closed
    ensures var known := WithPeer(r, owner);
            var slots := known.peers[owner].board.slots;
            var i := PairFor(slots, mid, media);
            && Replaces(known.peers, RegisterOutputBegin(r, owner, mid, media, track).peers, owner, i, media,
                        NewHalf(mid, track, r.nextRewriter, media))
            && (i < |slots| ==> OptionalEvolves(HalfOf(slots[i], media), HalfOf(ClearedPair(known.peers[owner].board, i).slots[i], media)))
            && (i == |slots| ==> HalfOf(ClearedPair(known.peers[owner].board, i).slots[i], media).None?)
  {
    hide BoardOk, WatchesOk, Assigned, ClearedPair, PairFor, NewHalf, SplicersOk, WorkConserving, HalfEvolves;
    WithPeerInv(r, owner);
    var known := WithPeer(r, owner);
    var peer := known.peers[owner];
    var i := PairFor(peer.board.slots, mid, media);
    ClearedPairKeeps(Paired, peer.board, i);
    var board := ClearedPair(peer.board, i);
    var n := RegisterOutputBegin(r, owner, mid, media, track).peers;
    forall id, j: nat, m | At(n, id, j, m) && !(id == owner && j == i && m == media)
      ensures At(known.peers, id, j, m) && HalfEvolves(HalfAt(known.peers, id, j, m), HalfAt(n, id, j, m))
    {
      if id != owner {
        SelfEvolves(known.peers[id].board.slots[j]);
      } else {
        assert HalfOf(n[id].board.slots[j], m) == HalfOf(board.slots[j], m);
        if j < |peer.board.slots| && j != i {
          SelfEvolves(peer.board.slots[j]);
        }
      }
    }
  }

  ghost predicate OrphanedHalf(r: Router, owner: PeerId, i: nat, media: Media, replaced: Option<Half>)
  {
    replaced.Some? ==>
      && At(r.peers, owner, i, media) && HalfEvolves(HalfAt(r.peers, owner, i, media), replaced.value)
      && StreamInv(replaced.value.stream)
  }

  lemma ReplacedIsGood(r: Router, owner: PeerId, i: nat, media: Media, h: Half)
    requires SplicersOk(r) && OrphanedHalf(r, owner, i, media, Some(h))
    ensures h.rewriter < r.nextRewriter && StreamInv(h.stream) && Owned(h.stream)
    ensures forall f :: f in r.flights && f.rewriter == h.rewriter ==> FlightOn(f, h.stream)
    ensures forall id, j: nat, m :: At(r.peers, id, j, m) && !(id == owner && j == i && m == media) ==>
              HalfAt(r.peers, id, j, m).rewriter != h.rewriter
  {
    hide StreamInv, Owned, FlightOn, HalfEvolves;
    SameRewriter(HalfAt(r.peers, owner, i, media), h);
    assert Holds(r.peers, owner, i, media, h.rewriter);
  }

  /** Every half but the new one continues a half of the old state. */
  ghost predicate Follows(r: Router, peers: map<PeerId, PeerState>, owner: PeerId, i: nat, media: Media)
  {
    forall id, j: nat, m :: At(peers, id, j, m) && !(id == owner && j == i && m == media) ==>
      && At(r.peers, id, j, m)
      && var h, g := HalfAt(r.peers, id, j, m), HalfAt(peers, id, j, m);
         && g.rewriter == h.rewriter && Owned(g.stream) && Make(g.stream) == (ClockRate(m), DefaultStep(m))
         && forall f :: FlightOn(f, h.stream) ==> FlightOn(f, g.stream)
  }

  lemma ReplacesFollows(r: Router, peers: map<PeerId, PeerState>, owner: PeerId, i: nat, media: Media, newHalf: Half)
    requires HalvesOk(r) && Replaces(r.peers, peers, owner, i, media, newHalf)
    ensures Follows(r, peers, owner, i, media)
  {
    hide StreamInv, Owned, FlightOn, HalfEvolves;
    forall id, j: nat, m | At(peers, id, j, m) && !(id == owner && j == i && m == media)
      ensures At(r.peers, id, j, m)
      ensures var h, g := HalfAt(r.peers, id, j, m), HalfAt(peers, id, j, m);
              && g.rewriter == h.rewriter && Owned(g.stream) && Make(g.stream) == (ClockRate(m), DefaultStep(m))
              && forall f :: FlightOn(f, h.stream) ==> FlightOn(f, g.stream)
    {
      assert HalfEvolves(HalfAt(r.peers, id, j, m), HalfAt(peers, id, j, m));
      SameRewriter(HalfAt(r.peers, id, j, m), HalfAt(peers, id, j, m));
    }
  }

  lemma FollowsHeldOnce(r: Router, peers: map<PeerId, PeerState>, owner: PeerId, i: nat, media: Media)
    requires HalvesOk(r) && HeldOnce(r.peers) && Follows(r, peers, owner, i, media)
    requires At(peers, owner, i, media) && HalfAt(peers, owner, i, media).rewriter == r.nextRewriter
    ensures HeldOnce(peers)
  {
    hide StreamInv, Owned, FlightOn;
  }

  lemma FollowsFlights(r: Router, peers: map<PeerId, PeerState>, owner: PeerId, i: nat, media: Media, f: Flight)
    requires FlightsOk(r) && Follows(r, peers, owner, i, media) && f in r.flights
    requires At(peers, owner, i, media) && HalfAt(peers, owner, i, media).rewriter == r.nextRewriter
    ensures forall id, j: nat, m :: Holds(peers, id, j, m, f.rewriter) ==>
              m == f.media && FlightOn(f, HalfAt(peers, id, j, m).stream)
  {
    hide StreamInv, Owned, FlightOn;
    forall id, j: nat, m | Holds(peers, id, j, m, f.rewriter)
      ensures m == f.media && FlightOn(f, HalfAt(peers, id, j, m).stream)
    {
      assert !(id == owner && j == i && m == media);
      assert Holds(r.peers, id, j, m, f.rewriter);
    }
  }

  lemma FollowsHalves(r: Router, peers: map<PeerId, PeerState>, owner: PeerId, i: nat, media: Media, replaced: Option<Half>)
    requires HalvesOk(r) && Follows(r, peers, owner, i, media) && StreamsOk(peers)
    requires At(peers, owner, i, media) && Owned(HalfAt(peers, owner, i, media).stream)
    requires HalfAt(peers, owner, i, media).rewriter == r.nextRewriter && r.nextRewriter !in r.orphans
    requires Make(HalfAt(peers, owner, i, media).stream) == (ClockRate(media), DefaultStep(media))
    requires replaced.Some? ==> replaced.value.rewriter < r.nextRewriter
    requires replaced.Some? ==> forall id, j: nat, m :: At(r.peers, id, j, m) && !(id == owner && j == i && m == media) ==>
               HalfAt(r.peers, id, j, m).rewriter != replaced.value.rewriter
    ensures HalvesOk(r.(peers := peers, nextRewriter := r.nextRewriter + 1, orphans := r.orphans + HalfOrphan(replaced)))
  {
    hide StreamInv, Owned, FlightOn, Make, ClockRate;
  }

  lemma ReplacedOrphan(r: Router, replaced: Option<Half>, peers: map<PeerId, PeerState>)
    requires OrphansOk(r)
    requires replaced.Some? ==>
               replaced.value.rewriter < r.nextRewriter && StreamInv(replaced.value.stream) && Owned(replaced.value.stream)
    ensures OrphansOk(r.(peers := peers, nextRewriter := r.nextRewriter + 1, orphans := r.orphans + HalfOrphan(replaced)))
  {
    hide StreamInv, Owned;
  }

  /** Putting a new splicer into a slot and letting go of the one that was there. */
  lemma ReplacingKeepsSplicers(r: Router, peers: map<PeerId, PeerState>, owner: PeerId, i: nat, media: Media, newHalf: Half, replaced: Option<Half>)
    requires SplicersOk(r) && StreamsOk(peers)
    requires newHalf.rewriter == r.nextRewriter && Owned(newHalf.stream)
    requires Make(newHalf.stream) == (ClockRate(media), DefaultStep(media))
    requires Replaces(r.peers, peers, owner, i, media, newHalf)
    requires OrphanedHalf(r, owner, i, media, replaced)
    ensures SplicersOk(r.(peers := peers, nextRewriter := r.nextRewriter + 1, orphans := r.orphans + HalfOrphan(replaced)))
  {
    hide StreamInv, Owned, FlightOn, HalfEvolves, OrphanedHalf, Make, ClockRate, Replaces;
    var n := r.(peers := peers, nextRewriter := r.nextRewriter + 1, orphans := r.orphans + HalfOrphan(replaced));
    if replaced.Some? {
      ReplacedIsGood(r, owner, i, media, replaced.value);
    }
    ReplacesFollows(r, peers, owner, i, media, newHalf);
    FollowsHeldOnce(r, peers, owner, i, media);
    assert FlightsOk(n) by {
      forall f | f in r.flights
        ensures forall id, j: nat, m :: Holds(peers, id, j, m, f.rewriter) ==>
                  m == f.media && FlightOn(f, HalfAt(peers, id, j, m).stream)
      {
        FollowsFlights(r, peers, owner, i, media, f);
      }
    }
    FollowsHalves(r, peers, owner, i, media, replaced);
    ReplacedOrphan(r, replaced, peers);
  }

  lemma ReplacedHalf(r: Router, owner: PeerId, mid: Mid, media: Media)
    requires Inv(r) && owner in r.peers
    ensures var slots := r.peers[owner].board.slots;
            var i := PairFor(slots, mid, media);
            OrphanedHalf(r, owner, i, media, HalfOf(ClearedPair(r.peers[owner].board, i).slots[i], media))
  {
    hide StreamInv, HalfEvolves, PairFor, ClearedPair, WatchesOk, Assigned, SplicersOk;
    var b := r.peers[owner].board;
    var i := PairFor(b.slots, mid, media);
    ClearedPairKeeps(Paired, b, i);
    assert SlotOk(Paired, ClearedPair(b, i).slots[i]);
  }

  lemma RegisterOutputInv(r: Router, owner: PeerId, mid: Mid, media: Media, track: TrackId)
    requires Inv(r)
    ensures Inv(RegisterOutputBegin(r, owner, mid, media, track))
  {
    hide Safe, SplicersOk, WorkConserving, Replaces, OrphanedHalf, StreamsOk, ClearedPair, PairFor, NewHalf, HalfOk, Owned, StreamInv, Make, ClockRate, DefaultStep, HalfEvolves;
    if !r.closed {
      WithPeerInv(r, owner);
      var known := WithPeer(r, owner);
      var n := RegisterOutputBegin(r, owner, mid, media, track);
      var slots := known.peers[owner].board.slots;
      var i := PairFor(slots, mid, media);
      var replaced := HalfOf(ClearedPair(known.peers[owner].board, i).slots[i], media);
      RegisterOutputSafe(r, owner, mid, media, track);
      SafeStreams(n.peers);
      RegisterOutputReplaces(r, owner, mid, media, track);
      ReplacedHalf(known, owner, mid, media);
      FreshHalfOk(mid, track, r.nextRewriter, media);
      NewHalfRewriter(mid, track, r.nextRewriter, media);
      ReplacingKeepsSplicers(known, n.peers, owner, i, media, NewHalf(mid, track, r.nextRewriter, media), replaced);
      SameSplicersOk(known.(peers := n.peers, nextRewriter := known.nextRewriter + 1, orphans := known.orphans + HalfOrphan(replaced)), n);
    }
  }

  lemma NewHalfRewriter(mid: Mid, track: TrackId, rewriter: nat, media: Media)
    ensures NewHalf(mid, track, rewriter, media).rewriter == rewriter
  {
  }

  function ReadySlot(slot: Slot, media: Media): Slot
    requires HalfOf(slot, media).Some?
  {
    WithHalf(slot, media, Some(HalfOf(slot, media).value.(ready := true)))
  }

  lemma ReadySlotOk(slot: Slot, media: Media)
    requires SlotOk(Paired, slot) && HalfOf(slot, media).Some?
    ensures var n := ReadySlot(slot, media);
            && SlotOk(Paired, n) && n.publisher == slot.publisher && SlotEvolves(slot, n)
            && QuietSlot(slot, n)
  {
    hide StreamInv;
    SelfEvolves(slot);
  }

  lemma MarkReadyOk(b: Board, mid: Mid, media: Media, track: TrackId)
    requires BoardOk(Paired, b)
    ensures var n := b.(slots := MarkReady(b.slots, mid, media, track));
            && BoardOk(Paired, n) && Assigned(n.slots) == Assigned(b.slots)
            && forall i :: 0 <= i < |b.slots| ==> SlotEvolves(b.slots[i], n.slots[i])
  {
    hide SlotOk, SlotEvolves, QuietSlot, ReadySlot;
    var n := b.(slots := MarkReady(b.slots, mid, media, track));
    forall i | 0 <= i < |b.slots|
      ensures SlotOk(Paired, n.slots[i]) && n.slots[i].publisher == b.slots[i].publisher
      ensures SlotEvolves(b.slots[i], n.slots[i])
      ensures QuietSlot(b.slots[i], n.slots[i])
    {
      SelfEvolves(b.slots[i]);
      SelfQuiet(b.slots[i]);
      assert SlotOk(Paired, b.slots[i]);
      if HalfOf(b.slots[i], media).Some? {
        ReadySlotOk(b.slots[i], media);
        ReadyIs(b.slots[i], media);
      }
    }
    SameAssigned(b.slots, n.slots);
    assert QuietBoard(b, n);
    QuietAgrees(b, n);
  }

  lemma SelfQuiet(slot: Slot)
    ensures QuietSlot(slot, slot)
  {
  }

  lemma ReadyIs(slot: Slot, media: Media)
    requires HalfOf(slot, media).Some?
    ensures ReadySlot(slot, media) == WithHalf(slot, media, Some(HalfOf(slot, media).value.(ready := true)))
  {
  }

  /** A closed router has no peers, and only `close` can take a peer from the one that
      registers an output. */
  predicate LockOk(r: Router)
  {
    && (r.closed ==> r.peers == map[])
    && (r.pending.Some? && !r.closed ==> r.pending.value.owner in r.peers)
  }

  lemma StepLock(r: Router, op: Op)
    requires LockOk(r) && Enabled(r, op)
    ensures LockOk(Step(r, op))
  {
    hide Assign, ClearFrom, RestartFrom, DeliverBoard, PairFor, ClearedPair, NewHalf, MarkReady, Orphaned, Servable;
  }

  lemma OutputReadyInv(r: Router)
    requires Inv(r) && LockOk(r) && r.pending.Some?
    ensures Inv(RegisterOutputFinish(r))
  {
    hide BoardOk, WatchesOk, Assigned, SplicersOk, HalvesEvolve, AssignAll, MarkReady;
    var Pending(owner, mid, media, track) := r.pending.value;
    if r.closed {
      SameSplicersOk(r, r.(pending := None));
    } else {
      var peer := r.peers[owner];
      var board := peer.board.(slots := MarkReady(peer.board.slots, mid, media, track));
      var peers := r.peers[owner := peer.(board := board)];
      MarkReadyOk(peer.board, mid, media, track);
      assert Safe(peers) by {
        forall id | id in peers
          ensures PeerOk(peers[id]) && Assigned(peers[id].board.slots) <= Allowed(peers, id)
        {
          assert Allowed(peers, id) == Allowed(r.peers, id);
        }
      }
      ReadyEvolves(r.peers, owner, peers);
      AssignAllInv(r, r.(pending := None, peers := peers));
    }
  }

  lemma ReadyEvolves(a: map<PeerId, PeerState>, id: PeerId, b: map<PeerId, PeerState>)
    requires id in a && a.Keys == b.Keys && |a[id].board.slots| == |b[id].board.slots|
    requires forall i :: 0 <= i < |a[id].board.slots| ==> SlotEvolves(a[id].board.slots[i], b[id].board.slots[i])
    requires forall other :: other in a && other != id ==> b[other] == a[other]
    ensures HalvesEvolve(a, b)
  {
    forall other, i: nat, media | At(b, other, i, media)
      ensures At(a, other, i, media) && HalfEvolves(HalfAt(a, other, i, media), HalfAt(b, other, i, media))
    {
      if other == id {
        assert SlotEvolves(a[id].board.slots[i], b[id].board.slots[i]);
      }
    }
  }

  // ---------------------------------------------------------------- publishing

  /** Telling clients more changes neither slots nor profiles. */
  lemma PublishedInv(r: Router, peers: map<PeerId, PeerState>)
    requires Inv(r) && peers.Keys == r.peers.Keys
    requires forall id :: id in peers ==>
               && peers[id] == r.peers[id].(published := peers[id].published)
               && peers[id].published <= |peers[id].board.notices|
    ensures Inv(r.(peers := peers))
  {
    hide BoardOk, WatchesOk, Assigned, SplicersOk, HalvesEvolve, Conserving;
    forall id | id in peers
      ensures PeerOk(peers[id]) && Allowed(peers, id) == Allowed(r.peers, id)
      ensures Due(peers, r.expired, id) == Due(r.peers, r.expired, id)
    {
      assert Servable(peers, r.expired) == Servable(r.peers, r.expired);
    }
    SameBoardsEvolve(r.peers, peers);
    SplicersFollow(r, r.(peers := peers));
  }

  lemma PublishedBound(r: Router, id: PeerId)
    requires Inv(r) && id in r.peers
    ensures r.peers[id].published <= |r.peers[id].board.notices|
  {
    hide SplicersOk, WorkConserving, BoardOk, WatchesOk, Assigned;
    assert PeerOk(r.peers[id]);
  }

  lemma PublishNextInv(r: Router, id: PeerId)
    requires Inv(r) && Enabled(r, OpPublish(id))
    ensures Inv(PublishNext(r, id))
  {
    hide SplicersOk, WorkConserving, BoardOk, WatchesOk, Assigned, Allowed;
    forall other | other in r.peers ensures r.peers[other].published <= |r.peers[other].board.notices| {
      assert PeerOk(r.peers[other]);
    }
    PublishedInv(r, PublishNext(r, id).peers);
  }

  lemma PublishAllInv(r: Router)
    requires Inv(r) && LockOk(r)
    ensures Inv(PublishAll(r)) && LockOk(PublishAll(r))
    ensures r.pending.None? ==> Idle(PublishAll(r))
  {
    hide Inv;
    PublishedInv(r, PublishAll(r).peers);
  }

  /** Only `register_output` leaves something half registered. */
  lemma SamePending(r: Router)
    requires Idle(r)
    ensures r.pending.None?
    ensures forall owner, track, media :: ScreenModel.RegisterInput(r, owner, track, media).pending == r.pending
    ensures forall id, streaming :: ScreenModel.SetStreaming(r, id, streaming).pending == r.pending
    ensures forall id, p, watching :: ScreenModel.SetWatching(r, id, p, watching).pending == r.pending
    ensures forall id :: ScreenModel.RemovePeer(r, id).pending == r.pending
  {
    hide AssignPeers, RestartPeers, ClearPeers, ClearFrom, Orphaned, ForgetWatch, Lock;
  }

  // ---------------------------------------------------------------- runs

  lemma StepInv(r: Router, op: Op)
    requires Inv(r) && LockOk(r) && Enabled(r, op)
    ensures Inv(Step(r, op)) && LockOk(Step(r, op))
  {
    hide Inv, LockOk, Idle, RegisterInput, RegisterOutputBegin, RegisterOutputFinish, SetStreaming, SetWatching, RemovePeer, Route, Deliver, Orphaned, PublishNext;
    StepLock(r, op);
    match op {
      case OpRegisterInput(owner, track, media) => RegisterInputInv(r, owner, track, media);
      case OpRegisterOutput(owner, mid, media, track) => RegisterOutputInv(r, owner, mid, media, track);
      case OpOutputReady => OutputReadyInv(r);
      case OpPublish(id) => PublishNextInv(r, id);
      case OpSetStreaming(id, streaming) => SetStreamingInv(r, id, streaming);
      case OpSetWatching(id, publisher, watching) => SetWatchingInv(r, id, publisher, watching);
      case OpRemovePeer(id) => RemovePeerInv(r, id);
      case OpClose => CloseInv(r);
      case OpExpire(track) => ExpireInv(r, track);
      case OpRoute(publisher, media, expected) => RouteInv(r, publisher, media, expected);
      case OpDeliver(flight, input) => DeliverInv(r, flight, input);
    }
  }

  /** Runs: every interleaving of binding changes, track expiries, snapshots and rewrites. */
  ghost predicate Run(states: seq<Router>, ops: seq<Op>)
    ensures Run(states, ops) ==> |states| == |ops| + 1
  {
    && |states| == |ops| + 1 && states[0] == NEW_ROUTER
    && forall k :: 0 <= k < |ops| ==> Enabled(states[k], ops[k]) && states[k + 1] == Step(states[k], ops[k])
  }

  lemma NewRouterInv()
    ensures Inv(NEW_ROUTER) && LockOk(NEW_ROUTER)
  {
  }

  lemma {:induction false} RunInv(states: seq<Router>, ops: seq<Op>, k: nat)
    requires Run(states, ops) && k < |states|
    ensures Inv(states[k]) && LockOk(states[k])
  {
    hide Inv, LockOk, Step, Enabled;
    if k == 0 {
      NewRouterInv();
    } else {
      RunInv(states, ops, k - 1);
      assert states[k - 1 + 1] == Step(states[k - 1], ops[k - 1]);
      StepInv(states[k - 1], ops[k - 1]);
    }
  }
}
