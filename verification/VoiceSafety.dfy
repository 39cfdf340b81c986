/** What every reachable state of the voice router keeps, and what follows for its users. */
module VoiceSafety {
  import opened Words
  import opened Identity
  import opened Splicer
  import opened SplicerRuns
  import opened ClientBindings
  import opened Ordering
  import opened SlotBoard
  import opened VoiceModel
  import Screen = ScreenModel
  import Safety = ScreenSafety

  /** Every slot has its audio half, always ready, and no mid twice. */
  predicate VoiceSlots(slots: seq<Slot>)
  {
    && (forall i :: 0 <= i < |slots| ==> slots[i].video.None? && slots[i].audio.Some? && slots[i].audio.value.ready)
    && (forall i, j :: 0 <= i < j < |slots| ==> slots[i].audio.value.mid != slots[j].audio.value.mid)
  }

  ghost predicate VoicePeerOk(peer: VoicePeer)
  {
    BoardOk(Single, peer.board) && VoiceSlots(peer.board.slots) && peer.published <= |peer.board.notices|
  }

  ghost predicate OrdersOk(v: Voice)
  {
    Injective(Orders(v.peers)) && forall id :: id in v.peers ==> v.peers[id].order < v.nextPeerOrder
  }

  /** The bindings are sound, with one publisher that is still to be cleared. */
  ghost predicate SafeExcept(peers: map<PeerId, VoicePeer>, leaving: set<PeerId>)
  {
    forall id :: id in peers ==>
      VoicePeerOk(peers[id]) && Assigned(peers[id].board.slots) <= peers.Keys - {id} + leaving
  }

  ghost predicate Safe(peers: map<PeerId, VoicePeer>)
  {
    SafeExcept(peers, {})
  }

  predicate WorkConserving(peers: map<PeerId, VoicePeer>, expired: set<TrackId>)
  {
    forall id :: id in peers ==> Conserving(Single, peers[id].board.slots, Speaking(peers, expired) - {id}, expired)
  }

  ghost predicate Inv(v: Voice)
  {
    && Safe(v.peers) && OrdersOk(v) && Safety.SplicersOk(Seen(v)) && WorkConserving(v.peers, v.expired)
    && (v.closed ==> v.peers == map[])
  }

  // ---------------------------------------------------------------- boards that move on

  ghost predicate VoicesKeep(a: map<PeerId, VoicePeer>, b: map<PeerId, VoicePeer>)
  {
    && a.Keys == b.Keys
    && forall id :: id in a ==> b[id] == a[id].(board := b[id].board) && Keeps(Single, a[id].board, b[id].board)
  }

  ghost predicate BoardsEvolve(a: map<PeerId, VoicePeer>, b: map<PeerId, VoicePeer>)
  {
    forall id :: id in b ==> b[id].board.slots == [] || (id in a && BoardEvolves(a[id].board, b[id].board))
  }

  lemma KeepEvolves(a: map<PeerId, VoicePeer>, b: map<PeerId, VoicePeer>)
    requires VoicesKeep(a, b)
    ensures BoardsEvolve(a, b)
  {
    hide BoardOk, BoardEvolves;
  }

  lemma EvolveTransitive(a: map<PeerId, VoicePeer>, b: map<PeerId, VoicePeer>, c: map<PeerId, VoicePeer>)
    requires BoardsEvolve(a, b) && BoardsEvolve(b, c)
    ensures BoardsEvolve(a, c)
  {
    forall id | id in c && c[id].board.slots != [] ensures id in a && BoardEvolves(a[id].board, c[id].board) {
      EvolvesTransitive(a[id].board, b[id].board, c[id].board);
    }
  }

  lemma SameBoardsEvolve(a: map<PeerId, VoicePeer>, b: map<PeerId, VoicePeer>)
    requires forall id :: id in b ==> b[id].board.slots == [] || (id in a && b[id].board == a[id].board)
    ensures BoardsEvolve(a, b)
  {
    hide HalfEvolves, SlotEvolves;
    forall id | id in b && b[id].board.slots != [] ensures BoardEvolves(a[id].board, b[id].board) {
      KeepsSelf(Single, a[id].board);
    }
  }

  lemma SeenEvolve(a: map<PeerId, VoicePeer>, b: map<PeerId, VoicePeer>)
    requires BoardsEvolve(a, b)
    ensures Safety.HalvesEvolve(SeenPeers(a), SeenPeers(b))
  {
    hide HalfEvolves;
    var x, y := SeenPeers(a), SeenPeers(b);
    forall id, i: nat, media | Screen.At(y, id, i, media)
      ensures Screen.At(x, id, i, media) && HalfEvolves(Screen.HalfAt(x, id, i, media), Screen.HalfAt(y, id, i, media))
    {
      assert SlotEvolves(a[id].board.slots[i], b[id].board.slots[i]);
    }
  }

  lemma SeenSlots(peers: map<PeerId, VoicePeer>)
    requires Safe(peers)
    ensures Safety.SlotsOk(Single, SeenPeers(peers))
  {
    hide SlotOk, VoiceSlots, Assigned, Agrees, DistinctMids;
    var seen := SeenPeers(peers);
    forall id, i: nat | id in seen && i < |seen[id].board.slots| ensures SlotOk(Single, seen[id].board.slots[i]) {
      assert VoicePeerOk(peers[id]);
    }
  }

  predicate SameSplicers(a: Voice, b: Voice)
  {
    b.nextRewriter == a.nextRewriter && b.orphans == a.orphans && b.flights == a.flights
  }

  lemma SplicersFollow(a: Voice, b: Voice)
    requires Safety.SplicersOk(Seen(a)) && SameSplicers(a, b) && Safe(b.peers) && BoardsEvolve(a.peers, b.peers)
    ensures Safety.SplicersOk(Seen(b))
  {
    hide Safety.SplicersOk, Safety.HalvesEvolve, Safety.SlotsOk, Safety.StreamsOk, Safe, BoardsEvolve;
    SeenEvolve(a.peers, b.peers);
    SeenSlots(b.peers);
    Safety.SlotStreams(Single, Seen(b).peers);
    Safety.EvolveKeepsSplicers(Seen(a), Seen(b).peers);
    Safety.SameSplicersOk(Seen(a).(peers := Seen(b).peers), Seen(b));
  }

  lemma EvolvedSlots(a: Board, b: Board)
    requires VoiceSlots(a.slots) && BoardEvolves(a, b)
    ensures VoiceSlots(b.slots)
  {
    forall i | 0 <= i < |b.slots|
      ensures b.slots[i].video.None? && b.slots[i].audio.Some? && b.slots[i].audio.value.ready
      ensures b.slots[i].audio.value.mid == a.slots[i].audio.value.mid
    {
      assert SlotEvolves(a.slots[i], b.slots[i]);
    }
  }

  lemma KeptPeerOk(a: VoicePeer, b: VoicePeer)
    requires VoicePeerOk(a) && Keeps(Single, a.board, b.board) && b.published == a.published
    ensures VoicePeerOk(b)
  {
    hide SlotOk, SlotEvolves, VoiceSlots, DistinctPublishers, Agrees, DistinctMids;
    EvolvedSlots(a.board, b.board);
  }

  // ---------------------------------------------------------------- handing out slots

  lemma AssignVoicesSafe(peers: map<PeerId, VoicePeer>, expired: set<TrackId>)
    requires Safe(peers)
    ensures var r := AssignVoices(peers, expired);
            Safe(r) && WorkConserving(r, expired) && VoicesKeep(peers, r)
  {
    hide VoicePeerOk, Keeps, Assign, Conserving, Assigned, BoardOk, Ordered, Orders, Speaking, Wanted;
    var r := AssignVoices(peers, expired);
    var speaking := Speaking(peers, expired);
    var candidates := Ordered(Orders(peers));
    forall id | id in peers
      ensures Keeps(Single, peers[id].board, r[id].board) && VoicePeerOk(r[id])
      ensures Assigned(r[id].board.slots) <= peers.Keys - {id}
      ensures Conserving(Single, r[id].board.slots, speaking - {id}, expired)
    {
      PeerBoardOk(peers[id]);
      AssignKeeps(Single, peers[id].board, candidates, speaking - {id}, expired);
      KeptPeerOk(peers[id], r[id]);
      WantedVoices(peers, expired, id);
    }
    SameSpeaking(peers, r, expired);
  }

  lemma WantedVoices(peers: map<PeerId, VoicePeer>, expired: set<TrackId>, id: PeerId)
    ensures Wanted(Ordered(Orders(peers)), Speaking(peers, expired) - {id}) == Speaking(peers, expired) - {id}
    ensures Speaking(peers, expired) <= peers.Keys
  {
    hide Ordered;
  }

  lemma SameSpeaking(a: map<PeerId, VoicePeer>, b: map<PeerId, VoicePeer>, expired: set<TrackId>)
    requires a.Keys == b.Keys && forall id :: id in a ==> b[id].input == a[id].input
    ensures Speaking(a, expired) == Speaking(b, expired)
  {
  }

  lemma PeerBoardOk(peer: VoicePeer)
    requires VoicePeerOk(peer)
    ensures BoardOk(Single, peer.board) && VoiceSlots(peer.board.slots) && peer.published <= |peer.board.notices|
  {
  }

  /** A change of bindings that ends with handing out free slots. */
  lemma AssignAllInv(a: Voice, b: Voice)
    requires Safety.SplicersOk(Seen(a)) && SameSplicers(a, b) && BoardsEvolve(a.peers, b.peers)
    requires Safe(b.peers) && OrdersOk(b) && !b.closed
    ensures Inv(AssignAll(b))
  {
    hide Safe, Safety.SplicersOk, WorkConserving, VoicesKeep, BoardsEvolve, AssignVoices, Injective;
    AssignVoicesSafe(b.peers, b.expired);
    KeepEvolves(b.peers, AssignAll(b).peers);
    EvolveTransitive(a.peers, b.peers, AssignAll(b).peers);
    SplicersFollow(a, AssignAll(b));
    KeptOrders(b, AssignAll(b));
  }

  lemma SameOrders(a: Voice, b: Voice)
    requires OrdersOk(a) && a.peers.Keys == b.peers.Keys && b.nextPeerOrder == a.nextPeerOrder
    requires forall id :: id in a.peers ==> b.peers[id].order == a.peers[id].order
    ensures OrdersOk(b)
  {
    assert Orders(a.peers) == Orders(b.peers);
  }

  lemma KeptOrders(a: Voice, b: Voice)
    requires OrdersOk(a) && VoicesKeep(a.peers, b.peers) && b.nextPeerOrder == a.nextPeerOrder
    ensures OrdersOk(b)
  {
    hide Keeps, OrdersOk;
    SameOrders(a, b);
  }

  // ---------------------------------------------------------------- operations

  lemma WithPeerOk(v: Voice, id: PeerId)
    requires Safe(v.peers) && OrdersOk(v) && Safety.SplicersOk(Seen(v))
    ensures var n := WithVoicePeer(v, id);
            Safe(n.peers) && OrdersOk(n) && Safety.SplicersOk(Seen(n)) && BoardsEvolve(v.peers, n.peers)
  {
    hide Assigned, BoardsEvolve, VoicePeerOk, Safety.SplicersOk, OrdersOk, Seen;
    var n := WithVoicePeer(v, id);
    NewPeerOk(v.nextPeerOrder);
    SameBoardsEvolve(v.peers, n.peers);
    WithPeerOrders(v, id);
    SplicersFollow(v, n);
  }

  lemma WithPeerOrders(v: Voice, id: PeerId)
    requires OrdersOk(v)
    ensures OrdersOk(WithVoicePeer(v, id))
  {
    var n := WithVoicePeer(v, id);
    forall a, b | a in n.peers && b in n.peers && n.peers[a].order == n.peers[b].order ensures a == b {
      assert a in v.peers && b in v.peers ==> Orders(v.peers)[a] == Orders(v.peers)[b];
    }
  }

  lemma NewPeerOk(order: nat)
    ensures VoicePeerOk(NewVoicePeer(order)) && Assigned(NewVoicePeer(order).board.slots) == {}
  {
  }

  lemma RestartVoicesSafe(peers: map<PeerId, VoicePeer>, p: PeerId)
    requires Safe(peers)
    ensures var r := RestartVoices(peers, p); Safe(r) && VoicesKeep(peers, r)
  {
    hide VoicePeerOk, Keeps, RestartFrom, Assigned, BoardOk;
    var r := RestartVoices(peers, p);
    forall id | id in peers
      ensures Keeps(Single, peers[id].board, r[id].board) && VoicePeerOk(r[id])
      ensures Assigned(r[id].board.slots) == Assigned(peers[id].board.slots)
    {
      PeerBoardOk(peers[id]);
      RestartFromKeeps(Single, peers[id].board, p, Audio, 0);
      KeepsOk(Single, peers[id].board, r[id].board);
      KeptPeerOk(peers[id], r[id]);
      Safety.SameAssigned(peers[id].board.slots, r[id].board.slots);
    }
  }

  lemma ClearVoicesSafe(peers: map<PeerId, VoicePeer>, p: PeerId)
    requires SafeExcept(peers, {p}) && p !in peers
    ensures var r := ClearVoices(peers, p); Safe(r) && VoicesKeep(peers, r)
  {
    hide VoicePeerOk, Keeps, ClearFrom, Assigned, BoardOk;
    var r := ClearVoices(peers, p);
    forall id | id in peers
      ensures Keeps(Single, peers[id].board, r[id].board) && VoicePeerOk(r[id])
      ensures Assigned(r[id].board.slots) == Assigned(peers[id].board.slots) - {p}
    {
      PeerBoardOk(peers[id]);
      ClearFromKeeps(Single, peers[id].board, p, 0);
      KeepsOk(Single, peers[id].board, r[id].board);
      KeptPeerOk(peers[id], r[id]);
      Safety.AssignedAfterClear(peers[id].board.slots, r[id].board.slots, p);
    }
  }

  lemma RegisterInputInv(v: Voice, owner: PeerId, track: TrackId)
    requires Inv(v)
    ensures Inv(RegisterInput(v, owner, track))
  {
    hide VoicePeerOk, Assigned, Safety.SplicersOk, BoardsEvolve, VoicesKeep, AssignAll, RestartVoices, WorkConserving, OrdersOk;
    if !v.closed {
      WithPeerOk(v, owner);
      var known := WithVoicePeer(v, owner);
      var peers := known.peers[owner := known.peers[owner].(input := Some(track))];
      forall id | id in peers ensures VoicePeerOk(peers[id]) && Assigned(peers[id].board.slots) <= peers.Keys - {id} {
        SameBoardOk(known.peers[id], peers[id]);
      }
      SameBoardsEvolve(known.peers, peers);
      SameOrders(known, known.(peers := peers));
      RestartVoicesSafe(peers, owner);
      var restarted := RestartVoices(peers, owner);
      KeptOrders(known.(peers := peers), known.(peers := restarted));
      KeepEvolves(peers, restarted);
      EvolveTransitive(known.peers, peers, restarted);
      AssignAllInv(known, known.(peers := peers));
      AssignAllInv(known, known.(peers := restarted));
    }
  }

  lemma SameBoardOk(a: VoicePeer, b: VoicePeer)
    requires VoicePeerOk(a) && b.board == a.board && b.published == a.published
    ensures VoicePeerOk(b)
  {
  }

  // ---------------------------------------------------------------- new output tracks

  lemma NewVoiceHalfOk(mid: Mid, track: TrackId, rewriter: nat)
    ensures var h := NewVoiceHalf(mid, track, rewriter);
            && HalfOk(h, None) && Safety.Owned(h.stream) && Make(h.stream) == (Screen.ClockRate(Audio), Screen.DefaultStep(Audio))
            && h.mid == mid && h.ready && h.rewriter == rewriter
  {
  }

  /** Clearing a slot, or opening one, and putting a new splicer into it. */
  lemma RenewAtOk(b: Board, mid: Mid, half: Half)
    requires BoardOk(Single, b) && VoiceSlots(b.slots) && HalfOk(half, None) && half.mid == mid && half.ready
    ensures var i := SlotFor(b.slots, mid);
            var n := RenewAt(b, i, half);
            && BoardOk(Single, n) && VoiceSlots(n.slots) && Assigned(n.slots) <= Assigned(b.slots) && b.notices <= n.notices
            && i < |n.slots| && n.slots[i].video.None? && n.slots[i].audio == Some(half)
            && (i < |b.slots| ==> |n.slots| == |b.slots|) && (i == |b.slots| ==> |n.slots| == |b.slots| + 1)
            && (forall j :: 0 <= j < |b.slots| && j != i ==> n.slots[j] == b.slots[j])
            && (i < |b.slots| ==> OptionalEvolves(b.slots[i].audio, HalfOf(Screen.ClearedPair(b, i).slots[i], Audio)))
            && (i == |b.slots| ==> HalfOf(Screen.ClearedPair(b, i).slots[i], Audio).None?)
  {
    hide BoardOk, Assigned, Screen.ClearedPair, HalfOk;
    var i := SlotFor(b.slots, mid);
    Safety.ClearedPairKeeps(Single, b, i);
    var cleared := Screen.ClearedPair(b, i);
    Safety.ReplaceHalfOk(Single, cleared, i, Audio, half);
  }

  lemma RegisterOutputInv(v: Voice, owner: PeerId, mid: Mid, track: TrackId)
    requires Inv(v)
    ensures Inv(RegisterOutput(v, owner, mid, track))
  {
    hide Safe, Safety.SplicersOk, WorkConserving, OrdersOk, AssignAll, Screen.ClearedPair, RenewAt, SlotFor, NewVoiceHalf, Screen.HalfOrphan, SeenPeers;
    if !v.closed {
      WithPeerOk(v, owner);
      var known := WithVoicePeer(v, owner);
      var next := Renewed(known, owner, mid, track);
      RenewedSafe(known, owner, mid, track);
      RenewedSplicers(known, owner, mid, track);
      SameBoardsEvolve(next.peers, next.peers);
      AssignAllInv(next, next);
    }
  }

  ghost function Renewed(v: Voice, owner: PeerId, mid: Mid, track: TrackId): Voice
    requires owner in v.peers
  {
    var peer := v.peers[owner];
    var i := SlotFor(peer.board.slots, mid);
    v.(peers := v.peers[owner := peer.(board := RenewAt(peer.board, i, NewVoiceHalf(mid, track, v.nextRewriter)))],
       nextRewriter := v.nextRewriter + 1,
       orphans := v.orphans + Screen.HalfOrphan(HalfOf(Screen.ClearedPair(peer.board, i).slots[i], Audio)))
  }

  lemma RenewedSafe(v: Voice, owner: PeerId, mid: Mid, track: TrackId)
    requires Safe(v.peers) && OrdersOk(v) && owner in v.peers
    ensures Safe(Renewed(v, owner, mid, track).peers) && OrdersOk(Renewed(v, owner, mid, track))
  {
    hide BoardOk, VoiceSlots, HalfOk, Assigned, RenewAt, SlotFor, NewVoiceHalf, Injective;
    var n := Renewed(v, owner, mid, track);
    NewVoiceHalfOk(mid, track, v.nextRewriter);
    assert VoicePeerOk(v.peers[owner]);
    RenewAtOk(v.peers[owner].board, mid, NewVoiceHalf(mid, track, v.nextRewriter));
    SameOrders(v, n);
    forall id | id in n.peers
      ensures VoicePeerOk(n.peers[id]) && Assigned(n.peers[id].board.slots) <= n.peers.Keys - {id}
    {
      assert VoicePeerOk(v.peers[id]) && Assigned(v.peers[id].board.slots) <= v.peers.Keys - {id};
    }
  }

  lemma SlotReplaced(peers: map<PeerId, VoicePeer>, peer: VoicePeer, owner: PeerId, i: nat, half: Half)
    requires owner in peers && i < |peer.board.slots| && peer.board.slots[i].audio == Some(half) && peer.board.slots[i].video.None?
    requires forall j :: 0 <= j < |peer.board.slots| && j != i ==>
               j < |peers[owner].board.slots| && peer.board.slots[j] == peers[owner].board.slots[j]
    ensures Safety.Replaces(SeenPeers(peers), SeenPeers(peers[owner := peer]), owner, i, Audio, half)
  {
    hide HalfEvolves;
    var x, y := SeenPeers(peers), SeenPeers(peers[owner := peer]);
    forall id, j: nat, m | Screen.At(y, id, j, m) && !(id == owner && j == i && m == Audio)
      ensures Screen.At(x, id, j, m) && HalfEvolves(Screen.HalfAt(x, id, j, m), Screen.HalfAt(y, id, j, m))
    {
      SelfEvolves(peers[id].board.slots[j]);
    }
  }

  lemma RenewedReplaces(v: Voice, owner: PeerId, mid: Mid, track: TrackId)
    requires Safe(v.peers) && owner in v.peers
    ensures var n := Renewed(v, owner, mid, track);
            var i := SlotFor(v.peers[owner].board.slots, mid);
            Safety.Replaces(SeenPeers(v.peers), SeenPeers(n.peers), owner, i, Audio, NewVoiceHalf(mid, track, v.nextRewriter))
  {
    hide BoardOk, HalfOk, Assigned, RenewAt, SlotFor, NewVoiceHalf, Safety.Replaces, SeenPeers, Injective;
    var b := v.peers[owner].board;
    NewVoiceHalfOk(mid, track, v.nextRewriter);
    assert VoicePeerOk(v.peers[owner]);
    RenewAtOk(b, mid, NewVoiceHalf(mid, track, v.nextRewriter));
    SlotReplaced(v.peers, Renewed(v, owner, mid, track).peers[owner], owner, SlotFor(b.slots, mid), NewVoiceHalf(mid, track, v.nextRewriter));
  }

  lemma RenewedSplicers(v: Voice, owner: PeerId, mid: Mid, track: TrackId)
    requires Safe(v.peers) && OrdersOk(v) && owner in v.peers && Safety.SplicersOk(Seen(v))
    ensures Safety.SplicersOk(Seen(Renewed(v, owner, mid, track)))
  {
    hide Safe, OrdersOk, Safety.SplicersOk, Safety.Replaces, Safety.SlotsOk, Safety.StreamsOk, Safety.OrphanedHalf, Screen.ClearedPair, RenewAt, SlotFor, NewVoiceHalf, Screen.HalfOrphan, Screen.ClockRate, Make;
    var n := Renewed(v, owner, mid, track);
    var b := v.peers[owner].board;
    var i := SlotFor(b.slots, mid);
    var half := NewVoiceHalf(mid, track, v.nextRewriter);
    var replaced := HalfOf(Screen.ClearedPair(b, i).slots[i], Audio);
    NewVoiceHalfOk(mid, track, v.nextRewriter);
    RenewedSafe(v, owner, mid, track);
    SeenSlots(n.peers);
    Safety.SlotStreams(Single, SeenPeers(n.peers));
    RenewedReplaces(v, owner, mid, track);
    ReplacedVoice(v, owner, mid);
    Safety.ReplacingKeepsSplicers(Seen(v), SeenPeers(n.peers), owner, i, Audio, half, replaced);
    Safety.SameSplicersOk(
      Seen(v).(peers := SeenPeers(n.peers), nextRewriter := v.nextRewriter + 1, orphans := v.orphans + Screen.HalfOrphan(replaced)),
      Seen(n));
  }

  lemma ReplacedVoice(v: Voice, owner: PeerId, mid: Mid)
    requires Safe(v.peers) && owner in v.peers
    ensures var b := v.peers[owner].board;
            var i := SlotFor(b.slots, mid);
            Safety.OrphanedHalf(Seen(v), owner, i, Audio, HalfOf(Screen.ClearedPair(b, i).slots[i], Audio))
  {
    hide StreamInv, HalfEvolves, SlotFor, Screen.ClearedPair, Assigned;
    var b := v.peers[owner].board;
    var i := SlotFor(b.slots, mid);
    assert VoicePeerOk(v.peers[owner]);
    Safety.ClearedPairKeeps(Single, b, i);
    assert SlotOk(Single, Screen.ClearedPair(b, i).slots[i]);
  }

  // ---------------------------------------------------------------- peers that leave

  lemma LeavingOk(v: Voice, leaving: map<PeerId, VoicePeer>, staying: map<PeerId, VoicePeer>)
    requires Safety.SplicersOk(Seen(v))
    requires forall id :: id in leaving ==> id in v.peers && leaving[id] == v.peers[id] && id !in staying
    requires forall id :: id in staying ==> id in v.peers && staying[id] == v.peers[id]
    ensures Safety.SplicersOk(Seen(v.(peers := staying, orphans := v.orphans + Gone(v, leaving))))
  {
    hide Safety.SplicersOk, Screen.Orphaned;
    Safety.LeavingKeepsSplicers(Seen(v), SeenPeers(leaving), SeenPeers(staying));
  }

  lemma RemovePeerInv(v: Voice, id: PeerId)
    requires Inv(v)
    ensures Inv(RemovePeer(v, id))
  {
    hide VoicePeerOk, Assigned, Safety.SplicersOk, BoardsEvolve, VoicesKeep, AssignAll, ClearVoices, WorkConserving, Gone, SeenPeers, Injective;
    if !v.closed {
      var leaving := map other | other in v.peers && other == id :: v.peers[other];
      var rest := v.peers - {id};
      LeavingOk(v, leaving, rest);
      var left := v.(peers := rest, orphans := v.orphans + Gone(v, leaving));
      FewerOrders(v, rest);
      ClearVoicesSafe(rest, id);
      var peers := ClearVoices(rest, id);
      KeepEvolves(rest, peers);
      KeptOrders(left, left.(peers := peers));
      AssignAllInv(left, left.(peers := peers));
    }
  }

  lemma FewerOrders(v: Voice, rest: map<PeerId, VoicePeer>)
    requires OrdersOk(v) && forall id :: id in rest ==> id in v.peers && rest[id] == v.peers[id]
    ensures Injective(Orders(rest))
  {
    var all, some := Orders(v.peers), Orders(rest);
    forall a, b | a in some && b in some && some[a] == some[b] ensures a == b {
      assert all[a] == some[a] && all[b] == some[b];
    }
  }

  // ---------------------------------------------------------------- packets and tracks

  lemma RouteInv(v: Voice, publisher: PeerId, expected: TrackId)
    requires Inv(v)
    ensures Inv(Route(v, publisher, expected))
  {
    hide Safe, Safety.SplicersOk, Safety.SlotsOk, Screen.Targets, WorkConserving, OrdersOk;
    SeenSlots(v.peers);
    Safety.TargetsKeepSplicers(Single, Seen(v), publisher, Audio);
    var n := v.(flights := v.flights + Screen.Targets(SeenPeers(v.peers), publisher, Audio));
    Safety.SameSplicersOk(Seen(v).(flights := n.flights), Seen(n));
    QuietOrders(v, n);
    assert v.(flights := v.flights + {}) == v;
  }

  lemma QuietOrders(a: Voice, b: Voice)
    requires OrdersOk(a) && b.peers == a.peers && b.nextPeerOrder == a.nextPeerOrder
    ensures OrdersOk(b)
  {
  }

  lemma DeliverSeen(v: Voice, f: Flight, input: Numbers)
    ensures SeenPeers(Deliver(v, f, input).peers) == Screen.Deliver(Seen(v), f, input).peers
    ensures Deliver(v, f, input).orphans == Screen.Deliver(Seen(v), f, input).orphans
  {
    hide Screen.DeliverBoard, StreamStep;
  }

  lemma DeliverVoiceSlots(b: Board, f: Flight, input: Numbers)
    requires VoiceSlots(b.slots)
    ensures VoiceSlots(Screen.DeliverBoard(b, f, input).slots)
  {
    hide StreamStep;
  }

  lemma DeliverInv(v: Voice, f: Flight, input: Numbers)
    requires Inv(v) && f in v.flights
    ensures Inv(Deliver(v, f, input))
  {
    hide BoardOk, VoiceSlots, Safety.SplicersOk, Screen.DeliverBoard, Screen.Deliver, Assigned, Free, Injective, SeenPeers, StreamStep;
    var n := Deliver(v, f, input);
    forall id | id in v.peers
      ensures VoicePeerOk(n.peers[id]) && Assigned(n.peers[id].board.slots) == Assigned(v.peers[id].board.slots)
      ensures |n.peers[id].board.slots| == |v.peers[id].board.slots| && n.peers[id].board.notices == v.peers[id].board.notices
      ensures forall i, expired :: 0 <= i < |v.peers[id].board.slots| ==>
                (Free(Single, n.peers[id].board.slots[i], expired) <==> Free(Single, v.peers[id].board.slots[i], expired))
    {
      assert VoicePeerOk(v.peers[id]);
      Safety.DeliverBoardOk(Single, v.peers[id].board, f, input);
      Safety.DeliverBoardSize(v.peers[id].board, f, input);
      DeliverVoiceSlots(v.peers[id].board, f, input);
    }
    SameSpeaking(v.peers, n.peers, v.expired);
    SameOrders(v, n);
    DeliverSeen(v, f, input);
    Safety.DeliverKeepsSplicers(Seen(v), f, input);
    SameNumbers(Seen(v), f, input);
    Safety.SameSplicersOk(Screen.Deliver(Seen(v), f, input), Seen(n));
  }

  lemma SameNumbers(r: Screen.Router, f: Flight, input: Numbers)
    ensures var n := Screen.Deliver(r, f, input); n.nextRewriter == r.nextRewriter && n.flights == r.flights
  {
    hide Screen.DeliverBoard, StreamStep;
  }

  lemma ExpireInv(v: Voice, track: TrackId)
    requires Inv(v)
    ensures Inv(v.(expired := v.expired + {track}))
  {
    hide Safe, Safety.SplicersOk, Assigned, OrdersOk;
    var n := v.(expired := v.expired + {track});
    Safety.SameSplicersOk(Seen(v), Seen(n));
    QuietOrders(v, n);
    forall id | id in n.peers
      ensures Conserving(Single, n.peers[id].board.slots, Speaking(n.peers, n.expired) - {id}, n.expired)
    {
      assert Speaking(n.peers, n.expired) <= Speaking(v.peers, v.expired);
      assert forall i :: 0 <= i < |n.peers[id].board.slots| ==>
        (Free(Single, n.peers[id].board.slots[i], n.expired) ==> Free(Single, v.peers[id].board.slots[i], v.expired));
    }
  }

  lemma CloseInv(v: Voice)
    requires Inv(v)
    ensures Inv(v.(closed := true, peers := map[], orphans := v.orphans + Gone(v, v.peers)))
  {
    hide Safety.SplicersOk, Gone, SeenPeers, VoicePeerOk;
    LeavingOk(v, v.peers, map[]);
    Safety.SameSplicersOk(Seen(v.(peers := map[], orphans := v.orphans + Gone(v, v.peers))),
                          Seen(v.(closed := true, peers := map[], orphans := v.orphans + Gone(v, v.peers))));
  }

  // ---------------------------------------------------------------- publishing

  lemma PublishedInv(v: Voice, peers: map<PeerId, VoicePeer>)
    requires Inv(v) && peers.Keys == v.peers.Keys
    requires forall id :: id in peers ==>
               && peers[id] == v.peers[id].(published := peers[id].published)
               && peers[id].published <= |peers[id].board.notices|
    ensures Inv(v.(peers := peers))
  {
    hide BoardOk, VoiceSlots, Assigned, Safety.SplicersOk, Conserving, Injective, BoardsEvolve;
    var n := v.(peers := peers);
    forall id | id in peers ensures VoicePeerOk(peers[id]) {
      assert VoicePeerOk(v.peers[id]);
    }
    SameSpeaking(v.peers, peers, v.expired);
    SameOrders(v, n);
    SameBoardsEvolve(v.peers, peers);
    SplicersFollow(v, n);
  }

  lemma PublishedBound(v: Voice, id: PeerId)
    requires Inv(v) && id in v.peers
    ensures v.peers[id].published <= |v.peers[id].board.notices|
  {
    hide Safety.SplicersOk, WorkConserving, BoardOk, VoiceSlots, Assigned, OrdersOk;
    assert VoicePeerOk(v.peers[id]);
  }

  lemma PublishNextInv(v: Voice, id: PeerId)
    requires Inv(v) && Enabled(v, OpPublish(id))
    ensures Inv(PublishNext(v, id))
  {
    hide Safety.SplicersOk, WorkConserving, BoardOk, VoiceSlots, Assigned, OrdersOk;
    forall other | other in v.peers ensures v.peers[other].published <= |v.peers[other].board.notices| {
      assert VoicePeerOk(v.peers[other]);
    }
    PublishedInv(v, PublishNext(v, id).peers);
  }

  lemma PublishAllInv(v: Voice)
    requires Inv(v)
    ensures Inv(PublishAll(v)) && Idle(PublishAll(v))
  {
    hide Inv;
    PublishedInv(v, PublishAll(v).peers);
  }

  // ---------------------------------------------------------------- runs

  lemma StepInv(v: Voice, op: Op)
    requires Inv(v) && Enabled(v, op)
    ensures Inv(Step(v, op))
  {
    hide Inv, Idle, RegisterInput, RegisterOutput, RemovePeer, Route, Deliver, Gone, PublishNext;
    match op {
      case OpRegisterInput(owner, track) => RegisterInputInv(v, owner, track);
      case OpRegisterOutput(owner, mid, track) => RegisterOutputInv(v, owner, mid, track);
      case OpRemovePeer(id) => RemovePeerInv(v, id);
      case OpPublish(id) => PublishNextInv(v, id);
      case OpClose => CloseInv(v);
      case OpExpire(track) => ExpireInv(v, track);
      case OpRoute(publisher, expected) => RouteInv(v, publisher, expected);
      case OpDeliver(flight, input) => DeliverInv(v, flight, input);
    }
  }

  ghost predicate Run(states: seq<Voice>, ops: seq<Op>)
    ensures Run(states, ops) ==> |states| == |ops| + 1
  {
    && |states| == |ops| + 1 && states[0] == NEW_VOICE
    && forall k :: 0 <= k < |ops| ==> Enabled(states[k], ops[k]) && states[k + 1] == Step(states[k], ops[k])
  }

  lemma NewVoiceInv()
    ensures Inv(NEW_VOICE)
  {
  }

  lemma {:induction false} RunInv(states: seq<Voice>, ops: seq<Op>, k: nat)
    requires Run(states, ops) && k < |states|
    ensures Inv(states[k])
  {
    hide Inv, Step, Enabled;
    if k == 0 {
      NewVoiceInv();
    } else {
      RunInv(states, ops, k - 1);
      assert states[k - 1 + 1] == Step(states[k - 1], ops[k - 1]);
      StepInv(states[k - 1], ops[k - 1]);
    }
  }
}
