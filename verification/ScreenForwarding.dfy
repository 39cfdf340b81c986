/** What the screen router does forward, what its outputs become, and that a closed router
    does nothing. */
module ScreenForwarding {
  import opened Words
  import opened Identity
  import opened Splicer
  import opened SplicerRuns
  import opened ClientBindings
  import opened SlotBoard
  import opened ScreenModel
  import opened ScreenSafety
  import opened ScreenTheorems
  import opened ScreenOperations

  // ---------------------------------------------------------------- packets of a bound publisher are forwarded

  lemma BoundHalf(r: Router, id: PeerId, i: nat, media: Media)
    requires Inv(r) && HasSlot(r, id, i) && r.peers[id].board.slots[i].publisher.Some?
    ensures At(r.peers, id, i, media)
    ensures var h := HalfAt(r.peers, id, i, media); h.ready && h.sourceGeneration == h.stream.timeline.generation
  {
    hide SplicersOk, WorkConserving, WatchesOk, StreamInv, Agrees, DistinctMids;
    assert PeerOk(r.peers[id]) && SlotOk(Paired, r.peers[id].board.slots[i]);
  }

  /** Over every run: when a packet of a streaming publisher comes in on its live stored
      track of a medium, every half of that medium that shows the publisher gets a target
      with its splicer and its current generation. Nothing but the targets changes. */
  lemma PacketsGetTheirTargets(states: seq<Router>, ops: seq<Op>, k: nat, id: PeerId, i: nat)
    requires Run(states, ops) && k < |ops| && ops[k].OpRoute? && HasSlot(states[k], id, i)
    requires SlotsOf(states[k], id)[i].publisher == Some(ops[k].publisher)
    requires Stored(states[k], ops[k].publisher, ops[k].media, ops[k].expected)
    ensures var r, n := states[k], states[k + 1];
            var OpRoute(p, media, _) := ops[k];
            && n.peers == r.peers && At(r.peers, id, i, media)
            && var h := HalfAt(r.peers, id, i, media);
               Flight(p, media, h.rewriter, h.stream.timeline.generation) in n.flights
  {
    hide Inv, LockOk, Run, Orphaned;
    RunInv(states, ops, k);
    RunStep(states, ops, k);
    var r := states[k];
    var OpRoute(p, media, expected) := ops[k];
    BoundHalf(r, id, i, media);
    BindingsAreSafe(states, ops, k, id, i);
    OpenWithPeers(r, id);
    var h := HalfAt(r.peers, id, i, media);
    assert Flight(p, media, h.rewriter, h.sourceGeneration) in Targets(r.peers, p, media);
  }

  /** And the slot accepts the packet it gets this way, if its splicer hears the number. */
  lemma RoutedPacketsAreAccepted(states: seq<Router>, ops: seq<Op>, k: nat, id: PeerId, i: nat, input: Numbers)
    requires Run(states, ops) && k < |ops| && ops[k].OpRoute? && HasSlot(states[k], id, i)
    requires SlotsOf(states[k], id)[i].publisher == Some(ops[k].publisher)
    requires Stored(states[k], ops[k].publisher, ops[k].media, ops[k].expected)
    ensures At(states[k].peers, id, i, ops[k].media)
    ensures var media := ops[k].media;
            var h := HalfAt(states[k].peers, id, i, media);
            var f := Flight(ops[k].publisher, media, h.rewriter, h.stream.timeline.generation);
            && f in states[k + 1].flights
            && (Hears(h.stream.timeline, h.stream.timeline.generation, input.sequence)
                <==> Accepts(states[k + 1], Deliver(states[k + 1], f, input), id, i, media))
  {
    hide Inv, LockOk, Run, Hears, Deliver, Accepts;
    PacketsGetTheirTargets(states, ops, k, id, i);
    RunInv(states, ops, k + 1);
    var media := ops[k].media;
    var h := HalfAt(states[k].peers, id, i, media);
    SlotAcceptsExactly(states[k + 1], Flight(ops[k].publisher, media, h.rewriter, h.stream.timeline.generation), input, id, i, media);
  }

  /** No target is added for a publisher that is not there or does not stream, or when the
      track is not the stored one of this medium and one of the two is alive. */
  lemma OtherPacketsGetNone(states: seq<Router>, ops: seq<Op>, k: nat)
    requires Run(states, ops) && k < |ops| && ops[k].OpRoute?
    requires var r := states[k];
             var OpRoute(p, media, expected) := ops[k];
             || p !in r.peers || !r.peers[p].streaming
             || var stored := if media.Video? then r.peers[p].inputVideo else r.peers[p].inputAudio;
                stored != Some(expected) && (expected !in r.expired || (stored.Some? && stored.value !in r.expired))
    ensures states[k + 1] == states[k]
  {
    hide Run;
    RunStep(states, ops, k);
  }

  // ---------------------------------------------------------------- outputs

  /** The slot that takes an output: the first with this mid in its half of the medium, else
      the first without such a half, else a new one at the end. */
  ghost predicate TakesOutput(slots: seq<Slot>, mid: Mid, media: Media, i: nat)
  {
    if exists j :: 0 <= j < |slots| && MidOf(slots[j], media) == Some(mid) then
      i < |slots| && MidOf(slots[i], media) == Some(mid) && forall j :: 0 <= j < i ==> MidOf(slots[j], media) != Some(mid)
    else if exists j :: 0 <= j < |slots| && MidOf(slots[j], media).None? then
      i < |slots| && MidOf(slots[i], media).None? && forall j :: 0 <= j < i ==> MidOf(slots[j], media).Some?
    else i == |slots|
  }

  function MidOf(slot: Slot, media: Media): Option<Mid>
  {
    var half := if media.Video? then slot.video else slot.audio;
    if half.Some? then Some(half.value.mid) else None
  }

  lemma {:induction false} FirstWithMid(slots: seq<Slot>, mid: Mid, media: Media, from: nat)
    requires from <= |slots|
    ensures var r := PairWithMid(slots, mid, media, from);
            && (r.Some? ==> forall j :: from <= j < r.value ==> MidOf(slots[j], media) != Some(mid))
            && (r.None? ==> forall j :: from <= j < |slots| ==> MidOf(slots[j], media) != Some(mid))
    decreases |slots| - from
  {
    if from < |slots| {
      FirstWithMid(slots, mid, media, from + 1);
    }
  }

  lemma {:induction false} FirstLacking(slots: seq<Slot>, media: Media, from: nat)
    requires from <= |slots|
    ensures var r := PairLacking(slots, media, from);
            && (r.Some? ==> forall j :: from <= j < r.value ==> MidOf(slots[j], media).Some?)
            && (r.None? ==> forall j :: from <= j < |slots| ==> MidOf(slots[j], media).Some?)
    decreases |slots| - from
  {
    if from < |slots| {
      FirstLacking(slots, media, from + 1);
    }
  }

  lemma PairForTakes(slots: seq<Slot>, mid: Mid, media: Media)
    ensures TakesOutput(slots, mid, media, PairFor(slots, mid, media))
  {
    FirstWithMid(slots, mid, media, 0);
    FirstLacking(slots, media, 0);
    var i := PairFor(slots, mid, media);
    assert i < |slots| ==> MidOf(slots[i], media).None? || MidOf(slots[i], media) == Some(mid);
  }

  /** The board after an output was registered: its slot is unbound and has a half for it
      that is not ready, with a splicer that is new; the other half of the slot keeps what
      was sent through it; all other slots are as they were. */
  ghost predicate OutputTaken(slots: seq<Slot>, after: seq<Slot>, mid: Mid, media: Media, track: TrackId, rewriter: nat, i: nat)
  {
    && TakesOutput(slots, mid, media, i)
    && i < |after| && |after| == (if i < |slots| then |slots| else |slots| + 1)
    && (forall j :: 0 <= j < |slots| && j != i ==> after[j] == slots[j])
    && after[i].publisher.None?
    && (var half := if media.Video? then after[i].video else after[i].audio;
        var other := if media.Video? then after[i].audio else after[i].video;
        && half == Some(Half(mid, track, false, rewriter,
                             FreshStream(if media.Video? then 90_000 else 48_000, if media.Video? then 3_000 else 960), 0))
        && (if i < |slots| then KeptHalf(if media.Video? then slots[i].audio else slots[i].video, other) else other.None?))
  }

  predicate KeptHalf(a: Option<Half>, b: Option<Half>)
  {
    && (a.Some? <==> b.Some?)
    && (a.Some? ==> b.value.mid == a.value.mid && b.value.track == a.value.track && b.value.rewriter == a.value.rewriter
                    && b.value.ready == a.value.ready && b.value.stream.log == a.value.stream.log)
  }

  lemma OutputOnBoard(b: Board, mid: Mid, media: Media, track: TrackId, rewriter: nat)
    requires BoardOk(Paired, b)
    ensures var i := PairFor(b.slots, mid, media);
            var board := ClearedPair(b, i);
            OutputTaken(b.slots, board.slots[i := WithHalf(board.slots[i], media, Some(NewHalf(mid, track, rewriter, media)))],
                        mid, media, track, rewriter, i)
  {
    hide BoardOk, TakesOutput, FreshStream, PairFor, StreamStep, SlotNotices;
    PairForTakes(b.slots, mid, media);
    ClearedPairKeeps(Paired, b, PairFor(b.slots, mid, media));
    EndKeepsHalves(b, PairFor(b.slots, mid, media));
  }

  lemma EndKeepsHalves(b: Board, i: nat)
    requires i <= |b.slots|
    ensures i < |b.slots| ==> KeptHalf(b.slots[i].video, ClearedPair(b, i).slots[i].video)
    ensures i < |b.slots| ==> KeptHalf(b.slots[i].audio, ClearedPair(b, i).slots[i].audio)
    ensures i == |b.slots| ==> ClearedPair(b, i).slots[i] == EMPTY_SLOT
  {
    hide SlotNotices;
  }

  /** A splicer that was replaced stays for the targets that hold it; its source has ended if
      it was bound. */
  predicate LeftBehind(h: Half, bound: bool, orphans: map<nat, LiveStream>)
  {
    && h.rewriter in orphans && orphans[h.rewriter].log == h.stream.log && orphans[h.rewriter].owners == h.stream.owners
    && orphans[h.rewriter].timeline.generation == h.stream.timeline.generation + (if bound then 1 else 0)
  }

  lemma ReplacedIsLeft(b: Board, i: nat, media: Media, orphans: map<nat, LiveStream>)
    requires i < |b.slots| && HalfOf(b.slots[i], media).Some?
    ensures LeftBehind(HalfOf(b.slots[i], media).value, b.slots[i].publisher.Some?,
                       orphans + HalfOrphan(HalfOf(ClearedPair(b, i).slots[i], media)))
  {
    hide SlotNotices;
  }

  /** Over every run: what registering an output makes of the slots of its owner. */
  lemma OutputsAreTaken(states: seq<Router>, ops: seq<Op>, k: nat) returns (i: nat)
    requires Run(states, ops) && k < |ops| && ops[k].OpRegisterOutput? && !states[k].closed
    ensures var r, n := states[k], states[k + 1];
            var OpRegisterOutput(owner, mid, media, track) := ops[k];
            && owner in n.peers
            && OutputTaken(if owner in r.peers then SlotsOf(r, owner) else [], SlotsOf(n, owner), mid, media, track, r.nextRewriter, i)
            && n.pending == Some(Pending(owner, mid, media, track))
            && (At(r.peers, owner, i, media) ==>
                  LeftBehind(HalfAt(r.peers, owner, i, media), SlotsOf(r, owner)[i].publisher.Some?, n.orphans))
            && (forall x :: x in r.peers && x != owner ==> x in n.peers && n.peers[x] == r.peers[x])
  {
    hide Inv, Run, OutputTaken, LeftBehind, HalfOrphan, PairFor, ClearedPair, NewHalf, BoardOk, Idle;
    RunInv(states, ops, k);
    RunStep(states, ops, k);
    var r := states[k];
    var OpRegisterOutput(owner, mid, media, track) := ops[k];
    KnownBindsNoMore(r, owner);
    var b := WithPeer(r, owner).peers[owner].board;
    i := PairFor(b.slots, mid, media);
    OutputOnBoard(b, mid, media, track, r.nextRewriter);
    if At(r.peers, owner, i, media) {
      ReplacedIsLeft(b, i, media, r.orphans);
    }
  }

  /** The first half of this medium with this mid, if it still holds the track. */
  ghost predicate AwaitsReady(slots: seq<Slot>, pending: Pending, i: nat)
  {
    && i < |slots| && MidOf(slots[i], pending.media) == Some(pending.mid)
    && (forall j :: 0 <= j < i ==> MidOf(slots[j], pending.media) != Some(pending.mid))
    && (if pending.media.Video? then slots[i].video else slots[i].audio).value.track == pending.track
  }

  lemma MarksReady(slots: seq<Slot>, pending: Pending, i: nat)
    requires AwaitsReady(slots, pending, i)
    ensures var after := MarkReady(slots, pending.mid, pending.media, pending.track);
            && i < |after| == |slots| && HalfOf(after[i], pending.media).Some? && HalfOf(after[i], pending.media).value.ready
            && after[i].publisher == slots[i].publisher
  {
    FirstWithMid(slots, pending.mid, pending.media, 0);
  }

  lemma ReadyStays(m: Router, id: PeerId, i: nat, media: Media)
    requires id in m.peers && BoardOk(Paired, m.peers[id].board) && i < |m.peers[id].board.slots|
    requires HalfOf(m.peers[id].board.slots[i], media).Some? && HalfOf(m.peers[id].board.slots[i], media).value.ready
    ensures At(AssignAll(m).peers, id, i, media) && HalfAt(AssignAll(m).peers, id, i, media).ready
  {
    hide BoardOk, AssignAll;
    HandsOut(m, id, i);
  }

  /** Over every run: when the registration of an output is finished, its half is ready,
      if it is still there with its track. */
  lemma OutputsBecomeReady(states: seq<Router>, ops: seq<Op>, k: nat, i: nat)
    requires Run(states, ops) && k < |ops| && ops[k].OpOutputReady? && states[k].pending.Some?
    requires var pending := states[k].pending.value;
             pending.owner in states[k].peers && AwaitsReady(SlotsOf(states[k], pending.owner), pending, i)
    ensures var pending := states[k].pending.value;
            At(states[k + 1].peers, pending.owner, i, pending.media) && HalfAt(states[k + 1].peers, pending.owner, i, pending.media).ready
    ensures states[k + 1].pending.None?
  {
    hide Inv, Run, BoardOk, AssignAll, MarkReady, AwaitsReady, LockOk;
    RunInv(states, ops, k);
    RunStep(states, ops, k);
    var r := states[k];
    var pending := r.pending.value;
    OpenWithPeers(r, pending.owner);
    PeerBoard(r, pending.owner);
    var peer := r.peers[pending.owner];
    MarksReady(peer.board.slots, pending, i);
    MarkReadyOk(peer.board, pending.mid, pending.media, pending.track);
    var m := r.(pending := None, peers := r.peers[pending.owner := peer.(
      board := peer.board.(slots := MarkReady(peer.board.slots, pending.mid, pending.media, pending.track)))]);
    ReadyStays(m, pending.owner, i, pending.media);
    FinishedIsOpen(r);
  }

  lemma FinishedIsOpen(r: Router)
    requires r.pending.Some?
    ensures RegisterOutputFinish(r).pending.None?
  {
    hide AssignPeers, MarkReady;
  }

  // ---------------------------------------------------------------- a closed router

  /** Once closed, always closed: no peer comes back and no target is added. */
  lemma {:induction false} ClosedForGood(states: seq<Router>, ops: seq<Op>, j: nat, k: nat)
    requires Run(states, ops) && j <= k < |states| && states[j].closed
    ensures states[k].closed && states[k].peers == map[] && states[k].flights == states[j].flights
    decreases k
  {
    hide Inv, Run, AssignPeers, Orphaned, Step, Enabled;
    RunInv(states, ops, j);
    if j < k {
      ClosedForGood(states, ops, j, k - 1);
      RunStep(states, ops, k - 1);
      assert states[k - 1 + 1] == Step(states[k - 1], ops[k - 1]);
      ClosedStep(states[k - 1], ops[k - 1]);
    }
  }

  lemma ClosedStep(r: Router, op: Op)
    requires Enabled(r, op) && r.closed && r.peers == map[]
    ensures Step(r, op).closed && Step(r, op).peers == map[] && Step(r, op).flights == r.flights
  {
    hide AssignPeers, Orphaned, WithPeer, PairFor, ClearedPair;
  }
}
