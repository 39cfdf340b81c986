/** What each operation of the voice router does to the bindings, and to nothing else; and
    what the router does forward. */
module VoiceOperations {
  import opened Words
  import opened Identity
  import opened Splicer
  import opened SplicerRuns
  import opened ClientBindings
  import opened Ordering
  import opened SlotBoard
  import opened BoardEffects
  import opened VoiceModel
  import opened VoiceSafety
  import opened VoiceTheorems
  import Screen = ScreenModel
  import Safety = ScreenSafety
  import Forwarding = ScreenForwarding

  // ---------------------------------------------------------------- handing out slots

  /** `p` is another peer with a live input. */
  predicate CanBeHeard(v: Voice, id: PeerId, p: PeerId)
  {
    p != id && p in v.peers && v.peers[p].input.Some? && v.peers[p].input.value !in v.expired
  }

  lemma HandsOut(v: Voice, id: PeerId, j: nat)
    requires id in v.peers && BoardOk(Single, v.peers[id].board) && j < |v.peers[id].board.slots|
    ensures var n := AssignAll(v);
            && id in n.peers && |n.peers[id].board.slots| == |v.peers[id].board.slots|
            && (|| n.peers[id].board.slots[j] == v.peers[id].board.slots[j]
                || (NewlyBound(Single, v.peers[id].board.slots[j], n.peers[id].board.slots[j], v.expired)
                    && CanBeHeard(v, id, n.peers[id].board.slots[j].publisher.value)))
  {
    hide BoardOk, NewlyBound, Assign, Ordered;
    var peer := v.peers[id];
    AssignTouchesFree(Single, peer.board, Ordered(Orders(v.peers)), Speaking(v.peers, v.expired) - {id}, v.expired);
  }

  /** A bound slot is not touched when slots are handed out. */
  lemma BoundIsKept(v: Voice, id: PeerId, j: nat)
    requires id in v.peers && BoardOk(Single, v.peers[id].board) && j < |v.peers[id].board.slots|
    requires v.peers[id].board.slots[j].publisher.Some?
    ensures var n := AssignAll(v);
            id in n.peers && |n.peers[id].board.slots| == |v.peers[id].board.slots| && n.peers[id].board.slots[j] == v.peers[id].board.slots[j]
  {
    hide BoardOk, AssignAll;
    HandsOut(v, id, j);
  }

  // ---------------------------------------------------------------- one operation, one slot

  /** The slot of `id` at `i`. */
  predicate HasSlot(v: Voice, id: PeerId, i: nat)
  {
    id in v.peers && i < |v.peers[id].board.slots|
  }

  /** The stored track is alive and is this one. */
  predicate Stored(v: Voice, owner: PeerId, track: TrackId)
  {
    owner in v.peers && track !in v.expired && v.peers[owner].input == Some(track)
  }

  lemma PeerBoard(v: Voice, id: PeerId)
    requires Inv(v) && id in v.peers
    ensures BoardOk(Single, v.peers[id].board) && VoiceSlots(v.peers[id].board.slots)
  {
    hide Safety.SplicersOk, WorkConserving, BoardOk, OrdersOk, VoiceSlots, Assigned;
    assert VoicePeerOk(v.peers[id]);
  }

  lemma RegisterInputOnSlot(v: Voice, owner: PeerId, track: TrackId, id: PeerId, i: nat)
    requires Inv(v) && !v.closed && track !in v.expired && HasSlot(v, id, i) && v.peers[id].board.slots[i].publisher.Some?
    ensures var n := RegisterInput(v, owner, track);
            && HasSlot(n, id, i)
            && var a, b := v.peers[id].board.slots[i], n.peers[id].board.slots[i];
               if a.publisher == Some(owner) && !Stored(v, owner, track) then Restarted(a, b, Audio, owner) else b == a
  {
    hide Inv, BoardOk, VoiceSlots, AssignAll, RestartFrom, Restarted;
    PeerBoard(v, id);
    var known := WithVoicePeer(v, owner);
    var peers := known.peers[owner := known.peers[owner].(input := Some(track))];
    var restarted := RestartVoices(peers, owner);
    var b := v.peers[id].board;
    assert peers[id].board == b;
    RestartFromKeeps(Single, b, owner, Audio, 0);
    KeepsOk(Single, b, RestartFrom(b, owner, Audio, 0));
    RestartTouchesOnly(Single, b, owner, Audio, 0);
    BoundIsKept(known.(peers := peers), id, i);
    RestartedPublisher(b.slots[i], restarted[id].board.slots[i], Audio, owner);
    BoundIsKept(known.(peers := restarted), id, i);
  }

  lemma InputIsStored(v: Voice, owner: PeerId, track: TrackId)
    requires !v.closed
    ensures var n := RegisterInput(v, owner, track);
            && owner in n.peers && n.peers[owner].input == Some(track) && n.expired == v.expired
            && forall x :: x in v.peers && x != owner ==> x in n.peers && n.peers[x].input == v.peers[x].input
  {
    hide Assign, RestartFrom, Ordered, Orders, Speaking;
  }

  lemma RegisterOutputOnSlot(v: Voice, owner: PeerId, mid: Mid, track: TrackId, id: PeerId, i: nat)
    requires Inv(v) && !v.closed && HasSlot(v, id, i) && v.peers[id].board.slots[i].publisher.Some?
    requires owner != id || Forwarding.MidOf(v.peers[id].board.slots[i], Audio) != Some(mid)
    ensures var n := RegisterOutput(v, owner, mid, track);
            HasSlot(n, id, i) && n.peers[id].board.slots[i] == v.peers[id].board.slots[i]
  {
    hide Inv, BoardOk, VoiceSlots, AssignAll, RenewAt, SlotFor, NewVoiceHalf, Screen.ClearedPair, HalfOk, Safety.Owned, Assigned;
    PeerBoard(v, id);
    var m := Renewed(WithVoicePeer(v, owner), owner, mid, track);
    if owner == id {
      var b := v.peers[id].board;
      NewVoiceHalfOk(mid, track, v.nextRewriter);
      RenewAtOk(b, mid, NewVoiceHalf(mid, track, v.nextRewriter));
      SlotForHasMid(b.slots, mid);
    }
    BoundIsKept(m, id, i);
  }

  lemma SlotForHasMid(slots: seq<Slot>, mid: Mid)
    ensures var i := SlotFor(slots, mid);
            && (i < |slots| ==> Forwarding.MidOf(slots[i], Audio) == Some(mid))
            && (i == |slots| ==> forall j :: 0 <= j < |slots| ==> Forwarding.MidOf(slots[j], Audio) != Some(mid))
  {
    Forwarding.FirstWithMid(slots, mid, Audio, 0);
  }

  lemma RemovePeerOnSlot(v: Voice, x: PeerId, id: PeerId, i: nat)
    requires Inv(v) && !v.closed && HasSlot(v, id, i) && v.peers[id].board.slots[i].publisher.Some?
    requires x != id && v.peers[id].board.slots[i].publisher != Some(x)
    ensures var n := RemovePeer(v, x);
            HasSlot(n, id, i) && n.peers[id].board.slots[i] == v.peers[id].board.slots[i]
  {
    hide Inv, BoardOk, VoiceSlots, AssignAll, ClearFrom, Gone;
    PeerBoard(v, id);
    var leaving := map other | other in v.peers && other == x :: v.peers[other];
    var b := v.peers[id].board;
    ClearFromKeeps(Single, b, x, 0);
    KeepsOk(Single, b, ClearFrom(b, x, 0));
    ClearTouchesOnly(b, x, 0);
    BoundIsKept(v.(peers := ClearVoices(v.peers - {x}, x), orphans := v.orphans + Gone(v, leaving)), id, i);
  }

  lemma DeliverOnSlot(v: Voice, f: Flight, input: Numbers, id: PeerId, i: nat)
    requires Inv(v) && HasSlot(v, id, i)
    ensures var n := Deliver(v, f, input);
            HasSlot(n, id, i) && SameSources(v.peers[id].board.slots[i], n.peers[id].board.slots[i])
  {
    hide Inv, StreamInv, StreamStep, BoardOk;
    PeerBoard(v, id);
    SlotSound(v.peers[id].board, i);
    PacketOwners(v.peers[id].board.slots[i].audio.value.stream, f.generation, input);
  }

  lemma SlotSound(b: Board, i: nat)
    requires BoardOk(Single, b) && VoiceSlots(b.slots) && i < |b.slots|
    ensures b.slots[i].audio.Some? && b.slots[i].video.None? && b.slots[i].audio.value.ready && StreamInv(b.slots[i].audio.value.stream)
    ensures b.slots[i].publisher.Some? ==>
              b.slots[i].audio.value.sourceGeneration == b.slots[i].audio.value.stream.timeline.generation
  {
    hide StreamInv, Agrees, DistinctMids;
    assert SlotOk(Single, b.slots[i]);
  }

  // ---------------------------------------------------------------- only its own operations touch a binding

  /** The operations that end the binding of slot `i` of `id` to `p`. */
  predicate Ends(v: Voice, op: Op, id: PeerId, i: nat, p: PeerId)
    requires HasSlot(v, id, i)
  {
    match op
    case OpRegisterOutput(owner, mid, _) => owner == id && Forwarding.MidOf(v.peers[id].board.slots[i], Audio) == Some(mid)
    case OpRemovePeer(x) => x == id || x == p
    case OpClose => true
    case _ => false
  }

  /** Over every run, a bound slot is left exactly as it is by every step but these: what
      ends its binding; a packet, which only moves its stream; and its publisher's new
      track, which starts a new source. */
  lemma OnlyItsOwnOperationsTouchABinding(states: seq<Voice>, ops: seq<Op>, k: nat, id: PeerId, i: nat)
    requires Run(states, ops) && k < |ops| && HasSlot(states[k], id, i) && SlotsOf(states[k], id)[i].publisher.Some?
    requires !Ends(states[k], ops[k], id, i, SlotsOf(states[k], id)[i].publisher.value)
    ensures HasSlot(states[k + 1], id, i)
    ensures var a, b := SlotsOf(states[k], id)[i], SlotsOf(states[k + 1], id)[i];
            match ops[k]
            case OpRegisterInput(owner, track) =>
              if a.publisher == Some(owner) && !Stored(states[k], owner, track) then Restarted(a, b, Audio, owner) else b == a
            case OpDeliver(_, _) => SameSources(a, b)
            case _ => b == a
  {
    hide Inv, Run, Restarted, SameSources, RegisterInput, RegisterOutput, RemovePeer, Deliver, Gone, Idle;
    RunInv(states, ops, k);
    RunStep(states, ops, k);
    OpenWithPeers(states[k], id);
    var v := states[k];
    match ops[k] {
      case OpRegisterInput(owner, track) => RegisterInputOnSlot(v, owner, track, id, i);
      case OpRegisterOutput(owner, mid, track) => RegisterOutputOnSlot(v, owner, mid, track, id, i);
      case OpRemovePeer(x) => RemovePeerOnSlot(v, x, id, i);
      case OpDeliver(f, input) => DeliverOnSlot(v, f, input, id, i);
      case _ =>
    }
  }

  lemma RunStep(states: seq<Voice>, ops: seq<Op>, k: nat)
    requires Run(states, ops) && k < |ops|
    ensures Enabled(states[k], ops[k]) && states[k + 1] == Step(states[k], ops[k])
  {
    hide Step, Enabled;
  }

  lemma OpenWithPeers(v: Voice, id: PeerId)
    requires Inv(v) && id in v.peers
    ensures !v.closed
  {
    hide Safe, OrdersOk, Safety.SplicersOk, WorkConserving;
  }

  /** Over every run: registering a track stores it. When it is not the live stored one,
      every slot that carries its owner starts a source of it, in which any first number is
      heard; otherwise no bound slot changes. */
  lemma NewTrackStartsNewSources(states: seq<Voice>, ops: seq<Op>, k: nat, id: PeerId, i: nat)
    requires Run(states, ops) && k < |ops| && ops[k].OpRegisterInput? && HasSlot(states[k], id, i)
    requires SlotsOf(states[k], id)[i].publisher == Some(ops[k].owner)
    ensures var v, n := states[k], states[k + 1];
            var OpRegisterInput(owner, track) := ops[k];
            && HasSlot(n, id, i) && SlotsOf(n, id)[i].publisher == Some(owner)
            && Stored(n, owner, track)
            && SlotsOf(v, id)[i].audio.Some? && SlotsOf(n, id)[i].audio.Some?
            && var before, after := SlotsOf(v, id)[i].audio.value, SlotsOf(n, id)[i].audio.value;
               && (Stored(v, owner, track) ==> after == before)
               && (!Stored(v, owner, track) ==>
                     && after.stream.timeline.generation > before.stream.timeline.generation
                     && after.sourceGeneration == after.stream.timeline.generation
                     && after.sourceGeneration in after.stream.owners && after.stream.owners[after.sourceGeneration] == owner
                     && after.stream.log == before.stream.log
                     && forall sequence :: Hears(after.stream.timeline, after.sourceGeneration, sequence))
  {
    hide Inv, Run, RegisterInput, BoardOk, VoiceSlots, Idle, NewSource, StreamInv;
    OnlyItsOwnOperationsTouchABinding(states, ops, k, id, i);
    RunInv(states, ops, k);
    RunStep(states, ops, k);
    OpenWithPeers(states[k], id);
    PeerBoard(states[k], id);
    SlotSound(states[k].peers[id].board, i);
    var OpRegisterInput(owner, track) := ops[k];
    InputIsStored(states[k], owner, track);
    if !Stored(states[k], owner, track) {
      NewSourceIs(SlotsOf(states[k], id)[i].audio.value, SlotsOf(states[k + 1], id)[i].audio.value, owner);
    }
  }

  /** And every listener is told once more of its slot that carries the owner. */
  lemma NewTrackIsTold(states: seq<Voice>, ops: seq<Op>, k: nat, id: PeerId)
    requires Run(states, ops) && k < |ops| && ops[k].OpRegisterInput? && id in states[k].peers
    requires !Stored(states[k], ops[k].owner, ops[k].track)
    ensures id in states[k + 1].peers
    ensures states[k].peers[id].board.notices + SlotsSay(SlotsOf(states[k], id), ops[k].owner, 0) <= states[k + 1].peers[id].board.notices
  {
    hide Inv, Run, BoardOk, VoiceSlots, Idle, AssignAll, RestartFrom, SlotsSay;
    RunInv(states, ops, k);
    RunStep(states, ops, k);
    OpenWithPeers(states[k], id);
    PeerBoard(states[k], id);
    var v := states[k];
    var OpRegisterInput(owner, track) := ops[k];
    var known := WithVoicePeer(v, owner);
    var peers := known.peers[owner := known.peers[owner].(input := Some(track))];
    var b := v.peers[id].board;
    assert peers[id].board == b;
    RestartIsTold(b, owner, Audio, 0);
    RestartFromKeeps(Single, b, owner, Audio, 0);
    KeepsOk(Single, b, RestartFrom(b, owner, Audio, 0));
    ToldMore(known.(peers := RestartVoices(peers, owner)), id);
  }

  lemma ToldMore(m: Voice, id: PeerId)
    requires id in m.peers && BoardOk(Single, m.peers[id].board)
    ensures id in AssignAll(m).peers && m.peers[id].board.notices <= AssignAll(m).peers[id].board.notices
  {
    hide BoardOk, Assign, Ordered, Orders, Speaking;
    AssignKeeps(Single, m.peers[id].board, Ordered(Orders(m.peers)), Speaking(m.peers, m.expired) - {id}, m.expired);
  }

  // ---------------------------------------------------------------- what a peer is

  /** Whom the router knows after this step. */
  predicate KnownAfter(v: Voice, op: Op, id: PeerId)
  {
    match op
    case OpRegisterInput(owner, _) => id in v.peers || (id == owner && !v.closed)
    case OpRegisterOutput(owner, _, _) => id in v.peers || (id == owner && !v.closed)
    case OpRemovePeer(x) => id in v.peers && id != x
    case OpClose => false
    case _ => id in v.peers
  }

  lemma AssigningKeepsProfiles()
    ensures forall m: Voice {:trigger AssignAll(m)} ::
              && AssignAll(m).peers.Keys == m.peers.Keys
              && forall id :: id in m.peers ==> AssignAll(m).peers[id].input == m.peers[id].input && AssignAll(m).peers[id].order == m.peers[id].order
  {
    hide Assign, Ordered, Orders, Speaking;
  }

  /** A peer keeps its place in the order as long as it is known, and a new one comes after
      all others. */
  predicate Follows(v: Voice, n: Voice, op: Op, id: PeerId)
  {
    && (id in n.peers <==> KnownAfter(v, op, id))
    && (id in n.peers ==>
          n.peers[id].input == if op.OpRegisterInput? && op.owner == id then Some(op.track)
                               else if id in v.peers then v.peers[id].input else None)
    && (id in n.peers && id in v.peers ==> n.peers[id].order == v.peers[id].order)
    && (id in n.peers && id !in v.peers ==> forall x :: x in n.peers && x != id ==> n.peers[x].order < n.peers[id].order)
  }

  lemma InputFollows(v: Voice, op: Op, id: PeerId)
    requires Inv(v) && Enabled(v, op) && op.OpRegisterInput?
    ensures Follows(v, Step(v, op), op, id)
  {
    hide Safety.SplicersOk, Safe, WorkConserving, Injective, Idle, AssignAll, ClearFrom, RestartFrom, RenewAt, SlotFor, Gone, NewVoiceHalf;
    AssigningKeepsProfiles();
  }

  lemma OutputFollows(v: Voice, op: Op, id: PeerId)
    requires Inv(v) && Enabled(v, op) && op.OpRegisterOutput?
    ensures Follows(v, Step(v, op), op, id)
  {
    hide Safety.SplicersOk, Safe, WorkConserving, Injective, Idle, AssignAll, ClearFrom, RestartFrom, RenewAt, SlotFor, Gone, NewVoiceHalf;
    AssigningKeepsProfiles();
  }

  lemma RemovalFollows(v: Voice, op: Op, id: PeerId)
    requires Inv(v) && Enabled(v, op) && op.OpRemovePeer?
    ensures Follows(v, Step(v, op), op, id)
  {
    hide Safety.SplicersOk, Safe, WorkConserving, Injective, Idle, AssignAll, ClearFrom, RestartFrom, RenewAt, SlotFor, Gone, NewVoiceHalf;
    AssigningKeepsProfiles();
  }

  lemma OthersFollow(v: Voice, op: Op, id: PeerId)
    requires Enabled(v, op) && (op.OpPublish? || op.OpClose? || op.OpExpire? || op.OpRoute? || op.OpDeliver?)
    ensures Follows(v, Step(v, op), op, id)
  {
    hide Idle, Gone, Screen.DeliverBoard, StreamStep, Screen.Targets;
  }

  /** Over every run: who is known and which track is stored is changed by the operations
      that name it, and by nothing else. */
  lemma OnlyItsOwnOperationsTouchAPeer(states: seq<Voice>, ops: seq<Op>, k: nat, id: PeerId)
    requires Run(states, ops) && k < |ops|
    ensures Follows(states[k], states[k + 1], ops[k], id)
  {
    hide Inv, Run, Step, Enabled, Follows;
    RunInv(states, ops, k);
    RunStep(states, ops, k);
    var v, op := states[k], ops[k];
    match op {
      case OpRegisterInput(_, _) => InputFollows(v, op, id);
      case OpRegisterOutput(_, _, _) => OutputFollows(v, op, id);
      case OpRemovePeer(_) => RemovalFollows(v, op, id);
      case _ => OthersFollow(v, op, id);
    }
  }

  // ---------------------------------------------------------------- new bindings

  /** A slot that carries `p` after this step and did not before. */
  predicate BindsNow(v: Voice, n: Voice, id: PeerId, i: nat, p: PeerId)
  {
    && HasSlot(n, id, i) && n.peers[id].board.slots[i].publisher == Some(p)
    && !(HasSlot(v, id, i) && v.peers[id].board.slots[i].publisher == Some(p))
  }

  /** What makes a binding right at the moment it is made: the publisher is another peer
      with a live input, the track of the slot is alive, the slot starts a source of the
      publisher that nothing was heard of yet, and no slot before it is left waiting. */
  ghost predicate BoundRightly(n: Voice, id: PeerId, i: nat, p: PeerId)
    requires HasSlot(n, id, i)
  {
    var half := n.peers[id].board.slots[i].audio;
    && CanBeHeard(n, id, p)
    && LiveHalf(half, n.expired)
    && !half.value.stream.timeline.sourceInitialized
    && half.value.sourceGeneration == half.value.stream.timeline.generation > 0
    && half.value.sourceGeneration in half.value.stream.owners && half.value.stream.owners[half.value.sourceGeneration] == p
    && forall j :: 0 <= j < i ==> !Waiting(Single, n.peers[id].board.slots[j], n.expired)
  }

  /** The board is sound, and binds nobody that the one of `v` does not. */
  ghost predicate BindsNoMore(v: Voice, x: PeerId, b: Board)
  {
    BoardOk(Single, b) && PublishersFrom(v, x, b)
  }

  predicate PublishersFrom(v: Voice, x: PeerId, b: Board)
  {
    forall j :: 0 <= j < |b.slots| && b.slots[j].publisher.Some? ==>
      HasSlot(v, x, j) && v.peers[x].board.slots[j].publisher == b.slots[j].publisher
  }

  /** After handing out slots, every binding is one of before or made rightly. */
  lemma HandsOutRightly(v: Voice, m: Voice, id: PeerId, i: nat, p: PeerId)
    requires forall x :: x in m.peers ==> BindsNoMore(v, x, m.peers[x].board)
    requires BindsNow(v, AssignAll(m), id, i, p)
    ensures BoundRightly(AssignAll(m), id, i, p)
  {
    hide BoardOk, NewlyBound, LiveHalf, AssignAll, BoundRightly, Waiting;
    AssignKeepsSlots(m, id);
    HandsOut(m, id, i);
    forall j | 0 <= j < i ensures !Waiting(Single, AssignAll(m).peers[id].board.slots[j], AssignAll(m).expired) {
      FrontFirst(m, id, j, i);
    }
    NewlyBoundRightly(m, id, i, p);
  }

  lemma NewlyBoundRightly(m: Voice, id: PeerId, i: nat, p: PeerId)
    requires HasSlot(m, id, i) && HasSlot(AssignAll(m), id, i) && AssignAll(m).peers[id].board.slots[i].publisher == Some(p)
    requires NewlyBound(Single, m.peers[id].board.slots[i], AssignAll(m).peers[id].board.slots[i], m.expired) && CanBeHeard(m, id, p)
    requires forall j :: 0 <= j < i ==> !Waiting(Single, AssignAll(m).peers[id].board.slots[j], AssignAll(m).expired)
    ensures BoundRightly(AssignAll(m), id, i, p)
  {
    hide Assign, Ordered, Orders, Speaking, Waiting;
  }

  lemma FrontFirst(m: Voice, id: PeerId, j: nat, i: nat)
    requires id in m.peers && BoardOk(Single, m.peers[id].board) && j < i < |m.peers[id].board.slots|
    requires var n := AssignAll(m);
             id in n.peers && |n.peers[id].board.slots| == |m.peers[id].board.slots| && n.peers[id].board.slots[i] != m.peers[id].board.slots[i]
    ensures !Waiting(Single, AssignAll(m).peers[id].board.slots[j], AssignAll(m).expired)
  {
    hide BoardOk, Assign, Ordered, Waiting;
    FrontSlotsFirst(Single, m.peers[id].board, Ordered(Orders(m.peers)), Speaking(m.peers, m.expired) - {id}, m.expired, j, i);
  }

  lemma AssignKeepsSlots(m: Voice, id: PeerId)
    requires forall x :: x in m.peers ==> BoardOk(Single, m.peers[x].board)
    ensures id in AssignAll(m).peers <==> id in m.peers
    ensures id in m.peers ==> |AssignAll(m).peers[id].board.slots| == |m.peers[id].board.slots|
  {
    hide BoardOk, Assign, Ordered, NewlyBound;
    if id in m.peers {
      AssignTouchesFree(Single, m.peers[id].board, Ordered(Orders(m.peers)), Speaking(m.peers, m.expired) - {id}, m.expired);
    }
  }

  lemma KnownBindsNoMore(v: Voice, x: PeerId)
    requires Inv(v)
    ensures var n := WithVoicePeer(v, x); forall y :: y in n.peers ==> BindsNoMore(v, y, n.peers[y].board)
  {
    hide Inv, BoardOk, VoiceSlots;
    forall y | y in v.peers ensures BoardOk(Single, v.peers[y].board) {
      PeerBoard(v, y);
    }
    EmptyBoard(v, x);
  }

  lemma EmptyBoard(v: Voice, x: PeerId)
    ensures BindsNoMore(v, x, Board([], []))
  {
  }

  lemma ClearedFrom(v: Voice, x: PeerId, b: Board, p: PeerId)
    requires BindsNoMore(v, x, b)
    ensures BindsNoMore(v, x, ClearFrom(b, p, 0))
  {
    hide BoardOk, ClearFrom;
    ClearFromKeeps(Single, b, p, 0);
    KeepsOk(Single, b, ClearFrom(b, p, 0));
  }

  lemma RestartedFrom(v: Voice, x: PeerId, b: Board, p: PeerId)
    requires BindsNoMore(v, x, b)
    ensures BindsNoMore(v, x, RestartFrom(b, p, Audio, 0))
  {
    hide BoardOk, RestartFrom;
    RestartFromKeeps(Single, b, p, Audio, 0);
    KeepsOk(Single, b, RestartFrom(b, p, Audio, 0));
  }

  lemma RenewedFrom(v: Voice, x: PeerId, b: Board, mid: Mid, track: TrackId, rewriter: nat)
    requires BindsNoMore(v, x, b) && VoiceSlots(b.slots)
    ensures BindsNoMore(v, x, RenewAt(b, SlotFor(b.slots, mid), NewVoiceHalf(mid, track, rewriter)))
  {
    hide BoardOk, VoiceSlots, RenewAt, SlotFor, NewVoiceHalf, HalfOk, Safety.Owned, Screen.ClearedPair, Assigned;
    NewVoiceHalfOk(mid, track, rewriter);
    RenewAtOk(b, mid, NewVoiceHalf(mid, track, rewriter));
    RenewedIsUnbound(b, SlotFor(b.slots, mid), NewVoiceHalf(mid, track, rewriter));
  }

  lemma RenewedIsUnbound(b: Board, i: nat, half: Half)
    requires i <= |b.slots|
    ensures i < |RenewAt(b, i, half).slots| && RenewAt(b, i, half).slots[i].publisher.None?
    ensures RenewAt(b, i, half).slots[i].audio == Some(half)
  {
  }

  lemma InputBindsRightly(v: Voice, owner: PeerId, track: TrackId, id: PeerId, i: nat, p: PeerId)
    requires Inv(v) && BindsNow(v, RegisterInput(v, owner, track), id, i, p)
    ensures BoundRightly(RegisterInput(v, owner, track), id, i, p)
  {
    hide Inv, BindsNoMore, AssignAll, RestartFrom, BoundRightly;
    if !v.closed {
      KnownBindsNoMore(v, owner);
      var known := WithVoicePeer(v, owner);
      var changed := Screen.Lock(known.peers[owner].input, v.expired) != Some(track);
      var peers := known.peers[owner := known.peers[owner].(input := Some(track))];
      var m := known.(peers := if changed then RestartVoices(peers, owner) else peers);
      forall x | x in m.peers ensures BindsNoMore(v, x, m.peers[x].board) {
        RestartedFrom(v, x, known.peers[x].board, owner);
      }
      HandsOutRightly(v, m, id, i, p);
    }
  }

  lemma OutputBindsRightly(v: Voice, owner: PeerId, mid: Mid, track: TrackId, id: PeerId, i: nat, p: PeerId)
    requires Inv(v) && BindsNow(v, RegisterOutput(v, owner, mid, track), id, i, p)
    ensures BoundRightly(RegisterOutput(v, owner, mid, track), id, i, p)
  {
    hide Inv, BindsNoMore, AssignAll, RenewAt, SlotFor, NewVoiceHalf, Screen.ClearedPair, BoundRightly, VoiceSlots;
    if !v.closed {
      KnownBindsNoMore(v, owner);
      var known := WithVoicePeer(v, owner);
      KnownSlots(v, owner);
      RenewedFrom(v, owner, known.peers[owner].board, mid, track, v.nextRewriter);
      HandsOutRightly(v, Renewed(known, owner, mid, track), id, i, p);
    }
  }

  lemma KnownSlots(v: Voice, owner: PeerId)
    requires Inv(v)
    ensures VoiceSlots(WithVoicePeer(v, owner).peers[owner].board.slots) && BoardOk(Single, WithVoicePeer(v, owner).peers[owner].board)
  {
    hide Inv, BoardOk;
    if owner in v.peers {
      PeerBoard(v, owner);
    }
    EmptyBoard(v, owner);
  }

  lemma RemovalBindsRightly(v: Voice, x: PeerId, id: PeerId, i: nat, p: PeerId)
    requires Inv(v) && BindsNow(v, RemovePeer(v, x), id, i, p)
    ensures BoundRightly(RemovePeer(v, x), id, i, p)
  {
    hide Inv, BindsNoMore, AssignAll, ClearFrom, BoundRightly, Gone;
    if !v.closed {
      KnownBindsNoMore(v, x);
      var leaving := map other | other in v.peers && other == x :: v.peers[other];
      var m := v.(peers := ClearVoices(v.peers - {x}, x), orphans := v.orphans + Gone(v, leaving));
      forall y | y in m.peers ensures BindsNoMore(v, y, m.peers[y].board) {
        assert y in WithVoicePeer(v, x).peers && WithVoicePeer(v, x).peers[y] == v.peers[y];
        ClearedFrom(v, y, v.peers[y].board, x);
      }
      HandsOutRightly(v, m, id, i, p);
    }
  }

  lemma DeliverBindsNobody(v: Voice, f: Flight, input: Numbers, id: PeerId, i: nat, p: PeerId)
    ensures !BindsNow(v, Deliver(v, f, input), id, i, p)
  {
    hide StreamStep;
  }

  /** Over every run: whoever is newly heard is rightly heard at that moment. */
  lemma NewBindingsAreRight(states: seq<Voice>, ops: seq<Op>, k: nat, id: PeerId, i: nat, p: PeerId)
    requires Run(states, ops) && k < |ops| && BindsNow(states[k], states[k + 1], id, i, p)
    ensures BoundRightly(states[k + 1], id, i, p)
  {
    hide Inv, Run, BoundRightly, RegisterInput, RegisterOutput, RemovePeer, Deliver, Gone, Idle, Screen.Targets;
    RunInv(states, ops, k);
    RunStep(states, ops, k);
    var v := states[k];
    match ops[k] {
      case OpRegisterInput(owner, track) => InputBindsRightly(v, owner, track, id, i, p);
      case OpRegisterOutput(owner, mid, track) => OutputBindsRightly(v, owner, mid, track, id, i, p);
      case OpRemovePeer(x) => RemovalBindsRightly(v, x, id, i, p);
      case OpDeliver(f, input) => DeliverBindsNobody(v, f, input, id, i, p);
      case _ =>
    }
  }

  // ---------------------------------------------------------------- packets of a bound publisher are forwarded

  /** Over every run: when a packet of a publisher comes in on its live stored track, every
      slot that carries the publisher gets a target with its splicer and its current
      generation. Nothing but the targets changes. */
  lemma PacketsGetTheirTargets(states: seq<Voice>, ops: seq<Op>, k: nat, id: PeerId, i: nat)
    requires Run(states, ops) && k < |ops| && ops[k].OpRoute? && HasSlot(states[k], id, i)
    requires SlotsOf(states[k], id)[i].publisher == Some(ops[k].publisher)
    requires Stored(states[k], ops[k].publisher, ops[k].expected)
    ensures var v, n := states[k], states[k + 1];
            && n.peers == v.peers && SlotsOf(v, id)[i].audio.Some?
            && var h := SlotsOf(v, id)[i].audio.value;
               Screen.Flight(ops[k].publisher, Audio, h.rewriter, h.stream.timeline.generation) in n.flights
  {
    hide Inv, Run, Gone, BoardOk, VoiceSlots, StreamInv;
    RunInv(states, ops, k);
    RunStep(states, ops, k);
    var v, p := states[k], ops[k].publisher;
    PeerBoard(v, id);
    SlotSound(v.peers[id].board, i);
    OpenWithPeers(v, id);
    var h := SlotsOf(v, id)[i].audio.value;
    assert SeenPeers(v.peers)[id].board == v.peers[id].board;
    assert Screen.Flight(p, Audio, h.rewriter, h.sourceGeneration) in Screen.Targets(SeenPeers(v.peers), p, Audio);
  }

  /** One delivered packet is accepted by the slot. */
  ghost predicate Accepts(before: Voice, after: Voice, id: PeerId, i: nat)
  {
    && HasSlot(before, id, i) && SlotsOf(before, id)[i].audio.Some? && HasSlot(after, id, i) && SlotsOf(after, id)[i].audio.Some?
    && SlotsOf(after, id)[i].audio.value.stream.log != SlotsOf(before, id)[i].audio.value.stream.log
  }

  /** Exactly what a slot accepts: packets of a target that holds its splicer and the
      current generation, from the first packet of the source on inside its half window. */
  lemma SlotAcceptsExactly(v: Voice, f: Flight, input: Numbers, id: PeerId, i: nat)
    requires Inv(v) && f in v.flights && HasSlot(v, id, i)
    ensures SlotsOf(v, id)[i].audio.Some?
    ensures Accepts(v, Deliver(v, f, input), id, i)
            <==> SlotsOf(v, id)[i].audio.value.rewriter == f.rewriter
                 && Hears(SlotsOf(v, id)[i].audio.value.stream.timeline, f.generation, input.sequence)
  {
    hide Inv, BoardOk, VoiceSlots, StreamInv, StreamStep, Hears;
    PeerBoard(v, id);
    SlotSound(v.peers[id].board, i);
    AcceptsExactly(SlotsOf(v, id)[i].audio.value.stream, f.generation, input);
  }

  /** And the slot accepts the packet it gets this way, if its splicer hears the number. */
  lemma RoutedPacketsAreAccepted(states: seq<Voice>, ops: seq<Op>, k: nat, id: PeerId, i: nat, input: Numbers)
    requires Run(states, ops) && k < |ops| && ops[k].OpRoute? && HasSlot(states[k], id, i)
    requires SlotsOf(states[k], id)[i].publisher == Some(ops[k].publisher)
    requires Stored(states[k], ops[k].publisher, ops[k].expected)
    ensures SlotsOf(states[k], id)[i].audio.Some?
    ensures var h := SlotsOf(states[k], id)[i].audio.value;
            var f := Screen.Flight(ops[k].publisher, Audio, h.rewriter, h.stream.timeline.generation);
            && f in states[k + 1].flights
            && (Hears(h.stream.timeline, h.stream.timeline.generation, input.sequence)
                <==> Accepts(states[k + 1], Deliver(states[k + 1], f, input), id, i))
  {
    hide Inv, Run, Hears, Deliver, Accepts;
    PacketsGetTheirTargets(states, ops, k, id, i);
    RunInv(states, ops, k + 1);
    var h := SlotsOf(states[k], id)[i].audio.value;
    SlotAcceptsExactly(states[k + 1], Screen.Flight(ops[k].publisher, Audio, h.rewriter, h.stream.timeline.generation), input, id, i);
  }

  /** No target is added for a publisher that is not there, or when the track is not the
      stored one and one of the two is alive. */
  lemma OtherPacketsGetNone(states: seq<Voice>, ops: seq<Op>, k: nat)
    requires Run(states, ops) && k < |ops| && ops[k].OpRoute?
    requires var v := states[k];
             var OpRoute(p, expected) := ops[k];
             || p !in v.peers
             || (v.peers[p].input != Some(expected)
                 && (expected !in v.expired || (v.peers[p].input.Some? && v.peers[p].input.value !in v.expired)))
    ensures states[k + 1] == states[k]
  {
    hide Run;
    RunStep(states, ops, k);
  }

  // ---------------------------------------------------------------- outputs

  /** The slots after an output was registered. The slot with this mid, or else a new one at
      the end, has the track and a new splicer, and may have got a publisher at once; every
      other slot is as it was, or was free and got its publisher now. */
  ghost predicate OutputTaken(slots: seq<Slot>, after: seq<Slot>, mid: Mid, track: TrackId, rewriter: nat, expired: set<TrackId>, i: nat)
  {
    && (if i < |slots| then Forwarding.MidOf(slots[i], Audio) == Some(mid)
        else i == |slots| && forall j :: 0 <= j < |slots| ==> Forwarding.MidOf(slots[j], Audio) != Some(mid))
    && i < |after| && |after| == (if i < |slots| then |slots| else |slots| + 1)
    && (forall j :: 0 <= j < |slots| && j != i ==> after[j] == slots[j] || NewlyBound(Single, slots[j], after[j], expired))
    && var half := Half(mid, track, true, rewriter, FreshStream(48_000, 960), 0);
       || after[i] == Slot(None, Some(half), None)
       || (after[i].publisher.Some? && after[i].audio.Some? && NewSource(half, after[i].audio.value, after[i].publisher.value))
  }

  lemma RenewedBoard(b: Board, mid: Mid, track: TrackId, rewriter: nat)
    requires BoardOk(Single, b) && VoiceSlots(b.slots)
    ensures var i := SlotFor(b.slots, mid);
            var half := Half(mid, track, true, rewriter, FreshStream(48_000, 960), 0);
            var n := RenewAt(b, i, NewVoiceHalf(mid, track, rewriter));
            && BoardOk(Single, n)
            && i < |n.slots| && |n.slots| == (if i < |b.slots| then |b.slots| else |b.slots| + 1)
            && n.slots[i] == Slot(None, Some(half), None)
            && forall j :: 0 <= j < |b.slots| && j != i ==> n.slots[j] == b.slots[j]
  {
    hide BoardOk, VoiceSlots, RenewAt, SlotFor, HalfOk, Safety.Owned, Screen.ClearedPair, Assigned, FreshStream;
    NewVoiceHalfOk(mid, track, rewriter);
    RenewAtOk(b, mid, NewVoiceHalf(mid, track, rewriter));
    RenewedIsUnbound(b, SlotFor(b.slots, mid), NewVoiceHalf(mid, track, rewriter));
  }

  lemma HandedOut(m: Voice, owner: PeerId, slots: seq<Slot>, mid: Mid, track: TrackId, rewriter: nat, i: nat)
    requires owner in m.peers && BoardOk(Single, m.peers[owner].board)
    requires if i < |slots| then Forwarding.MidOf(slots[i], Audio) == Some(mid)
             else i == |slots| && forall j :: 0 <= j < |slots| ==> Forwarding.MidOf(slots[j], Audio) != Some(mid)
    requires i < |SlotsOf(m, owner)| && |SlotsOf(m, owner)| == (if i < |slots| then |slots| else |slots| + 1)
    requires SlotsOf(m, owner)[i] == Slot(None, Some(Half(mid, track, true, rewriter, FreshStream(48_000, 960), 0)), None)
    requires forall j :: 0 <= j < |slots| && j != i ==> SlotsOf(m, owner)[j] == slots[j]
    ensures owner in AssignAll(m).peers
    ensures OutputTaken(slots, SlotsOf(AssignAll(m), owner), mid, track, rewriter, m.expired, i)
  {
    hide BoardOk, AssignAll, NewSource, LiveHalf, FreshStream;
    forall j: nat | j < |SlotsOf(m, owner)|
      ensures owner in AssignAll(m).peers && |SlotsOf(AssignAll(m), owner)| == |SlotsOf(m, owner)|
      ensures SlotsOf(AssignAll(m), owner)[j] == SlotsOf(m, owner)[j]
              || NewlyBound(Single, SlotsOf(m, owner)[j], SlotsOf(AssignAll(m), owner)[j], m.expired)
    {
      HandsOut(m, owner, j);
    }
  }

  /** Over every run: what registering an output makes of the slots of its owner. */
  lemma OutputsAreTaken(states: seq<Voice>, ops: seq<Op>, k: nat) returns (i: nat)
    requires Run(states, ops) && k < |ops| && ops[k].OpRegisterOutput? && !states[k].closed
    ensures var v, n := states[k], states[k + 1];
            var OpRegisterOutput(owner, mid, track) := ops[k];
            && owner in n.peers
            && OutputTaken(if owner in v.peers then SlotsOf(v, owner) else [], SlotsOf(n, owner), mid, track, v.nextRewriter, v.expired, i)
            && (HasSlot(v, owner, i) ==>
                  && SlotsOf(v, owner)[i].audio.Some?
                  && Forwarding.LeftBehind(SlotsOf(v, owner)[i].audio.value, SlotsOf(v, owner)[i].publisher.Some?, n.orphans))
  {
    hide Inv, Run, OutputTaken, Forwarding.LeftBehind, Screen.HalfOrphan, RenewAt, SlotFor, NewVoiceHalf, Screen.ClearedPair, BoardOk, VoiceSlots, Idle, AssignAll, FreshStream;
    RunInv(states, ops, k);
    RunStep(states, ops, k);
    var v := states[k];
    var OpRegisterOutput(owner, mid, track) := ops[k];
    KnownSlots(v, owner);
    var known := WithVoicePeer(v, owner);
    var b := known.peers[owner].board;
    i := SlotFor(b.slots, mid);
    RenewedBoard(b, mid, track, v.nextRewriter);
    SlotForHasMid(b.slots, mid);
    HandedOut(Renewed(known, owner, mid, track), owner, b.slots, mid, track, v.nextRewriter, i);
    if HasSlot(v, owner, i) {
      SlotSound(b, i);
      Forwarding.ReplacedIsLeft(b, i, Audio, v.orphans);
    }
    AssigningKeepsOrphans(Renewed(known, owner, mid, track));
  }

  lemma AssigningKeepsOrphans(m: Voice)
    ensures AssignAll(m).orphans == m.orphans && AssignAll(m).flights == m.flights
  {
    hide AssignVoices;
  }

  // ---------------------------------------------------------------- splicers that no slot holds

  /** A splicer nobody holds any more forwards exactly the packets of a target that holds
      it and its current generation, inside the half window of the source; and then only
      for the publisher that generation was begun for. */
  lemma OrphansForwardForTheirOwner(states: seq<Voice>, ops: seq<Op>, k: nat, rewriter: nat)
    requires Run(states, ops) && k < |ops| && ops[k].OpDeliver? && rewriter in states[k].orphans
    ensures rewriter in states[k + 1].orphans
    ensures var s, f := states[k].orphans[rewriter], ops[k].flight;
            && (states[k + 1].orphans[rewriter].log != s.log
                <==> f.rewriter == rewriter && Hears(s.timeline, f.generation, ops[k].input.sequence))
            && (states[k + 1].orphans[rewriter].log != s.log ==>
                  f.generation in s.owners && s.owners[f.generation] == f.publisher)
  {
    hide Run, StreamInv, StreamStep, Safe, WorkConserving, OrdersOk, Safety.Owned, Safety.HalvesOk, Safety.HeldOnce, Hears, SeenPeers;
    RunInv(states, ops, k);
    RunStep(states, ops, k);
    AcceptsExactly(states[k].orphans[rewriter], ops[k].flight.generation, ops[k].input);
  }

  /** Removing a peer leaves the splicers of its own slots as they are. */
  lemma RemovedSplicersLive(v: Voice, id: PeerId, i: nat)
    requires Inv(v) && !v.closed && HasSlot(v, id, i)
    ensures SlotsOf(v, id)[i].audio.Some?
    ensures var h := SlotsOf(v, id)[i].audio.value;
            var n := RemovePeer(v, id);
            id !in n.peers && n.flights == v.flights && h.rewriter in n.orphans && n.orphans[h.rewriter] == h.stream
  {
    hide Inv, BoardOk, VoiceSlots, StreamInv, AssignAll, Screen.Orphaned, ClearFrom;
    PeerBoard(v, id);
    SlotSound(v.peers[id].board, i);
    var leaving := map other | other in v.peers && other == id :: v.peers[other];
    var left := v.(peers := ClearVoices(v.peers - {id}, id), orphans := v.orphans + Gone(v, leaving));
    AssigningKeepsOrphans(left);
    AssigningKeepsProfiles();
    LeavingIsLeft(v, leaving, id, i);
  }

  lemma LeavingIsLeft(v: Voice, leaving: map<PeerId, VoicePeer>, id: PeerId, i: nat)
    requires Inv(v) && HasSlot(v, id, i) && SlotsOf(v, id)[i].audio.Some? && leaving == map[id := v.peers[id]]
    ensures var h := SlotsOf(v, id)[i].audio.value; h.rewriter in Gone(v, leaving) && Gone(v, leaving)[h.rewriter] == h.stream
  {
    hide StreamInv, Safe, WorkConserving, OrdersOk, Safety.Owned, Safety.OrphansOk, Safety.FlightsOk;
    var h := SlotsOf(v, id)[i].audio.value;
    var seen, all := SeenPeers(leaving), SeenPeers(v.peers);
    assert Screen.Holds(seen, id, i, Audio, h.rewriter);
    assert Screen.At(all, id, i, Audio) && Screen.HalfAt(all, id, i, Audio) == h;
    var id', i', media' := Safety.OrphanOf(seen, h.rewriter);
    assert Screen.At(all, id', i', media') && Screen.HalfAt(all, id', i', media') == Screen.HalfAt(seen, id', i', media');
  }

  // ---------------------------------------------------------------- a closed router

  /** Once closed, always closed: no peer comes back and no target is added. */
  lemma {:induction false} ClosedForGood(states: seq<Voice>, ops: seq<Op>, j: nat, k: nat)
    requires Run(states, ops) && j <= k < |states| && states[j].closed
    ensures states[k].closed && states[k].peers == map[] && states[k].flights == states[j].flights
    decreases k
  {
    hide Safe, OrdersOk, Safety.SplicersOk, WorkConserving, Run, AssignAll, Gone, Step, Enabled;
    RunInv(states, ops, j);
    if j < k {
      ClosedForGood(states, ops, j, k - 1);
      RunStep(states, ops, k - 1);
      assert states[k - 1 + 1] == Step(states[k - 1], ops[k - 1]);
      ClosedStep(states[k - 1], ops[k - 1]);
    }
  }

  lemma ClosedStep(v: Voice, op: Op)
    requires Enabled(v, op) && v.closed && v.peers == map[]
    ensures Step(v, op).closed && Step(v, op).peers == map[] && Step(v, op).flights == v.flights
  {
    hide AssignAll, Gone, WithVoicePeer, SlotFor, RenewAt;
  }
}
