/** Who is in a room, who streams, and which watches the room admits, in its own terms: by
    the history of the room and by its facts, over every sequential run. */
module RoomAdmission {
  import opened Words
  import opened Identity
  import opened ScreenModel
  import opened RoomRegistry

  // ---------------------------------------------------------------- admission

  /** The request names another peer of the room that streams. */
  predicate Proper(room: Room, id: PeerId, p: PeerId)
  {
    id in room.sessions && p in room.sessions && p != id && p in room.streaming
  }

  /** All eight places of the watcher are taken, and not by this publisher. */
  predicate Full(room: Room, id: PeerId, p: PeerId)
  {
    p !in WatchedBy(room, id) && |WatchedBy(room, id)| == 8
  }

  lemma AtMostEight(room: Room, id: PeerId)
    requires RoomInv(room)
    ensures |WatchedBy(room, id)| <= 8
  {
  }

  /** A proper request is refused exactly when the watcher watches eight others; after any
      other one the publisher is watched, in the registry and in the router, and all other
      watches are as before. */
  lemma ProperWatchesAreAdmitted(states: seq<Room>, ops: seq<RoomOp>, k: nat, id: PeerId, p: PeerId)
    requires RoomRun(states, ops) && k < |ops| && ops[k] == OpAddWatcher(id, p) && Proper(states[k], id, p)
    ensures var room, next := states[k], states[k + 1];
            && (Rejection(room, id, p).Some? <==> Full(room, id, p))
            && (Full(room, id, p) ==> next == room)
            && (!Full(room, id, p) ==>
                  && WatchedBy(next, id) == WatchedBy(room, id) + {p}
                  && p in Watches(next.router, id))
            && (forall x :: x != id ==> WatchedBy(next, x) == WatchedBy(room, x))
            && next.sessions == room.sessions && next.streaming == room.streaming
  {
    hide RoomInv, PublishAll, SetWatching, Watches;
    var room, next := states[k], states[k + 1];
    RoomRunInv(states, ops, k);
    AtMostEight(room, id);
    assert next == AddWatcher(room, id, p);
    assert p in WatchedBy(next, id) <==> !Full(room, id, p);
    assert !Full(room, id, p) ==> WatchedBy(next, id) == WatchedBy(room, id) + {p};
    RegistryAndRouterAgree(states, ops, k + 1, id);
  }

  /** Each reason is given exactly when its fact holds, and a refused request changes
      nothing. */
  lemma EachReasonIsTrue(states: seq<Room>, ops: seq<RoomOp>, k: nat, id: PeerId, p: PeerId)
    requires RoomRun(states, ops) && k < |ops| && ops[k] == OpAddWatcher(id, p) && id in states[k].sessions
    ensures var room := states[k];
            var answer := Rejection(room, id, p);
            && (answer == Some(UnknownPeer) <==> p !in room.sessions || p == id)
            && (answer == Some(NotStreaming) <==> p in room.sessions && p != id && p !in room.streaming)
            && (answer == Some(Capacity) <==> Proper(room, id, p) && Full(room, id, p))
            && (answer.Some? ==> states[k + 1] == room)
  {
    hide RoomInv, PublishAll, SetWatching;
    RoomRunInv(states, ops, k);
    AtMostEight(states[k], id);
    assert states[k + 1] == AddWatcher(states[k], id, p);
  }

  /** Giving up a watch takes away this one alone, in the registry and in the router; no
      other request but a watch or a leaving changes who watches whom. */
  lemma UnwatchingTakesOne(states: seq<Room>, ops: seq<RoomOp>, k: nat, x: PeerId)
    requires RoomRun(states, ops) && k < |ops| && !ops[k].OpAddWatcher? && !ops[k].OpUnregister?
    ensures var room, next, op := states[k], states[k + 1], ops[k];
            && WatchedBy(next, x) == (if op.OpRemoveWatcher? && op.id == x then WatchedBy(room, x) - {op.publisher} else WatchedBy(room, x))
            && Watches(next.router, x) == WatchedBy(next, x)
  {
    hide PublishAll, SetWatching, SetStreaming, Step, Enabled, Watches;
    RegistryAndRouterAgree(states, ops, k + 1, x);
    assert RoomEnabled(states[k], ops[k]) && states[k + 1] == RoomStep(states[k], ops[k]);
  }

  /** Who is not in the room gets no answer and changes nothing. */
  lemma AbsentChangeNothing(states: seq<Room>, ops: seq<RoomOp>, k: nat, id: PeerId)
    requires RoomRun(states, ops) && k < |ops| && id !in states[k].sessions
    requires ops[k] == OpUnregister(id) || (ops[k].OpAddWatcher? && ops[k].id == id)
    ensures states[k + 1] == states[k]
    ensures ops[k].OpAddWatcher? ==> Rejection(states[k], id, ops[k].publisher).None?
  {
    hide PublishAll, SetWatching, RemovePeer;
    assert RoomEnabled(states[k], ops[k]) && states[k + 1] == RoomStep(states[k], ops[k]);
  }

  // ---------------------------------------------------------------- the room is its history

  /** Who is in the room after these operations: the last one to name the peer decides. */
  predicate Present(ops: seq<RoomOp>, id: PeerId)
  {
    if ops == [] then false
    else
      var last := ops[|ops| - 1];
      if last == OpRegister(id) then true
      else if last == OpUnregister(id) then false
      else Present(ops[..|ops| - 1], id)
  }

  /** Who streams: leaving ends a stream, for a peer that was there. */
  predicate OnAir(ops: seq<RoomOp>, id: PeerId)
  {
    if ops == [] then false
    else
      var before, last := ops[..|ops| - 1], ops[|ops| - 1];
      if last == OpAddStreaming(id) then true
      else if last == OpRemoveStreaming(id) then false
      else if last == OpUnregister(id) && Present(before, id) then false
      else OnAir(before, id)
  }

  lemma {:induction false} RoomIsItsHistory(states: seq<Room>, ops: seq<RoomOp>, k: nat, id: PeerId)
    requires RoomRun(states, ops) && k < |states|
    ensures id in states[k].sessions <==> Present(ops[..k], id)
    ensures id in states[k].streaming <==> OnAir(ops[..k], id)
  {
    hide PublishAll, SetStreaming, SetWatching, RemovePeer, Step, Rejection, Unwatch, UnwatchAll;
    if k > 0 {
      RoomIsItsHistory(states, ops, k - 1, id);
      assert ops[..k][..k - 1] == ops[..k - 1];
      assert RoomEnabled(states[k - 1], ops[k - 1]) && states[k - 1 + 1] == RoomStep(states[k - 1], ops[k - 1]);
    }
  }

  /** A peer that leaves is in nothing: not in the room, not among the streams, neither end
      of a watch, and not in the router. */
  lemma LeavingLeavesNothing(states: seq<Room>, ops: seq<RoomOp>, k: nat, id: PeerId)
    requires RoomRun(states, ops) && k < |ops| && ops[k] == OpUnregister(id) && id in states[k].sessions
    ensures var next := states[k + 1];
            && id !in next.sessions && id !in next.streaming && WatchedBy(next, id) == {} && id !in next.router.peers
            && (forall x :: id !in WatchedBy(next, x))
            && (forall x :: x != id ==> WatchedBy(next, x) == WatchedBy(states[k], x) - {id})
  {
    hide AssignAll, Orphaned, PublishAll, RoomInv;
    RoomRunInv(states, ops, k);
    var room, next := states[k], states[k + 1];
    assert next == Unregister(room, id);
    WatchesOfOthers(room, id);
    NotInRouter(room, id);
  }

  lemma WatchesOfOthers(room: Room, id: PeerId)
    requires RoomInv(room)
    ensures forall x :: WatchedBy(room.(watchers := UnwatchAll(room.watchers - {id}, id)), x) == if x == id then {} else WatchedBy(room, x) - {id}
  {
    LeavingAdmitted(room, id, room.(sessions := room.sessions - {id}, watchers := UnwatchAll(room.watchers - {id}, id)));
  }

  lemma NotInRouter(room: Room, id: PeerId)
    requires RoomInv(room)
    ensures id !in PublishAll(RemovePeer(room.router, id)).peers
  {
    hide Orphaned, ForgetWatch;
  }
}
