/** Two runs of the screen router that show what it does not promise: a packet accepted
    before its subscriber was told of the binding, and one accepted by a splicer of a peer
    that is gone. */
module ScreenWitness {
  import opened Words
  import opened Identity
  import opened Splicer
  import opened SplicerRuns
  import opened ClientBindings
  import opened Ordering
  import opened SlotBoard
  import opened ScreenModel
  import opened ScreenSafety
  import opened ScreenTheorems

  const PUBLISHER: PeerId := "p"
  const SUBSCRIBER: PeerId := "s"
  const VIDEO_IN: TrackId := 1
  const VIDEO_OUT: TrackId := 2
  const AUDIO_OUT: TrackId := 3
  const FIRST := Numbers(5, 7)

  // ---------------------------------------------------------------- the states of the run

  function VideoHalf(ready: bool): Half { NewHalf("v", VIDEO_OUT, 0, Video).(ready := ready) }

  function AudioHalf(ready: bool): Half { NewHalf("a", AUDIO_OUT, 1, Audio).(ready := ready) }

  function Subscriber(slot: Slot): PeerState
  {
    PeerState(0, None, None, Board([slot], []), false, map[], 0, 0)
  }

  function Publisher(streaming: bool): PeerState
  {
    PeerState(1, Some(VIDEO_IN), None, Board([], []), streaming, map[], 0, 0)
  }

  function OnlySubscriber(slot: Slot, rewriters: nat, pending: Option<Pending>): Router
  {
    Router(map[SUBSCRIBER := Subscriber(slot)], 1, false, {}, rewriters, map[], {}, pending)
  }

  function Both(streaming: bool): Router
  {
    Router(map[SUBSCRIBER := Subscriber(ReadyPair()), PUBLISHER := Publisher(streaming)], 2, false, {}, 2, map[], {}, None)
  }

  function ReadyPair(): Slot { Slot(Some(VideoHalf(true)), Some(AudioHalf(true)), None) }

  function BoundSubscriber(): PeerState
  {
    PeerState(0, None, None, BindAt(Board([ReadyPair()], []), 0, PUBLISHER), false, map[PUBLISHER := 0], 1, 0)
  }

  /** The pair is bound and its two notices are queued. */
  function BoundRouter(flights: set<Flight>): Router
  {
    Router(map[SUBSCRIBER := BoundSubscriber(), PUBLISHER := Publisher(true)], 2, false, {}, 2, map[], flights, None)
  }

  // ---------------------------------------------------------------- runs step by step

  lemma Extend(states: seq<Router>, ops: seq<Op>, r: Router, op: Op, next: Router) returns (more: seq<Router>, all: seq<Op>)
    requires Run(states, ops) && states[|ops|] == r && Enabled(r, op) && next == Step(r, op)
    ensures Run(more, all) && |all| == |ops| + 1 && more[|all|] == next && more[..|states|] == states && all == ops + [op]
  {
    hide Step, Enabled;
    more, all := states + [next], ops + [op];
    forall k | 0 <= k < |all| ensures Enabled(more[k], all[k]) && more[k + 1] == Step(more[k], all[k]) {
      if k < |ops| {
        assert more[k] == states[k] && more[k + 1] == states[k + 1] && all[k] == ops[k];
      }
    }
  }

  lemma NobodyWatches(r: Router)
    requires forall id :: id in r.peers ==> r.peers[id].watched == map[]
    ensures AssignAll(r) == r
  {
    forall id | id in r.peers ensures AssignPeers(r.peers, r.expired)[id] == r.peers[id] {
      NothingToSort(r.peers[id].watched);
    }
    assert AssignPeers(r.peers, r.expired) == r.peers;
  }

  lemma NothingToSort(rank: map<PeerId, nat>)
    requires rank == map[]
    ensures Ordered(rank) == []
  {
  }

  lemma OneToSort(p: PeerId)
    ensures Ordered(map[p := 0]) == [p]
  {
    SortedIsUnique(map[p := 0], Ordered(map[p := 0]), [p]);
  }

  /** Two states that are the same part by part. */
  lemma SameRouter(a: Router, b: Router)
    requires a.(peers := map[]) == b.(peers := map[]) && a.peers.Keys == b.peers.Keys
    requires forall id :: id in a.peers ==>
               && a.peers[id].(board := Board([], [])) == b.peers[id].(board := Board([], []))
               && a.peers[id].board.slots == b.peers[id].board.slots
               && a.peers[id].board.notices == b.peers[id].board.notices
    ensures a == b
  {
    assert a.peers == b.peers;
  }

  lemma NoOrphan(orphans: map<nat, LiveStream>)
    ensures orphans + HalfOrphan(None) == orphans
  {
  }

  lemma VideoRegistered()
    ensures Step(NEW_ROUTER, OpRegisterOutput(SUBSCRIBER, "v", Video, VIDEO_OUT))
            == OnlySubscriber(Slot(Some(VideoHalf(false)), None, None), 1, Some(Pending(SUBSCRIBER, "v", Video, VIDEO_OUT)))
  {
    hide FreshStream;
    NoOrphan(map[]);
    SameRouter(Step(NEW_ROUTER, OpRegisterOutput(SUBSCRIBER, "v", Video, VIDEO_OUT)), OnlySubscriber(Slot(Some(VideoHalf(false)), None, None), 1, Some(Pending(SUBSCRIBER, "v", Video, VIDEO_OUT))));
  }

  lemma VideoReady()
    ensures Step(OnlySubscriber(Slot(Some(VideoHalf(false)), None, None), 1, Some(Pending(SUBSCRIBER, "v", Video, VIDEO_OUT))), OpOutputReady)
            == OnlySubscriber(Slot(Some(VideoHalf(true)), None, None), 1, None)
  {
    hide FreshStream, AssignAll;
    var r, next := OnlySubscriber(Slot(Some(VideoHalf(false)), None, None), 1, Some(Pending(SUBSCRIBER, "v", Video, VIDEO_OUT))), OnlySubscriber(Slot(Some(VideoHalf(true)), None, None), 1, None);
    var board := r.peers[SUBSCRIBER].board;
    var ready := r.(pending := None, peers := r.peers[SUBSCRIBER := r.peers[SUBSCRIBER].(
      board := board.(slots := MarkReady(board.slots, "v", Video, VIDEO_OUT)))]);
    SameRouter(ready, next);
    NobodyWatches(next);
  }

  lemma AudioRegistered()
    ensures Step(OnlySubscriber(Slot(Some(VideoHalf(true)), None, None), 1, None), OpRegisterOutput(SUBSCRIBER, "a", Audio, AUDIO_OUT))
            == OnlySubscriber(Slot(Some(VideoHalf(true)), Some(AudioHalf(false)), None), 2, Some(Pending(SUBSCRIBER, "a", Audio, AUDIO_OUT)))
  {
    hide FreshStream;
    NoOrphan(map[]);
    SameRouter(Step(OnlySubscriber(Slot(Some(VideoHalf(true)), None, None), 1, None), OpRegisterOutput(SUBSCRIBER, "a", Audio, AUDIO_OUT)), OnlySubscriber(Slot(Some(VideoHalf(true)), Some(AudioHalf(false)), None), 2, Some(Pending(SUBSCRIBER, "a", Audio, AUDIO_OUT))));
  }

  lemma AudioReady()
    ensures Step(OnlySubscriber(Slot(Some(VideoHalf(true)), Some(AudioHalf(false)), None), 2, Some(Pending(SUBSCRIBER, "a", Audio, AUDIO_OUT))), OpOutputReady)
            == OnlySubscriber(ReadyPair(), 2, None)
  {
    hide FreshStream, AssignAll;
    var r, next := OnlySubscriber(Slot(Some(VideoHalf(true)), Some(AudioHalf(false)), None), 2, Some(Pending(SUBSCRIBER, "a", Audio, AUDIO_OUT))), OnlySubscriber(ReadyPair(), 2, None);
    var board := r.peers[SUBSCRIBER].board;
    var ready := r.(pending := None, peers := r.peers[SUBSCRIBER := r.peers[SUBSCRIBER].(
      board := board.(slots := MarkReady(board.slots, "a", Audio, AUDIO_OUT)))]);
    SameRouter(ready, next);
    NobodyWatches(next);
  }

  lemma NobodyBound(peers: map<PeerId, PeerState>)
    requires forall id :: id in peers ==> forall i :: 0 <= i < |peers[id].board.slots| ==> peers[id].board.slots[i].publisher.None?
    ensures RestartPeers(peers, PUBLISHER, Video) == peers
  {
    forall id | id in peers ensures RestartFrom(peers[id].board, PUBLISHER, Video, 0) == peers[id].board {
      NothingRestarted(peers[id].board, 0);
    }
  }

  lemma {:induction false} NothingRestarted(b: Board, i: nat)
    requires i <= |b.slots| && forall j :: 0 <= j < |b.slots| ==> b.slots[j].publisher.None?
    ensures RestartFrom(b, PUBLISHER, Video, i) == b
    decreases |b.slots| - i
  {
    if i < |b.slots| {
      NothingRestarted(b, i + 1);
    }
  }

  lemma InputRegistered()
    ensures Step(OnlySubscriber(ReadyPair(), 2, None), OpRegisterInput(PUBLISHER, VIDEO_IN, Video)) == Both(false)
  {
    hide FreshStream, AssignAll, AssignPeers;
    var known := WithPeer(OnlySubscriber(ReadyPair(), 2, None), PUBLISHER);
    var peers := known.peers[PUBLISHER := WithInput(known.peers[PUBLISHER], Video, VIDEO_IN)];
    SameRouter(known.(peers := peers), Both(false));
    NobodyBound(peers);
    NobodyWatches(Both(false));
  }

  lemma StreamStarted()
    ensures Step(Both(false), OpSetStreaming(PUBLISHER, true)) == Both(true)
  {
    hide FreshStream, AssignAll;
    var peers := Both(false).peers[PUBLISHER := Publisher(false).(streaming := true)];
    SameRouter(Both(false).(peers := peers), Both(true));
    NobodyWatches(Both(true));
  }

  function Watching(): map<PeerId, PeerState>
  {
    Both(true).peers[SUBSCRIBER := Subscriber(ReadyPair()).(watched := map[PUBLISHER := 0], nextWatchOrder := 1)]
  }

  lemma WatchStarted()
    ensures Step(Both(true), OpSetWatching(SUBSCRIBER, PUBLISHER, true)) == BoundRouter({})
  {
    hide AssignPeers, ReadyPair;
    WatchServed();
    assert map[][PUBLISHER := 0] == map[PUBLISHER := 0 as nat];
    assert SetWatching(Both(true), SUBSCRIBER, PUBLISHER, true) == Both(true).(peers := AssignPeers(Watching(), {}));
  }

  lemma WatchServed()
    ensures AssignPeers(Watching(), {}) == BoundRouter({}).peers
  {
    hide ReadyPair, BindAt, StreamStep, Assign, Ordered;
    var peers := Watching();
    OneToSort(PUBLISHER);
    NothingToSort(map[]);
    PairIsBound();
    NobodyToAssign({PUBLISHER} - {PUBLISHER});
    assert Servable(peers, {}) == {PUBLISHER};
    assert AssignPeers(peers, {})[SUBSCRIBER] == BoundSubscriber();
    assert AssignPeers(peers, {})[PUBLISHER] == Publisher(true);
  }

  lemma NobodyToAssign(eligible: set<PeerId>)
    ensures Assign(Paired, Board([], []), [], eligible, {}) == Board([], [])
  {
  }

  lemma PairIsBound()
    ensures Assign(Paired, Board([ReadyPair()], []), [PUBLISHER], {PUBLISHER} - {SUBSCRIBER}, {})
            == BindAt(Board([ReadyPair()], []), 0, PUBLISHER)
  {
    hide FreshStream, BindAt, StreamStep;
    assert Assigned([ReadyPair()]) == {};
    assert FindFree(Paired, [ReadyPair()], {}, 0) == Some(0);
    assert [PUBLISHER][1..] == [];
  }

  /** The run up to the binding. */
  lemma UntilBound() returns (states: seq<Router>, ops: seq<Op>)
    ensures Run(states, ops) && states[|ops|] == BoundRouter({})
  {
    hide Step, NewHalf, BindAt;
    states, ops := UntilReady();
    InputRegistered();
    states, ops := Extend(states, ops, OnlySubscriber(ReadyPair(), 2, None), OpRegisterInput(PUBLISHER, VIDEO_IN, Video), Both(false));
    StreamStarted();
    states, ops := Extend(states, ops, Both(false), OpSetStreaming(PUBLISHER, true), Both(true));
    WatchStarted();
    states, ops := Extend(states, ops, Both(true), OpSetWatching(SUBSCRIBER, PUBLISHER, true), BoundRouter({}));
  }

  lemma UntilReady() returns (states: seq<Router>, ops: seq<Op>)
    ensures Run(states, ops) && states[|ops|] == OnlySubscriber(ReadyPair(), 2, None)
  {
    hide Step, NewHalf;
    states, ops := [NEW_ROUTER], [];
    var video := OnlySubscriber(Slot(Some(VideoHalf(false)), None, None), 1, Some(Pending(SUBSCRIBER, "v", Video, VIDEO_OUT)));
    VideoRegistered();
    states, ops := Extend(states, ops, NEW_ROUTER, OpRegisterOutput(SUBSCRIBER, "v", Video, VIDEO_OUT), video);
    var videoReady := OnlySubscriber(Slot(Some(VideoHalf(true)), None, None), 1, None);
    VideoReady();
    states, ops := Extend(states, ops, video, OpOutputReady, videoReady);
    var audio := OnlySubscriber(Slot(Some(VideoHalf(true)), Some(AudioHalf(false)), None), 2, Some(Pending(SUBSCRIBER, "a", Audio, AUDIO_OUT)));
    AudioRegistered();
    states, ops := Extend(states, ops, videoReady, OpRegisterOutput(SUBSCRIBER, "a", Audio, AUDIO_OUT), audio);
    AudioReady();
    states, ops := Extend(states, ops, audio, OpOutputReady, OnlySubscriber(ReadyPair(), 2, None));
  }

  // ---------------------------------------------------------------- a packet before its notice

  const TARGET := Flight(PUBLISHER, Video, 0, 1)

  lemma BoundFacts()
    ensures var peer := BoundSubscriber();
            var slot := peer.board.slots[0];
            && |peer.board.slots| == 1 && slot.publisher == Some(PUBLISHER)
            && slot.video.Some? && slot.video.value.ready && slot.video.value.mid == "v" && slot.video.value.rewriter == 0
            && slot.video.value.sourceGeneration == 1
            && slot.video.value.stream.timeline.generation == 1 && !slot.video.value.stream.timeline.sourceInitialized
            && slot.audio.Some? && slot.audio.value.mid == "a" && slot.audio.value.rewriter == 1
            && peer.board.notices == [Notice("v", Some(PUBLISHER)), Notice("a", Some(PUBLISHER))]
  {
  }

  lemma Snapshotted()
    ensures TARGET in Step(BoundRouter({}), OpRoute(PUBLISHER, Video, VIDEO_IN)).flights
    ensures Step(BoundRouter({}), OpRoute(PUBLISHER, Video, VIDEO_IN))
            == BoundRouter(Step(BoundRouter({}), OpRoute(PUBLISHER, Video, VIDEO_IN)).flights)
  {
    hide BoundSubscriber;
    BoundFacts();
    var peers := BoundRouter({}).peers;
    assert SUBSCRIBER in peers && peers[SUBSCRIBER].board.slots[0].publisher == Some(PUBLISHER);
    assert TARGET in Targets(peers, PUBLISHER, Video);
  }

  lemma UntilSnapshotted() returns (states: seq<Router>, ops: seq<Op>, flights: set<Flight>)
    ensures Run(states, ops) && states[|ops|] == BoundRouter(flights) && TARGET in flights
  {
    hide Step, BoundSubscriber;
    states, ops := UntilBound();
    flights := Step(BoundRouter({}), OpRoute(PUBLISHER, Video, VIDEO_IN)).flights;
    Snapshotted();
    states, ops := Extend(states, ops, BoundRouter({}), OpRoute(PUBLISHER, Video, VIDEO_IN), BoundRouter(flights));
  }

  /** In this run the subscriber's slot accepts a packet of a publisher its client has not
      been told of yet: the notice is only queued. */
  lemma PacketBeforeItsNotice() returns (states: seq<Router>, ops: seq<Op>)
    ensures Run(states, ops) && |ops| > 0 && ops[|ops| - 1].OpDeliver?
    ensures var r, n := states[|ops| - 1], states[|ops|];
            && Accepts(r, n, SUBSCRIBER, 0, Video)
            && HalfAt(r.peers, SUBSCRIBER, 0, Video).mid == "v"
            && r.peers[SUBSCRIBER].published == 0
            && !Told(Published(r.peers[SUBSCRIBER]), "v", PUBLISHER)
            && Notice("v", Some(PUBLISHER)) in Queued(r.peers[SUBSCRIBER])
  {
    hide Step, Run, StreamStep, Deliver, Inv, LockOk, BindAt;
    var flights;
    states, ops, flights := UntilSnapshotted();
    var r := BoundRouter(flights);
    RunInv(states, ops, |ops|);
    BoundFacts();
    SlotAcceptsExactly(r, TARGET, FIRST, SUBSCRIBER, 0, Video);
    DeliverIs(r, TARGET, FIRST);
    var before := |states|;
    states, ops := Extend(states, ops, r, OpDeliver(TARGET, FIRST), Deliver(r, TARGET, FIRST));
    assert states[|ops| - 1] == states[..before][|ops| - 1] == r;
    NothingTold("v", PUBLISHER);
  }

  lemma DeliverIs(r: Router, f: Flight, input: Numbers)
    requires f in r.flights
    ensures Enabled(r, OpDeliver(f, input)) && Step(r, OpDeliver(f, input)) == Deliver(r, f, input)
  {
    hide Deliver;
  }

  lemma NothingTold(mid: Mid, p: PeerId)
    ensures !Told([], mid, p)
  {
  }

  // ---------------------------------------------------------------- a splicer of a removed peer

  function Announced(r: Router, published: nat): Router
  {
    r.(peers := map[SUBSCRIBER := BoundSubscriber().(published := published), PUBLISHER := Publisher(true)])
  }

  lemma PublishOne(flights: set<Flight>, n: nat)
    requires n < 2
    ensures Enabled(Announced(BoundRouter(flights), n), OpPublish(SUBSCRIBER))
    ensures Step(Announced(BoundRouter(flights), n), OpPublish(SUBSCRIBER)) == Announced(BoundRouter(flights), n + 1)
  {
    hide BoundSubscriber;
    BoundFacts();
    SameRouter(PublishNext(Announced(BoundRouter(flights), n), SUBSCRIBER), Announced(BoundRouter(flights), n + 1));
  }

  lemma UntilTold() returns (states: seq<Router>, ops: seq<Op>, flights: set<Flight>)
    ensures Run(states, ops) && states[|ops|] == Announced(BoundRouter(flights), 2) && TARGET in flights
    ensures Idle(states[|ops|])
  {
    hide Step, BoundSubscriber, Run, Enabled;
    states, ops, flights := UntilSnapshotted();
    var r := BoundRouter(flights);
    BoundFacts();
    NothingPublished(flights);
    PublishOne(flights, 0);
    states, ops := Extend(states, ops, r, OpPublish(SUBSCRIBER), Announced(r, 1));
    PublishOne(flights, 1);
    states, ops := Extend(states, ops, Announced(r, 1), OpPublish(SUBSCRIBER), Announced(r, 2));
  }

  lemma NothingPublished(flights: set<Flight>)
    ensures Announced(BoundRouter(flights), 0) == BoundRouter(flights)
  {
    hide BindAt;
    assert BoundSubscriber().(published := 0) == BoundSubscriber();
  }

  /** In this run a splicer accepts a packet although the peer whose slot held it is gone. */
  lemma OrphanAccepts() returns (states: seq<Router>, ops: seq<Op>)
    ensures Run(states, ops) && |ops| > 0 && ops[|ops| - 1].OpDeliver?
    ensures var r, n := states[|ops| - 1], states[|ops|];
            && SUBSCRIBER !in r.peers && !Held(r.peers, 0)
            && 0 in r.orphans && 0 in n.orphans && n.orphans[0].log != r.orphans[0].log
  {
    hide Step, Run, StreamStep, Deliver, Inv, LockOk, BindAt, RemovePeer, Enabled, Idle, Held;
    var flights;
    states, ops, flights := UntilTold();
    var r := Announced(BoundRouter(flights), 2);
    RunInv(states, ops, |ops|);
    BoundFacts();
    RemovedSplicersLive(r, SUBSCRIBER, 0, Video);
    var removed := RemovePeer(r, SUBSCRIBER);
    RemoveIs(r, SUBSCRIBER);
    states, ops := Extend(states, ops, r, OpRemovePeer(SUBSCRIBER), removed);
    RunInv(states, ops, |ops|);
    OrphansAreNotHeld(removed, 0);
    DeliverIs(removed, TARGET, FIRST);
    var before := |states|;
    states, ops := Extend(states, ops, removed, OpDeliver(TARGET, FIRST), Deliver(removed, TARGET, FIRST));
    assert states[|ops| - 1] == states[..before][|ops| - 1] == removed;
    OrphansForwardForTheirOwner(states, ops, |ops| - 1, 0);
  }

  lemma RemoveIs(r: Router, id: PeerId)
    requires Idle(r)
    ensures Enabled(r, OpRemovePeer(id)) && Step(r, OpRemovePeer(id)) == RemovePeer(r, id)
  {
    hide RemovePeer, Idle;
  }

  lemma OrphansAreNotHeld(r: Router, rewriter: nat)
    requires Inv(r) && rewriter in r.orphans
    ensures !Held(r.peers, rewriter)
  {
    hide StreamInv, Safe, WorkConserving, Owned, OrphansOk, FlightsOk, HeldOnce;
  }
}
