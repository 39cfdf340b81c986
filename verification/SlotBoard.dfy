/** One subscriber's output slots, shared by the voice and the screen router: how a
    slot is bound, restarted and cleared, and how free slots are handed out.

    A slot of the screen router has a video and an audio half; a slot of the voice
    router has an audio half only. Each half owns the splicer it was created with. */
module SlotBoard {
  import opened Words
  import opened Identity
  import opened SplicerRuns
  import opened ClientBindings

  datatype Media = Video | Audio

  datatype Shape = Paired | Single

  type TrackId = nat

  datatype Half = Half(
    mid: Mid,
    track: TrackId,
    ready: bool,
    rewriter: nat,
    stream: LiveStream,
    sourceGeneration: nat)

  datatype Slot = Slot(video: Option<Half>, audio: Option<Half>, publisher: Option<PeerId>)

  /** `notices` collects the binding notices of this subscriber in order: those that went
      out and, after them, those that wait to be published. */
  datatype Board = Board(slots: seq<Slot>, notices: seq<Notice>)

  function HalfOf(slot: Slot, media: Media): Option<Half>
  {
    if media.Video? then slot.video else slot.audio
  }

  function WithHalf(slot: Slot, media: Media, half: Option<Half>): Slot
  {
    if media.Video? then slot.(video := half) else slot.(audio := half)
  }

  // ---------------------------------------------------------------- one slot

  function BeginHalf(h: Half, p: PeerId): Half
  {
    var stream := StreamStep(h.stream, Begin(p));
    h.(stream := stream, sourceGeneration := stream.timeline.generation)
  }

  function EndHalf(h: Half): Half
  {
    h.(stream := StreamStep(h.stream, End), sourceGeneration := 0)
  }

  function BeginOptional(h: Option<Half>, p: PeerId): Option<Half>
  {
    if h.Some? then Some(BeginHalf(h.value, p)) else None
  }

  function EndOptional(h: Option<Half>): Option<Half>
  {
    if h.Some? then Some(EndHalf(h.value)) else None
  }

  function HalfNotice(h: Option<Half>, p: Option<PeerId>): seq<Notice>
  {
    if h.Some? && h.value.ready then [Notice(h.value.mid, p)] else []
  }

  /** `append_pair_notices` */
  function SlotNotices(slot: Slot, p: Option<PeerId>): seq<Notice>
  {
    HalfNotice(slot.video, p) + HalfNotice(slot.audio, p)
  }

  /** Replaces one slot and queues its notices. */
  function Put(b: Board, i: nat, slot: Slot, p: Option<PeerId>): Board
    requires i < |b.slots|
  {
    Board(b.slots[i := slot], b.notices + SlotNotices(slot, p))
  }

  /** `clear_pair_locked`, and the clearing steps of the voice router. */
  function ClearAt(b: Board, i: nat): Board
    requires i < |b.slots|
  {
    var slot := b.slots[i];
    if slot.publisher.None? then b
    else Put(b, i, Slot(EndOptional(slot.video), EndOptional(slot.audio), None), None)
  }

  /** A bound publisher has a new input track: its splicer starts a new source. */
  function RestartAt(b: Board, i: nat, media: Media): Board
    requires i < |b.slots| && b.slots[i].publisher.Some?
  {
    var slot := b.slots[i];
    var p := slot.publisher.value;
    Put(b, i, WithHalf(slot, media, BeginOptional(HalfOf(slot, media), p)), Some(p))
  }

  function BindAt(b: Board, i: nat, p: PeerId): Board
    requires i < |b.slots|
  {
    var slot := b.slots[i];
    Put(b, i, Slot(BeginOptional(slot.video, p), BeginOptional(slot.audio, p), Some(p)), Some(p))
  }

  // ---------------------------------------------------------------- whole boards

  function ClearFrom(b: Board, p: PeerId, i: nat): (r: Board)
    requires i <= |b.slots|
    ensures |r.slots| == |b.slots|
    decreases |b.slots| - i
  {
    if i == |b.slots| then b
    else ClearFrom(if b.slots[i].publisher == Some(p) then ClearAt(b, i) else b, p, i + 1)
  }

  function RestartFrom(b: Board, p: PeerId, media: Media, i: nat): (r: Board)
    requires i <= |b.slots|
    ensures |r.slots| == |b.slots|
    decreases |b.slots| - i
  {
    if i == |b.slots| then b
    else RestartFrom(if b.slots[i].publisher == Some(p) then RestartAt(b, i, media) else b, p, media, i + 1)
  }

  function Assigned(slots: seq<Slot>): set<PeerId>
  {
    set i | 0 <= i < |slots| && slots[i].publisher.Some? :: slots[i].publisher.value
  }

  predicate HalfUsable(h: Option<Half>, expired: set<TrackId>)
  {
    h.Some? && h.value.ready && h.value.track !in expired
  }

  /** Every half the shape asks for is there, ready, and its track is alive. */
  predicate Usable(shape: Shape, slot: Slot, expired: set<TrackId>)
  {
    HalfUsable(slot.audio, expired) && (shape.Paired? ==> HalfUsable(slot.video, expired))
  }

  predicate Free(shape: Shape, slot: Slot, expired: set<TrackId>)
  {
    slot.publisher.None? && Usable(shape, slot, expired)
  }

  function FindFree(shape: Shape, slots: seq<Slot>, expired: set<TrackId>, from: nat): (r: Option<nat>)
    requires from <= |slots|
    ensures r.Some? ==> from <= r.value < |slots| && Free(shape, slots[r.value], expired)
    ensures r.Some? ==> forall i :: from <= i < r.value ==> !Free(shape, slots[i], expired)
    ensures r.None? ==> forall i :: from <= i < |slots| ==> !Free(shape, slots[i], expired)
    decreases |slots| - from
  {
    if from == |slots| then None
    else if Free(shape, slots[from], expired) then Some(from)
    else FindFree(shape, slots, expired, from + 1)
  }

  /** `assign_available_locked` for one subscriber: the candidates in order, each to the
      first free slot, until no slot is free. */
  function Assign(shape: Shape, b: Board, candidates: seq<PeerId>, eligible: set<PeerId>, expired: set<TrackId>): Board
    decreases |candidates|
  {
    if candidates == [] then b
    else
      var p := candidates[0];
      if p !in eligible || p in Assigned(b.slots) then Assign(shape, b, candidates[1..], eligible, expired)
      else match FindFree(shape, b.slots, expired, 0)
        case None => b
        case Some(i) => Assign(shape, BindAt(b, i, p), candidates[1..], eligible, expired)
  }

  // ---------------------------------------------------------------- what a board keeps

  ghost predicate HalfOk(h: Half, publisher: Option<PeerId>)
  {
    && StreamInv(h.stream)
    && match publisher
       case Some(p) =>
         && h.ready
         && h.sourceGeneration == h.stream.timeline.generation
         && h.sourceGeneration > 0
         && h.sourceGeneration in h.stream.owners
         && h.stream.owners[h.sourceGeneration] == p
       case None =>
         && h.sourceGeneration == 0
         && h.stream.timeline.generation !in h.stream.owners
  }

  predicate Complete(shape: Shape, slot: Slot)
  {
    slot.audio.Some? && (slot.video.Some? <==> shape.Paired?)
  }

  /** A bound slot is complete and ready, and its splicers run for its publisher; the
      splicers of an unbound slot run for nobody. */
  ghost predicate SlotOk(shape: Shape, slot: Slot)
  {
    && (slot.publisher.Some? ==> Complete(shape, slot))
    && (shape.Single? ==> slot.video.None?)
    && (slot.video.Some? ==> HalfOk(slot.video.value, slot.publisher))
    && (slot.audio.Some? ==> HalfOk(slot.audio.value, slot.publisher))
  }

  predicate DistinctPublishers(slots: seq<Slot>)
  {
    forall i, j :: 0 <= i < j < |slots| && slots[i].publisher.Some? ==> slots[i].publisher != slots[j].publisher
  }

  /** The slots are sound, no publisher has two of them, and while the mids of the
      session are distinct the client's map is the router's. */
  ghost predicate BoardOk(shape: Shape, b: Board)
  {
    && (forall i :: 0 <= i < |b.slots| ==> SlotOk(shape, b.slots[i]))
    && DistinctPublishers(b.slots)
    && (DistinctMids(b.slots) ==> Agrees(b))
  }

  /** The splicer of a half moves on: no generation is ever reused for someone else. */
  predicate HalfEvolves(a: Half, b: Half)
  {
    && b.mid == a.mid && b.track == a.track && b.rewriter == a.rewriter && (a.ready ==> b.ready)
    && b.stream.log == a.stream.log && Make(b.stream) == Make(a.stream)
    && a.stream.timeline.generation <= b.stream.timeline.generation
    && (forall g :: g in a.stream.owners ==> g in b.stream.owners && b.stream.owners[g] == a.stream.owners[g])
    && (forall g :: g in b.stream.owners && g <= a.stream.timeline.generation ==> g in a.stream.owners)
  }

  predicate OptionalEvolves(a: Option<Half>, b: Option<Half>)
  {
    (a.Some? <==> b.Some?) && (a.Some? ==> HalfEvolves(a.value, b.value))
  }

  predicate SlotEvolves(a: Slot, b: Slot)
  {
    OptionalEvolves(a.video, b.video) && OptionalEvolves(a.audio, b.audio)
  }

  predicate BoardEvolves(a: Board, b: Board)
    ensures BoardEvolves(a, b) ==> a.notices <= b.notices
  {
    && |a.slots| == |b.slots| && a.notices <= b.notices
    && forall i :: 0 <= i < |a.slots| ==> SlotEvolves(a.slots[i], b.slots[i])
  }

  // ---------------------------------------------------------------- what the client sees

  predicate Shows(slot: Slot, mid: Mid, p: PeerId)
  {
    && slot.publisher == Some(p)
    && ((slot.video.Some? && slot.video.value.mid == mid) || (slot.audio.Some? && slot.audio.value.mid == mid))
  }

  predicate HasMid(slot: Slot, mid: Mid)
  {
    (slot.video.Some? && slot.video.value.mid == mid) || (slot.audio.Some? && slot.audio.value.mid == mid)
  }

  /** Section 4 of RFC 5888: a mid names one media section of the session. */
  ghost predicate DistinctMids(slots: seq<Slot>)
  {
    && (forall i :: 0 <= i < |slots| && slots[i].video.Some? && slots[i].audio.Some? ==>
          slots[i].video.value.mid != slots[i].audio.value.mid)
    && (forall i, j, mid :: 0 <= i < j < |slots| && HasMid(slots[i], mid) ==> !HasMid(slots[j], mid))
  }

  /** All notices, folded, are exactly the map from the mids of bound slots to publishers. */
  ghost predicate Agrees(b: Board)
  {
    forall mid, p :: Told(b.notices, mid, p) <==> Shown(b.slots, mid, p)
  }

  predicate Told(sent: seq<Notice>, mid: Mid, p: PeerId)
  {
    mid in Fold(sent) && Fold(sent)[mid] == p
  }

  predicate Shown(slots: seq<Slot>, mid: Mid, p: PeerId)
  {
    exists i :: 0 <= i < |slots| && Shows(slots[i], mid, p)
  }

  // ---------------------------------------------------------------- one step

  /** Everything a step from one board to another must keep. */
  ghost predicate Keeps(shape: Shape, a: Board, b: Board)
    ensures Keeps(shape, a, b) ==> a.notices <= b.notices
  {
    BoardEvolves(a, b) && (BoardOk(shape, a) ==> BoardOk(shape, b))
  }

  lemma KeepsSelf(shape: Shape, a: Board)
    ensures Keeps(shape, a, a)
  {
  }

  lemma EvolvesTransitive(a: Board, b: Board, c: Board)
    requires BoardEvolves(a, b) && BoardEvolves(b, c)
    ensures BoardEvolves(a, c)
  {
    forall i | 0 <= i < |a.slots| ensures SlotEvolves(a.slots[i], c.slots[i]) {
      assert SlotEvolves(a.slots[i], b.slots[i]) && SlotEvolves(b.slots[i], c.slots[i]);
    }
  }

  lemma KeepsTransitive(shape: Shape, a: Board, b: Board, c: Board)
    requires Keeps(shape, a, b) && Keeps(shape, b, c)
    ensures Keeps(shape, a, c)
  {
    EvolvesTransitive(a, b, c);
  }

  lemma BeginHalfKeeps(h: Half, p: PeerId)
    requires StreamInv(h.stream)
    ensures HalfEvolves(h, BeginHalf(h, p)) && (h.ready ==> HalfOk(BeginHalf(h, p), Some(p)))
  {
    hide StreamInv, StreamStep;
    BumpOwners(h.stream, Begin(p));
  }

  lemma EndHalfKeeps(h: Half)
    requires StreamInv(h.stream)
    ensures HalfEvolves(h, EndHalf(h)) && HalfOk(EndHalf(h), None)
  {
    hide StreamInv, StreamStep;
    BumpOwners(h.stream, End);
  }

  // ---------------------------------------------------------------- the client's map

  /** Every half of the slot is ready, so its notices reach all of its mids. */
  predicate AllReady(slot: Slot)
  {
    (slot.video.Some? ==> slot.video.value.ready) && (slot.audio.Some? ==> slot.audio.value.ready)
  }

  lemma FoldHalf(sent: seq<Notice>, h: Option<Half>, p: Option<PeerId>, mid: Mid, q: PeerId)
    requires h.Some? ==> h.value.ready
    ensures Told(sent + HalfNotice(h, p), mid, q)
            <==> if h.Some? && h.value.mid == mid then p == Some(q) else Told(sent, mid, q)
  {
    FoldAppend(sent, HalfNotice(h, p));
    if h.Some? {
      var ns := HalfNotice(h, p);
      assert ns[..0] == [];
    } else {
      assert sent + HalfNotice(h, p) == sent;
    }
  }

  lemma FoldSlot(sent: seq<Notice>, slot: Slot, p: Option<PeerId>, mid: Mid, q: PeerId)
    requires AllReady(slot)
    ensures Told(sent + SlotNotices(slot, p), mid, q)
            <==> if HasMid(slot, mid) then p == Some(q) else Told(sent, mid, q)
  {
    hide Told;
    var first := sent + HalfNotice(slot.video, p);
    FoldHalf(sent, slot.video, p, mid, q);
    FoldHalf(first, slot.audio, p, mid, q);
    assert sent + SlotNotices(slot, p) == first + HalfNotice(slot.audio, p);
  }

  /** Replacing a slot and telling the client about it keeps the two in agreement. */
  lemma PutAgrees(b: Board, i: nat, slot: Slot, p: Option<PeerId>)
    requires i < |b.slots| && SlotEvolves(b.slots[i], slot) && slot.publisher == p && AllReady(slot)
    requires DistinctMids(b.slots) && Agrees(b)
    ensures Agrees(Put(b, i, slot, p))
  {
    var r := Put(b, i, slot, p);
    forall mid, q ensures Told(r.notices, mid, q) <==> Shown(r.slots, mid, q) {
      FoldSlot(b.notices, slot, p, mid, q);
      assert HasMid(slot, mid) <==> HasMid(b.slots[i], mid);
      assert Told(b.notices, mid, q) <==> Shown(b.slots, mid, q);
      PutShown(b.slots, i, slot, mid, q);
    }
  }

  lemma PutShown(slots: seq<Slot>, i: nat, slot: Slot, mid: Mid, q: PeerId)
    requires i < |slots| && DistinctMids(slots)
    requires HasMid(slot, mid) <==> HasMid(slots[i], mid)
    ensures Shown(slots[i := slot], mid, q)
            <==> if HasMid(slot, mid) then slot.publisher == Some(q) else Shown(slots, mid, q)
  {
    var r := slots[i := slot];
    if HasMid(slot, mid) {
      assert Shown(r, mid, q) <==> slot.publisher == Some(q) by {
        if slot.publisher == Some(q) {
          assert Shows(r[i], mid, q);
        }
        if Shown(r, mid, q) {
          var j :| 0 <= j < |r| && Shows(r[j], mid, q);
          assert j != i ==> HasMid(slots[j], mid);
        }
      }
    } else {
      if Shown(slots, mid, q) {
        var j :| 0 <= j < |slots| && Shows(slots[j], mid, q);
        assert j != i && Shows(r[j], mid, q);
      }
      if Shown(r, mid, q) {
        var j :| 0 <= j < |r| && Shows(r[j], mid, q);
        assert j != i && Shows(slots[j], mid, q);
      }
    }
  }

  /** What all notices tell, the published ones tell or a queued one will. */
  lemma {:induction false} ToldOrQueued(published: seq<Notice>, queued: seq<Notice>, mid: Mid, p: PeerId)
    requires Told(published + queued, mid, p)
    ensures Told(published, mid, p) || Notice(mid, Some(p)) in queued
    decreases |queued|
  {
    if queued == [] {
      assert published + queued == published;
    } else {
      var n := |queued| - 1;
      assert (published + queued)[..|published| + n] == published + queued[..n];
      if Told(published + queued[..n], mid, p) {
        ToldOrQueued(published, queued[..n], mid, p);
      } else {
        assert queued[n] == Notice(mid, Some(p));
      }
    }
  }

  // ---------------------------------------------------------------- the three steps keep everything

  /** Replacing a slot by one with the same mids leaves them as distinct as they were. */
  lemma PutMids(slots: seq<Slot>, i: nat, slot: Slot)
    requires i < |slots| && SlotEvolves(slots[i], slot) && DistinctMids(slots[i := slot])
    ensures DistinctMids(slots)
  {
    var r := slots[i := slot];
    assert forall mid :: HasMid(slot, mid) <==> HasMid(slots[i], mid);
    forall j, k, mid | 0 <= j < k < |slots| && HasMid(slots[j], mid) ensures !HasMid(slots[k], mid) {
      assert HasMid(r[j], mid);
      assert !HasMid(r[k], mid);
    }
    forall j | 0 <= j < |slots| && slots[j].video.Some? && slots[j].audio.Some?
      ensures slots[j].video.value.mid != slots[j].audio.value.mid
    {
      assert r[j].video.Some? && r[j].audio.Some?;
    }
  }

  lemma PutKeeps(shape: Shape, b: Board, i: nat, slot: Slot, p: Option<PeerId>)
    requires i < |b.slots| && SlotEvolves(b.slots[i], slot) && slot.publisher == p
    requires BoardOk(shape, b) ==> SlotOk(shape, slot) && AllReady(slot)
    requires p.Some? ==> forall j :: 0 <= j < |b.slots| && j != i ==> b.slots[j].publisher != p
    ensures Keeps(shape, b, Put(b, i, slot, p))
  {
    hide SlotEvolves, SlotOk, AllReady, DistinctMids, Agrees;
    var r := Put(b, i, slot, p);
    assert BoardEvolves(b, r) by {
      forall j | 0 <= j < |b.slots| ensures SlotEvolves(b.slots[j], r.slots[j]) {
        SelfEvolves(b.slots[j]);
      }
    }
    if BoardOk(shape, b) && DistinctMids(r.slots) {
      PutMids(b.slots, i, slot);
      PutAgrees(b, i, slot, p);
    }
  }

  lemma SelfEvolves(slot: Slot)
    ensures SlotEvolves(slot, slot)
  {
  }

  lemma ClearAtKeeps(shape: Shape, b: Board, i: nat)
    requires i < |b.slots| && BoardOk(shape, b)
    ensures Keeps(shape, b, ClearAt(b, i))
    ensures ClearAt(b, i).slots[i].publisher.None?
    ensures forall j :: 0 <= j < |b.slots| && j != i ==> ClearAt(b, i).slots[j] == b.slots[j]
  {
    hide StreamStep, StreamInv, SlotOk, SlotEvolves, Agrees, DistinctMids, Keeps, EndOptional;
    var slot := b.slots[i];
    if slot.publisher.None? {
      KeepsSelf(shape, b);
    } else {
      assert SlotOk(shape, slot);
      EndSlot(shape, slot);
      PutKeeps(shape, b, i, Slot(EndOptional(slot.video), EndOptional(slot.audio), None), None);
    }
  }

  lemma EndSlot(shape: Shape, slot: Slot)
    requires SlotOk(shape, slot) && slot.publisher.Some?
    ensures var r := Slot(EndOptional(slot.video), EndOptional(slot.audio), None);
            SlotEvolves(slot, r) && SlotOk(shape, r) && AllReady(r)
  {
    hide StreamInv, StreamStep;
    if slot.video.Some? {
      EndHalfKeeps(slot.video.value);
    }
    if slot.audio.Some? {
      EndHalfKeeps(slot.audio.value);
    }
  }

  lemma BeginSlot(shape: Shape, slot: Slot, p: PeerId)
    requires SlotOk(shape, slot) && Complete(shape, slot) && AllReady(slot)
    ensures var r := Slot(BeginOptional(slot.video, p), BeginOptional(slot.audio, p), Some(p));
            SlotEvolves(slot, r) && SlotOk(shape, r) && AllReady(r)
  {
    hide StreamInv, StreamStep;
    if slot.video.Some? {
      BeginHalfKeeps(slot.video.value, p);
    }
    BeginHalfKeeps(slot.audio.value, p);
  }

  lemma RestartSlot(shape: Shape, slot: Slot, media: Media, p: PeerId)
    requires SlotOk(shape, slot) && slot.publisher == Some(p)
    ensures var r := WithHalf(slot, media, BeginOptional(HalfOf(slot, media), p));
            SlotEvolves(slot, r) && SlotOk(shape, r) && AllReady(r)
  {
    hide StreamInv, StreamStep;
    SelfEvolves(slot);
    if HalfOf(slot, media).Some? {
      BeginHalfKeeps(HalfOf(slot, media).value, p);
    }
  }

  lemma SamePublisherOnce(b: Board, i: nat)
    requires i < |b.slots| && DistinctPublishers(b.slots) && b.slots[i].publisher.Some?
    ensures forall j :: 0 <= j < |b.slots| && j != i ==> b.slots[j].publisher != b.slots[i].publisher
  {
  }

  lemma FreeSlot(shape: Shape, slot: Slot, expired: set<TrackId>)
    requires SlotOk(shape, slot) && Free(shape, slot, expired)
    ensures Complete(shape, slot) && AllReady(slot)
  {
  }

  lemma RestartAtKeeps(shape: Shape, b: Board, i: nat, media: Media)
    requires i < |b.slots| && BoardOk(shape, b) && b.slots[i].publisher.Some?
    ensures Keeps(shape, b, RestartAt(b, i, media))
    ensures RestartAt(b, i, media).slots[i].publisher == b.slots[i].publisher
    ensures forall j :: 0 <= j < |b.slots| && j != i ==> RestartAt(b, i, media).slots[j] == b.slots[j]
  {
    hide StreamStep, StreamInv, SlotOk, SlotEvolves, Agrees, DistinctMids, Keeps, BeginOptional;
    var slot := b.slots[i];
    var p := slot.publisher.value;
    assert SlotOk(shape, slot);
    SamePublisherOnce(b, i);
    RestartSlot(shape, slot, media, p);
    PutKeeps(shape, b, i, WithHalf(slot, media, BeginOptional(HalfOf(slot, media), p)), Some(p));
  }

  lemma BindAtKeeps(shape: Shape, b: Board, i: nat, p: PeerId, expired: set<TrackId>)
    requires i < |b.slots| && BoardOk(shape, b) && Free(shape, b.slots[i], expired) && p !in Assigned(b.slots)
    ensures Keeps(shape, b, BindAt(b, i, p))
    ensures BindAt(b, i, p).slots[i].publisher == Some(p)
    ensures forall j :: 0 <= j < |b.slots| && j != i ==> BindAt(b, i, p).slots[j] == b.slots[j]
  {
    hide StreamStep, StreamInv, SlotOk, SlotEvolves, Agrees, DistinctMids, Keeps, BeginOptional, Complete, AllReady;
    var slot := b.slots[i];
    assert SlotOk(shape, slot);
    FreeSlot(shape, slot, expired);
    BeginSlot(shape, slot, p);
    forall j | 0 <= j < |b.slots| ensures b.slots[j].publisher != Some(p) {
      assert b.slots[j].publisher.Some? ==> b.slots[j].publisher.value in Assigned(b.slots);
    }
    PutKeeps(shape, b, i, Slot(BeginOptional(slot.video, p), BeginOptional(slot.audio, p), Some(p)), Some(p));
  }

  // ---------------------------------------------------------------- whole boards keep everything

  lemma {:induction false} ClearFromKeeps(shape: Shape, b: Board, p: PeerId, i: nat)
    requires i <= |b.slots| && BoardOk(shape, b)
    ensures var r := ClearFrom(b, p, i);
            && Keeps(shape, b, r)
            && (forall j :: 0 <= j < i ==> r.slots[j].publisher == b.slots[j].publisher)
            && (forall j :: i <= j < |b.slots| ==>
                  r.slots[j].publisher == if b.slots[j].publisher == Some(p) then None else b.slots[j].publisher)
    decreases |b.slots| - i
  {
    hide Keeps, SlotOk, SlotEvolves, ClearAt;
    KeepsSelf(shape, b);
    if i < |b.slots| {
      ClearAtKeeps(shape, b, i);
      var next := if b.slots[i].publisher == Some(p) then ClearAt(b, i) else b;
      KeepsOk(shape, b, next);
      ClearFromKeeps(shape, next, p, i + 1);
      KeepsTransitive(shape, b, next, ClearFrom(b, p, i));
    }
  }

  lemma KeepsOk(shape: Shape, a: Board, b: Board)
    requires Keeps(shape, a, b) && BoardOk(shape, a)
    ensures BoardOk(shape, b) && |a.slots| == |b.slots|
  {
  }

  lemma {:induction false} RestartFromKeeps(shape: Shape, b: Board, p: PeerId, media: Media, i: nat)
    requires i <= |b.slots| && BoardOk(shape, b)
    ensures var r := RestartFrom(b, p, media, i);
            && Keeps(shape, b, r)
            && (forall j :: 0 <= j < |b.slots| ==> r.slots[j].publisher == b.slots[j].publisher)
    decreases |b.slots| - i
  {
    hide Keeps, SlotOk, SlotEvolves, RestartAt;
    KeepsSelf(shape, b);
    if i < |b.slots| {
      if b.slots[i].publisher == Some(p) {
        RestartAtKeeps(shape, b, i, media);
      }
      var next := if b.slots[i].publisher == Some(p) then RestartAt(b, i, media) else b;
      KeepsOk(shape, b, next);
      RestartFromKeeps(shape, next, p, media, i + 1);
      KeepsTransitive(shape, b, next, RestartFrom(b, p, media, i));
    }
  }

  function Wanted(candidates: seq<PeerId>, eligible: set<PeerId>): set<PeerId>
  {
    set p | p in candidates && p in eligible
  }

  /** No slot is free while a candidate is left out. */
  predicate Conserving(shape: Shape, slots: seq<Slot>, wanted: set<PeerId>, expired: set<TrackId>)
  {
    wanted <= Assigned(slots) || forall i :: 0 <= i < |slots| ==> !Free(shape, slots[i], expired)
  }

  lemma AssignedAfterBind(b: Board, i: nat, p: PeerId, after: Board)
    requires i < |b.slots| == |after.slots| && b.slots[i].publisher.None?
    requires after.slots[i].publisher == Some(p)
    requires forall j :: 0 <= j < |b.slots| && j != i ==> after.slots[j] == b.slots[j]
    ensures Assigned(after.slots) == Assigned(b.slots) + {p}
  {
    forall q ensures q in Assigned(after.slots) <==> q in Assigned(b.slots) + {p} {
      if q in Assigned(b.slots) {
        var j :| 0 <= j < |b.slots| && b.slots[j].publisher.Some? && b.slots[j].publisher.value == q;
        assert after.slots[j] == b.slots[j];
      }
      if q == p {
        assert after.slots[i].publisher.value == q;
      }
    }
  }

  /** Handing out slots serves candidates in order, binds nobody else, unbinds nobody,
      and stops only when everyone is served or no slot is free. */
  lemma {:induction false} AssignKeeps(shape: Shape, b: Board, candidates: seq<PeerId>, eligible: set<PeerId>, expired: set<TrackId>)
    requires BoardOk(shape, b)
    ensures var r := Assign(shape, b, candidates, eligible, expired);
            var wanted := Wanted(candidates, eligible);
            && Keeps(shape, b, r)
            && Assigned(b.slots) <= Assigned(r.slots) <= Assigned(b.slots) + wanted
            && Conserving(shape, r.slots, wanted, expired)
    decreases |candidates|
  {
    hide Keeps, SlotOk, BindAt, BoardOk, Free, Assigned;
    KeepsSelf(shape, b);
    var r := Assign(shape, b, candidates, eligible, expired);
    var wanted := Wanted(candidates, eligible);
    if candidates != [] {
      var p, rest := candidates[0], candidates[1..];
      var later := Wanted(rest, eligible);
      assert forall q :: q in candidates <==> q == p || q in rest;
      if p !in eligible || p in Assigned(b.slots) {
        AssignKeeps(shape, b, rest, eligible, expired);
        assert later <= wanted <= later + Assigned(b.slots);
      } else {
        var i := FindFree(shape, b.slots, expired, 0);
        if i.Some? {
          var next := BindAt(b, i.value, p);
          FreeIsUnbound(shape, b.slots[i.value], expired);
          BindAtKeeps(shape, b, i.value, p, expired);
          KeepsOk(shape, b, next);
          AssignedAfterBind(b, i.value, p, next);
          AssignKeeps(shape, next, rest, eligible, expired);
          KeepsTransitive(shape, b, next, r);
          assert wanted == later + {p};
        }
      }
    }
  }

  lemma FreeIsUnbound(shape: Shape, slot: Slot, expired: set<TrackId>)
    requires Free(shape, slot, expired)
    ensures slot.publisher.None?
  {
  }

  lemma {:induction false} AssignGrows(shape: Shape, b: Board, candidates: seq<PeerId>, eligible: set<PeerId>, expired: set<TrackId>)
    ensures Assigned(b.slots) <= Assigned(Assign(shape, b, candidates, eligible, expired).slots)
    decreases |candidates|
  {
    hide Assigned, Free;
    if candidates != [] {
      var p, rest := candidates[0], candidates[1..];
      var i := FindFree(shape, b.slots, expired, 0);
      AssignGrows(shape, b, rest, eligible, expired);
      if i.Some? {
        FreeIsUnbound(shape, b.slots[i.value], expired);
        AssignedAfterBind(b, i.value, p, BindAt(b, i.value, p));
        AssignGrows(shape, BindAt(b, i.value, p), rest, eligible, expired);
      }
    }
  }

  /** First come, first served: nobody gets a slot while an earlier candidate waits. */
  lemma {:induction false} AssignServesInOrder(
    shape: Shape, b: Board, candidates: seq<PeerId>, eligible: set<PeerId>, expired: set<TrackId>, i: nat, j: nat)
    requires i < j < |candidates| && candidates[i] in eligible
    requires forall k, l :: 0 <= k < l < |candidates| ==> candidates[k] != candidates[l]
    requires candidates[j] !in Assigned(b.slots)
    requires candidates[j] in Assigned(Assign(shape, b, candidates, eligible, expired).slots)
    ensures candidates[i] in Assigned(Assign(shape, b, candidates, eligible, expired).slots)
    decreases |candidates|
  {
    hide Assigned, Free;
    var p, rest := candidates[0], candidates[1..];
    var slot := FindFree(shape, b.slots, expired, 0);
    AssignGrows(shape, b, candidates, eligible, expired);
    if p !in eligible || p in Assigned(b.slots) {
      if i > 0 {
        AssignServesInOrder(shape, b, rest, eligible, expired, i - 1, j - 1);
      }
    } else if slot.Some? {
      var next := BindAt(b, slot.value, p);
      FreeIsUnbound(shape, b.slots[slot.value], expired);
      AssignedAfterBind(b, slot.value, p, next);
      AssignGrows(shape, next, rest, eligible, expired);
      if i > 0 {
        AssignServesInOrder(shape, next, rest, eligible, expired, i - 1, j - 1);
      }
    }
  }

  /** A conserving board has nothing left to hand out. */
  lemma {:induction false} ConservingIsFixed(shape: Shape, b: Board, candidates: seq<PeerId>, eligible: set<PeerId>, expired: set<TrackId>)
    requires Conserving(shape, b.slots, Wanted(candidates, eligible), expired)
    ensures Assign(shape, b, candidates, eligible, expired) == b
    decreases |candidates|
  {
    if candidates != [] {
      var rest := candidates[1..];
      assert forall q :: q in rest ==> q in candidates;
      assert candidates[0] in candidates;
      ConservingIsFixed(shape, b, rest, eligible, expired);
    }
  }

  // ---------------------------------------------------------------- changes the client is not told of

  predicate KeepsMid(a: Option<Half>, b: Option<Half>)
  {
    a.Some? ==> b.Some? && b.value.mid == a.value.mid
  }

  /** The slot may gain a mid, but only while it is unbound. */
  predicate QuietSlot(a: Slot, b: Slot)
  {
    && a.publisher == b.publisher
    && KeepsMid(a.video, b.video) && KeepsMid(a.audio, b.audio)
    && (a.publisher.Some? ==> KeepsMid(b.video, a.video) && KeepsMid(b.audio, a.audio))
  }

  predicate QuietBoard(a: Board, b: Board)
  {
    && |a.slots| <= |b.slots| && a.notices == b.notices
    && (forall i :: 0 <= i < |a.slots| ==> QuietSlot(a.slots[i], b.slots[i]))
    && (forall i :: |a.slots| <= i < |b.slots| ==> b.slots[i].publisher.None?)
  }

  lemma QuietMids(a: Board, b: Board)
    requires QuietBoard(a, b) && DistinctMids(b.slots)
    ensures DistinctMids(a.slots)
  {
    forall j | 0 <= j < |a.slots| && a.slots[j].video.Some? && a.slots[j].audio.Some?
      ensures a.slots[j].video.value.mid != a.slots[j].audio.value.mid
    {
      assert QuietSlot(a.slots[j], b.slots[j]);
    }
    forall j, k, mid | 0 <= j < k < |a.slots| && HasMid(a.slots[j], mid) ensures !HasMid(a.slots[k], mid) {
      assert QuietSlot(a.slots[j], b.slots[j]) && QuietSlot(a.slots[k], b.slots[k]);
      assert HasMid(b.slots[j], mid) && !HasMid(b.slots[k], mid);
    }
  }

  lemma QuietAgrees(a: Board, b: Board)
    requires QuietBoard(a, b) && (DistinctMids(a.slots) ==> Agrees(a))
    ensures DistinctMids(b.slots) ==> Agrees(b)
  {
    if DistinctMids(b.slots) {
      QuietMids(a, b);
      forall mid, p ensures Told(b.notices, mid, p) <==> Shown(b.slots, mid, p) {
        assert Told(a.notices, mid, p) <==> Shown(a.slots, mid, p);
        if Shown(a.slots, mid, p) {
          var i :| 0 <= i < |a.slots| && Shows(a.slots[i], mid, p);
          assert QuietSlot(a.slots[i], b.slots[i]) && Shows(b.slots[i], mid, p);
        }
        if Shown(b.slots, mid, p) {
          var i :| 0 <= i < |b.slots| && Shows(b.slots[i], mid, p);
          assert QuietSlot(a.slots[i], b.slots[i]) && Shows(a.slots[i], mid, p);
        }
      }
    }
  }
}
