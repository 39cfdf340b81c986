/** What one change of a board does to each of its slots, and what it leaves alone. */
module BoardEffects {
  import opened Words
  import opened Identity
  import opened SplicerRuns
  import opened ClientBindings
  import opened SlotBoard

  /** The same half, with the same source; packets may have gone through its splicer. */
  predicate SameSource(a: Half, b: Half)
  {
    && b.mid == a.mid && b.track == a.track && b.ready == a.ready && b.rewriter == a.rewriter
    && b.sourceGeneration == a.sourceGeneration
    && b.stream.timeline.generation == a.stream.timeline.generation
    && b.stream.owners == a.stream.owners
  }

  predicate SameSources(a: Slot, b: Slot)
  {
    && b.publisher == a.publisher
    && (a.video.Some? <==> b.video.Some?) && (a.video.Some? ==> SameSource(a.video.value, b.video.value))
    && (a.audio.Some? <==> b.audio.Some?) && (a.audio.Some? ==> SameSource(a.audio.value, b.audio.value))
  }

  /** The same half at the start of a source of `p`: a larger generation that belongs to
      `p`, and no packet of it yet. What was sent stays sent. */
  predicate NewSource(a: Half, b: Half, p: PeerId)
  {
    && b.mid == a.mid && b.track == a.track && b.ready == a.ready && b.rewriter == a.rewriter
    && b.stream.timeline.generation > a.stream.timeline.generation
    && !b.stream.timeline.sourceInitialized
    && b.sourceGeneration == b.stream.timeline.generation
    && b.sourceGeneration in b.stream.owners && b.stream.owners[b.sourceGeneration] == p
    && b.stream.log == a.stream.log
    && b.stream.timeline.latestOutput == a.stream.timeline.latestOutput
    && b.stream.timeline.timestampStep == a.stream.timeline.timestampStep
  }

  /** At the start of a source every sequence number is heard. */
  lemma NewSourceIs(a: Half, b: Half, p: PeerId)
    requires NewSource(a, b, p)
    ensures b.stream.timeline.generation > a.stream.timeline.generation && b.sourceGeneration == b.stream.timeline.generation
    ensures b.sourceGeneration in b.stream.owners && b.stream.owners[b.sourceGeneration] == p && b.stream.log == a.stream.log
    ensures forall sequence :: Hears(b.stream.timeline, b.sourceGeneration, sequence)
  {
  }

  lemma BeginsNewSource(h: Half, p: PeerId)
    requires StreamInv(h.stream)
    ensures NewSource(h, BeginHalf(h, p), p)
  {
    hide StreamInv;
    BumpOwners(h.stream, Begin(p));
  }

  /** A track that is there and whose last reference is not gone. */
  predicate Alive(track: Option<TrackId>, expired: set<TrackId>)
  {
    track.Some? && track.value !in expired
  }

  /** One of the slots is bound to `p`. */
  predicate Carries(slots: seq<Slot>, p: PeerId)
  {
    exists i :: 0 <= i < |slots| && slots[i].publisher == Some(p)
  }

  lemma CarriesAssigned(slots: seq<Slot>, p: PeerId)
    ensures Carries(slots, p) <==> p in Assigned(slots)
  {
    if Carries(slots, p) {
      var i :| 0 <= i < |slots| && slots[i].publisher == Some(p);
      assert slots[i].publisher.value == p;
    }
  }

  // ---------------------------------------------------------------- handing out slots

  /** A slot that got its publisher now was free, and both halves start a source of it. */
  ghost predicate NewlyBound(shape: Shape, a: Slot, b: Slot, expired: set<TrackId>)
  {
    && a.publisher.None? && b.publisher.Some?
    && LiveHalf(a.audio, expired) && (shape.Paired? ==> LiveHalf(a.video, expired))
    && (a.audio.Some? <==> b.audio.Some?) && (a.video.Some? <==> b.video.Some?)
    && (a.audio.Some? ==> NewSource(a.audio.value, b.audio.value, b.publisher.value))
    && (a.video.Some? ==> NewSource(a.video.value, b.video.value, b.publisher.value))
  }

  /** The half is there, is ready, and its track is alive. */
  predicate LiveHalf(h: Option<Half>, expired: set<TrackId>)
  {
    h.Some? && h.value.ready && h.value.track !in expired
  }

  lemma BindsSlot(shape: Shape, b: Board, i: nat, p: PeerId, expired: set<TrackId>)
    requires i < |b.slots| && BoardOk(shape, b) && Free(shape, b.slots[i], expired)
    ensures NewlyBound(shape, b.slots[i], BindAt(b, i, p).slots[i], expired)
  {
    hide StreamInv, StreamStep, NewSource, Agrees, DistinctMids;
    var slot := b.slots[i];
    assert SlotOk(shape, slot);
    if slot.video.Some? {
      BeginsNewSource(slot.video.value, p);
    }
    if slot.audio.Some? {
      BeginsNewSource(slot.audio.value, p);
    }
  }

  /** Handing out slots leaves every bound slot alone; a slot that stays unbound is as it
      was, and one that is bound now was free and went to a candidate. */
  lemma {:induction false} AssignTouchesFree(
    shape: Shape, b: Board, candidates: seq<PeerId>, eligible: set<PeerId>, expired: set<TrackId>)
    requires BoardOk(shape, b)
    ensures var r := Assign(shape, b, candidates, eligible, expired);
            && |r.slots| == |b.slots|
            && forall j :: 0 <= j < |b.slots| ==>
                 || r.slots[j] == b.slots[j]
                 || (NewlyBound(shape, b.slots[j], r.slots[j], expired)
                     && r.slots[j].publisher.value in candidates && r.slots[j].publisher.value in eligible)
    decreases |candidates|
  {
    hide BoardOk, Free, Assigned, BindAt, NewlyBound;
    if candidates != [] {
      var p, rest := candidates[0], candidates[1..];
      assert forall q :: q in rest ==> q in candidates;
      var i := FindFree(shape, b.slots, expired, 0);
      if p !in eligible || p in Assigned(b.slots) {
        AssignTouchesFree(shape, b, rest, eligible, expired);
      } else if i.Some? {
        var next := BindAt(b, i.value, p);
        BindAtKeeps(shape, b, i.value, p, expired);
        KeepsOk(shape, b, next);
        BindsSlot(shape, b, i.value, p, expired);
        AssignTouchesFree(shape, next, rest, eligible, expired);
        BoundStays(shape, next, Assign(shape, b, candidates, eligible, expired), i.value, expired);
      }
    }
  }

  lemma BoundStays(shape: Shape, a: Board, b: Board, i: nat, expired: set<TrackId>)
    requires i < |a.slots| && |b.slots| == |a.slots| && a.slots[i].publisher.Some?
    requires b.slots[i] == a.slots[i] || NewlyBound(shape, a.slots[i], b.slots[i], expired)
    ensures b.slots[i] == a.slots[i]
  {
    hide NewSource, LiveHalf;
  }

  /** The slot is unbound and each half it needs is live. */
  predicate Waiting(shape: Shape, slot: Slot, expired: set<TrackId>)
  {
    slot.publisher.None? && LiveHalf(slot.audio, expired) && (shape.Paired? ==> LiveHalf(slot.video, expired))
  }

  lemma WaitingIsFree(shape: Shape, slot: Slot, expired: set<TrackId>)
    ensures Waiting(shape, slot, expired) <==> Free(shape, slot, expired)
  {
  }

  /** Slots are used from the front: before a newly bound slot none is left waiting. */
  lemma {:induction false} FrontSlotsFirst(
    shape: Shape, b: Board, candidates: seq<PeerId>, eligible: set<PeerId>, expired: set<TrackId>, j: nat, k: nat)
    requires BoardOk(shape, b) && j < k < |b.slots|
    requires var r := Assign(shape, b, candidates, eligible, expired);
             |r.slots| == |b.slots| && r.slots[k] != b.slots[k]
    ensures !Waiting(shape, Assign(shape, b, candidates, eligible, expired).slots[j], expired)
    decreases |candidates|
  {
    hide BoardOk, Free, Assigned, BindAt, NewlyBound, Waiting;
    var r := Assign(shape, b, candidates, eligible, expired);
    AssignTouchesFree(shape, b, candidates, eligible, expired);
    if candidates != [] {
      var p, rest := candidates[0], candidates[1..];
      var i := FindFree(shape, b.slots, expired, 0);
      if p !in eligible || p in Assigned(b.slots) {
        FrontSlotsFirst(shape, b, rest, eligible, expired, j, k);
      } else if i.Some? {
        var next := BindAt(b, i.value, p);
        BindAtKeeps(shape, b, i.value, p, expired);
        KeepsOk(shape, b, next);
        AssignTouchesFree(shape, next, rest, eligible, expired);
        if k == i.value {
          WaitingIsFree(shape, b.slots[j], expired);
          StaysNotWaiting(shape, b.slots[j], r.slots[j], expired);
        } else {
          FrontSlotsFirst(shape, next, rest, eligible, expired, j, k);
        }
      }
    }
  }

  lemma StaysNotWaiting(shape: Shape, a: Slot, b: Slot, expired: set<TrackId>)
    requires !Waiting(shape, a, expired) && (b == a || NewlyBound(shape, a, b, expired))
    ensures !Waiting(shape, b, expired)
  {
    hide NewSource;
  }

  // ---------------------------------------------------------------- clearing and restarting

  /** Clearing for `p` leaves the slots of others alone. */
  lemma {:induction false} ClearTouchesOnly(b: Board, p: PeerId, i: nat)
    requires i <= |b.slots|
    ensures forall j :: 0 <= j < |b.slots| && b.slots[j].publisher != Some(p) ==> ClearFrom(b, p, i).slots[j] == b.slots[j]
    decreases |b.slots| - i
  {
    hide EndOptional, SlotNotices;
    if i < |b.slots| {
      ClearTouchesOnly(if b.slots[i].publisher == Some(p) then ClearAt(b, i) else b, p, i + 1);
    }
  }

  /** A slot of `p` after `p` registered another track of this medium. */
  ghost predicate Restarted(a: Slot, b: Slot, media: Media, p: PeerId)
  {
    && b.publisher == Some(p)
    && (HalfOf(a, media).Some? <==> HalfOf(b, media).Some?)
    && (HalfOf(a, media).Some? ==> NewSource(HalfOf(a, media).value, HalfOf(b, media).value, p))
    && HalfOf(b, if media.Video? then Audio else Video) == HalfOf(a, if media.Video? then Audio else Video)
  }

  lemma RestartedPublisher(a: Slot, b: Slot, media: Media, p: PeerId)
    ensures Restarted(a, b, media, p) ==> b.publisher == Some(p)
  {
  }

  lemma RestartsSlot(shape: Shape, b: Board, i: nat, media: Media)
    requires i < |b.slots| && BoardOk(shape, b) && b.slots[i].publisher.Some?
    ensures Restarted(b.slots[i], RestartAt(b, i, media).slots[i], media, b.slots[i].publisher.value)
  {
    hide StreamInv, StreamStep, NewSource, Agrees, DistinctMids;
    var slot := b.slots[i];
    assert SlotOk(shape, slot);
    if HalfOf(slot, media).Some? {
      BeginsNewSource(HalfOf(slot, media).value, slot.publisher.value);
    }
  }

  /** Every slot of `p` from `i` on starts a source of it; the others are left alone. */
  lemma {:induction false} RestartTouchesOnly(shape: Shape, b: Board, p: PeerId, media: Media, i: nat)
    requires i <= |b.slots| && BoardOk(shape, b)
    ensures var r := RestartFrom(b, p, media, i);
            forall j :: 0 <= j < |b.slots| ==>
              if j >= i && b.slots[j].publisher == Some(p) then Restarted(b.slots[j], r.slots[j], media, p)
              else r.slots[j] == b.slots[j]
    decreases |b.slots| - i
  {
    hide BoardOk, RestartAt, Restarted;
    if i < |b.slots| {
      var here := b.slots[i].publisher == Some(p);
      if here {
        RestartAtKeeps(shape, b, i, media);
        RestartsSlot(shape, b, i, media);
        KeepsOk(shape, b, RestartAt(b, i, media));
      }
      RestartTouchesOnly(shape, if here then RestartAt(b, i, media) else b, p, media, i + 1);
    }
  }

  // ---------------------------------------------------------------- what the subscriber is told

  /** A half that is ready says who it shows now. */
  function HalfSays(h: Option<Half>, p: Option<PeerId>): seq<Notice>
  {
    if h.Some? && h.value.ready then [Notice(h.value.mid, p)] else []
  }

  /** One change of a slot is told for its video half and then for its audio half. */
  lemma EachChangeIsTold(b: Board, i: nat, p: PeerId, media: Media)
    requires i < |b.slots|
    ensures BindAt(b, i, p).notices == b.notices + (HalfSays(b.slots[i].video, Some(p)) + HalfSays(b.slots[i].audio, Some(p)))
    ensures b.slots[i].publisher.Some? ==>
              ClearAt(b, i).notices == b.notices + (HalfSays(b.slots[i].video, None) + HalfSays(b.slots[i].audio, None))
    ensures b.slots[i].publisher == Some(p) ==>
              RestartAt(b, i, media).notices == b.notices + (HalfSays(b.slots[i].video, Some(p)) + HalfSays(b.slots[i].audio, Some(p)))
  {
    hide StreamStep;
  }

  /** What the slots of `p` from `i` on say, in their order. */
  function SlotsSay(slots: seq<Slot>, p: PeerId, i: nat): seq<Notice>
    requires i <= |slots|
    decreases |slots| - i
  {
    if i == |slots| then []
    else (if slots[i].publisher == Some(p) then HalfSays(slots[i].video, Some(p)) + HalfSays(slots[i].audio, Some(p)) else [])
         + SlotsSay(slots, p, i + 1)
  }

  lemma {:induction false} SameSlotsSay(a: seq<Slot>, b: seq<Slot>, p: PeerId, i: nat)
    requires i <= |a| == |b| && forall j :: i <= j < |a| ==> a[j] == b[j]
    ensures SlotsSay(a, p, i) == SlotsSay(b, p, i)
    decreases |a| - i
  {
    if i < |a| {
      SameSlotsSay(a, b, p, i + 1);
    }
  }

  /** A new track of `p` is told for every slot of it once more. */
  lemma {:induction false} RestartIsTold(b: Board, p: PeerId, media: Media, i: nat)
    requires i <= |b.slots|
    ensures RestartFrom(b, p, media, i).notices == b.notices + SlotsSay(b.slots, p, i)
    decreases |b.slots| - i
  {
    hide RestartAt, HalfSays;
    if i < |b.slots| {
      if b.slots[i].publisher == Some(p) {
        var next := RestartAt(b, i, media);
        EachChangeIsTold(b, i, p, media);
        OthersStay(b, i, media);
        RestartIsTold(next, p, media, i + 1);
        SameSlotsSay(next.slots, b.slots, p, i + 1);
      } else {
        RestartIsTold(b, p, media, i + 1);
      }
    }
  }

  lemma OthersStay(b: Board, i: nat, media: Media)
    requires i < |b.slots| && b.slots[i].publisher.Some?
    ensures var n := RestartAt(b, i, media);
            |n.slots| == |b.slots| && forall j :: 0 <= j < |b.slots| && j != i ==> n.slots[j] == b.slots[j]
  {
    hide BeginOptional, SlotNotices;
  }
}
