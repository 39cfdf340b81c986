# Verified model of the driscord forwarding unit

This project models the media server of driscord and the code around it, and proves what
that code promises. The layers build on each other:

- **Header and splicer** (`RtpHeader`, `RtpElements`, `Splicer`, `SplicerRuns`). An output slot is reused
  by a series of publishers. Each packet loses its MID element and its padding, gets the
  SSRC of the slot, and its 16-bit sequence number and 32-bit timestamp are spliced so that
  the slot sends one continuous stream. The splicer is proved against an unbounded counter.
- **Slot allocators** (`SlotBoard`, `BoardEffects`, `ScreenModel`, `ScreenSafety`,
  `ScreenTheorems`, `ScreenOperations`, `ScreenForwarding`, `ScreenRouter`, and the `Voice`
  modules). Subscribers offer slots, publishers come and
  go, and free slots are handed out. The critical sections are state-machine steps; so are
  the publishing of one notice after the mutex was released, a track that expires, the
  snapshot of targets under the mutex, and each later rewrite. Runs are all interleavings
  of these steps, and the theorems hold in every reachable state. Both routers share the
  board of slots: a slot of the screen router is a pair of halves, one of the voice router
  has an audio half only. `ClientBindings` is the other end of the wire. `ScreenWitness`
  holds runs that show where the code does less than one may expect.
- **Room registry** (`RoomRegistry`, `RoomAdmission`, `RoomSections`, `Pigeonhole`). Admission control, in
  step with the screen router, gives a service guarantee. `RoomSections` splits every
  operation in two and says which interleavings keep both sides in step.
- **Link, faults and write pump** (`LinkModel`, `PacketFaults`, `WritePump`).
- **Around the server** (`FileMoves`, `MoveRuns`, `InstallSwap`, `InstallLosses`,
  `InstallWitness`, `Signaling`, `ProxyConfig`, `QueryString`).

The classes have the fields of the source and update them in place. Each method is proved
equal to a function on the value of its object, and the lemmas are about runs of these
functions. `Words`, `Identity`, `Ordering` and `Search` hold small shared pieces.

Where the code does less than one may expect, the model follows the code, shows an input and
gives the exact condition:

- The anchor of a source never moves, so a source is heard only inside a half window:
  `PlainStreamWindow`.
- A packet refused for its padding may already have lost its MID: `RefusedAndChanged`, and the
  contract of `RewriteRtpForSlot`.
- Notices go out after the mutex is released, so a packet can be forwarded before its client
  knows who it is from: `PacketBeforeItsNotice`, `NoticesAgree`, `ClientAgrees`.
- A removed peer leaves splicers that can still accept: `OrphanAccepts`,
  `OrphansForwardForTheirOwner`.
- Registry and router are updated under two mutexes, so sessions can leave them apart:
  `LateWatchDisagrees`, `AgreementIsDecidedByTheLast`.
- A failed update does not always restore the installation, although the message to the user
  says so (`client-qt/src/update/UpdateManager.cpp:461-462`): `HalfMovedFolder`, and
  `RestoredExactly` by what the call did. Seen before the call, with an empty backup: every
  call with one failing step restores the disk if and only if no entry `Loses`, which is a
  clause of `ApplyPayload` in one direction and `SomeCallLoses` in the other.
- An update whose payload names `.update` can never succeed: `UpdaterLayoutFits`,
  `UpdateEntryFails`. `ApplyPayload` requires that no payload entry names a folder on the way
  to the payload or the backup; without this the recursion of a move has no bound but the
  longest path the system allows.
- Two inputs whose tracks are both gone compare equal, so a packet on a dead track is routed
  while the stored track of its medium is dead too: the condition of `OtherPacketsGetNone`.
- A one-byte element with the reserved id 0 and a length is passed over, where section 4.2 of
  RFC 8285 ends the list: `ClearRemovesFirstElement` speaks of the list as the code reads it.
- Some hosts are not read back from their printed form: `SomeHostsAreLost`,
  `PrintedProxyReadsBack`.

## Model

| member | source | states |
|---|---|---|
| `RtpHeader.ClearRemovesFirstElement` | backend/signaling_server/src/rtp_slot_rewriter.cpp:47-108 | for every block in either extension format: clearing succeeds exactly when the block is well formed or its MID element comes before the defect, and a reader of the cleared block then finds the original elements minus the first one with that id |
| `RtpHeader.ClearOneByteMid` | backend/signaling_server/src/rtp_slot_rewriter.cpp:47-77 | the cursor loop over one-byte elements leaves exactly the cleared block in place, or nothing changed when it meets a defect first; every index stays in bounds |
| `RtpHeader.ClearTwoByteMid` | backend/signaling_server/src/rtp_slot_rewriter.cpp:79-108 | the same for two-byte elements |
| `RtpHeader.EncodeAfterDecode` | backend/signaling_server/src/rtp_slot_rewriter.cpp:117-168 | the layout read by the rewriter loses nothing: the bytes of any decodable packet are recovered from what was read |
| `RtpHeader.DecodeAfterEncode` | backend/signaling_server/src/rtp_slot_rewriter.cpp:117-168 | a reader of an encoded packet recovers every field, so two packets with the same bytes have the same meaning |
| `RtpHeader.StripAndStamp` | backend/signaling_server/src/rtp_slot_rewriter.cpp:158-170 | padding is accepted exactly when its count is valid, then it goes together with its bit, and the SSRC is written; otherwise nothing changes |
| `RtpHeader.RewriteRtpForSlot` | backend/signaling_server/src/rtp_slot_rewriter.cpp:112-172 | a packet is accepted exactly when it is not RTCP, decodes, and its MID can be cleared; a refused packet comes out without its MID exactly when only its padding is wrong and its MID could be cleared, and unchanged otherwise |
| `RtpHeader.RefusedAndChanged` | backend/signaling_server/src/rtp_slot_rewriter.cpp:141-172 | a packet of 20 bytes that is refused and has lost its MID |
| `RtpHeader.RewrittenMeans` | backend/signaling_server/src/rtp_slot_rewriter.cpp:112-172 | an accepted packet reads as the input with the new SSRC, no padding, and its extension minus the first MID element; numbers, CSRCs, payload, profile and block length are untouched |
| `RtpElements.WrittenIsRead` | backend/signaling_server/src/rtp_slot_rewriter.cpp:47-108 | every list of elements that a format can carry, written as sections 4.2 and 4.3 of RFC 8285 say and with zeros anywhere between, is read back |
| `RtpElements.StopEndsTheList` | backend/signaling_server/src/rtp_slot_rewriter.cpp:59-62 | id 15 of the one-byte format ends the list, whatever follows it |
| `RtpElements.CutOffIsMalformed` | backend/signaling_server/src/rtp_slot_rewriter.cpp:63-66 | a block that ends inside an element is refused, and the elements before it are read |
| `RtpElements.WrittenIsCleared` | backend/signaling_server/src/rtp_slot_rewriter.cpp:67-73 | the rewriter turns the first element with the id into as many zeros and leaves every other byte of a written block |
| `RtpElements.WrittenPacketIsRewritten` | backend/signaling_server/src/rtp_slot_rewriter.cpp:112-172 | so a media packet with a written extension goes out as the packet with the new SSRC, no padding and this element turned into zeros |
| `RtpElements.OtherPacketsAreRewritten` | backend/signaling_server/src/rtp_slot_rewriter.cpp:112-172 | a media packet with nothing to clear goes out with the new SSRC and no padding; a control packet is refused |
| `RtpElements.KnownPacket` | backend/signaling_server/src/rtp_slot_rewriter.cpp:117-168 | one packet with padding, a CSRC and an extension, byte by byte |
| `RtpElements.ControlPacketsAre` | backend/signaling_server/src/rtp_slot_rewriter.cpp:117-120 | a control packet has at least eight bytes and a type from 192 to 223, whatever the marker bit |
| `Splicer.RtpSlotRewriter.constructor` | backend/signaling_server/src/rtp_slot_rewriter.cpp:174-179 | a new splicer has generation 0 and has sent nothing |
| `Splicer.RtpSlotRewriter.BeginSource` | backend/signaling_server/src/rtp_slot_rewriter.cpp:181-187 | begins a generation of its own and forgets the running source, keeping the output position |
| `Splicer.RtpSlotRewriter.EndSource` | backend/signaling_server/src/rtp_slot_rewriter.cpp:189-194 | retires the generation in the same way |
| `Splicer.RtpSlotRewriter.SpliceLocked` | backend/signaling_server/src/rtp_slot_rewriter.cpp:207-252 | the field updates under the lock are the step function whose runs are studied below |
| `Splicer.RtpSlotRewriter.Rewrite` | backend/signaling_server/src/rtp_slot_rewriter.cpp:196-254 | a packet with a refused header changes no state; an accepted one goes out as the same packet with exactly its two numbers replaced |
| `SplicerRuns.StepRefines` | backend/signaling_server/src/rtp_slot_rewriter.cpp:181-252 | one step of the 16-bit machine is one step of an unbounded counter: accepted together, and the output number is the position mod 2^16 |
| `SplicerRuns.SplicerRefinesCounter` | backend/signaling_server/src/rtp_slot_rewriter.cpp:181-252 | over every run of begin, end and packets: a packet is accepted exactly when the unbounded counter places it, and then carries that position mod 2^16 |
| `SplicerRuns.EveryRunIsContinuous` | backend/signaling_server/src/rtp_slot_rewriter.cpp:181-252 | over every run, with a default step from 1 tick to 10 seconds: positions of later sources are strictly larger, two neighbouring sources share no number, differences inside a source survive in both numbers, the first source passes unchanged, and the first packet of a later one comes one past the newest packet and exactly the learnt step after it: the last difference of at most 10 seconds between two successive newest packets of one source, or the default step |
| `SplicerRuns.NewestIsLargest` | backend/signaling_server/src/rtp_slot_rewriter.cpp:241-252 | the newest packet is the one at the largest position |
| `SplicerRuns.LogIsWhatWasSent` | backend/signaling_server/src/rtp_slot_rewriter.cpp:236-252 | the history the theorems speak about is exactly what the machine put out |
| `SplicerRuns.RunningSourceWindow` | backend/signaling_server/src/rtp_slot_rewriter.cpp:214-234 | the anchor of a source never moves: while it runs, a packet is accepted exactly when its number lies in the half window after the anchor |
| `SplicerRuns.PlainStreamWindow` | backend/signaling_server/src/rtp_slot_rewriter.cpp:214-234 | so of a stream of consecutive numbers the i-th packet is forwarded exactly when i mod 2^16 is below 2^15 |
| `SplicerRuns.AcceptsExactly` | backend/signaling_server/src/rtp_slot_rewriter.cpp:207-235 | in every reachable state of a splicer a packet is forwarded exactly when it has the current generation and is the first of its source or inside the half window |
| `ClientBindings.FoldAppend` | core/src/webrtc/google_webrtc_client.cpp:336-381 | notices can be applied one batch after the other |
| `ClientBindings.Client.RemoteScreenTrack` | core/src/webrtc/google_webrtc_client.cpp:615-626 | a screen section with video is remembered |
| `ClientBindings.Client.ApplyBinding` | core/src/webrtc/google_webrtc_client.cpp:336-381 | the map of each connection is the fold of its notices so far, and a removed publisher is reported exactly when a screen video section that showed one stops showing it |
| `ClientBindings.Client.StopVoiceSession` | core/src/webrtc/google_webrtc_client.cpp:703-717 | the bindings of the voice session go with it |
| `ClientBindings.Client.StopScreenSession` | core/src/webrtc/google_webrtc_client.cpp:719-765 | exactly the publishers that some screen video section still showed are removed, and no section shows anybody |
| `Ordering.SortByRank` | backend/signaling_server/src/screen_router.cpp:135-158 | sorting the watches gives the one sequence in which their numbers ascend |
| `Ordering.SortedIsUnique` | backend/signaling_server/src/screen_router.cpp:135-158 | with distinct numbers there is only one such sequence, so the tie-breaks never decide |
| `SlotBoard.ClearAtKeeps` | backend/signaling_server/src/screen_router.cpp:345-360 | clearing a pair keeps the subscriber sound: splicers end, the stored generation is 0, and the notices it collects say so |
| `SlotBoard.BindAtKeeps` | backend/signaling_server/src/screen_router.cpp:455-466 | binding a free pair to a publisher without one keeps the subscriber sound |
| `SlotBoard.RestartAtKeeps` | backend/signaling_server/src/screen_router.cpp:255-271 | a new input track of a bound publisher starts a source of its own and changes no binding |
| `SlotBoard.AssignKeeps` | backend/signaling_server/src/screen_router.cpp:424-469 | handing out slots unbinds nobody, binds only wanted publishers, and stops only when everyone is served or no slot is free |
| `SlotBoard.AssignServesInOrder` | backend/signaling_server/src/screen_router.cpp:424-469 | nobody gets a slot while an earlier candidate could have it |
| `SlotBoard.ConservingIsFixed` | backend/signaling_server/src/screen_router.cpp:424-469 | when nobody waits for a free slot, handing out slots again changes nothing |
| `SlotBoard.ToldOrQueued` | backend/signaling_server/src/screen_router.cpp:471-507 | what the published and the queued notices say together, the published ones say alone or a queued one will |
| `BoardEffects.AssignTouchesFree` | backend/signaling_server/src/screen_router.cpp:424-469 | handing out slots leaves every slot as it is, or binds one that was unbound, ready and alive, where both halves then start a source that belongs to the publisher and in which any number is heard |
| `BoardEffects.RestartTouchesOnly` | backend/signaling_server/src/screen_router.cpp:255-271 | a new track starts such a source in the halves of its medium that are bound to its owner, and leaves every other half alone |
| `BoardEffects.EachChangeIsTold` | backend/signaling_server/src/screen_router.cpp:320-343 | each change of a slot is told for its ready video half first and then for its ready audio half |
| `ScreenRouter.Impl.AppendPairNotices` | backend/signaling_server/src/screen_router.cpp:320-343 | the ready halves of a pair are announced, video first |
| `ScreenRouter.Impl.ClearPair` | backend/signaling_server/src/screen_router.cpp:345-360 | ends both sources and announces the empty pair, if it was bound |
| `ScreenRouter.Impl.FindFreePair` | backend/signaling_server/src/screen_router.cpp:449-454 | finds the first pair that is unbound, complete, ready and live |
| `ScreenRouter.Impl.AssignSubscriber` | backend/signaling_server/src/screen_router.cpp:430-467 | the loop over the sorted watches gives out slots as specified |
| `ScreenRouter.Impl.AssignAvailable` | backend/signaling_server/src/screen_router.cpp:424-469 | all subscribers are served, and the order in which they are visited does not matter |
| `ScreenRouter.Impl.ChoosePair` | backend/signaling_server/src/screen_router.cpp:294-318 | the pair with this mid, else the first one that lacks such a half, else a new one |
| `ScreenRouter.Impl.RegisterInputLocked` | backend/signaling_server/src/screen_router.cpp:234-277 | the new track is stored, pairs bound to its owner start a source exactly when the track changed, and free pairs are handed out; every invariant is kept |
| `ScreenRouter.Impl.RegisterOutputBegin` | backend/signaling_server/src/screen_router.cpp:371-391 | the first critical section: the pair is cleared and gets a half that is not ready, with a splicer of its own; the notices of the clearing are queued, and every invariant but work conservation is kept |
| `ScreenRouter.Impl.RegisterOutputFinish` | backend/signaling_server/src/screen_router.cpp:403-420 | the second one: the half becomes ready if it still holds this track, and work conservation holds again |
| `ScreenRouter.Impl.SetStreamingLocked` | backend/signaling_server/src/screen_router.cpp:735-759 | a publisher that stops is cleared from every pair; every invariant is kept |
| `ScreenRouter.Impl.SetWatchingLocked` | backend/signaling_server/src/screen_router.cpp:772-798 | a watch is added at the end or dropped together with its binding; every invariant is kept |
| `ScreenRouter.Impl.RemovePeerLocked` | backend/signaling_server/src/screen_router.cpp:806-824 | the peer, the watches of it and the bindings to it go; the splicers of its own slots are left running for targets that still hold them |
| `ScreenRouter.Impl.Publish` | backend/signaling_server/src/screen_router.cpp:471-507 | after the mutex was released the queued notices of every subscriber go out in order, and none is left |
| `ScreenRouter.Impl.RegisterInput` | backend/signaling_server/src/screen_router.cpp:228-278 | the critical section, then the publishing; nothing is queued when the operation ends |
| `ScreenRouter.Impl.RegisterOutput` | backend/signaling_server/src/screen_router.cpp:362-422 | both critical sections, then the publishing, with the notices of both |
| `ScreenRouter.Impl.SetStreaming` | backend/signaling_server/src/screen_router.cpp:731-761 | the critical section, then the publishing |
| `ScreenRouter.Impl.SetWatching` | backend/signaling_server/src/screen_router.cpp:763-800 | the critical section, then the publishing |
| `ScreenRouter.Impl.RemovePeer` | backend/signaling_server/src/screen_router.cpp:802-826 | the critical section, then the publishing |
| `ScreenRouter.Impl.Close` | backend/signaling_server/src/screen_router.cpp:863-900 | no peer is left |
| `ScreenRouter.Impl.CollectTargets` | backend/signaling_server/src/screen_router.cpp:516-535 | exactly the ready halves bound to the publisher, each with the generation it has now |
| `ScreenRouter.Impl.Route` | backend/signaling_server/src/screen_router.cpp:618-665 | the snapshot under the mutex: targets only for a streaming publisher whose track is the expected one |
| `ScreenSafety.StepInv` | backend/signaling_server/src/screen_router.cpp:198-826 | every step, with single notices published and packets and track expiries anywhere between, keeps binding safety, splicer ownership, agreement of the bindings with the published and queued notices and, outside the registration of an output, work conservation |
| `ScreenSafety.RunInv` | backend/signaling_server/src/screen_router.cpp:198-826 | so every reachable state has them |
| `ScreenTheorems.BindingsAreSafe` | backend/signaling_server/src/screen_router.cpp:345-469 | in every reachable state a bound pair shows a publisher that is present, streaming, watched and not the subscriber, which has no second pair; both halves are ready and hold the current nonzero generation |
| `ScreenTheorems.NobodyWaitsForAFreeSlot` | backend/signaling_server/src/screen_router.cpp:424-469 | in every reachable state outside the registration of an output, no subscriber has both a free pair and an unserved watched publisher that streams live video |
| `ScreenTheorems.AssigningAgainIsIdle` | backend/signaling_server/src/screen_router.cpp:424-469 | running the assignment once more changes nothing at all |
| `ScreenTheorems.OldestWatchFirst` | backend/signaling_server/src/screen_router.cpp:135-158 | nobody is newly bound while a publisher watched for longer could be shown and is not |
| `ScreenTheorems.NoticesAgree` | backend/signaling_server/src/screen_router.cpp:320-360 | in every reachable state, also in the middle of an operation, and with distinct mids, the notices published so far followed by the queued ones fold to exactly the map from mids of bound pairs to publishers |
| `ScreenTheorems.ClientAgrees` | backend/signaling_server/src/screen_router.cpp:471-507 | whenever no operation holds the publish mutex, the published notices alone fold to that map |
| `ScreenTheorems.NoCrossTalk` | backend/signaling_server/src/screen_router.cpp:509-568 | however bindings change between the snapshot and the rewrite: a slot accepts a packet only while it is bound to the publisher of the packet, and its client has been told so or the notice that tells it is queued |
| `ScreenWitness.PacketBeforeItsNotice` | backend/signaling_server/src/screen_router.cpp:469-507 | a run in which a slot accepts a packet before any notice of its binding went out |
| `ScreenTheorems.SlotAcceptsExactly` | backend/signaling_server/src/screen_router.cpp:537-568 | a slot accepts a packet exactly when the target holds its splicer with the current generation and the number is the first of its source or in the half window |
| `ScreenTheorems.EveryTargetWasSnapshotted` | backend/signaling_server/src/screen_router.cpp:654-729 | a delivered packet belongs to a snapshot taken while its publisher streamed and was bound to the slot that held the splicer |
| `ScreenTheorems.OrphansForwardForTheirOwner` | backend/signaling_server/src/screen_router.cpp:811-819 | a splicer nobody holds any more accepts exactly the packets of targets that hold it with its current generation, first of their source or inside the half window, and only for the publisher that generation was begun for |
| `ScreenTheorems.RemovedSplicersLive` | backend/signaling_server/src/screen_router.cpp:811-819 | removing a peer leaves every splicer of its slots as it was, with the targets that hold it |
| `ScreenWitness.OrphanAccepts` | backend/signaling_server/src/screen_router.cpp:811-819 | a run in which the splicer of a removed peer accepts a packet |
| `ScreenTheorems.SlotStreamsAreContinuous` | backend/signaling_server/src/screen_router.cpp:345-469 | over the whole life of a slot its stream is continuous in the sense above, and different publishers use different sources at strictly later positions |
| `ScreenOperations.OnlyItsOwnOperationsTouchABinding` | backend/signaling_server/src/screen_router.cpp:198-900 | over every run a bound pair is left exactly as it is by every step but these: what ends its binding, a packet, which only moves a stream, and a new track of its publisher |
| `ScreenOperations.NewTrackStartsNewSources` | backend/signaling_server/src/screen_router.cpp:235-271 | when the registered track is not the live stored one, every half of its medium bound to the owner gets a larger generation that belongs to the owner and hears any first number; halves of the other medium, and all of them when the track is registered again, keep their streams |
| `ScreenOperations.NewTrackIsTold` | backend/signaling_server/src/screen_router.cpp:255-271 | and then every subscriber is told of its pairs with the owner once more |
| `ScreenOperations.NewBindingsAreRight` | backend/signaling_server/src/screen_router.cpp:424-469 | whoever a pair shows after a step and not before it is watched, streams and has live video; both halves are ready and alive and start a source of it; and no pair before this one is left waiting |
| `ScreenOperations.OnlyItsOwnOperationsTouchAPeer` | backend/signaling_server/src/screen_router.cpp:110-117 | over every run: who is known, its two inputs, whether it streams and whom it watches are changed only by the operations that name them; a watch keeps its number and a new one gets a larger one than all others |
| `ScreenForwarding.PacketsGetTheirTargets` | backend/signaling_server/src/screen_router.cpp:654-729 | over every run: a packet of a streaming publisher on its live stored track of a medium gets a target for every half of that medium bound to it, with the splicer of the half and its current generation |
| `ScreenForwarding.RoutedPacketsAreAccepted` | backend/signaling_server/src/screen_router.cpp:537-568 | and the half accepts it through this target exactly when its splicer hears the number |
| `ScreenForwarding.OtherPacketsGetNone` | backend/signaling_server/src/screen_router.cpp:663-678 | a packet of a peer that is unknown or does not stream, or on another track than the stored one of its medium while one of the two is alive, gets no target |
| `ScreenForwarding.OutputsAreTaken` | backend/signaling_server/src/screen_router.cpp:371-393 | an output goes to the first pair with its mid, else to the first without such a half, else to a new one; this pair is then unbound, has a half that is not ready with a fresh splicer, and keeps what its other half had sent; no other pair changes, and a splicer that was replaced stays for the targets that hold it |
| `ScreenForwarding.OutputsBecomeReady` | backend/signaling_server/src/screen_router.cpp:405-420 | when the registration ends, the half is ready if it still holds the track |
| `ScreenForwarding.ClosedForGood` | backend/signaling_server/src/screen_router.cpp:863-900 | a closed router stays closed: no peer comes back and no target is added |
| `VoiceRouter.Impl.FindFreeSlot` | backend/signaling_server/src/voice_router.cpp:254-257 | finds the first slot that is unbound and live |
| `VoiceRouter.Impl.AssignSubscriber` | backend/signaling_server/src/voice_router.cpp:241-268 | the loop over the ordered peers gives out slots as specified |
| `VoiceRouter.Impl.AssignAvailable` | backend/signaling_server/src/voice_router.cpp:237-271 | every subscriber is served in the order of arrival |
| `VoiceRouter.Impl.RegisterInputLocked` | backend/signaling_server/src/voice_router.cpp:154-182 | the new track is stored, slots bound to its owner start a source exactly when it changed, and free slots are handed out |
| `VoiceRouter.Impl.RegisterOutputLocked` | backend/signaling_server/src/voice_router.cpp:206-233 | the slot with this mid is cleared and gets a new splicer, or a slot is opened; then free slots are handed out |
| `VoiceRouter.Impl.RemovePeerLocked` | backend/signaling_server/src/voice_router.cpp:491-512 | the peer and the bindings to it go, and free slots are handed out |
| `VoiceRouter.Impl.Publish` | backend/signaling_server/src/voice_router.cpp:273-298 | the queued notices of every subscriber go out in order, and none is left |
| `VoiceRouter.Impl.RegisterInput` | backend/signaling_server/src/voice_router.cpp:131-184 | the critical section, then the publishing |
| `VoiceRouter.Impl.RegisterOutput` | backend/signaling_server/src/voice_router.cpp:186-235 | the critical section, then the publishing |
| `VoiceRouter.Impl.RemovePeer` | backend/signaling_server/src/voice_router.cpp:487-514 | the critical section, then the publishing |
| `VoiceRouter.Impl.Close` | backend/signaling_server/src/voice_router.cpp:538-565 | no peer is left |
| `VoiceRouter.Impl.CollectTargets` | backend/signaling_server/src/voice_router.cpp:307-319 | exactly the slots bound to the publisher, each with the generation it has now |
| `VoiceRouter.Impl.Route` | backend/signaling_server/src/voice_router.cpp:397-433 | the snapshot under the mutex, only for the expected track |
| `VoiceSafety.StepInv` | backend/signaling_server/src/voice_router.cpp:131-514 | every step, the publishing of a single notice included, keeps all invariants of the voice router, work conservation among them |
| `VoiceTheorems.BindingsAreSafe` | backend/signaling_server/src/voice_router.cpp:186-271 | bindings are distinct peers of the room other than the listener, and their splicers run |
| `VoiceTheorems.EveryoneIsHeard` | backend/signaling_server/src/voice_router.cpp:186-271 | in every reachable state a listener with as many live slots as there are others in the room is bound to every other peer with a live input, whatever tracks expired and peers left before |
| `VoiceTheorems.NobodyWaitsForAFreeSlot` | backend/signaling_server/src/voice_router.cpp:237-271 | while somebody with a live input has no slot, every live slot is bound |
| `VoiceTheorems.EarlierPeerFirst` | backend/signaling_server/src/voice_router.cpp:95-109 | slots go to those who joined first |
| `VoiceTheorems.NoticesAgree` | backend/signaling_server/src/voice_router.cpp:131-298 | in every reachable state the published notices followed by the queued ones fold to exactly the bindings; mids differ by construction here |
| `VoiceTheorems.ClientAgrees` | backend/signaling_server/src/voice_router.cpp:273-298 | and the published ones alone whenever no operation holds the publish mutex |
| `VoiceTheorems.NoCrossTalk` | backend/signaling_server/src/voice_router.cpp:300-347 | a slot accepts a packet only while it is bound to its publisher, and its client has been told so or the notice is queued |
| `VoiceTheorems.SlotStreamsAreContinuous` | backend/signaling_server/src/voice_router.cpp:186-271 | the stream of every slot is continuous over its whole life |
| `VoiceOperations.OnlyItsOwnOperationsTouchABinding` | backend/signaling_server/src/voice_router.cpp:131-562 | over every run a bound slot is left exactly as it is by every step but these: what ends its binding, a packet, and a new track of its publisher |
| `VoiceOperations.NewTrackStartsNewSources` | backend/signaling_server/src/voice_router.cpp:156-177 | when the registered track is not the live stored one, every slot bound to the owner gets a larger generation that belongs to the owner and hears any first number; otherwise its stream stays |
| `VoiceOperations.NewTrackIsTold` | backend/signaling_server/src/voice_router.cpp:165-177 | and then every listener is told of its slot with the owner once more |
| `VoiceOperations.NewBindingsAreRight` | backend/signaling_server/src/voice_router.cpp:237-271 | whoever a slot carries after a step and not before it is another peer with a live input; the track of the slot is alive, the slot starts a source of the publisher, and no slot before it is left waiting |
| `VoiceOperations.OnlyItsOwnOperationsTouchAPeer` | backend/signaling_server/src/voice_router.cpp:86-109 | over every run: who is known and which track is stored is changed only by the operations that name it; a peer keeps its place in the order and a new one comes last |
| `VoiceOperations.PacketsGetTheirTargets` | backend/signaling_server/src/voice_router.cpp:423-485 | over every run: a packet of a peer on its live stored track gets a target for every slot bound to it, with its splicer and its current generation |
| `VoiceOperations.SlotAcceptsExactly` | backend/signaling_server/src/voice_router.cpp:321-347 | a slot accepts a packet exactly when the target holds its splicer with the current generation and the number is the first of its source or in the half window |
| `VoiceOperations.RoutedPacketsAreAccepted` | backend/signaling_server/src/voice_router.cpp:321-347 | so a slot accepts the packet it gets this way exactly when its splicer hears the number |
| `VoiceOperations.OtherPacketsGetNone` | backend/signaling_server/src/voice_router.cpp:435-439 | a packet of an unknown peer, or on another track than the stored one while one of the two is alive, gets no target |
| `VoiceOperations.OutputsAreTaken` | backend/signaling_server/src/voice_router.cpp:206-233 | an output goes to the slot with its mid, else to a new one; this slot has a fresh splicer and the new track, a splicer that was replaced stays for the targets that hold it, and every other slot is as it was or was free and got its publisher now |
| `VoiceOperations.OrphansForwardForTheirOwner` | backend/signaling_server/src/voice_router.cpp:300-347 | a splicer nobody holds any more accepts exactly the packets of targets that hold it with its current generation, first of their source or inside the half window, and only for the publisher that generation was begun for |
| `VoiceOperations.RemovedSplicersLive` | backend/signaling_server/src/voice_router.cpp:496-496 | removing a peer leaves every splicer of its slots as it was, with the targets that hold it |
| `VoiceOperations.ClosedForGood` | backend/signaling_server/src/voice_router.cpp:538-562 | a closed router stays closed: no peer comes back and no target is added |
| `RoomRegistry.RoomState.RegisterSession` | backend/signaling_server/src/ws_server.cpp:691-733 | a session enters the room |
| `RoomRegistry.RoomState.UnregisterSession` | backend/signaling_server/src/ws_server.cpp:819-863 | the session, its stream, its watches and the watches of it go, in registry and router; empty entries are erased |
| `RoomRegistry.RoomState.AddStreamingPeer` | backend/signaling_server/src/ws_server.cpp:997-1012 | registry and router learn of a stream together |
| `RoomRegistry.RoomState.RemoveStreamingPeer` | backend/signaling_server/src/ws_server.cpp:1014-1029 | and forget it together |
| `RoomRegistry.RoomState.AddVideoWatcher` | backend/signaling_server/src/ws_server.cpp:1031-1075 | a watch is admitted between two peers of the room, the second streaming, below the cap of eight; otherwise the rejection is the first that applies, and nothing changes |
| `RoomRegistry.RoomState.RemoveVideoWatcher` | backend/signaling_server/src/ws_server.cpp:1077-1099 | the watch goes on both sides |
| `RoomRegistry.RoomStepInv` | backend/signaling_server/src/ws_server.cpp:819-1099 | every operation keeps registry and router in step |
| `RoomRegistry.RegistryAndRouterAgree` | backend/signaling_server/src/ws_server.cpp:819-1099 | after every sequential run, with tracks and packets between, both sides agree on who streams and who watches whom, nobody watches itself or more than eight, and watched peers are in the room |
| `RoomRegistry.AdmissionGuaranteesService` | backend/signaling_server/src/ws_server.cpp:1031-1075 | so a watcher with eight usable pairs is bound to every publisher it watches that streams live video |
| `RoomAdmission.ProperWatchesAreAdmitted` | backend/signaling_server/src/ws_server.cpp:1052-1074 | over every sequential run: a request for another streaming session is refused exactly when the peer is not watched yet and eight others are; after any other one it is watched in the registry and in the router, and all other watches stay |
| `RoomAdmission.EachReasonIsTrue` | backend/signaling_server/src/ws_server.cpp:1042-1071 | each reason is given exactly when its fact holds: the peer is not in the room or is the watcher, or is there and does not stream, or eight others are watched; a refused request changes nothing |
| `RoomAdmission.UnwatchingTakesOne` | backend/signaling_server/src/ws_server.cpp:1077-1099 | giving up a watch takes away this one alone on both sides, and no other operation but a watch or a leaving changes who watches whom |
| `RoomAdmission.AbsentChangeNothing` | backend/signaling_server/src/ws_server.cpp:1042-1045 | a watch or a leaving of a peer that is not in the room changes nothing and is not answered |
| `RoomAdmission.RoomIsItsHistory` | backend/signaling_server/src/ws_server.cpp:691-863 | who is in the room and who streams is what the last operation to name the peer says |
| `RoomAdmission.LeavingLeavesNothing` | backend/signaling_server/src/ws_server.cpp:819-863 | a peer that leaves is neither in the room nor in the router, does not stream and is at neither end of a watch; all other watches stay |
| `RoomSections.SectionRunInv` | backend/signaling_server/src/ws_server.cpp:819-1099 | with every operation split into its section under the mutex of the rooms and its later call to the router, in every interleaving each side holds what the commands it has seen say, in the order it saw them |
| `RoomSections.AgreementIsDecidedByTheLast` | backend/signaling_server/src/ws_server.cpp:819-1099 | once no call is waiting, registry and router agree exactly when for every stream and every watch the last command to touch it is of the same kind in both orders |
| `RoomSections.AgreementReturns` | backend/signaling_server/src/ws_server.cpp:819-1099 | so they agree whenever the calls that touch one stream or one watch were made in the order of their registry sections |
| `RoomSections.ServiceReturns` | backend/signaling_server/src/ws_server.cpp:1031-1075 | and then a watcher with eight usable pairs is bound to every publisher it watches that streams live video |
| `RoomSections.LateWatchDisagrees` | backend/signaling_server/src/ws_server.cpp:819-1075 | an interleaving of two sessions after which the router still has a watch of a peer that left the room |
| `LinkModel.Link.SchedulePacketDeparture` | backend/signaling_server/src/sfu_media_utils.cpp:97-145 | the field updates are the step function whose runs are studied below |
| `LinkModel.Link.PacketForwarded` | backend/signaling_server/src/voice_router.cpp:411-414 | a delayed packet that is taken out leaves the queue, in the same step of the runs |
| `LinkModel.CapacityIsKept` | backend/signaling_server/src/sfu_media_utils.cpp:112-135 | for a fixed capacity of k kbps and any arrivals, accepted packets i to j satisfy 8000 times their bytes <= k times (finish of j - start of i + j - i + 1) |
| `LinkModel.FinishIsExact` | backend/signaling_server/src/sfu_media_utils.cpp:112-135 | the finish of a packet is the maximum over earlier packets of arrival plus all transmission work since: the link neither runs early nor idles |
| `LinkModel.DeparturesAreSound` | backend/signaling_server/src/sfu_media_utils.cpp:117-136 | departures never precede transmission or arrival, and without reordering they are nondecreasing |
| `LinkModel.ArrivalIsDecided` | backend/signaling_server/src/sfu_media_utils.cpp:97-145 | over every run: a packet is refused exactly when it would have to wait and the queue is full; otherwise start, finish and departure are these exact times, and it is sent twice exactly when its number is a multiple |
| `LinkModel.EmptyQueueAccepts` | backend/signaling_server/src/sfu_media_utils.cpp:131-139 | with nothing in the queue no packet is refused |
| `PacketFaults.RtpFaults.Apply` | backend/signaling_server/src/sfu_media_utils.cpp:147-184 | the field updates are the step function whose runs are studied below |
| `PacketFaults.FaultsConservePackets` | backend/signaling_server/src/sfu_media_utils.cpp:147-184 | for a fixed configuration, over any run: the media that came out followed by at most one held packet is the media that was not dropped, each once, with disjoint neighbours swapped |
| `PacketFaults.DropsEveryNth` | backend/signaling_server/src/sfu_media_utils.cpp:160-167 | without burst losses exactly floor(n/d) of n media packets are dropped |
| `PacketFaults.SurvivorsAreNotLost` | backend/signaling_server/src/sfu_media_utils.cpp:160-167 | over every run the media that was not dropped is exactly what no burst took and whose number is no multiple |
| `PacketFaults.HoldsExactly` | backend/signaling_server/src/sfu_media_utils.cpp:169-183 | over every run: which packet is held back, and what goes out at each arrival, for any settings |
| `PacketFaults.ReordersEveryNth` | backend/signaling_server/src/sfu_media_utils.cpp:169-183 | with nothing but the reordering set, all media comes out and exactly every n-th packet has changed places with its successor |
| `PacketFaults.ControlPasses` | backend/signaling_server/src/sfu_media_utils.cpp:154-183 | over any run control packets come out as they came in, each once and in order; with no fault configured everything does |
| `WritePump.BoundedQueue.PushBack` | core/src/utils/bounded_queue.hpp:23-33 | accepted exactly when open and not full, in order |
| `WritePump.BoundedQueue.PopFront` | core/src/utils/bounded_queue.hpp:38-38 | the front goes |
| `WritePump.Session.EnqueueLocked` | backend/signaling_server/src/ws_server.cpp:214-229 | the caller must start a write exactly when its message made the queue nonempty |
| `WritePump.Session.PostWrite` | backend/signaling_server/src/ws_server.cpp:230-233 | the caller that has to start a write posts a handler |
| `WritePump.Session.DoWrite` | backend/signaling_server/src/ws_server.cpp:393-407 | a handler always finds a message, and starts writing the front |
| `WritePump.Session.OnWrite` | backend/signaling_server/src/ws_server.cpp:409-428 | a completed message leaves the queue, and the pump goes on exactly when more is there |
| `WritePump.Session.OnClose` | backend/signaling_server/src/ws_server.cpp:527-536 | the queue takes no more messages |
| `WritePump.NextInv` | backend/signaling_server/src/ws_server.cpp:214-428 | every step of every thread keeps the protocol |
| `WritePump.OneWriterInOrder` | backend/signaling_server/src/ws_server.cpp:214-428 | in every interleaving: one write at most is outstanding or on its way, writes start in accepted order with none skipped, and before a failure a nonempty queue has exactly one writer, so no wake-up is lost |
| `WritePump.AcceptsExactly` | backend/signaling_server/src/ws_server.cpp:214-229 | over every run a message is accepted exactly when the queue was not closed before and fewer than 128 messages wait to be written |
| `WritePump.WritesAreNeverIdle` | backend/signaling_server/src/ws_server.cpp:393-400 | no handler finds the queue empty, and none runs after a failed write |
| `WritePump.DrainWritesAll` | backend/signaling_server/src/ws_server.cpp:393-428 | left alone, with successful writes, the pump writes everything it accepted |
| `FileMoves.Disk.RenameWithRetry` | client-qt/src/update/InstallSwap.cpp:15-26 | a rename either moves one file to a free place within three attempts, or fails after the third and changes nothing |
| `FileMoves.Disk.MoveEntry` | client-qt/src/update/InstallSwap.cpp:28-56 | whatever fails, each file below the entry is at its old place or at the same relative place in the target, nothing else moved and nothing was replaced; on success all of them moved |
| `FileMoves.ReplayKeepsContents` | client-qt/src/update/InstallSwap.cpp:28-56 | wherever the two paths lie, every run of a move that ends keeps every file content as often as it was there |
| `FileMoves.ReplayKeepsOthers` | client-qt/src/update/InstallSwap.cpp:28-56 | and leaves alone what does not lie below the entry |
| `FileMoves.MoveIntoItselfNeverSucceeds` | client-qt/src/update/InstallSwap.cpp:28-47 | no run of a move of a folder to a place below itself succeeds |
| `MoveRuns.FailureTakesBeside` | client-qt/src/update/InstallSwap.cpp:34-46 | a failing move took a file only if something that is neither on its way nor below it was to be moved too |
| `MoveRuns.FolderArrives` | client-qt/src/update/InstallSwap.cpp:30-46 | after a successful move every folder has its counterpart in the target |
| `MoveRuns.FullMove` | client-qt/src/update/InstallSwap.cpp:28-56 | where nothing at the target is in the way a move can succeed, and leave nothing behind |
| `MoveRuns.HalfMove` | client-qt/src/update/InstallSwap.cpp:34-44 | for any file that lies beside something else there is a run that takes just this file and fails at the next step |
| `MoveRuns.FailuresTakeNothingExactly` | client-qt/src/update/InstallSwap.cpp:28-56 | so to a free place no failing move takes a file exactly when no file of the entry lies beside anything else |
| `InstallSwap.Rollback` | client-qt/src/update/InstallSwap.cpp:85-92 | whatever fails in it, the rollback loses nothing and touches only entries named by the payload; when no step of it fails, each installed entry is back in the payload and each saved one back in the root |
| `InstallSwap.ApplyPayload` | client-qt/src/update/InstallSwap.cpp:68-117 | for every pattern of failures no file is lost and only entries named by the payload are touched; on success every entry is exchanged; it fails only when the payload is missing or a step failed, and when just one step failed, everything is undone except the move that failed; then every file is where it was if no entry can be seen to lose one before the call, with a backup that holds no file, and also if only single files are exchanged, with any backup |
| `InstallSwap.RestoredExactly` | client-qt/src/update/InstallSwap.cpp:94-115 | after a failure and a clean rollback the root has the files it had exactly when the failing move had moved nothing and no saved entry met files of an older backup; then every file on the disk is where it was |
| `InstallSwap.TookMeansLoses` | client-qt/src/update/InstallSwap.cpp:85-115 | a call with one failing step whose failing move took a file had an entry in root or payload with a file beside something else to be moved, in the payload one whose place in the root was free |
| `InstallLosses.SomeCallLoses` | client-qt/src/update/InstallSwap.cpp:68-117 | and for each such entry, with an empty backup, there is a call with one failing step and a rollback that goes through after which a file is missing |
| `InstallSwap.FreshBackup` | client-qt/src/update/InstallSwap.cpp:94-115 | so with a backup folder that holds no file, exactly when the failing move had moved nothing |
| `InstallWitness.HalfMovedFolder` | client-qt/src/update/InstallSwap.cpp:34-44 | in the layout of the updater: the backup of a folder with two files fails at the second one, there is nothing to roll back, and the first file is missing in the root |
| `InstallSwap.InstalledMeans` | client-qt/src/update/InstallSwap.cpp:94-116 | on success the root has exactly the files of the payload for each entry, the replaced files are in the backup at the same relative paths, and all other files are unchanged |
| `InstallSwap.UpdaterLayoutFits` | client-qt/src/update/UpdateManager.cpp:453-459 | with payload and backup in the update folder inside the root, the condition of the exchange holds exactly when no payload entry is called `.update` |
| `InstallSwap.UpdateEntryFails` | client-qt/src/update/InstallSwap.cpp:94-104 | when one is, whatever was moved before, its folder is in the way, is to be moved below itself, and the move fails: such a call never succeeds |
| `InstallSwap.MovesKeepContents` | client-qt/src/update/InstallSwap.cpp:85-116 | in any layout, any sequence of moves loses no file |
| `Signaling.EncodeWelcomeLists` | core/src/utils/signaling_protocol.cpp:161-173 | the loops build one item per peer and per id |
| `Signaling.ParsePeerList` | core/src/utils/signaling_protocol.cpp:289-299 | the loop reads all peers or refuses the list |
| `Signaling.ParseIdList` | core/src/utils/signaling_protocol.cpp:306-314 | the loop reads all ids, skipping empty ones, or refuses the list |
| `Signaling.SentIsRead` | core/src/utils/signaling_protocol.cpp:156-439 | for every message of the 12 kinds: it is read back as it was sent exactly when the texts its fields need are not empty |
| `Signaling.ParsedIsSendable` | core/src/utils/signaling_protocol.cpp:268-439 | what the parser understands always has those texts |
| `Signaling.ForwardedIsTheSame` | core/src/utils/signaling_protocol.cpp:156-439 | for every JSON tree: what was understood once is understood the same way after being sent on |
| `Signaling.PeersOnTheWire` | core/src/utils/signaling_protocol.cpp:156-190 | the names and fields of the messages about peers |
| `Signaling.MediaOnTheWire` | core/src/utils/signaling_protocol.cpp:192-225 | the names and fields of offers, answers, candidates and track bindings |
| `Signaling.StreamsOnTheWire` | core/src/utils/signaling_protocol.cpp:62-67 | the names and fields of the messages about streams; an empty sender is left out |
| `Signaling.WatchesOnTheWire` | core/src/utils/signaling_protocol.cpp:241-261 | the names and fields of the messages about watches, and of the three reasons |
| `Signaling.VerdictIsExact` | core/src/utils/signaling_protocol.cpp:268-439 | for every JSON tree: which of the errors it is refused with, by what its fields lack, or that it is understood |
| `Signaling.OddTextsCountAsNone` | core/src/utils/signaling_protocol.cpp:45-53 | an optional text that is missing or no text counts as none |
| `ProxyConfig.Trim` | core/src/utils/proxy_config.cpp:22-32 | no white space is left at either end |
| `ProxyConfig.ParsePort` | core/src/utils/proxy_config.cpp:34-50 | a port is one to five digits with a value from 1 to 65535 |
| `ProxyConfig.PrintedProxyReadsBack` | core/src/utils/proxy_config.cpp:54-191 | for every text that parses: the printed form parses to the same proxy without its credentials exactly when the host is printable |
| `ProxyConfig.NamesArePrintable` | core/src/utils/proxy_config.cpp:121-137 | every host without brackets is printable |
| `ProxyConfig.SomeHostsAreLost` | core/src/utils/proxy_config.cpp:60-87 | two texts that parse to a host which is not printable |
| `ProxyConfig.WrittenProxyIsRead` | core/src/utils/proxy_config.cpp:139-191 | every well-written text, with spaces around it, a scheme in letters of either case, user name and password, host or bracketed address, port and path where given, is read as it was meant |
| `ProxyConfig.ReadWasWritten` | core/src/utils/proxy_config.cpp:139-191 | and every text that is read was so written, with this meaning |
| `ProxyConfig.ReadsExactlyTheWritten` | core/src/utils/proxy_config.cpp:139-191 | so every other text is refused |
| `QueryString.UrlEscape` | backend/signaling_server/src/api_authenticator.cpp:24-42 | every byte is escaped as section 2.1 of RFC 3986 says, unless it is unreserved |
| `QueryString.UrlDecode` | backend/signaling_server/src/ws_server.cpp:69-100 | plus signs and valid escapes are decoded, anything else stands for itself |
| `QueryString.ParseQueryParam` | backend/signaling_server/src/ws_server.cpp:102-120 | the first pair with this key decides |
| `QueryString.EscapedReadsBack` | backend/signaling_server/src/api_authenticator.cpp:24-42 | decoding an escaped byte string gives it back, for every byte string |
| `QueryString.BuiltTargetReadsBack` | backend/signaling_server/src/ws_server.cpp:69-120 | for every path without a question mark and all keys without delimiters, a lookup in the built target gives the first value with that key byte for byte, and nothing for other keys |
| `QueryString.DistinctKeysReadBack` | backend/signaling_server/src/ws_server.cpp:102-120 | so with distinct keys every value is read back |
| `QueryString.AnyTargetIsRead` | backend/signaling_server/src/ws_server.cpp:102-120 | for every target, well built or not: the first piece between ampersands that starts with the key and its first equals sign gives the value |
| `QueryString.EscapesExactly` | backend/signaling_server/src/api_authenticator.cpp:24-42 | a byte stands for itself exactly when it is a letter, a digit or one of four marks; otherwise it becomes a percent sign and two upper-case digits |
| `QueryString.FormIsDecoded` | backend/signaling_server/src/ws_server.cpp:69-100 | a form-encoded text, with plus signs for spaces and digits of either case, is decoded to what it stands for |
| `QueryString.StrayPercent` | backend/signaling_server/src/ws_server.cpp:69-100 | a percent sign without two digits after it stands for itself |

## Left out

- ScreenSafety.StepInv: generations, orders and rewriter numbers are unbounded naturals; the 64-bit counters of the source would take longer than any run to wrap.
- ScreenModel.Deliver: a splicer is a value with an identity number in its slot, because a slot and any number of targets share the object; `HeldOnce` in the invariant shows that no two slots ever share one, and a delivery changes it wherever it is held.
- ScreenRouter.Impl.Route: packets of one snapshot are delivered by later steps of the run; fault injection, link scheduling and the delay queue inside `route` are modelled apart, and a delayed packet takes its snapshot as `forward_delayed` does.
- ScreenRouter.Impl.RegisterInputLocked: the sender callback, the MID extension id and the fault and link states stored with a peer are not kept.
- SlotBoard.Agrees: notices are in order for one subscriber; the order between subscribers, notices lost on the wire, the media handlers set with them, and notices still queued for a peer that was removed or after `close`, are not modelled.
- ScreenTheorems.SlotAcceptsExactly: a delivery is one that reaches the splicer; one to an output whose track is gone or not open is skipped before it, in both routers, and is no step of the run.
- RtpHeader.IsRtcp: the foreign test of the library is read as section 4 of RFC 5761, a packet of at least 8 bytes whose second byte names a type from 192 to 223.
- RoomRegistry.RoomRun: whole operations one after the other; `RoomSections` has the interleavings. One room only, since the map of rooms only looks rooms up by id.
- LinkModel.Delay: the jitter is whatever non-negative delay was drawn; times, byte counts and the queue counter are unbounded integers, and the counter is decremented by arbitrary events.
- PacketFaults.Fault: whether a burst loses a packet is whatever was drawn.
- WritePump.Next: the socket write is a start and a later completion that succeeds or fails.
- FileMoves.Disk.MoveEntry: files and folders only, no symbolic links, and nobody else touches the disk; children are visited in any order, so a run of `HalfMove` may need another order than that of one directory listing; source and target lie apart, and other cases are runs of `Replays`.
- InstallSwap.ApplyPayload: when steps of the rollback fail too, only that no file is lost and no other entry is touched; that the recursion over a payload entry named `.update` ends at the longest path of the system is not part of this model.
- Signaling.ParseJson: works on JSON trees; text and UTF-8 are the business of the library, and `invalid_json` cannot arise on a tree.
- QueryString.Target: the server builds no such target itself; it stands for a caller that escapes its values and not its keys.
- Tracks, SDP, media handlers, keyframe requests, statistics and the SSRC counter: foreign calls and plumbing.
- Tie-breaks in the sorting of peers and watches: numbers are distinct, so they never decide.
- Delay timers and wall-clock time: which delayed packet is due when is not part of this model.
- `no_proxy_matches` and the proxy environment variables, `applyImageFile` and `cleanupUpdateDir`: they would only add easy members.
- The HTTP API, authentication, user interface, capture, playout and the rest of the WebRTC client.
