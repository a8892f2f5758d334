# Voice and screen-share server: verified model

A Dafny model of the room server's stream relay, of the fan-out and signalling protocols around it,
and of the life of a room, with proofs about every input and every interleaving.
`dafny verify dfyconfig.toml` checks the project.

## What is modelled

- **The WebM Cluster relay** (`ClusterScan.dfy`, `WebmRelay.dfy`, `RelayTheorems.dfy`). `WebmRelay.Feed`
  is the splitter with its array buffer, compacted in place, its emit loop and both safety valves; `RelaySpec.FeedStep` says what
  one call does, `RelaySpec.Run` what a sequence of calls does. `PureSplit.IsPureSplit` is the simple
  thing it has to agree with: the whole stream cut at every Cluster ID but the first (the Cluster element
  ID of section 5.1.3 of RFC 9559).
- **Delivery of screen shares** (`ScreenPublisher.dfy`, `ScreenDelivery.dfy`). The class does each section
  that runs under the room mutex; the state machine interleaves those sections with the writes under the
  screen write mutex, with viewers that come and go, and with connections that fail.
- **Delivery of audio** (`AudioRoom.dfy`, `AudioDelivery.dfy`). Framing, cached init segments, joiners that
  snapshot, write and register in separate steps, any number of senders, deletion after a failed write,
  and the forced removal of the room.
- **The SFUs** (`VoiceSfu.dfy`, `VoiceProtocol.dfy`, `ScreenSfu.dfy`, `IceGate.dfy`). Who is offered which
  track and how often, with a task's map section and its sending as separate steps, the race between a joining viewer and a publisher's `hello`, and the gate that keeps ICE
  candidates behind the SDP. Peer connections are opaque; their callbacks are steps.
- **The life of a room** (`Room.dfy`, `RoomLifecycle.dfy`). One class holds a room's audio clients, screen
  publishers and timer; the state machine interleaves idle timers, destroy callbacks, forced removals and handlers,
  for any number of rooms and for IDs used again.

Each state machine is an `Action` datatype, a total `Step` (an action that is not enabled changes nothing)
and the fold of `Step` over a list of actions, so a statement about every list of actions is a statement
about every interleaving. The same section functions specify the classes' methods. Fields that only record
history (`regAt`, `fed`, `blocked`, `replaced`, `stray` and the like) are named as such where they are declared.

A byte slice is a sequence, and nil is the empty sequence: none of the slices modelled is ever non-nil and
empty. This matters in one place: `append([]byte(nil), pending[:0]...)` is nil, so a stream that starts
with a Cluster has no init in the eyes of the caching code.

## The steps

| state machine | steps |
|---|---|
| `ScreenDelivery` | forced removal (room.go:329); publisher: mode (screen.go:137-140), `BroadcastScreen`'s locked part (room.go:806-851) and its writes one by one (room.go:853-860), cleanup (screen.go:102-109); viewer: register, read mode, write init, mark (screen.go:191-222), cleanup (screen.go:194-197) |
| `AudioDelivery` | joiner: snapshot, one init write at a time, register (room.go:393-416); sender: `Broadcast`'s locked part (room.go:534-579), its writes (room.go:589-598), deletion after a failed one (room.go:604-608); leave: look up, then delete (room.go:424-439), nothing in an unmapped room; forced removal in two steps (room.go:303, room.go:326-329) |
| `VoiceProtocol` | `HandleOffer`: register, claim, answer or fail, fan out (voice_sfu.go:109-191); track (voice_sfu.go:208-218); offer task: its section or a failure before it (voice_sfu.go:283-307), then sending the offer or giving it up (voice_sfu.go:332-348); `removeSubscriber`, `RemoveParticipant`, `Close` (voice_sfu.go:410-528) |
| `ScreenOffers` | `AddViewer`: check, insert, claim (sfu.go:322-393); track (sfu.go:202-212); sending an offer or giving it up (sfu.go:398-422); removal and close (sfu.go:530-579) |
| `ScreenJoin` | publisher: set mode, ensure SFU, find viewers, add each (screen.go:137-145, room.go:914-962), offer (screen.go:146-152), cleanup (room.go:707-728); forced removal and closing the SFU (room.go:315-337); viewer: register, read mode, read SFU, add itself (screen.go:191-205, room.go:931-938) |
| `IceGate` | candidate callback: locked part and write (voice_sfu.go:136-149, voice_sfu.go:309-322, sfu.go:358-371); send SDP, open gate, flush (voice_sfu.go:177-188, voice_sfu.go:348-359, sfu.go:422-434) |
| `RoomLifecycle` | create, look up, register, exit, second lookup, emptiness check, reset (room.go:243-272, room.go:369-453, room.go:490-505, screen.go:102-109, screen.go:194-197, api.go:299-300); timer and its callback (room.go:266-269, room.go:507-524); forced removal (room.go:293-333) |

## Where the code gives less than its comments say

- `room.go:138-139` says the buffer always starts at a Cluster boundary after the keyframe. After a valve
  firing it need not, whatever the budget: `ValveDamage.BufferCanBeAstray`. `ValveDamage.AtBoundaryIff` is the
  exact condition, `ValveDamage.DamageAtMostFirings` and `Resynchronises` bound the damage.
- `room.go:82-91` and `room.go:758-771`: a late joiner is handed the latest Cluster only if the stream has an
  init before its first Cluster. `LateJoiner.LatestClusterIff` is the exact condition,
  `LateJoiner.BareClustersHandOutTheFirst` a stream that breaks it. A keyframe that a valve let out
  (room.go:126-135) is all a late joiner is handed from then on: `LateJoiner.ValveKeyframeIsHanded`.
- `room.go:400-401` says the init comes before media for late joiners. It does unless the sender's keyframe
  is finalised between the joiner's snapshot and its registration: `AudioDelivery.InitBeforeMedia`, and
  `AudioDelivery.KeyframeInBetweenIsMissed` for a run in which the keyframe never comes.
- `voice_sfu.go:105-108` says every pair gets exactly one offer. It does for pairs whose connection and
  publisher are not removed and do not fail (`VoiceProtocol.EveryPairIsOffered`). But the offer may be of an
  earlier track. When a user's publisher is removed and comes back, a task for the old track can leave an entry
  behind (`VoiceProtocol.ReturningPublisherIsMissed`); when a publisher that never left gets a second track, the
  first one's entry is there (`VoiceProtocol.SecondTrackIsMissed`). In both cases the new track's task finds that
  entry and the new track is never offered, and a task finding such an entry is the only way for this to happen
  without a failure or deletion: `VoiceProtocol.CurrentTrackOfferedIff`.
- The entry in the map does not limit the pair to one offer until the entry is deleted, because an offer is
  sent after the section that inserts the entry: `VoiceProtocol.TwoOffersAfterRemoval`. The bound is the number
  of offers on their way, and one more if there is no entry and the SFU is open
  (`VoiceProtocol.OffersBetweenRemovals`, `BoundIsReached`); `VoiceProtocol.AtMostOneOfferIff` says for every pair
  when that is one. Each entry has at most one offer in any case (`VoiceProtocol.OneOfferPerEntry`).
- `sfu.go:319-321`: two overlapping `AddViewer` calls for one connection, which `screen.go:143` and
  `screen.go:205` can make, can send two offers (`ScreenOffers.OverlapOffersTwice`), and so can a second track
  that arrives before a single call claims its offer (`ScreenOffers.SecondTrackOffersTwice`). There is exactly one
  offer exactly if neither an insertion over an earlier viewer with the track known nor such a track has
  happened: `ScreenOffers.ExactlyOneOfferIff`.
- `room.go:940-941`: a viewer that registers after the publisher's cleanup is not passed to any SFU, and only
  such a one is not; a viewer that joins during a forced removal of the room may be passed to an SFU that is
  closed: `ScreenJoin.CleanupStrandsViewer`, `RemovalStrandsViewer`, `ViewerReachesSfuIff`.
- `room.go:489` speaks of a timer that runs in a room with zero participants. A client that leaves resets it
  outside the room mutex (room.go:449-452), so it can start with somebody in the room, and only so:
  `RoomLifecycle.LateResetArmsBusyRoom`, `BusyTimerTakesLateReset`. The callback then leaves the room alone:
  `RoomLifecycle.InhabitedRoomStays`.
- `README.md:236-241` of the server limits IDs to 255 bytes; the code does not, and the length byte wraps:
  `Framing.FramingRoundTrip`, `Framing.LongIdsCollide`.

## Model

| member | source | states |
|---|---|---|
| ClusterScan.FindClusterOffset | room.go:67-80 | the scanning loop returns the first ID at or after start, a negative start counting as 0, or -1 |
| ClusterScan.FirstIdIsFirst | room.go:63-80 | what the scan reports is an ID, and no ID lies before it; -1 means there is none |
| ClusterScan.NoOverlap | room.go:35-36 | two occurrences of the ID are at least four bytes apart, so searching on from offset 4 misses none behind a boundary |
| ClusterScan.FirstIdAppend | room.go:101-116 | an ID found stays the first one whatever bytes arrive later |
| WebmRelayImpl.WebmRelay.Flush | room.go:103-111 | copies exactly the first n pending bytes into a fresh array and moves the others down in the same buffer, by loops over the array |
| WebmRelayImpl.WebmRelay.EmitClusters | room.go:140-148 | the emit loop ends, and leaves the buffer, the units and lastCluster as the recursive cut of the buffer says |
| WebmRelayImpl.WebmRelay.TryKeyframe | room.go:113-135 | the keyframe is cut at the second ID with the init kept apart, or is everything pending once over budget, with no init; KeyframeIsCut says so of every run |
| WebmRelayImpl.WebmRelay.Feed | room.go:97-160 | one call changes the relay's fields and returns units and flag as FeedStep says, from any state of the fields; what FeedStep amounts to over runs is in the next rows |
| RelayConservation.RelayConserves | room.go:93-160 | over any calls: units joined with pending are the input; pending stays within the budget; firings times (budget + 1) plus pending is at most the input; one finalisation, and the keyframe is the first unit; keyframe, lastCluster and initHeader follow the units |
| RelayConservation.DefaultBudget | room.go:98-100 | over any calls a relay with a budget that is not positive does what one with a budget of 1 MiB does |
| PureSplit.SplitStreamIsPureSplit | room.go:28-33 | the pure split of a stream exists, is unique, and is what one pass over the whole stream gives |
| PureSplit.EmittedAreClusters | room.go:137-148 | every unit after the first cut starts with the ID and holds no other, and so does what is left; the first too if the buffer starts with an ID |
| ChunkingIndependence.RelaySplitsStream | room.go:97-160 | without a firing, units and pending are the pure split of the whole stream; and no valve fires exactly when that split's rest is within budget at every message end |
| ChunkingIndependence.CuttingDoesNotMatter | room.go:16-33 | two cuttings of one stream that fire no valve give the same units and the same pending bytes |
| ChunkingIndependence.NoCuttingFiresIff | room.go:126-156 | no cutting of a stream whatever fires a valve exactly when every unit of its pure split is at most budget - 3 bytes and the rest at most the budget |
| KeyframeCut.KeyframeIsCut | room.go:113-135 | over any run, firing calls included: a message finalises the keyframe exactly if the stream so far holds two IDs or is over budget; with two it is what precedes the second, and the cached init what precedes the first; otherwise it is all of the stream, and no init is cached, then or later |
| KeyframeCut.CutKeyframeHasOneId | room.go:115-124 | a keyframe cut at a second ID holds one ID, right behind the cached init, whatever valves fire afterwards |
| ValveDamage.DamageAtMostFirings | room.go:126-156 | over any run, firing calls included, the units after the keyframe that are not a single Cluster are at most the firings, and firings times (budget + 1) at most the bytes fed |
| ValveDamage.Resynchronises | room.go:137-156 | after any state past the keyframe, while no further valve fires, every unit but the first is a single Cluster, and so is the buffer once a unit is out |
| ValveDamage.QuietStretch | room.go:137-148 | in such a stretch the relay emits exactly the cut of its buffer and the new bytes taken together |
| ValveDamage.AfterFiring | room.go:129-156 | once a valve has fired, in any run, the buffer is what one pass over the bytes fed since the last firing leaves |
| ValveDamage.AtBoundaryIff | room.go:138-139 | in any run past the keyframe the buffer starts with an ID exactly if no valve has fired, or the bytes since the last firing hold an ID at offset 0 or from 4 on |
| ValveDamage.BufferCanBeAstray | room.go:138-139 | for every budget a run, of messages of one byte each, after which the buffer is not empty and not at a boundary |
| RoomImpl.Room.RegisterScreenViewer | room.go:749-772 | adds the viewer with its gate shut, stops the room's timer without making the room less empty, and hands out the init the caches allow |
| ScreenPublisherImpl.ScreenPublisher.RemoveScreenViewer | room.go:782-790 | forgets one viewer and its gate, and returns its user, the mode and the SFU of that moment |
| RoomImpl.Room.AddScreenPublisher | room.go:669-691 | rejects at the cap without touching the timer, else maps a fresh publisher and stops the timer |
| RoomImpl.Room.ClearScreenPublisher | room.go:707-724 | unmaps a publisher, forgets its viewers and SFU and returns them for closing, and leaves the timer alone; does nothing for a publisher that is not the mapped one |
| ScreenPublisherImpl.ScreenPublisher.Hello | screen.go:137-144 | a hello without interference: the mode, an SFU kept or created in mode "sfu", and the viewers to add to it |
| ScreenPublisherImpl.ScreenPublisher.DecideWrites | room.go:835-849 | the two loops give every viewer with an open gate all units in order and nothing to the others or the publisher, and open every gate behind a keyframe |
| ScreenPublisherImpl.ScreenPublisher.BroadcastScreen | room.go:805-851 | feeds, refreshes the caches and decides the writes: every viewer whose gate is open gets all units in order, the publisher nothing, the keyframe opens every gate, a repeated EBML header does nothing; FedIsHeard says over runs which messages are fed |
| ScreenDelivery.FedIsHeard | room.go:808-818 | in every run the relay is fed exactly the first message of the publisher and every later one that does not start with the bytes 1A 45 DF A3, in order |
| ScreenDelivery.GatesAreViewers | room.go:782-790 | in every run only registered viewers have a gate: whoever leaves or is cleared leaves none behind |
| ScreenDelivery.LogIsInitThenRun | room.go:745-861 | in every run each viewer's log is a prefix of one init followed by a contiguous run of units starting where it was marked, at or after the units its init was made of; without an init, of the units from the keyframe on |
| ScreenDelivery.LiveLogIsComplete | room.go:836-860 | a live registered viewer with nothing outstanding has all of it, up to the last unit |
| ScreenDelivery.ByteFaithful | room.go:808-849 | a viewer registered before the keyframe has received a prefix of the accepted bytes, even when valves fire |
| ScreenDelivery.UnitsAreARun | room.go:813-829 | the units fanned out are a run of the relay over the accepted messages, and the publisher's caches equal the relay's fields |
| ScreenDelivery.CachedIsHanded | room.go:864-874 | in every run, what a keyframe request re-sends is what a viewer registering at that moment is handed |
| LateJoiner.HandedInitIsWellFormed | room.go:758-771 | while no valve has fired, the init handed out is the keyframe's init and one complete Cluster, one ID in all, none across the join, the Cluster being the latest |
| LateJoiner.HeaderOfKeyframe | room.go:117-119 | while no valve has fired, the cached init is what precedes the keyframe's only ID |
| LateJoiner.ValveKeyframeIsHanded | room.go:126-135 | after a keyframe that a valve let out, whatever follows, a late joiner is handed that keyframe, which is all of the stream up to the firing |
| LateJoiner.ScreenHandsOutWellFormedInit | room.go:864-874 | the same of every reachable state of the fan-out |
| LateJoiner.ReceiversStayAligned | room.go:28-33 | relay and gate together: in every run without a valve firing, what a viewer receives starts with the stream's init and one Cluster, one ID in all, and goes on with single complete Clusters |
| LateJoiner.LatestClusterIff | room.go:118-119 | the Cluster handed out is the latest exactly when the stream does not start with an ID (or the first and latest are equal) |
| LateJoiner.BareClustersHandOutTheFirst | room.go:762-771 | a stream of three Clusters without an init for which the first is handed out instead |
| Framing.FramingRoundTrip | room.go:592-597 | parsing as receivers do gives back ID and unit exactly when the ID has at most 255 bytes |
| Framing.FramesDecodeUniquely | README.md:229-240 | for such IDs a frame determines who sent what |
| Framing.LongIdsCollide | room.go:538-539 | a longer ID makes the frame of another ID and unit |
| AudioRoomImpl.FrameUnits | room.go:593-597 | frames every unit, in order |
| AudioRoomImpl.AudioRoom.Broadcast | room.go:533-579 | feeds the sender's own relay, made on demand, caches a finalised keyframe framed, and returns frames and targets; a repeated EBML header does nothing |
| AudioDelivery.FedIsHeard | room.go:541-551 | in every run a sender's relay is fed exactly the sender's first message, since the start or since it was deleted, and every later one that does not start with the bytes 1A 45 DF A3; and it has a relay exactly if it has spoken since |
| AudioRoomImpl.AudioRoom.Remove | room.go:434-436 | deletes a connection from all three maps, as a failed write at room.go:605-607 does |
| AudioSpec.BroadcastIsCoherent | room.go:562-570 | a broadcast keeps: a cached init exactly for the ready relays, and it is the framed keyframe |
| AudioSpec.RoomStaysCoherent | room.go:433-436 | so do a leave, a deletion after a failed write, and a registration of a connection without a relay |
| AudioDelivery.CacheCoherence | room.go:562-570 | in every run, through joins, leaves, failed writes and removal: a cached init exactly when the relay is ready, equal to the framed keyframe |
| AudioDelivery.InitBeforeMedia | room.go:386-416 | in every run, unless the keyframe was finalised between snapshot and registration, a joiner has from a sender the framed keyframe once, then later units in order without gaps; otherwise never the keyframe |
| AudioDelivery.AudioDeliveryComplete | room.go:572-598 | a live registered joiner with nothing queued from a present sender has all of that |
| AudioDelivery.AudioReceiversStayAligned | room.go:526-532 | outside the excluded case and without a valve firing, a receiver's first frame from a sender carries an init with one Cluster and every later one a single Cluster |
| AudioDelivery.KeyframeInBetweenIsMissed | room.go:393-416 | a run in which the excluded case happens and the joiner has only the second Cluster |
| AudioDelivery.NoEcho | room.go:573-578 | nobody hears their own connection |
| VoiceSfuImpl.VoiceSFU.OnPublisherTrack | voice_sfu.go:208-218 | records the track and targets every participant of another user |
| VoiceSfuImpl.VoiceSFU.KnownPublishers | voice_sfu.go:264-274 | every other user's publisher whose track has arrived |
| VoiceSfuImpl.VoiceSFU.Insert | voice_sfu.go:292-307 | only the call that finds no entry inserts one |
| VoiceSfuImpl.VoiceSFU.RemoveSubscriber | voice_sfu.go:410-417 | deletes one pair from the nested map, leaves every other entry, and returns the downstream connection to close, if there is one |
| VoiceProtocol.ForgottenCanBeOffered | voice_sfu.go:410-417 | in every run, after a downstream connection is lost or its offer given up, the pair has no entry and nothing else has changed; for a publisher of another user one more offer can then be sent |
| VoiceProtocol.PublisherStays | voice_sfu.go:117-126 | in every run a user's publisher with a track stays as it is, a second device of that user included, until it fails, a connection of the user is removed, its next track arrives or the SFU closes |
| VoiceProtocol.RejectedCanClaim | voice_sfu.go:128-176 | in every run a publisher that fails to negotiate goes from the map and nothing else does, and its connection can then become the publisher again |
| VoiceSfuImpl.VoiceSFU.RemoveParticipant | voice_sfu.go:440-470 | forgets a connection, its user's publisher, its own downstream entries and everyone's entry for its user; returns exactly those connections for closing, and who remains |
| VoiceProtocol.RemovedIsForgotten | voice_sfu.go:440-470 | in every run a participant that is removed takes along exactly its publisher, its own entries and everyone's entries for its user; a connection that never took part, exactly its own entries |
| VoiceSfuImpl.VoiceSFU.Close | voice_sfu.go:496-516 | empties everything, once, and returns every upstream and downstream connection for closing |
| VoiceProtocol.ClosedForGood | voice_sfu.go:496-516 | once closed, the SFU stays closed and empty in every continuation: no handler, track or task brings anything back |
| VoiceProtocol.EveryPairIsOffered | voice_sfu.go:101-108 | a participant and a publisher with a track, of another user, neither removed nor failed, whatever happens to others: exactly one offer sent, of some track of that publisher, once handler, tasks and sending are done |
| VoiceProtocol.EveryPairIsPending | voice_sfu.go:191-277 | at every moment such a pair has an entry with one offer sent or on its way, or no offer yet and a task under way or a handler that has still to fan out |
| VoiceProtocol.CurrentTrackOfferedIff | voice_sfu.go:225-276 | when publishers come and go: a publisher's current track, with no failure or deletion for the pair since it arrived, has been offered once, exactly if no task of it found the entry of another track, and else never |
| VoiceProtocol.ReturningPublisherIsMissed | voice_sfu.go:301-305 | a run in which a publisher is removed and returns, nothing fails afterwards, and a listener is never offered the new track |
| VoiceProtocol.SecondTrackIsMissed | voice_sfu.go:208-226 | a run without any removal or failure in which a publisher gets a second track and a listener is only ever offered the first |
| VoiceProtocol.OneOfferPerEntry | voice_sfu.go:292-348 | in all runs, track by track: every entry inserted had one offer sent, or has it on its way, or gave it up; and the entries inserted are those deleted and the one present |
| VoiceProtocol.OffersBetweenRemovals | voice_sfu.go:292-348 | in all runs, while no entry of a pair is deleted, at most the offers on their way are sent, and one more if there was no entry and the SFU was open |
| VoiceProtocol.BoundIsReached | voice_sfu.go:292-348 | that bound is reached from every state, for any publisher of another user where there is no entry |
| VoiceProtocol.AtMostOneOfferIff | voice_sfu.go:292-348 | for every pair in every run: at most one offer is sent until the next deletion, whatever happens, exactly if that bound is at most one |
| VoiceProtocol.TwoOffersAfterRemoval | voice_sfu.go:439-486 | a run in which a listener that stays is sent two offers for one publisher after the entry's only deletion |
| VoiceProtocol.NeverOfferedOwnAudio | voice_sfu.go:212-217 | in all runs no connection is sent an offer of its own user's audio |
| ScreenSfuImpl.ScreenSFU.Insert | sfu.go:346-355 | adds the viewer without looking for an earlier one and reports whether the track is known |
| ScreenSfuImpl.ScreenSFU.ClaimOffer | sfu.go:387-391 | marks the offer of the call's own viewer only |
| ScreenSfuImpl.ScreenSFU.OnPublisherTrack | sfu.go:202-212 | records the track and claims exactly the offers not claimed yet |
| ScreenOffers.InsertReplaces | sfu.go:346-355 | in every run a call that inserts on an open SFU replaces the viewer of its connection, if any, and no other, and goes on to claim an offer exactly if the track is known |
| ScreenOffers.ViewerStays | sfu.go:346-355 | in every run a viewer stays, that of the same call, until a later call inserts for its connection, it is removed, its offer fails, or the SFU closes |
| ScreenOffers.RemovedCanBeAdded | sfu.go:530-540 | in every run a viewer that was removed or whose offer failed passes the check of the next call while the SFU is open, and no other viewer is touched |
| ScreenOffers.ClosedForGood | sfu.go:558-571 | once closed, the SFU stays closed and without viewers in every continuation, and no call passes the first check or comes to claim an offer |
| ScreenOffers.ExactlyOneOfferIff | sfu.go:319-422 | for any number of tracks, an added viewer that was not removed and did not fail, with nothing on its way, has been sent exactly one offer once a track is there (before or after it was added), none before, exactly if no call inserted over a viewer of its connection with the track known and no further track arrived between a call's insertion and its claim |
| ScreenOffers.ReplacingTakesOverlap | sfu.go:323-353 | without overlapping calls for a connection no viewer of it is replaced |
| ScreenOffers.RacingTakesTwoTracks | sfu.go:202-212 | with at most one track none arrives between an insertion and its claim |
| ScreenOffers.OverlapOffersTwice | sfu.go:323-353 | a run in which two overlapping calls for one connection send two offers |
| ScreenOffers.SecondTrackOffersTwice | sfu.go:206-211 | a run in which a single call and a second track send two offers |
| ScreenJoin.ViewerReachesSfuIff | screen.go:137-205 | under any interleaving of a viewer's join with the publisher's hello and cleanup and a forced removal of the room: a viewer still registered has been passed to the publisher's SFU by one side or the other exactly if the cleanup has not cleared it, and that SFU is live exactly if the removal has not closed it |
| ScreenJoin.CleanupStrandsViewer | room.go:707-724 | a run in which a viewer that registers after the publisher's cleanup is never passed to an SFU |
| ScreenJoin.RemovalStrandsViewer | room.go:315-337 | a run in which a viewer that joins during a forced removal is passed to a closed SFU |
| ScreenJoin.ClosedOnlyByRemoval | room.go:326-337 | an SFU is closed only after the room forgot the publisher |
| IceGate.SdpBeforeIce | voice_sfu.go:350-359 | in every run the SDP comes first and once, and every candidate gathered is in exactly one place: sent, to be flushed, queued, or past the check |
| IceGate.FlushedInOrder | voice_sfu.go:179-188 | in every run the candidates gathered before the gate opened are flushed in the order they were gathered |
| IceGate.FlushCanBeOvertaken | sfu.go:425-434 | the order of gathering is not kept across the flush |
| RoomImpl.Room.Leave | room.go:433-439 | deletes the client from all audio maps, leaves the publishers and the timer alone, and reports whether the room has neither clients nor screen publishers |
| RoomImpl.RoomManager.CreateRoom | room.go:243-272 | hands out an existing room for its own token only, or maps a fresh empty one with its timer armed |
| RoomImpl.RoomManager.DestroyRoom | room.go:507-524 | unmaps a room that has neither clients nor screen publishers, and does nothing otherwise |
| RoomLifecycle.NoLeakedRoom | room.go:410-453 | in every run a mapped room without clients and screen publishers has its timer armed, a destroy callback on its way, or a handler that owes a check or a reset |
| RoomLifecycle.EntriesAreBacked | room.go:604-608 | every client and publisher entry of a mapped room has a live handler that owes the check, and publishers never exceed the cap |
| RoomLifecycle.OnlyEmptyRoomsAreDestroyed | room.go:516-523 | over any run without a forced removal of its ID, a room that stops being mapped was deleted by a destroy callback, at a point where it was mapped and had neither clients nor screen publishers |
| RoomLifecycle.InhabitedRoomStays | room.go:484-524 | in every run a room stays mapped, whatever its timers and callbacks do, while a screen publisher, or an audio client no write has failed to, is inside it and it is not removed by force |
| RoomLifecycle.RegistrationStopsTimer | room.go:410-416 | in every run the timer is off from a registration, of a viewer too, until a handler starts it again |
| RoomLifecycle.BusyTimerTakesLateReset | room.go:449-452 | in every run, if the timer is on with somebody in the room, then a leaving client that had found the room empty reset it after another had joined |
| RoomLifecycle.LateResetArmsBusyRoom | room.go:449-452 | a run in which that happens |
| RoomLifecycle.IdleRoomIsDestroyed | room.go:266-269 | a room without clients and screen publishers that nobody owes anything goes with the timer's callback |

## Left out

- Peer connections, SDP and RTP content, RTCP, heartbeats and WebSocket internals: opaque handles, success or failure, and callbacks as steps.
- REST handlers, JSON, parameters, token checks other than `CreateRoom`'s, environment variables, logging, mesh-mode signalling and notifications.
- Aliasing of emitted units: the pending buffer is an array and a flushed unit a fresh one, but the relay hands units on, and keeps its keyframe, init and latest Cluster, as sequence values.
- The room's forced clearing, its SFU for voice and its state broadcasts are not methods of the `Room` class.
- `request_keyframe` writes in the delivery state machines: the server takes its snapshot and writes in separate sections, so a keyframe can arrive after newer media.
- Wall-clock time: a timer is armed or not, and an armed one can fire at any moment. A destroy callback of an earlier room can hit a later room of the same ID.
- Joining a room that has meanwhile been removed from the manager's map: the joiner then sits in an unmapped room, about which nothing is claimed.
- The other publishers of a room in screen delivery: they share the screen write mutex, which only delays a batch.
- The screen publisher's own ICE gate: it answers several offers over one connection, so the SDP is not unique there.
- isKeyframePacket: single bit tests.
- ScreenJoin.ViewerReachesSfuIff: assumes SFU creation succeeds.
- VoiceProtocol.CurrentTrackOfferedIff: says nothing of a pair with a failure or a deletion since the track arrived, which the server does not repair.
- ScreenOffers.ExactlyOneOfferIff: says nothing of a connection that was removed or failed.
