# Veloren core verification

A model of six parts of the game, with proofs about every run of them.

- **Network pipeline** (`network/src`). Streams submit messages; `PrioManager` schedules them by priority and cuts
  them into frames; the frames are encoded, decoded and reassembled at the other side. Around this are the handshake of
  two endpoints and the protocol by which a participant closes streams and shuts down.
- **Regions** (`common/src/region.rs`). An index from regions to entities, with the positions of the eight neighbours of
  every region, kept up while regions are inserted and removed by swapping.
- **Path search** (`common/src/astar.rs`, `common/src/path.rs`). A resumable A* search and its client on walkable blocks.
- **Spiral** (`common/src/spiral.rs`), **key bindings** (`voxygen/src/settings.rs`) and **box iterators**
  (`common/src/vol.rs`).

`dafny verify dfyconfig.toml` checks the whole project.

## Layout

`Wrappers`, `Arith`, `Vectors`: shared. `Frames`, `Prios`: frames, messages and the scheduler as functions.
`Scheduling`, `Shares`, `Overflowing`, `Draining`, `Flushing`: its runs. `PrioManager`: the object, proved against those functions.
`Receiving`, `Delivering`, `Filling`, `Cutting`, `Collisions`: the receiver and delivery. `Bytes`, `Wire`, `Layouts`,
`EndToEnd`: the bytes. `Participants`, `Sends`, `Closing`, `Dropping`, `Racing`, `Finishing`, `ClosingBytes`, `Numbering`:
streams from opening to shutdown. `Handshakes`, `StreamIds`. `Regions`, `RegionMaps`. `Astars`, `Routes`. `Spirals`.
`Settings`, `Defaults`. `Volumes`.

## How the source is read

- Channels and managers: a channel is a sequence, and a manager runs from one wait to the next as one move. A
  round of `send_mgr` (fill, then send all) is one move. The API runs elsewhere, so `send_raw` is two moves, the check of
  `send_closed` and the push.
- A round of `send_mgr` ends in a sleep, so noticing that the last round sent nothing, and stopping, is a move of its own;
  a message pushed in between is accepted and never sent.
- `participant_shutdown_mgr` sends `Shutdown` and closes all channels without waiting in between, which is one move. A request
  to open a stream that came later would find no channel: nothing is sent, the `Stream` is dropped at once and its
  id not used up. That dropping a `Stream` panics once `stream_close_mgr` has ended (`network/src/api.rs:1054-1055`) is not
  part of the model.
- A move that opens a stream asks for an id that is not in use. The source does not check this; `NextIdIsFree` shows that it
  always holds.
- `points` is a `u32`. The release build wraps, and the model does too; a development build panics at the same addition.
  The results on scheduling assume a run without overflow, and `OverflowExact` says exactly
  which runs those are; `NoOverflowAfterReset` and `OverflowIsReached` give the largest number of servings that is always safe.
- An `OutgoingMessage` is owned by the queue it sits in and taken out and put back, so it is a value. Payloads are opaque
  bytes.
- `IndexMap` is a sequence of distinct keys beside a sequence of regions; a hash set or map is walked through in any order.
- Coordinates, region keys and mids are unbounded integers, costs and heuristics exact real numbers. `f32::MAX`, the score of
  a node not reached, is kept.
- The position storage, the block volume, the distances and the closures of A* are parameters. A* needs positive costs;
  those of `find_path` are at least 1.

## Where code and documentation differ

- The priority check in `tick` lets 64 pass, one more than there are queues (`network/src/prios.rs:151`); 0 to 63 is
  required here.
- `Stream` promises delivery in order, but partial messages are told apart by mid alone
  (`network/src/participant.rs:386`) while each stream counts its own from 0 (`network/src/api.rs:665`):
  `DeliveredIffCollisionFree` gives the exact condition.
- `delete_stream` means to send everything before `CloseStream` (`network/src/participant.rs:765-770`); a non-empty message
  whose send is between its check and its push then can still follow it: `OrderExact` gives the exact condition.
- An entity entering a new region is logged as `Entered(id, None)` even when it comes from another region
  (`common/src/region.rs:221`).
- The tether is measured from the low corner of the region (`common/src/region.rs:155`).
- `insert_binding` leaves an earlier binding in the inverse.
- By default gliding and swimming down share left shift, climbing down and sneaking left control, although neither pair
  is listed as able to share a key (`voxygen/src/window.rs:210-222`): `DefaultConflicts`.

## Model

| member | source | states |
|---|---|---|
| EndToEnd.DeliveredOverTcp | network/src/participant.rs:379-431 | Messages submitted, scheduled, cut into frames, encoded for TCP, broken off after any number of bytes, decoded and reassembled: what an open stream has been handed is a prefix of the non-empty messages submitted on it, byte for byte and in order, and all of them once the queues are empty and no byte is missing; for every run in which no message is started while its mid is taken by a partially sent one. |
| EndToEnd.BrokenOff | network/src/protocols.rs:73-154 | Wherever the bytes of a list of frames are cut, decoding gives a prefix of that list, and all of it if nothing is cut. |
| EndToEnd.ExecSized | network/src/message.rs:177-202 | Every frame of every run fits its wire format: chunks below the 16-bit length field, 64-bit ids and lengths. |
| Delivering.Delivered | network/src/participant.rs:379-431 | The same over frames, for every interleaving of submissions and servings and every number of frames handled so far. |
| Delivering.ExecSynced | network/src/prios.rs:220-269 | Over any collision-free run the messages cut into at the sender are exactly the partial messages of the receiver, with the bytes sent so far, and every stream has been handed what was submitted less what is queued. |
| Delivering.ReceiveNext | network/src/participant.rs:379-431 | One serving and its handling: the header opens a partial message, each chunk extends it by the right bytes, the last one hands the whole message to its stream if that is open. |
| Collisions.DeliveredIffCollisionFree | network/src/participant.rs:379-431 | Partial messages are keyed by mid alone: once everything is sent and handled every stream has exactly what was submitted on it if and only if no message was started while its mid was taken by a partially sent one. |
| Collisions.CollisionLoses | network/src/participant.rs:379-398 | The first collision of a run loses a message for good. |
| Collisions.OnePriorityIsCollisionFree | network/src/prios.rs:238-260 | If all streams have one priority, no run has a collision. |
| Collisions.FirstMessagesCollide | network/src/api.rs:665 | Every stream numbers its messages from 0, so the first messages of two streams of priorities 0 and 1 collide as soon as the more urgent one takes more than one frame. |
| Receiving.LogGrows | network/src/participant.rs:399-411 | What has been handed to a stream is never taken back by later frames. |
| Receiving.FrameHandler.HandleFrame | network/src/participant.rs:347-443 | The frame handler updates the partial messages and the open streams as the receiver specification says: its whole new state. |
| Receiving.FrameHandler.HandleFrames | network/src/participant.rs:322-444 | Its loop over the incoming frames is the fold of that specification. |
| Frames.FillNext | network/src/message.rs:177-202 | Appends the header (for the first chunk) and the next at most 1400 bytes, moves the cursor past them, and reports whether the buffer is used up. |
| Cutting.MessagesAreCut | network/src/message.rs:177-202 | In every run the frames of a stream are its non-empty messages one after the other: a header with the length and number of the message, then its bytes in chunks of 1400 and a last one, each naming as its start the place its bytes have in the message; all of them once the queues are empty. |
| Cutting.PlacesRebuild | network/src/message.rs:192-200 | So a receiver that only looks at lengths and starts, and writes every chunk at its place, has each message but at most the last one byte for byte. |
| Numbering.WireOfStream | network/src/api.rs:780-794 | The same on the wire of a participant in any of its runs, whatever is opened, closed and shut down meanwhile; and no two messages of a stream, sent or waiting, have the same number: later ones have higher ones. |
| Receiving.NothingAfterClosed | network/src/participant.rs:347-444 | After `CloseStream` or `Shutdown` a stream is handed nothing more, whatever frames follow, unless it is opened again. |
| PrioManagers.PrioManager.Tick | network/src/prios.rs:148-187 | Takes in messages before flush requests; the new queues, counters and notifications are those of the specification. |
| PrioManagers.PrioManager.CalcNextPrio | network/src/prios.rs:190-209 | Whatever the iteration order of the set, the result is the lexicographic minimum of (points, priority) among the queued ones, or none. |
| PrioManagers.PrioManager.ServeOne | network/src/prios.rs:231-261 | Serving a priority: the new points, queue, queued set and counter, the frames and the notification. |
| PrioManagers.PrioManager.FillFrames | network/src/prios.rs:220-269 | Takes in what arrived and serves up to the given number of frames; the state, frames and notifications are those of the specification. |
| Prios.NextIsNext | network/src/prios.rs:190-209 | The chosen priority is the lexicographic minimum of (points, priority), and is the only answer with that property. |
| Prios.NextReady | network/src/prios.rs:231-261 | A chosen priority has a message and its stream has a counter, so the `unwrap` and `expect` calls cannot fail, and serving keeps the invariant. |
| Prios.ServeCounts | network/src/prios.rs:238-260 | A serving lowers the number of queued messages of exactly the stream whose message it finishes. |
| Scheduling.ExecValid | network/src/prios.rs:148-269 | In every state of every run `queued` is the set of non-empty queues, each counter is the number of queued messages of its stream (present exactly if positive), and only queue heads have been cut into. |
| Scheduling.FillIsRun | network/src/prios.rs:229-268 | The loop of `fill_frames` is a run of at most so many servings, fewer only if it ends with the points reset. |
| Scheduling.NothingPassedOver | network/src/prios.rs:190-204 | The search starts at `u32::MAX`, yet passes over nothing queued, because without overflow points are multiples of weights and no weight divides `u32::MAX`. |
| Scheduling.Fairness | network/src/prios.rs:43-49 | Two priorities that stay queued and start with equal points are served in inverse proportion to their weights, up to one serving. |
| Shares.WeightExact | network/src/prios.rs:43-49 | The table of weights is 100 * 2^(p / 5), rounded to the nearest integer, for every priority, and no other number is. |
| Shares.WeightsRise | network/src/prios.rs:43-49 | A more urgent priority is charged less. |
| Shares.SharesHalve | network/src/prios.rs:3-6 | The throughput is halved every five priorities: served side by side from equal points, priority p gets 2^k servings for one of priority p + 5k, but for one serving at either end and a hundredth for rounding. |
| Scheduling.SpreadKept | network/src/prios.rs:190-234 | At every moment of such a run the difference of their points is between minus the weight of the one and the weight of the other, and the points are the servings charged. |
| Scheduling.NoStarvation | network/src/prios.rs:190-234 | A queued priority is served within one serving more than the others have room for below its points, whatever is submitted meanwhile. |
| Scheduling.ReachableMultiples | network/src/prios.rs:234 | In every state reached from the start without overflow the points of each priority are a multiple of its weight, which is what the results on fairness and waiting ask for. |
| Overflowing.OverflowExact | network/src/prios.rs:190-234 | A run from cleared points overflows if and only if in some stretch of it without a reset some priority is charged 2^32 or more. |
| Scheduling.NoOverflowAfterReset | network/src/prios.rs:234 | Within 6918 servings after a reset no addition to the points overflows. |
| Scheduling.OverflowIsReached | network/src/prios.rs:234 | That bound is exact: one long message of priority 63 overflows in serving 6919. |
| Draining.WorkConserved | network/src/prios.rs:220-269 | In every run, what is left to send is what was there and what was submitted, less one frame-sized unit per serving that found something: nothing is lost and nothing sent twice. |
| Draining.DrainsOnTime | network/src/prios.rs:220-269 | Left alone without overflow, the queues are empty after exactly as many servings as there are units of work. |
| Flushing.FlushExact | network/src/prios.rs:246-257 | A waiting flush request is answered in a run if and only if the run passes a state in which the stream has nothing queued; as this holds of every prefix, it fixes the very serving. |
| Flushing.RequestAnswered | network/src/prios.rs:171-186 | A request for a stream with nothing queued is answered at once, any other is left waiting and not answered. |
| Filling.FillHollow | network/src/prios.rs:229-268 | A stream of which only empty messages are queued gets no frame from a `fill_frames` loop. |
| Filling.FillWaiting | network/src/prios.rs:229-268 | Within one `fill_frames` loop a waiting request is answered exactly if the stream ends up empty. |
| Participants.KeepInv | network/src/participant.rs:591-815 | Every move of the managers and of the API keeps the invariant of the protocol (counters, flush requests, phases, the order of frames), but for one: taking a leftover stream down while a send of a non-empty message on it is under way; `OrderExact` shows that it breaks the order. |
| Closing.CloseAndShutdownOrder | network/src/participant.rs:591-815 | In every such run nothing of a stream follows its `CloseStream`, by which time nothing of it is left to send; `Shutdown` is the last frame, and once it is due it has been sent, unless the peer has disconnected, and every stream has been closed but those opened after the leftover streams were listed. |
| Finishing.ShutdownCanFinish | network/src/participant.rs:591-815 | From every state that such a run reaches once a shutdown is asked for, a run of the managers alone, without the API or the peer, ends the shutdown: each stream that was on the table when the leftover ones were listed is closed and its `CloseStream` sent, and then `Shutdown`; that run is one of those above if no send of a non-empty message is under way. |
| Finishing.SendStops | network/src/participant.rs:200-232 | Asked to stop, `send_mgr` sends what is queued and stops, in finitely many rounds. |
| Dropping.DropCloses | network/src/api.rs:1047-1062 | From every state that such a run reaches with a dropped stream still on the table and neither side shutting down, the managers alone get it off the table and its `CloseStream` sent, without a shutdown. |
| Dropping.CloseExact | network/src/participant.rs:694-756 | Without a shutdown they can do so for a stream on the table if and only if its deletion has been requested. |
| Dropping.DropRequests | network/src/api.rs:1047-1062 | Dropping requests the deletion exactly if the stream has not been closed already. |
| Sends.OpenedIsUsable | network/src/participant.rs:546-580 | A stream opened by either side can be sent on. |
| Sends.SendIsAccepted | network/src/api.rs:780-794 | A send on such a stream is accepted: its message comes last of all accepted ones, under the next number. |
| Sends.NothingAfterClose | network/src/participant.rs:765-811 | Once the peer has closed a stream, or either side has begun to shut down, nothing more is accepted on it but a send that had passed its check; a stream closed by the peer is off the table for good. |
| Sends.NothingAnnounced | network/src/participant.rs:551-556 | Once the peer has shut down, neither a new stream nor `Shutdown` is sent to it. |
| Closing.DeliveredBeforeClose | network/src/participant.rs:765-811 | In a run without a collision of mids, when the peer comes to the `CloseStream` of a stream it has been handed every non-empty message ever accepted on that stream, in order. |
| ClosingBytes.DeliveredBeforeCloseBytes | network/src/participant.rs:765-811 | The same over the bytes of the connection, broken off anywhere, with the peer closing other streams itself in between: when it decodes the `CloseStream` of a stream it has been handed every non-empty message ever accepted on it, byte for byte and in order. |
| ClosingBytes.OthersGone | network/src/participant.rs:347-411 | Streams that the receiver closes itself make no difference to what it holds of and hands to the others. |
| Closing.RunInStep | network/src/participant.rs:183-239 | At every moment of a run the scheduler, the channel and the peer account for every accepted message. |
| Racing.OrderExact | network/src/participant.rs:591-815 | From every state with the invariant: every continuation after a move keeps the order of frames if and only if the move does not take a leftover stream down while a send of a non-empty message on it is between its check and its push. |
| Racing.OrderExactAlways | network/src/participant.rs:591-815 | So it is for every move in every state reached from the start. |
| Racing.SendRace | network/src/api.rs:780-794 | From every state in which a leftover stream is taken down during a non-empty send, there is a continuation in which that message is sent after the `CloseStream`. |
| Racing.RaceIsReached | network/src/api.rs:780-794 | For every message such a state is reached from the start by a run of allowed moves. |
| Racing.Drain | network/src/participant.rs:200-232 | With the rounds of `send_mgr` going on, the queues empty and the waiting sender is told. |
| Handshakes.HandshakeAgreement | network/src/channel.rs:163-305 | In every run of two matching endpoints over FIFO links, whoever is done knows the pid and secret of the other; the initiating side numbers its streams from 0, the other from 2^63 - 1; the frames of the participants handed on, waiting and under way are exactly those sent, in order. |
| Handshakes.HandshakeCompletes | network/src/channel.rs:117-157 | A run that cannot go on has both sides done after exactly four handshake frames, and every frame sent early handed on. |
| Handshakes.MovesEnd | network/src/channel.rs:163-305 | Every move but the participants' own sends lowers a measure, so every run of the handshake ends. |
| Handshakes.MismatchFails | network/src/channel.rs:188-245 | With another magic number or version no run lets either side succeed, every run that cannot go on has both failed, and what has been sent is one handshake frame and, by a debug build, the refusal that names what was wrong. |
| StreamIds.HalvesDisjoint | network/src/channel.rs:267-274 | Two agreed endpoints that open fewer than 2^63 - 1 streams each, whatever else they do, announce different ids, all below 2^64. |
| StreamIds.NextIdIsFree | network/src/participant.rs:546-580 | So the next id is never in use: in every run of an end whose peer keeps to its half, a stream can be opened if and only if the peer has not shut down and the priority is valid. |
| StreamIds.LocalIds | network/src/participant.rs:546-580 | In every run the ids announced are consecutive from the offset on, each with its priority, as many as `OpenStream` frames sent. |
| Wire.RoundTrip | network/src/protocols.rs:212-269 | An encoded frame, whatever follows it, is read back as itself with the rest left over, if and only if its payload fits the 16-bit length and its promise bits are known. |
| Layouts.EncodedHas | network/src/protocols.rs:212-269 | Byte by byte: the tag of every kind of frame, which field is at which place and how wide, least significant byte first, and the payload. |
| Layouts.TransmissibleIs | network/src/types.rs:15-36 | The condition on frames in numbers: payloads below 65536 bytes and promises below 32. |
| Wire.StreamRoundTrip | network/src/protocols.rs:73-154 | Decoding the bytes of any list of frames returns the list if and only if all of them are such frames. |
| Wire.Canonical | network/src/types.rs:130-180 | Whatever is read is well formed and encodes to the bytes it came from exactly if they set no unknown promise bit. |
| Wire.CutShort | network/src/protocols.rs:73-154 | A frame cut short anywhere is never taken for a frame. |
| Wire.DatagramRoundTrip | network/src/protocols.rs:353-386 | A datagram is decoded to the frame it was made from under the same condition. |
| Wire.WriteDatagram | network/src/protocols.rs:409-471 | Writing a frame field by field into the reused buffer leaves exactly the TCP encoding at its start, if it fits 2000 bytes. |
| Wire.TcpWriter.WriteFrame | network/src/protocols.rs:212-269 | The writes one after the other append exactly the encoding. |
| Wire.TcpReader.ReadFrame | network/src/protocols.rs:73-154 | The reads one after the other give what decoding the remaining input gives and leave what decoding leaves; after an unknown tag they hand on the tag and at most 31 of the bytes after it as a raw message, and leave the rest. |
| Wire.NextFramesFit | network/src/message.rs:177-202 | Every frame cut from a message meets the conditions of both transports. |
| Layouts.NumberIsFromLe | network/src/types.rs:218-234 | Bytes are read as the sum of byte i times 256^i. |
| Bytes.FromToLe | network/src/types.rs:218-234 | Reading a number back from its little-endian bytes gives the number. |
| Bytes.ToFromLe | network/src/types.rs:218-234 | Bytes are the little-endian form of the number they are read as. |
| RegionMaps.RegionMap.Tick | common/src/region.rs:109-207 | After a tick the tracked entities are those with a position, the regions partition them, the events account for every change of every region name where everyone came from and went, and name no entity twice as leaving or twice as entering, only who must be switched or has no position leaves a region, everyone is in the region of its position or within the tether (in blocks: in the 512 by 512 square of its region or at most 16 from its low corner), no empty region without events is left, and every neighbour slot is right. |
| RegionMaps.RegionMap.AddEntity | common/src/region.rs:209-222 | The entity enters the region of its position, inserted if missing; an entity entering a new region is logged without where it came from. |
| RegionMaps.RegionMap.Scan | common/src/region.rs:135-180 | The check loop lists every entity that is too far from its region, once, with its position, every one without a position, and every removable region. |
| RegionMaps.RegionMap.TrackNew | common/src/region.rs:122-131 | The untracked entities with a position enter their regions, in any order; partition, neighbour index and events stay right. |
| RegionMaps.RegionMap.SwitchLast | common/src/region.rs:185-190 | Switching one entity keeps partition, events, tether and removal lists right, and logs the region left for and, unless the region entered is new, the one come from. |
| RegionMaps.RegionMap.RemoveLeavers | common/src/region.rs:191-198 | So does removing the entities without a position. |
| RegionMaps.RegionMap.Prune | common/src/region.rs:199-206 | Removing the listed regions keeps it all right and leaves no removable region, although removals change positions. |
| RegionMaps.RegionMap.Remove | common/src/region.rs:307-313 | Removes a stored region by key; does nothing if there is none. |
| RegionMaps.RegionMap.FindRegion | common/src/region.rs:230-269 | Finds the region of exactly the tracked entities, and without the scan whenever the entity is near the position asked for. |
| Regions.NeedsSwitchIs | common/src/region.rs:148-163 | Who is not switched is in the square of 512 by 512 blocks of its region or at most 16 blocks from its low corner in both directions. |
| Regions.PosKeyIs | common/src/region.rs:224-226 | The region of a position is the one whose square it is in. |
| Regions.OffsetsTurnLeft | common/src/region.rs:62-73 | The neighbours are listed counter-clockwise from the north. |
| RegionMaps.FoundNearby | common/src/region.rs:148-171 | After a tick that is so for every entity and the position the tick saw. |
| RegionMaps.NearIsNeighbour | common/src/region.rs:148-163 | An entity that need not be switched is in the region of its position or one of its eight neighbours. |
| Regions.Insert | common/src/region.rs:281-305 | Inserting a region keeps the neighbour index: slot d of key k names the position of key k + offset d exactly if that is stored. |
| Regions.RemoveIndex | common/src/region.rs:315-354 | So does removing one, where the last region takes its place, also when the two are neighbours; the region must be empty, as the panic demands. |
| Astars.Astar.constructor | common/src/astar.rs:78-109 | A new search satisfies everything that the polls keep. |
| Astars.Astar.ReconstructPathTo | common/src/astar.rs:181-189 | Ends, and gives the chain of predecessors from the start to the node. |
| Astars.Astar.Poll | common/src/astar.rs:111-177 | However iterations are split over calls: each expands one node, none twice and none that is wanted, and always the one next due by the score it was visited with and its heuristic; predecessors keep smaller scores; a found path runs from the start to a wanted node, none of those waiting being due before it; the path of an unfinished search leads to the node with the neighbour nearest to the goal; if no edge within reach of the iterations costs so much that a score could come to the largest number, and the search fails, no walk from the start reaches a wanted node. |
| Astars.Astar.Pop | common/src/astar.rs:124 | Takes a waiting node of least cost: the one next due by score and heuristic. |
| Astars.Astar.Visit | common/src/astar.rs:123-165 | One iteration takes the node next due, and if it is not wanted visits its neighbours, each at the score of the node and the edge to it. |
| Astars.NextMinimises | common/src/astar.rs:133-152 | Among the nodes whose score has not improved while they waited, the one taken has the least sum of score and heuristic. |
| Astars.VisitTurns | common/src/astar.rs:123-153 | Expanding the node next due keeps the order: whoever was expanded while another node waited was due no later than it. |
| Astars.Astar.Expand | common/src/astar.rs:128-153 | The loop over the neighbours is the fold of looking at one. |
| Astars.RelaxSound | common/src/astar.rs:129-152 | Looking at a neighbour keeps: every node but the start has a predecessor of strictly smaller score, and only visited nodes wait, once each. |
| Astars.ExpandReaches | common/src/astar.rs:128-153 | With bounded costs every neighbour of the expanded node ends up with a score of at most the cost by way of it. |
| Astars.PathFollows | common/src/astar.rs:181-189 | A returned path follows neighbour edges. |
| Astars.PathCost | common/src/astar.rs:181-189 | A returned path costs no more than the recorded score of its end. |
| Astars.VisitReached | common/src/astar.rs:123-153 | The nodes visited are no more edges from the start than there were iterations. |
| Astars.NothingMissed | common/src/astar.rs:155-162 | With nothing left waiting, no walk from a visited node leads to a wanted one. |
| Routes.FindPath | common/src/path.rs:451-595 | Over any number of calls: a new search begins at the resolved start, a kept one goes on, 100 iterations a call and 25000 in all, and it is kept exactly while it is pending; every returned route begins at the start of its search and is made of possible steps; a complete one leads to the resolved end, one of an unfinished search as near to it as the search has come; positions are taken in the order of score and distance from the end; and unless all iterations were used up there is then no route to this end. |
| Routes.StepsAffordable | common/src/path.rs:558-571 | For a distance from a line, no step that 25000 iterations can come to costs enough for scores to reach `f32::MAX`. |
| Routes.StepCosts | common/src/path.rs:558-568 | A step costs one, a fortieth of the distance of its end from the straight line, and ten more if it climbs two blocks. |
| Routes.RouteStands | common/src/path.rs:432-447 | Every position of a route is on top of a solid block of full height, with two free blocks above it. |
| Routes.GetWalkableZ | common/src/path.rs:461-471 | The walkable position nearest to the given one from 15 below to 16 above, the upper one of two as near, or none if there is none. |
| Routes.NeighborsAreSteps | common/src/path.rs:482-556 | The neighbours are exactly the steps: one block sideways, at most two up or down, walkable at both ends and with room for the body. |
| Routes.NeverStraightDown | common/src/path.rs:505 | The last listed direction, straight down, is never possible. |
| Routes.WalkedBack | common/src/path.rs:526-547 | A step can be walked back, except that a drop of two needs room above the landing that going down does not ask for. |
| Spirals.Spiral2d.Next | common/src/spiral.rs:25-43 | Returns the point whose place in the spiral is the number of points returned before. |
| Spirals.RingStarts | common/src/spiral.rs:33-38 | Every ring begins at its lower left corner. |
| Spirals.RingTurnsLeft | common/src/spiral.rs:25-43 | Along a ring each point is next to the one before and counter-clockwise of it. |
| Spirals.PlaceInjective | common/src/spiral.rs:25-43 | No two points have the same place. |
| Spirals.SquareComesFirst | common/src/spiral.rs:25-43 | The places below (2r+1)^2 are those of the square of radius r. |
| Spirals.FirstSquare | common/src/spiral.rs:13-43 | The first (2r+1)^2 points are the points of that square, each once. |
| Spirals.Spiral2d.Radius | common/src/spiral.rs:15-18 | From a new spiral, exactly the points with x^2+y^2 < (r+1)^2, in spiral order and so each once, for every r. |
| Settings.ControlSettings.ModifyBinding | voxygen/src/settings.rs:85-101 | Rebinds one input and keeps the inverse: an input is listed at a key exactly if it is bound to it. |
| Settings.ControlSettings.InsertBinding | voxygen/src/settings.rs:77-83 | Does so exactly if the input was unbound or bound to that key. |
| Settings.ControlSettings.Default | voxygen/src/settings.rs:181-252 | Binds every input to its default, with the right inverse. |
| Settings.ControlSettings.FromSerde | voxygen/src/settings.rs:47-56 | Loading gives the defaults overridden by what was saved, whatever the order of the saved map. |
| Settings.ControlSettings.IntoSerde | voxygen/src/settings.rs:22-36 | Saving gives exactly the bindings that differ from the defaults. |
| Settings.ControlSettings.HasConflictingBindings | voxygen/src/settings.rs:103-116 | Whether two inputs listed at the key cannot share one. |
| Defaults.DoesByDefault | voxygen/src/settings.rs:118-180 | The defaults, read from the keys: exactly these inputs are bound to each key. |
| Defaults.SharesIf | voxygen/src/window.rs:199-222 | Two inputs can share a key if they are the same, both move up (jump, climb, swim up, respawn), or both act on their own (free look, auto walk). |
| Defaults.DefaultConflicts | voxygen/src/settings.rs:103-180 | By default exactly two keys have conflicting bindings, left shift and left control. |
| Settings.SavedAndLoaded | voxygen/src/settings.rs:22-56 | Saving and loading restores the bindings if and only if no input is unbound. |
| Settings.LoadedAndSaved | voxygen/src/settings.rs:22-56 | Loading and saving restores the saved form if and only if it lists no default. |
| Settings.InverseIsUnique | voxygen/src/settings.rs:42-45 | The bindings determine the inverse up to keys listed without inputs. |
| Settings.PlaceOf | voxygen/src/settings.rs:190-247 | The list of `default` misses no input. |
| Volumes.DefaultPosIterator.constructor | common/src/vol.rs:228-244 | All positions of the box are to come, in order; none if a side is empty. |
| Volumes.DefaultPosIterator.Next | common/src/vol.rs:249-265 | Returns the first of the positions still to come and leaves the others. |
| Volumes.CuboidIs | common/src/vol.rs:246-266 | The positions are exactly those of the half-open box, x fastest, then y, then z, each once. |
| Volumes.SlowestLast | common/src/vol.rs:249-265 | Of two positions the one with the smaller z comes first, then the smaller y, then the smaller x. |
| Volumes.DefaultVolIterator.Next | common/src/vol.rs:286-293 | Returns the first readable position still to come, with what is read there. |
| Volumes.ReadableOrdered | common/src/vol.rs:283-294 | The readable positions keep the order of the box. |

## Left out

- DeliveredBeforeClose: a stream that the peer closes itself is no longer handed anything, so nothing is claimed of it.
- DeliveredOverTcp: an empty message makes no frame and is never handed over, so delivery is about the others.
- DatagramRoundTrip: one datagram; loss and reordering of datagrams are not modelled.
- ReadFrame: errors other than the end of the input are not modelled; which of the bytes after an unknown tag one read gives is left open.
- FindPath: a volume or an end that changes between calls leaves the search sound, but what depends on them is not claimed; 32-bit overflow of coordinates and rounding of costs are not modelled.
- Poll: shortest paths are not claimed, since a visited node is not pushed again when its score improves.
- Radius: 32-bit overflow of large radii is not modelled.
- GetWalkableZ: rounding the start and end coordinates down is done before the call.
- FillNext: on values, since the message is moved out of its queue and back; sharing of the buffer is not captured.
- Insert: on values like RemoveIndex, since the map of regions is one sequence of keys and one of regions; the object that holds them is `RegionMap`.
- KeepInv: the managers and the API are moves of one state, not objects; what happens between two waits of one manager is one step.
- Sockets, the async runtime, thread pools, metrics, logging, sleeps and the atomic counter of running managers.
- Serialization and compression of messages: external libraries.
- A second channel of the same participant and the takeover of channels: unfinished in the source.
- `Route`, `Chaser`, rays, view distances and the clock: floating-point geometry and randomness.
- The rest of the settings: lookups and files that would only add easy members.
- The promises of a stream: they are not interpreted, and those of the streams opened here are 0.
- Client, server, rendering and entity systems.
