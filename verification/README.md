# channeld: a verified model

channeld is a publish/subscribe gateway for game servers. Connections exchange packets of messages with
it; channels keep data, merge updates into it and fan the updates out to their subscribers; spatial
channels cover the world with a grid, and entities are handed over from cell to cell as they move. This
project models these parts in Dafny and proves what they keep, over all inputs and over all runs.

| files | what they model |
|---|---|
| `Protobuf`, `Framing`, `PacketStream` | the wire format of packets; frames in a byte stream; a connection that batches messages into packets and takes packets out of a stream that arrives in pieces |
| `FanOut`, `FanOutQueue`, `Windows`, `Walks`, `ChannelTick` | a channel's data, update buffer and fan-out queue, what is ever sent, and the tick that walks the queue while reordering it |
| `Feeds`, `Replication`, `ReplicaRuns` | the updates meant for a subscriber, and what it holds after any run |
| `Subscriptions`, `TableRuns` | the subscription tables and their agreement |
| `OwnerRecovery` | an owner that loses its connection and comes back |
| `SpatialGrid`, `GridDistance`, `AxisSampling`, `SpatialQuery` | points, cells, regions and neighbours; area-of-interest queries by sampling |
| `ServerBlocks`, `SpatialServers` | the servers' blocks of cells, and the border cells they subscribe to |
| `Location`, `Handover`, `HandoverRuns` | the position of an entity, the notification of a move, and the callbacks it queues to two channels |
| `SpatialInterest`, `InterestRuns` | replacing a client's spatial subscriptions by those a query asks for |
| `EntityGroups` | handover and lock groups, as objects that several controllers share |
| `ChannelIds` | allocating channel ids with cached "full" flags |

Code that updates objects in place is a class here (`PacketStream.Connection`, `ChannelTick.Channel`,
`SpatialServers.Controller`, `Handover.World`, `SpatialInterest.Channels`, `EntityGroups.Controller`,
`ChannelIds.Channels`). Its methods are proved against functions of the state before, and what the
program promises is proved about those functions and about runs of them. Whole handlers and ticks are atomic steps;
a run is any sequence of them. Coordinates are real numbers.

## What the proofs bring out

Where the code does not do what one would expect, a lemma says exactly when it does, and another gives a concrete case.

- A complete frame that does not unmarshal is never consumed, and the connection stays open, although the
  message that is logged says otherwise (`Framing.UndecodableFrameStalls`; a frame of one byte is
  `Framing.UndecodableFrameExample`).
- An update is sent to a subscriber iff its time is from that of the last fan-out before to that of the last one
  after, while the buffer is in order (`Windows.SendsIff`). One that arrives with an earlier time than the last
  fan-out is never sent (`Windows.LateUpdateIsLost`, `Windows.LateExample`), and a window whose updates are out of
  order loses some (`Windows.SelectTakesAllIff`, `Windows.DisorderLosesUpdates`). A full buffer gives up an update that a
  subscriber has still to get iff that is newer than the subscriber's last fan-out, or as new and came after it
  (`ReplicaRuns.TrimmingLosesIff`). In every run a replica is the merge of exactly the updates that were neither late for
  it, nor lost that way, nor skipped as its own (`ReplicaRuns.ReplicasConverge`).
- A subscriber that raises its interval later is not protected by the longest interval (`Subscriptions.RaisedIntervalIsNotRecorded`,
  `ReplicaRuns.PunctualSubscribersLoseNothing`).
- A subscriber that skips its own updates can be set back to an older value of another's, when both came at the time of
  its first fan-out (`Replication.OwnUpdateIsOverridden`).
- With a fan-out interval of 0 the walk of the queue never ends (`ChannelTick.ZeroIntervalNeverSettles`, `Walks.EagerReaderIsInsatiable`).
- A first fan-out with masks filters the channel's own data, and so what later newcomers get
  (`Walks.NewcomersAreServed`, `Walks.FirstFanOutTakesFields`); subscribers past their first fan-out are not
  concerned (`Walks.FollowersAreServed`).
- A box wider than a cell can miss its far edge (`SpatialQuery.BoxIsCoveredIff`, `SpatialQuery.FarEdgeCanBeMissed`).
- Creating the channels of all servers fails for some server unless the server counts divide the grid
  (`ServerBlocks.AllBlocksFitIff`, `ServerBlocks.SecondBlockDoesNotFit`), although the shares are rounded up.
- An entity that leaves the world, or is locked while it moves, stays in the data of its old cell
  (`HandoverRuns.UpdateKeepsCellIff`, `HandoverRuns.LeavingTheWorldLeavesItBehind`,
  `HandoverRuns.MovingWhileLockedLeavesItBehind`), and a member of a group that is in a third cell ends up in two
  (`HandoverRuns.PartySettlesTogetherIff`).
- An update of a client's interest that finds an earlier subscription of it still queued can leave the client in a
  channel that the query does not name (`InterestRuns.UpdateConvergesIff`, `InterestRuns.QueuedSubscriptionStays`).
- Removing a list of entities from a handover group that names the group's own entity before others leaves those
  others in the shared group (`EntityGroups.RemovalIsCompleteIff`, `EntityGroups.SelfFirstLeavesOthers`).
- Removing a channel of type ENTITY that has a non-spatial id leaves those ids flagged full
  (`ChannelIds.Channels.RemoveChannel`, `ChannelIds.StaleFlag`).
- The very first search for a channel id starts below its range and never looks at the last id
  (`ChannelIds.GetNextId`); with a single id in the range it is never used (`ChannelIds.OnlyIdIsNeverUsed`).
- A carried-over message waits until some other message is queued: a flush with an empty queue does nothing
  (`PacketStream.Connection.Flush`).

## Model

| member | source | states |
|---|---|---|
| `Protobuf.VarintRoundTrip` | pkg/channeld/connection.go:651 | a base-128 varint reads back as the number it was made from, whatever follows it |
| `Protobuf.PackRoundTrip` | pkg/channeldpb/channeld.proto:15-34 | a marshalled message unmarshals to itself, with default values left out on the wire |
| `Protobuf.PacketRoundTrip` | pkg/channeld/connection.go:518-519 | a marshalled packet unmarshals to its messages in order |
| `Protobuf.SinglePacketSize` | pkg/channeld/connection.go:72-77 | a message alone in a packet takes at most four more bytes than the size that was checked when it was queued |
| `Protobuf.PackOnTheWire` | pkg/channeldpb/channeld.proto:15-34 | the bytes of a message with all fields, of one with none, and of a packet |
| `Framing.ReadFrame` | pkg/channeld/connection.go:455-517 | a frame read from a stream is longer than its header and lies within the bytes received |
| `Framing.ParseAppend` | pkg/channeld/connection.go:386-443 | parsing a stream equals parsing a front of it and then what that left over together with the rest, unless it stopped at an error |
| `Framing.ChunkIndependence` | pkg/channeld/connection.go:386-443 | however a stream is cut into reads, a connection handles exactly the frames a left-to-right parser finds in the whole, closes iff that finds a bad header, and keeps what is left |
| `Framing.WaitingBytesBound` | pkg/channeld/connection.go:272-274 | bytes that only wait for more never fill a buffer of one largest packet and its header |
| `Framing.UndecodableFrameStalls` | pkg/channeld/connection.go:518-527 | after a complete frame that does not unmarshal nothing is ever handled again and all bytes pile up |
| `Framing.UndecodableFrameExample` | pkg/channeld/connection.go:518-527 | a frame with one byte that is no field stalls a connection, whatever the decompressor |
| `Framing.CorruptFrameCloses` | pkg/channeld/connection.go:497-514 | a complete frame marked as compressed that does not decompress closes the connection |
| `Framing.CompressedFrameExample` | pkg/channeld/connection.go:497-541 | a frame of one byte that decompresses to a packet is handled, and makes the connection compress |
| `Framing.ParseWrittenPackets` | pkg/channeld/connection.go:678-714 | the frames of written packets, compressed or not, parse to all their messages in order, with nothing left over, and the reader compresses from then on iff any of them was compressed |
| `Framing.StreamRoundTrip` | pkg/channeld/connection.go:386-541 | of any arrived part of a written stream, compressed or not, cut in any way, the messages handled are a front of those written, and all of them once all bytes are there |
| `PacketStream.SendableFitsAlone` | pkg/channeld/connection.go:72-77 | a message that Send accepts always fits into a packet of its own |
| `PacketStream.TakePacket` | pkg/channeld/connection.go:632-668 | a batch is a non-empty packet within the size limit; batch, carried-over message and queue are the pending messages in order, and the batch ends early only when one more message would not fit |
| `PacketStream.Connection.constructor` | pkg/channeld/connection.go:260-274 | the read buffer holds at least one largest packet with its header |
| `PacketStream.Connection.Send` | pkg/channeld/connection.go:57-83 | a message is queued iff its size is below 65530 and the connection is open; conservation of accepted messages is kept |
| `PacketStream.Connection.Flush` | pkg/channeld/connection.go:626-714 | what is written, carried over and queued afterwards is what was pending, in order; accepted messages are always written ones, then the carried-over one, then the queue, unless compression makes a packet too large |
| `PacketStream.Connection.WritePacket` | pkg/channeld/connection.go:670-714 | the frame that is written, and that a packet which compression makes too large is lost |
| `PacketStream.Connection.ReadPacket` | pkg/channeld/connection.go:455-541 | one step of the parser on the unread bytes of the buffer: messages, errors, the peer's compression type and the new position |
| `PacketStream.Connection.HandlePackets` | pkg/channeld/connection.go:414-431 | the loop handles what parsing the buffered bytes finds and stops where parsing stops |
| `PacketStream.Connection.MoveToFront` | pkg/channeld/connection.go:433-436 | the unread tail is copied to the front of the buffer |
| `PacketStream.Connection.Receive` | pkg/channeld/connection.go:386-443 | one read does what feeding the parser the new bytes does, and unless a frame is stuck leaves room for the next read |
| `PacketStream.Connection.ReceiveAll` | pkg/channeld/connection.go:171-176 | the receiving loop does what feeding the parser its reads does, however many bytes have arrived for each; so a new connection handles what parsing their concatenation finds, and closes iff that meets an error |
| `PacketStream.EndToEnd` | pkg/channeld/connection.go:626-714 | for a connection whose accepted messages are conserved, as a new one's are and sends and flushes keep them that lose no packet to compression: with a peer that decompresses what was compressed, the receiver has a front of the accepted messages, and with what is unsent they are all of them |
| `FanOut.FilterIsIdentityIff` | pkg/channeld/data.go:293-294 | masks leave a message alone iff there are none or they name all its fields |
| `FanOut.EmptyRequest` | pkg/channeld/subscription.go:40-66 | a request for nothing leaves the options as they are |
| `FanOut.RequestsInTurn` | pkg/channeld/subscription.go:40-66 | two requests in turn do what the second one over the first one does |
| `FanOut.OverdueDecreases` | pkg/channeld/data.go:206-268 | every fan-out to a due subscriber uses up exactly one overdue window |
| `FanOut.DrainedIsNotDue` | pkg/channeld/data.go:206-268 | a subscriber served until it is not due keeps its place, has had its first fan-out if it was due, and its time never goes back |
| `FanOut.DrainedSame` | pkg/channeld/data.go:212-216 | what a subscriber is sent depends on the channel's data and buffer only, not on other subscribers or the shared accumulator |
| `FanOut.TickedAfterServing` | pkg/channeld/data.go:180-290 | serving one due subscriber, in whatever order, leaves the outcome of the whole tick as it was |
| `FanOut.TickedWithoutClosing` | pkg/channeld/data.go:184-189 | dropping a closing connection's entry changes nothing for the others |
| `FanOut.TickedWhenSettled` | pkg/channeld/data.go:180-290 | with nobody due and no closing entry, a tick changes nothing |
| `Walks.WalkFiltersLiveData` | pkg/channeld/data.go:216-222 | a walk leaves of the channel's own data what the masks of all its first fan-outs leave |
| `Walks.FilterAllKeeps` | pkg/channeld/data.go:293-294 | a field is left iff every one of these masks leaves it |
| `Walks.NewcomersAreServed` | pkg/channeld/data.go:216-228 | a due newcomer is sent one message: the data that the first fan-outs before its own have left, filtered by its own masks |
| `Walks.FollowersAreServed` | pkg/channeld/data.go:180-290 | whatever masks others have and in whatever order the queue is walked, a reader past its first fan-out is sent exactly what its own loop sends |
| `Walks.BystandersAreLeftAlone` | pkg/channeld/data.go:180-205 | who has no access or is not due keeps its entry and is sent nothing |
| `Walks.OthersAreSentNothing` | pkg/channeld/data.go:184-202 | who is closing, has no access or is not subscribed is sent nothing |
| `Walks.WalkSendsMasked` | pkg/channeld/data.go:216-295 | no message of a walk, first or later, has a field that the connection's masks do not name |
| `Walks.DeltaIsMasked` | pkg/channeld/data.go:267-295 | a reader of field 1 is sent field 1 of an update of two fields |
| `Walks.WalkIsPaced` | pkg/channeld/data.go:204-270 | past its first fan-out a reader is sent at most one message an interval, up to the tick's time |
| `Walks.FirstFanOutTakesFields` | pkg/channeld/data.go:219-222 | an example in which a subscriber without masks gets only the fields that an earlier newcomer's masks name |
| `Walks.ZeroIntervalIsAlwaysDue` | pkg/channeld/data.go:204-206 | an open reader with interval 0 that is due is due after any steps of a walk |
| `Walks.EagerReaderIsInsatiable` | pkg/channeld/data.go:204-206 | a channel with such a reader |
| `ChannelTick.ZeroIntervalNeverSettles` | pkg/channeld/data.go:180-206 | while there is one, the walk is never through the queue with nobody due |
| `Windows.SelectTakesAllIff` | pkg/channeld/data.go:230-263 | a scan with its moving lower bound takes every update of the window iff those are in order of arrival |
| `Windows.LateUpdateIsLost` | pkg/channeld/data.go:225-227 | an update with a time before the subscriber's last fan-out is sent by none of the windows of a tick, and is as late afterwards |
| `Windows.SendsIff` | pkg/channeld/data.go:206-268 | from a buffer in order, a subscriber's loop sends an update iff its time is from that of the last fan-out before to that of the last one after, both included |
| `Windows.SelectTakesLeaders` | pkg/channeld/data.go:230-263 | from a buffer in any order, a scan takes exactly those of the window that no earlier one of it in the buffer is newer than |
| `Windows.DisorderLosesUpdates` | pkg/channeld/data.go:230-263 | the second of two updates with times 2 and 1 is in the window and is not taken |
| `Windows.LateExample` | pkg/channeld/data.go:225-227 | an update of time 1 after a fan-out of time 2 is never sent |
| `Windows.SelectIsBetween` | pkg/channeld/data.go:230-263 | from a buffer in order, a scan takes the contiguous part between its bounds, both included, of the updates that the subscriber does not skip as its own |
| `FanOutQueue.MoveAfterEntries` | pkg/channeld/data.go:272-285 | moving a served entry behind another keeps everybody's entry and nobody twice |
| `FanOutQueue.MoveAfterWork` | pkg/channeld/data.go:272-285 | moving an entry keeps the total of overdue windows but for the entry's own |
| `ChannelTick.Channel.InitData` | pkg/channeld/data.go:104-131 | the buffer and counters start afresh with the given data or, without, with the message registered for the channel's type |
| `ChannelTick.Channel.OnUpdate` | pkg/channeld/data.go:149-173 | an update is merged into the data and buffered; a full buffer gives up its oldest update once that is older than the longest interval |
| `ChannelTick.Channel.AccumulateWindow` | pkg/channeld/data.go:229-264 | the accumulator is the merge of exactly the updates that the scan selects, and the last one's index is remembered |
| `ChannelTick.Channel.FanOutTo` | pkg/channeld/data.go:206-270 | the first time the whole data is sent, filtered in place; later the merged delta of one window, if it is not empty |
| `ChannelTick.Channel.MoveToBack` | pkg/channeld/data.go:272-285 | the entry goes behind the last one whose time is not after its own: that one's is not, and all behind it are |
| `ChannelTick.Channel.Serve` | pkg/channeld/data.go:206-285 | one due entry is served and moved; entries before the cursor stay, and the total work decreases |
| `ChannelTick.Channel.TickData` | pkg/channeld/data.go:175-291 | with positive intervals the walk ends, leaves no open reader due at its time and interval, sends nobody a field outside of its masks, and does nothing but steps of `Walks`, which say what everybody is sent; unless a first fan-out filters fields out of the live data, every connection is sent exactly what its own loop would send |
| `Replication.DeltaExtends` | pkg/channeld/data.go:247-255 | a delta that overlaps what a replica has, and goes further, extends it as if the overlap were not there |
| `Replication.WindowOfBuffer` | pkg/channeld/data.go:204-263 | a window is what is buffered, of the updates that the subscriber does not skip, from its last fan-out to the next |
| `Replication.WindowOfFeed` | pkg/channeld/data.go:204-263 | it is a part of the updates meant for the subscriber, and starts with some that the subscriber has |
| `Replication.ServingConverges` | pkg/channeld/data.go:206-270 | one fan-out takes a converged replica to all updates meant for it, up to its new time |
| `Replication.DrainConverges` | pkg/channeld/data.go:206-270 | so do all the overdue fan-outs of a tick |
| `Replication.OwnUpdateIsOverridden` | pkg/channeld/data.go:234-255 | an example: the full data has the subscriber's own value of a field, and its next delta another's older one |
| `ReplicaRuns.PunctualTicksTrimOnlySeen` | pkg/channeld/data.go:166-172 | in a run, trimming takes nothing from a subscriber that it has still to get, when none is later than the longest interval |
| `ReplicaRuns.TrimmingLosesIff` | pkg/channeld/data.go:166-172 | in every run, an update makes a subscriber lose the oldest one buffered iff the buffer gives that up, it is not skipped as the subscriber's own, and it is newer than the last fan-out, or as new and all that is buffered came after that |
| `ReplicaRuns.KeptUnlessLost` | pkg/channeld/data.go:149-172 | otherwise nothing leaves what is meant for the subscriber, and the update is added unless it is late or skipped |
| `ReplicaRuns.PunctualSubscribersLoseNothing` | pkg/channeld/subscription.go:83-86 | in every run the longest interval is at least any that was asked for in subscribing to initialized data; so a subscriber that has not raised its own since and is served within it loses nothing |
| `ReplicaRuns.BufferIsBounded` | pkg/channeld/data.go:166-172 | in every run the buffer has at least the latest 512 updates, and when it has more, some as many in a row have come within the longest interval |
| `ReplicaRuns.ReplicasConverge` | pkg/channeld/data.go:149-291 | in every run, late and lost updates, skipping of own updates and of first fan-outs, and masks included, the messages sent to a fanned-out subscriber merge to what its replica started from with exactly the updates meant for it that had, in time and in arrival, come up to its last fan-out: in all fields, or in those that all its masks have named; an ordinary replica starts from the initial data |
| `ReplicaRuns.PunctualReplicasConverge` | pkg/channeld/data.go:149-291 | when no update was late for it, lost or skipped, and none with its last fan-out's time came after that, these are all updates of the run up to that time |
| `ReplicaRuns.FreshAfterTick` | pkg/channeld/data.go:175-291 | right after a tick such a replica misses no update meant for it that is one interval old |
| `ReplicaRuns.MasksAreHarmlessIff` | pkg/channeld/data.go:219-221 | no first fan-out filters the live data, as the runs assume, iff every due newcomer has no masks or names all fields there are |
| `ChannelTick.Channel.SubscribeToChannel` | pkg/channeld/subscription.go:34-102 | an open connection is entered in all tables, at the front of the queue, or has its options merged; the result tells whether the subscription is new or its data access changed |
| `ChannelTick.NewSubscribersWait` | pkg/channeld/subscription.go:71-76 | a new subscriber is sent nothing until its delay and its interval have passed, and is due from then on |
| `Subscriptions.RaisedIntervalIsNotRecorded` | pkg/channeld/subscription.go:40-57 | an interval that is raised later does not raise the channel's longest one |
| `ChannelTick.Channel.UnsubscribeFromChannel` | pkg/channeld/subscription.go:104-125 | the connection leaves all tables, by the list element its subscription points at |
| `ChannelTick.Channel.TickConnections` | pkg/channeld/channel.go:414-475 | closing connections are forgotten, those with a handle leave a record, the owner is reset, and a channel that is abandoned is being removed |
| `ChannelTick.Channel.Forget` | pkg/channeld/channel.go:418-472 | what happens to one closing connection |
| `ChannelTick.Channel.TickRecoverableSubscriptions` | pkg/channeld/connection_recovery.go:96-159 | records whose handle has found its connection are restored and dropped; one that has timed out drops all |
| `ChannelTick.LeftOneMore` | pkg/channeld/channel.go:425-440 | the records left by a set of closing connections grow by exactly the next one's |
| `ChannelTick.FullChangeIsRestoring` | pkg/channeld/connection_recovery.go:118-120 | subscribing with all of the old options gives them back |
| `ChannelTick.OwnerOneMore` | pkg/channeld/connection_recovery.go:107-117 | ownership goes to a recovered owner iff nobody open has it |
| `ChannelTick.SubsOneMore` | pkg/channeld/connection_recovery.go:118-120 | a recovered connection is subscribed with its old options and without a first fan-out; others and closing ones keep theirs |
| `Subscriptions.SubscribedAgrees` | pkg/channeld/subscription.go:34-102 | subscribing keeps the subscription table, the fan-out queue and the spatial subscriptions in agreement |
| `Subscriptions.UnsubscribedAgrees` | pkg/channeld/subscription.go:104-125 | so does unsubscribing |
| `Subscriptions.ForgettingAgrees` | pkg/channeld/channel.go:455-456 | so does dropping closing connections from some of the tables |
| `TableRuns.EveryRunAgrees` | pkg/channeld/subscription.go:34-125 | every run of subscribing, unsubscribing, closing and ticking keeps the tables in agreement |
| `TableRuns.OpenConnectionsAgree` | pkg/channeld/data.go:182-190 | in every run an open connection is subscribed iff it has an entry in the queue, at which its subscription points, and iff it holds a spatial channel in its spatialSubscriptions |
| `OwnerRecovery.ClosingStartsTheCase` | pkg/channeld/connection_recovery.go:34-41 | an owner that closes with a fresh handle is still subscribed and owner until the channel's next tick |
| `OwnerRecovery.TicksRecord` | pkg/channeld/channel.go:414-475 | the next tick of the connections turns it into a record of the ownership and the options, and keeps that record |
| `OwnerRecovery.TicksRecover` | pkg/channeld/connection_recovery.go:96-159 | the next tick of the records makes the handle's new connection the owner with those options; until it is known, the record stays |
| `OwnerRecovery.OwnersRecover` | pkg/channeld/connection_recovery.go:47-62 | in every run that leaves the two connections and their token alone, failed attempts to recover included, after both ticks the new connection is owner, subscribed with the old options except for the skipped first fan-out, the record is gone and the channel not removed |
| `SpatialGrid.IntervalBounds` | pkg/channeld/spatial.go:170-174 | rounding down finds the half-open interval of the axis that a coordinate is in |
| `SpatialGrid.CellIndex` | pkg/channeld/spatial.go:178 | the index is below the number of cells, and column and row can be read off it |
| `SpatialGrid.ChannelsCoverTheWorld` | pkg/channeld/spatial.go:161-180 | exactly the points of the half-open world have a channel, and it is one of the grid's |
| `SpatialGrid.PlaceOf` | pkg/channeld/spatial.go:178-179 | a channel id tells its cell's column and row, and these tell the id |
| `SpatialGrid.CellOnAxes` | pkg/channeld/spatial.go:169-180 | a point has a cell's channel iff it is in the cell's column and row |
| `SpatialGrid.RegionHoldsItsPoints` | pkg/channeld/spatial.go:169-180 | a point's channel is the one whose region contains the point |
| `SpatialGrid.GetRegions` | pkg/channeld/spatial.go:319-356 | there is one region per cell, at the cell's index |
| `SpatialGrid.OneRegionPerPoint` | pkg/channeld/spatial.go:319-356 | the regions cover the world and nothing else, and do not overlap |
| `SpatialGrid.ServerIndexInRange` | pkg/channeld/spatial.go:320-351 | no region names a server that does not exist, even when the shares are rounded up, and the server's column and row are those of the cell's share |
| `SpatialGrid.GetAdjacentChannels` | pkg/channeld/spatial.go:358-381 | for any id, the result is exactly the cells at most one column and row from the place that the id stands for, in ascending order; for a cell's id these are its neighbours |
| `SpatialGrid.AdjacencyIsSymmetric` | pkg/channeld/spatial.go:358-381 | being neighbours is symmetric and irreflexive |
| `SpatialGrid.NeighboursTouch` | pkg/channeld/spatial.go:358-381 | two cells are neighbours iff they differ and their regions have a boundary point in common |
| `GridDistance.Units` | pkg/channeld/spatial.go:223 | the distance in grid diagonals, rounded up: the least number of diagonals that reaches |
| `GridDistance.LeastUnits` | pkg/channeld/spatial.go:223 | a distance is within some number of diagonals iff its rounded value is |
| `GridDistance.NearbyUnits` | pkg/common/common.go:44-46 | two points at most a diagonal apart differ by at most one in their rounded distances from any third one |
| `GridDistance.CellDiameter` | pkg/channeld/spatial.go:134-139 | two points of a cell are at most a diagonal apart |
| `GridDistance.DiagonalIsReached` | pkg/channeld/spatial.go:134-139 | and opposite corners are |
| `AxisSampling.StretchIsHit` | pkg/channeld/spatial.go:207-217 | every stretch of one step or more inside the sampled range contains a sample |
| `AxisSampling.HitCells` | pkg/channeld/spatial.go:215-217 | the cells hit along an axis are those from the near edge's to the last sample's, without a gap |
| `SpatialQuery.SampleArea` | pkg/channeld/spatial.go:215-225 | both loops end; a cell is entered iff a sample names it, with the distance of the last sample to do so, and other entries stay |
| `SpatialQuery.QueryArea` | pkg/channeld/spatial.go:204-268 | there is an error iff a reach is not positive or the centre is outside the world; otherwise the centre's cell gets distance 0 and the others what sampling says |
| `SpatialQuery.QuerySpots` | pkg/channeld/spatial.go:189-202 | exactly the cells of spots are named, each with the distance of its last spot, 0 where none is given |
| `SpatialQuery.QueryChannelIds` | pkg/channeld/spatial.go:182-316 | the cells named are those of the spots, of the box and of the sphere, which extend the answer in this order; the error cases of the whole query |
| `SpatialQuery.LastPartDecides` | pkg/channeld/spatial.go:182-268 | the distance of a cell is the sphere's if that finds it, else the box's, else that of the last spot; a centre's is 0 |
| `SpatialQuery.BoxIsSampledOnBothAxes` | pkg/channeld/spatial.go:215-217 | a cell has a sample of the box iff its column and its row are hit |
| `SpatialQuery.AnswerKeys` | pkg/channeld/spatial.go:204-268 | an answer adds exactly the centre's cell and those that samples are in |
| `SpatialQuery.FoundIsReached` | pkg/channeld/spatial.go:204-268 | every cell added contains a point of the box or sphere |
| `SpatialQuery.BoxIsCoveredIff` | pkg/channeld/spatial.go:204-233 | every cell a box reaches is found iff, on each axis, the box's far edge is past the world or in the cell of the last sample |
| `SpatialQuery.SmallBoxIsCovered` | pkg/channeld/spatial.go:204-233 | with extents of at most one cell every cell that the box touches is found |
| `SpatialQuery.WideOverlapIsFound` | pkg/channeld/spatial.go:204-233 | with any extents, a cell that overlaps the box by a step on both axes is found |
| `SpatialQuery.SharedSquareIsFound` | pkg/channeld/spatial.go:204-268 | a box or a sphere finds every cell that shares a square of one step with it |
| `SpatialQuery.SphereOverlapIsFound` | pkg/channeld/spatial.go:235-268 | a sphere finds every cell with a square of one step whose corners are within the radius |
| `SpatialQuery.FarEdgeCanBeMissed` | pkg/channeld/spatial.go:204-233 | a box of 1.1 cells to each side does not find all cells it reaches |
| `SpatialQuery.DistanceIsStable` | pkg/channeld/spatial.go:212-267 | the distance stored for a cell is at most one off that of any point of the cell, whichever sample stored it, the centre's included |
| `SpatialQuery.LastSampleDecides` | pkg/channeld/spatial.go:215-225 | an example: the outermost cell gets the distance of its last sample, 2, although its first one is nearer |
| `ServerBlocks.AllBlocksFitIff` | pkg/channeld/spatial.go:401-424 | every server's block lies in the grid iff the server counts divide it |
| `ServerBlocks.SecondBlockDoesNotFit` | pkg/channeld/spatial.go:401-424 | of three columns for two servers, the second server's block does not fit |
| `ServerBlocks.BlockIsTheServersRegions` | pkg/channeld/spatial.go:334-335 | a cell is in a server's block iff its region names that server, so blocks partition the grid |
| `ServerBlocks.CornerChannelIs` | pkg/channeld/spatial.go:165-180 | a cell's lower corner, taken without offset, has the cell's channel, and past the grid none |
| `ServerBlocks.BlockChannels` | pkg/channeld/spatial.go:411-424 | the loops fail iff the block leaves the grid and otherwise list exactly its cells, each once |
| `ServerBlocks.SubscribeSide` | pkg/channeld/spatial.go:502-521 | the loops over one side succeed iff all their targets are channels, and list them in order |
| `ServerBlocks.TargetPlace` | pkg/channeld/spatial.go:502-589 | with fitting borders no 32-bit subtraction wraps, and every target is a cell of the strip across the side |
| `ServerBlocks.RoundAndTarget` | pkg/channeld/spatial.go:502-589 | loop counters and cells of the strip determine each other |
| `ServerBlocks.SubToAdjacentChannels` | pkg/channeld/spatial.go:481-590 | there is no error iff the block's own corner and all targets across the sides with a neighbour are channels; with fitting borders and all channels present that is so, and the channels are exactly the cells at most a border straight across a side, clipped at the world's edge, each once |
| `ServerBlocks.BorderIsForeign` | pkg/channeld/spatial.go:481-590 | border cells belong to other servers |
| `ServerBlocks.InBorderIff` | pkg/channeld/spatial.go:481-590 | a block's border is the cells of other blocks in a row or column with one of its cells and at most a border away from that |
| `SpatialServers.Controller.NextServerIndex` | pkg/channeld/spatial.go:866-874 | the first slot without a connection or with a closing one, or the number of slots |
| `SpatialServers.Controller.Tick` | pkg/channeld/spatial.go:876-884 | exactly the slots of closing connections become free |
| `SpatialServers.Controller.CreateChannels` | pkg/channeld/spatial.go:387-479 | the first free slot and the channels of its block become the server's, or nothing changes; once no slot is free, that succeeds iff every server's border can be subscribed to, and fitting borders are subscribed to exactly |
| `SpatialServers.Controller.AllCellsPresent` | pkg/channeld/spatial.go:446-449 | when every slot is taken, every cell has a channel |
| `Location.PositionsChain` | pkg/unreal/handover.go:8-46 | a move is notified iff the merged location is a different position, between the old and the merged one, with the axes swapped |
| `Location.OnePlaceChains` | examples/channeld-ue-tps/tpspb/data.go:227-257 | while an entity has a single location, the positions checked are those of its data before and after the merge |
| `Location.ActorsMoveComesFirst` | examples/channeld-ue-tps/tpspb/data.go:227-257 | of two locations, the actor's move is notified, or the scene component's if the actor's position did not change |
| `Location.MergeIsPartial` | examples/channeld-ue-tps/tpspb/data.go:227-257 | a merge keeps the locations and coordinates that the update does not name, and takes those it names |
| `Location.AxesAndDefaults` | pkg/unrealpb/extension.go:11-24 | the second coordinate is the third of a position, and absent ones are 0 |
| `Handover.PerformSnoc` | pkg/channeld/channel.go:348-352 | a callback queued last takes effect on what all earlier ones leave |
| `Handover.RunningSettles` | pkg/channeld/channel.go:389-412 | running queued callbacks leaves what all of them lead to, and running all of them leads there |
| `Handover.World.Reown` | pkg/channeld/spatial.go:681-700 | the loop gives each entity of the party to the destination's owner, and unsubscribes the source's owner iff it is open and has no interest in the destination |
| `Handover.World.SubscribeDestination` | pkg/channeld/spatial.go:789-829 | every open connection in the destination is subscribed to every entity of the party that has data, with write access iff it is the owner |
| `Handover.World.Notify` | pkg/channeld/spatial.go:612-858 | nothing changes unless both cells have channels and the group is not empty; otherwise a remove and an add are queued and ownership and subscriptions of the group change as modelled |
| `Handover.World.MergeUpdate` | examples/channeld-ue-tps/tpspb/data.go:227-257 | the update is merged before a move is notified; without an object reference nothing is notified |
| `Handover.World.TickMessages` | pkg/channeld/channel.go:389-412 | as many queued callbacks run as there is time for, the first ones, in order, and the rest stay queued; with time enough the queue is empty and the data is what the callbacks were to make of it |
| `HandoverRuns.MovedHomes` | pkg/channeld/spatial.go:703-736 | once all queued callbacks have run, the party has left the source's data, those of it that have data are in the destination's, and nobody else has moved |
| `HandoverRuns.PartySettlesTogetherIff` | pkg/channeld/spatial.go:703-736 | a whole party ends up in the destination alone iff each member was in the source or the destination at most, or, without data, was in the destination already |
| `HandoverRuns.MergedHomes` | pkg/channeld/spatial.go:612-736 | what an update does to the cells that any entity is in once all queued callbacks have run |
| `HandoverRuns.GroupIsHandedOver` | pkg/channeld/spatial.go:612-829 | an update that moves an entity between cells with channels takes exactly its group along: each member leaves the source, enters the destination if it has data, and gets the destination's owner unless both cells have the same open one |
| `HandoverRuns.EnoughBudgetDrains` | pkg/channeld/channel.go:389-412 | in the runs too, a tick with time enough empties a cell's queue |
| `HandoverRuns.UpdateKeepsCellIff` | pkg/channeld/spatial.go:612-736 | an update of one entity leaves any entity, itself or another, in exactly the cell of its place iff the update takes it along there: a handover that it is in the party of ends in that cell and starts from that cell or its old one, or else its cell's channel stays the same |
| `HandoverRuns.LoneMoveFollowsIff` | pkg/channeld/spatial.go:613-674 | for an entity with one location that moves alone that is so iff both cells have the same channel or none, or both have channels and the entity is not locked |
| `HandoverRuns.LeavingTheWorldLeavesItBehind` | pkg/channeld/spatial.go:613-621 | an entity that moves off a grid of two cells stays in the data of the one it was in |
| `HandoverRuns.MovingWhileLockedLeavesItBehind` | pkg/channeld/spatial.go:659-674 | so does one that moves from one cell to the other while it is locked |
| `HandoverRuns.AuthorityIsHandedOffIff` | pkg/channeld/spatial.go:681-829 | the entity's owner becomes the destination's; only that owner, of the open connections, may write iff the old owner does not claim an interest in a cell it is not subscribed to |
| `HandoverRuns.AuthorityStays` | pkg/channeld/spatial.go:681-829 | an entity that the destination's owner owns already stays its own |
| `HandoverRuns.AgreementHandsOff` | pkg/channeld/subscription.go:181-187 | with agreeing subscription tables that is always so |
| `HandoverRuns.EveryRunIsSound` | pkg/channeld/spatial.go:612-858 | conservation, authority and table agreement hold in every run of new entities, moves of parties that follow, regrouping, callbacks, subscriptions, closings, changes of owners and ticks |
| `HandoverRuns.QuietEntitiesAreAtHome` | pkg/channeld/spatial.go:703-736 | in every run from a start without entities, whenever the queues are empty an entity is in the data of exactly the channel of its cell, which has the same open owner, and no other open connection may write it |
| `SpatialInterest.GetSpatialDampingSettings` | pkg/channeld/message_spatial.go:31-38 | the first setting that covers the distance, or none |
| `SpatialInterest.FartherIsSlower` | pkg/channeld/message_spatial.go:15-38 | the interval grows with the distance |
| `SpatialInterest.Difference` | pkg/channeld/util.go:105-113 | the entries of one map whose keys the other does not have |
| `SpatialInterest.Channels.Handle` | pkg/channeld/message.go:488-605 | what a subscribe or unsubscribe message does to the tables; an owner that unsubscribes owns the channel no longer |
| `SpatialInterest.Channels.Dispatch` | pkg/channeld/message_spatial.go:91-128 | each live channel gets its message queued, the current one handles its own at once |
| `SpatialInterest.Channels.HandleUpdateSpatialInterest` | pkg/channeld/message_spatial.go:41-129 | held channels that the query does not name are unsubscribed, named ones subscribed at the damped interval; a failed query changes nothing |
| `InterestRuns.UpdateConvergesIff` | pkg/channeld/message_spatial.go:82-128 | what is queued leads to what the query asks for iff nothing queued earlier subscribes the client to another channel it neither holds nor wants, and what is queued in the current channel ends where the query does |
| `InterestRuns.QueuedSubscriptionStays` | pkg/channeld/message_spatial.go:82-128 | an example: the query names one channel, and the client ends up in another one as well |
| `InterestRuns.EveryRunConverges` | pkg/channeld/message.go:488-605 | that stays so in whatever order channels handle their queues, while other connections come and go and channels are removed |
| `InterestRuns.InterestFollowsTheQuery` | pkg/channeld/message_spatial.go:41-129 | where that condition holds, once no message of the client is queued its spatial subscriptions on live channels are those of the query, each at the interval for its distance |
| `InterestRuns.OwnersStayIn` | pkg/channeld/message.go:594-604 | in every run an open owner of a channel is subscribed to it, as an owner that leaves gives it up |
| `InterestRuns.OwnersChangeByLeaving` | pkg/channeld/message.go:594-604 | and a channel's owner changes only when the message handled is its own leaving |
| `InterestRuns.UpdateKeepsOwnersIn` | pkg/channeld/message_spatial.go:82-128 | an interest update leaves no open owner outside of its channel either |
| `EntityGroups.EntityGroup.Add` | pkg/channeld/entity.go:29-38 | the members of the other group are added, also when it is the same group |
| `EntityGroups.Controller.CascadeHandover` | pkg/channeld/entity.go:82-94 | an unlocked entity brings its group's members along and holds the new group object from then on |
| `EntityGroups.Controller.CascadeLock` | pkg/channeld/entity.go:95-101 | for lock groups it brings its handover group along too |
| `EntityGroups.GatheredMembers` | pkg/channeld/entity.go:104-131 | the members of a group after adding are its old ones, those added and those they bring; none is lost |
| `EntityGroups.AddToHandoverGroup` | pkg/channeld/entity.go:104-131 | every unlocked entity added that has a channel holds the caller's very group object, which has exactly the gathered members; no other group or controller changes |
| `EntityGroups.AddToLockGroup` | pkg/channeld/entity.go:133-156 | the same for lock groups: who holds the caller's object afterwards and exactly whom the group has |
| `EntityGroups.GetHandoverEntities` | pkg/channeld/entity.go:197-224 | the whole group or nothing; nothing iff the group is empty or meets the lock group; without a group the entity alone, even when locked |
| `EntityGroups.RemoveFromHandoverGroup` | pkg/channeld/entity.go:162-178 | removed entities get new empty groups, and the shared group loses those listed up to the caller itself |
| `EntityGroups.RemovalIsCompleteIff` | pkg/channeld/entity.go:166-174 | the shared group loses every listed entity iff none of its members is first listed after the caller |
| `EntityGroups.SelfFirstLeavesOthers` | pkg/channeld/entity.go:166-174 | an example in which a listed entity stays |
| `ChannelIds.GetNextId` | pkg/channeld/util.go:71-84 | from a start in the range, the first free id in cyclic order, or none iff the range is full; from just below the range that id if it is free, and the last id is never looked at |
| `ChannelIds.Channels.constructor` | pkg/channeld/channel.go:118-132 | at first there is only the GLOBAL channel, whose id is outside all ranges |
| `ChannelIds.Channels.CreateChannel` | pkg/channeld/channel.go:211-256 | a second GLOBAL channel is an error; any other gets what a search from the latest id finds, unless its range is flagged full; with accurate flags that is the first free id, and there is an error iff the range is full |
| `ChannelIds.Channels.CreateEntityChannel` | pkg/channeld/message_spatial.go:204-216 | an entity's channel is made iff the id is an entity's and not in use but for a channel that is being removed |
| `ChannelIds.Channels.MarkRemoving` | pkg/channeld/channel.go:477-495 | a channel that has lost its owner is marked, and keeps its id until it is removed |
| `ChannelIds.Channels.RemoveChannel` | pkg/channeld/channel.go:258-282 | the removed id is free; the flags stay accurate iff it was not the GLOBAL channel, and not one of type ENTITY among non-spatial ids that are flagged full |
| `ChannelIds.StaleFlag` | pkg/channeld/channel.go:269-277 | an example: an id is free, but the flag says that none is |
| `ChannelIds.OnlyIdIsNeverUsed` | pkg/channeld/util.go:71-84 | with a single non-spatial id the first channel is refused although the id is free |
| `ChannelIds.Channels.CreateCellChannel` | pkg/channeld/spatial.go:411-424 | a spatial controller's channels get the ids of grid cells, even over existing ones, and leave the flags accurate |

## Left out

- Sockets, listeners, logging, metrics, flags and configuration files; a read from the network is a parameter, and so is the time of a tick.
- Floating-point rounding: coordinates are real numbers, and distances are compared by their squares, without roots.
- `ReadFrame`: of the Protocol Buffers wire types, groups are rejected by the model's decoder; snappy is a parameter, any pair of functions.
- `Flush`: a packet that grows too large under compression is lost, so conservation is for runs without one; marshalling errors are not modelled, and queues have no capacity.
- `WritePacket`: failed and short writes to the network, after which the program goes on as if they had succeeded.
- `FilterIsIdentityIff`: masks name top-level fields; paths into nested messages are not part of the model.
- `InitData`: the initializer and the extension of a channel's data, which belong to the message types.
- `OnUpdate`: data messages are maps of fields that override each other; removal markers, repeated fields with limits and custom merges of the examples are not part of the model.
- `ReplicasConverge`: for runs in which no first fan-out filters fields out of the channel's own data, for updates that are handled in the order of their times, and for writers that do not change whether they skip their own updates while they are subscribed.
- `SubscribeToChannel`: connections are told apart by identity, not by the id on the wire; the messages that report a subscription are not modelled.
- `TickRecoverableSubscriptions`: marshalling errors, and the messages that carry the channel data to a recovered connection.
- `OwnersRecover`: for handles that do not time out.
- `GetAdjacentChannels`: for grids with fewer than 2^31 - 1 columns and rows, and not for the ids that stand for row 2^31 - 2, with which its loop over rows does not end.
- `QueryChannelIds`: cone queries, whose test needs a cosine, are not part of the model.
- `CreateChannels`: the type check and unmarshalling of the request, the channels' data and the messages that say a server is ready, the options of the border subscriptions, and what has been subscribed when the borders do not fit; sums and products of grid counts do not wrap, only the subtractions of the border loops are 32-bit.
- `Notify`: the messages that tell connections about a handover, and what happens between its steps: it is one atomic step, while the callbacks it queues are steps of their own.
- `EveryRunIsSound`: an entity appears in its channel and in its cell's data in one step, moves are those that `UpdateKeepsCellIff` says can be followed, nobody but an owner is given write access, and a cell's channel changes hands together with the entities in it.
- `Handle`: access control and the messages that notify others.
- `RemoveFromHandoverGroup`: removing from lock groups is the same code on the other field and is not repeated.
- `HandleUpdateSpatialInterest`: field masks of the damping settings, which are empty in the program.
- Message handlers besides those above, access control lists, authentication, the connection state machines, denial-of-service counters, replay, and the Go client.
