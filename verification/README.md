# geomqtt, verified

A Dafny model of geomqtt: a proxy in front of Redis turns every write to a GEO set into messages on map
tiles, an MQTT broker on each node hands them to subscribers, a bridge carries them between nodes, and
each client folds what it receives into a map of features. The model asks one question of that protocol:
does the client's map equal what a direct query of Redis over the subscribed tiles would return? The
proofs answer it for every run, for any number of nodes and clients, and say exactly where the answer
turns into no. Around it stand the parts the protocol rests on: tile arithmetic, zoom lists, topics and
channels, the MQTT byte codec of the Unreal client, and the InfluxDB sink.

Check everything with

    dafny verify --resource-limit 2000000 --verification-time-limit 0 dfyconfig.toml

## How the files fit together

- `Payloads` holds the entities and what one message does to one feature.
- `MemberTracking` is the heart. It looks at one member of one set, the undelivered messages about it and
  one client's feature for it. An undelivered message, or the feature, may be out of date; then it *owes* a
  later message that makes it good. Writes, deliveries, evictions and snapshots keep these debts payable,
  and with nothing undelivered a feature without debts is right.
- `RedisStore` is what geomqtt reads and writes in Redis, with the messages each command publishes;
  `Protocol` puts N nodes, the bus, the clients and their snapshot bursts around it as a state machine and
  proves the view theorem. `Settling` shows that the order in which things in flight arrive does not matter,
  and `SingleNode` that on one node the theorem needs no conditions at all.
- `Limits`, `Viewports`, `HashWrites`, `Deletions` and `GeoAddOptions` prove, for each precondition of the theorem,
  exactly when a step that ignores it still leaves the client right; `Witnesses` gives, for every projection, a
  reachable state in which it does not. `FreeWrites` drops the condition on writes altogether and says where a client
  ends up after any run of commands.
- `Delivery` says who gets which publish in the protocol, `SessionDelivery` the same for real broker sessions
  with arbitrary filters and for the bytes on the bus; `EndToEnd` follows a step of the protocol from the bus
  into the client's map. `Refinement` puts brokers, bridges, connections and decoding clients together and shows
  that every run of theirs is a run of the protocol.
- `MqttBroker`, `TileFanout`, `RespProxy`, `Bridge`, `Snapshots` and `MapClient` are the imperative code: classes
  whose methods change fields the way the source does, each proved against the functions of the protocol.
  `ProxyCommands`, `ClientView` and `Subscriptions` carry those results over to the protocol's steps.
- `WatchedObjects` says what a client that watches an object shows of its hash, and `ProxyArguments` what the proxy
  reads out of a command's arguments.
- `Tiles`, `UpdateShape` and `Zooms` are the arithmetic; `Text` and `Topics` the names on the wire.
- `Codec`, `Packets` and `Stream` are MQTT 3.1.1 as the Unreal client speaks it; `Influx` and
  `LineProtocol` are the optional InfluxDB sink.

## What came out

- **The map is right, under four conditions** (`Protocol.InFlightCorrect`, and `Settling.EverySettlingAgrees` for
  every order of arrival). Positions are right in every run in which (1) a node does not write a member while
  other nodes' messages about it are still undelivered to that node, unless the write leaves the position alone;
  (2) no tile is unsubscribed before its snapshot burst has run; (3) the zoom changes only when the client's node
  has nothing undelivered for the client's set; (4) no GEO set's key is deleted. Whole features (with attributes)
  are right when, in addition, hash writes keep to (1) and no fields are deleted.
- **The code is the protocol.** `Refinement.RunsOfTheCode`: nodes that put bytes on the bus, bridges that read them,
  brokers with a session per client, SUBSCRIBE and UNSUBSCRIBE packets, snapshot tasks, and clients that decode and
  handle what is queued for them go through the protocol's states, deed by deed; so what a client has decoded is
  what the query returns (`Refinement.DecodedMapIsRight`).
- **On a single node it is always right.** `SingleNode.AloneExact`: with one node (1) and (3) hold by themselves.
  `SingleNode.AlwaysRight`: after every action of any sequence of GEOADD, ZREM, HSET and viewport changes with their
  snapshots, every client's map equals the query, attributes included.
- **Writing at any node is not safe.** A node delivers its own publish at once, ahead of what other nodes
  published earlier and its bridge has not read yet. `Limits.OvertakingWriteExact` gives the exact condition for
  the client to come right, however the rest arrives: nothing in flight repositions the member on one of the
  client's tiles, or the write changes nothing the client can see. When the member's tile still awaits its
  snapshot, what counts is what is in flight at the time of the burst (`Limits.OvertakingWriteBeforeBurstExact`).
  `HashWrites.OvertakingHashWriteExact` and `HashWrites.OvertakingHashWriteBeforeBurstExact` do the same for HSET.
- **After any run, the last write that counted decides.** `FreeWrites.AnyWritesExact`: every node writes when it likes,
  and a client ends up showing an object where it was due just after the last write that counted for it. The only
  writes that do not count are those that the client's own node makes while a message that repositions the object is
  still in flight to it. So it is only the client's own node that has to wait (`FreeWrites.OnlyOwnNodeHarms`).
- **The other conditions are exact as well, with messages in flight and for every order of arrival:**
  `Viewports.ViewportChangeExact` for (2) and (3) together, `Viewports.LateSnapshotExact` for a snapshot that
  arrives out of turn, `Deletions.LayerDeletionSettlesExact` for (4); `Deletions.HashDeletionSettlesExact` and
  `Deletions.HashDeletionBeforeBurstExact` for deleted fields (HDEL and DEL of a hash are not told to tiles).
- **More ways to go wrong, for a client that was right:** `GeoAddOptions.FlaggedWriteExact` and
  `GeoAddOptions.RepeatedMemberExact` give the exact conditions for NX/XX and for a member that one GEOADD names
  several times, `ClientView.WatchedObjectsExact` for clients that watch objects, `ClientView.QueuedMessagesExact`
  for messages that are already queued for a client when it unsubscribes, and `Subscriptions.LateConnectExact` for
  clients that subscribe before they connect. `Witnesses` shows that none of the failing sides is empty.
- **Delivery is exactly once** (`SessionDelivery.ExactlyOncePerSession`): a session that hears a topic throughout, tile
  or object, plain or by wildcard, gets each publish that is due at its node exactly once, each origin's in order.
- **Malformed PUBLISH packets break chunking independence.** `Stream.CuttingExact` says for which streams the
  way they are cut cannot matter: exactly those in which nothing can be parsed behind the first malformed
  packet.
- Set names with `:` change their topic on the way over Redis, set names with `/` get no snapshot, node ids
  with `|` and tag values or field keys that end in a backslash or hold a line break are not read back. Each of these
  is an if-and-only-if below.

Where the code and its documentation differ, the model follows the code: PROTOCOL.md:85-89 calls the tile
message `attr` reserved, the server sends it; MqttCodec.h:38-42 says malformed input clears the buffer, but a
malformed PUBLISH only loses its own bytes.

## Assumptions

- A proxied command and its fanout are one step, so the window between GEOPOS and the write (README.md:299)
  is closed. Redis calls succeed, positions are stored exactly, and GEOSEARCH returns exactly the members of
  the tile.
- Redis pub/sub delivers every publish to every node in one order. A snapshot burst runs as one step at any later
  time. In the protocol a node's broker hands messages to its clients at once; what messages still queued for a
  client do when it looks elsewhere is `ClientView.QueuedMessagesExact`.
- In the protocol, a client follows one set and watches no objects.
- Between nodes, node ids are valid UTF-8, different and without a bar, and no set on the bus has a `:` in its
  name (`Topics.TileChannelExact` and `Topics.EnvelopeExact` say what happens otherwise). In `Refinement` set names
  have no `/` and no wildcard level (`Topics.ParseTileFilterExact`, `Topics.SubscriptionIsMembership`).
- Coordinates are reals. The Mercator latitude map is a parameter of which only strict monotonicity and
  continuity (every value in between is taken) are used.
- Strings in the Unreal codec are their UTF-8 bytes; JSON texts are an arbitrary encoding function, and where a client
  decodes them (`EndToEnd`, `Refinement`) the messages at hand come back as they were encoded.
- Packets are QoS 0, as everywhere in geomqtt.

## Model

| member | source | states |
|---|---|---|
| MemberTracking.WriteOpsCoherent | crates/geomqtt-server/src/fanout.rs:91-112 | Among the messages of one GEOADD, whatever is out of date is put right by a later one: a `remove` comes before the `add` of the same zoom, every put carries the new position and the enriched attributes |
| MemberTracking.WritePays | crates/geomqtt-server/src/fanout.rs:91-112 | A GEOADD's messages also put right every older undelivered message that the new position makes out of date |
| MemberTracking.DeliverHead | clients/geomqtt-core/src/client.ts:160-202 | Delivering the oldest message keeps every debt of the queue and of the client's feature payable, whether or not the client subscribes to its tile |
| MemberTracking.DeliverQueue | clients/geomqtt-core/src/client.ts:160-202 | After the whole queue is delivered the feature owes nothing |
| MemberTracking.SnapshotKeeps | crates/geomqtt-server/src/mqtt.rs:324-331 | A snapshot may arrive while messages are pending: it pays what the new tile owes and disturbs nothing |
| MemberTracking.ViewportKeeps | clients/geomqtt-core/src/client.ts:98-109 | Position-based eviction and new subscriptions at the same zoom keep the ledger, even with messages pending |
| MemberTracking.Settled | clients/geomqtt-core/src/client.ts:160-202 | With nothing undelivered a feature without debts is the member's position on a subscribed tile, with exactly the enriched hash |
| MemberTracking.LocalWriteExact | crates/geomqtt-server/src/fanout.rs:30-47 | One member, one client, its snapshot pending or not: a local write delivered ahead of the pending queue ends right if and only if the member's new tile still awaits its snapshot, or the queue does not reposition the member on a subscribed tile, or the visible position does not change |
| RedisStore.IndexCoversRun | crates/geomqtt-server/src/fanout.rs:114-143 | In every run of commands the index entry of an object contains every set that holds it |
| RedisStore.IndexExactRun | crates/geomqtt-server/src/fanout.rs:114-143 | While no set's key is deleted the index lists exactly the sets that hold an object |
| RedisStore.IndexGoesStale | crates/geomqtt-server/src/resp.rs:248-255 | The index may list sets that no longer hold the object |
| RedisStore.HSetReachesCoveringTiles | crates/geomqtt-server/src/fanout.rs:152-185 | HSET publishes `attr` to exactly the tiles that cover the object's current positions, stale index or not, and to none when no field is enriched, plus the object message |
| RedisStore.OnlyEnrichedTravels | crates/geomqtt-server/src/mqtt.rs:455-474 | Tile messages of any command carry only attributes of the configured names, with their values in Redis after the command |
| Protocol.ExecuteKeeps | crates/geomqtt-server/src/resp.rs:128-169 | A command at any node keeps the invariant for all queues, members and clients of all nodes |
| Protocol.BridgeKeeps | crates/geomqtt-server/src/redis.rs:62-83 | Bridging one message keeps the invariant |
| Protocol.ViewportKeepsInv | clients/geomqtt-core/src/client.ts:90-111 | A viewport change keeps the invariant, at the same zoom even while messages are pending |
| Protocol.SnapshotKeepsInv | crates/geomqtt-server/src/mqtt.rs:309-333 | A snapshot burst keeps the invariant whenever it runs |
| Protocol.RunKeeps | crates/geomqtt-server/src/redis.rs:48-90 | Every allowed run keeps the invariant |
| Protocol.BridgeAllDelivers | crates/geomqtt-server/src/redis.rs:62-83 | Bridging all that is on the bus delivers to a client, member by member, exactly the foreign messages in bus order |
| Protocol.InFlightCorrect | crates/geomqtt-server/src/fanout.rs:30-47 | In every reachable state of N nodes, what is in flight turns each client's map into exactly the query of its subscribed tiles: positions always, whole features where no field is ever deleted |
| Settling.SettlesToOutlook | crates/geomqtt-server/src/redis.rs:62-83 | Bridge deliveries and snapshot bursts may arrive in any order: where the queue agrees with Redis, the client comes to show one and the same place for an object |
| Settling.SettlesWithoutBurst | crates/geomqtt-server/src/redis.rs:62-83 | Where no pending burst concerns the object, the arrivals amount to delivering the queue, whether or not it agrees with Redis |
| Settling.SettlingExists | crates/geomqtt-server/src/redis.rs:62-83 | From every well-formed state some arrivals leave nothing in flight for the client |
| Settling.EverySettlingAgrees | crates/geomqtt-server/src/fanout.rs:30-47 | From every state that keeps the invariant, any order of arrivals ends in exactly what the query returns |
| SingleNode.AloneExact | crates/geomqtt-server/src/redis.rs:71-73 | On one node the conditions on writes and on zoom changes hold by themselves: what remains says nothing about messages in flight |
| SingleNode.AlwaysRight | clients/geomqtt-core/src/client.ts:90-111 | On one node, after every action of any sequence of GEOADD, ZREM, HSET and viewport changes with their snapshots, every client's map equals the query, with no condition on the actions |
| Limits.OvertakingWriteExact | crates/geomqtt-server/src/fanout.rs:30-47 | A GEOADD or ZREM at a node with undelivered foreign messages, for a client that awaits no snapshot of the new tile: however everything in flight arrives, the client ends right if and only if none of it repositions the member for it, or the command changes nothing it can see |
| Limits.OvertakingWriteBeforeBurstExact | crates/geomqtt-server/src/fanout.rs:30-47 | The same for a GEOADD onto a tile that still awaits its snapshot: what counts is what is in flight when the burst runs |
| Limits.UpToDateBurstExact | crates/geomqtt-server/src/mqtt.rs:218-228 | With nothing in flight, for the whole map: a snapshot burst for any tile, of any zoom, keeps an up-to-date client right if and only if every member on that tile is also on a tile the client subscribes to |
| Limits.ZoomChangeExact | clients/geomqtt-core/src/client.ts:95-103 | One member: a zoom change with the new snapshot arriving after any part of the messages in flight ends right if and only if the member is visible at the new zoom, or eviction dropped it, or something in flight takes it off the new tiles |
| Viewports.LateSnapshotExact | crates/geomqtt-server/src/mqtt.rs:218-228 | A snapshot burst for any tile, of any zoom, at any moment of an allowed run: however the rest arrives, the client ends right about an object if and only if the object is not on that tile, or is on a subscribed tile, or something then in flight takes it off again |
| Viewports.BoundSettles | clients/geomqtt-core/src/client.ts:160-202 | An object that the client ought to see comes right for any order of arrival, bursts of tiles that were dropped included |
| Viewports.DroppedSettles | crates/geomqtt-server/src/mqtt.rs:218-228 | An object on a dropped tile whose snapshot is still to come goes away if and only if something takes it off that is in flight when that snapshot comes |
| Viewports.ViewportChangeExact | clients/geomqtt-core/src/client.ts:90-111 | Any viewport change in any allowed run, at the same or another zoom, whatever is in flight and whatever pending tiles are dropped, for any order of bursts and deliveries: right if and only if the object is visible, or, on a dropped pending tile, something in flight at its snapshot takes it off, or, elsewhere, the zoom stays, eviction drops it, or something in flight takes it off |
| Deletions.FieldDeletionExact | crates/geomqtt-server/src/resp.rs:223-245 | With nothing in flight, for the whole map: HDEL leaves an up-to-date client right if and only if it does not show the object or no enriched field goes away |
| Deletions.ObjectDeletionExact | crates/geomqtt-server/src/resp.rs:248-255 | The same for DEL of an object's hash: it leaves an up-to-date client right if and only if it does not show the object or the object has no enriched field |
| Deletions.LayerDeletionExact | crates/geomqtt-server/src/resp.rs:248-255 | The same for DEL of a set: it leaves an up-to-date client right if and only if it follows another set or shows nothing |
| Deletions.LayerDeletionSettlesExact | crates/geomqtt-server/src/resp.rs:248-255 | DEL of the client's set at any node in any allowed run: however everything in flight arrives, the client ends right about an object if and only if it was not to see it, or its snapshot was still to come and neither the map nor anything in flight has it |
| Deletions.HashDeletionSettlesExact | crates/geomqtt-server/src/resp.rs:223-255 | HDEL or DEL of a hash at any node in any allowed run, for an object that awaits no snapshot: for any order of arrival the client ends with what the query returns if and only if it does not see the object or no enriched field has gone |
| Deletions.HashDeletionBeforeBurstExact | crates/geomqtt-server/src/resp.rs:223-255 | The same when the snapshot is still to come: right if and only if, of the fields that have gone, the client holds none when it comes and nothing then in flight brings one |
| FreeWrites.StepTurns | crates/geomqtt-server/src/fanout.rs:30-47 | One command or arrival, whoever writes: what the client is heading for becomes what is due, or stays, exactly as the step counts or does not |
| FreeWrites.AnyWritesExact | crates/geomqtt-server/src/fanout.rs:30-47 | Any commands at any nodes and any arrivals, without conditions: the client ends up showing the object where it was due just after the last step that counted, so it is right if and only if that is still due |
| FreeWrites.OnlyOwnNodeHarms | crates/geomqtt-server/src/redis.rs:62-83 | However the other nodes overtake each other, a client on its way to the right place stays on it as long as its own node does not write ahead of what is in flight |
| HashWrites.LastSettlerDecides | clients/geomqtt-core/src/client.ts:160-202 | Of the messages in flight the last one that settles a field decides it; without one the field stays |
| HashWrites.HashWriteExact | crates/geomqtt-server/src/fanout.rs:152-185 | One member that a client sees on a tile whose snapshot has come: a local HSET delivered ahead of the pending queue ends with the new hash if and only if every field that really changes is safe |
| HashWrites.UnseenHashWrite | crates/geomqtt-server/src/fanout.rs:152-185 | A client that does not see the object keeps not seeing it |
| HashWrites.HashWriteBeforeBurstExact | crates/geomqtt-server/src/fanout.rs:152-185 | One member whose tile awaits its snapshot: right if and only if nothing in flight after the burst settles a field that really changes |
| HashWrites.OvertakingHashWriteExact | crates/geomqtt-server/src/resp.rs:213-246 | For any client of the writing node that awaits no snapshot of the object, and any order of arrival: it ends with what Redis says after the HSET if and only if it does not see the object or every field that really changes is safe |
| HashWrites.OvertakingHashWriteBeforeBurstExact | crates/geomqtt-server/src/resp.rs:213-246 | The same in the protocol, for any arrivals before and after the burst |
| Delivery.OnlyCommandsPublish | crates/geomqtt-server/src/redis.rs:62-83 | The bus holds exactly what commands published, in order; bridges never publish |
| Delivery.ExactlyOnce | crates/geomqtt-server/src/redis.rs:62-83 | Over every run a node hands each publish to its broker at most once, its own at once and never from the bus, the others exactly when its bridge has passed them, each origin's in publish order |
| Delivery.StepDelivers | crates/geomqtt-server/src/broker.rs:97-109 | In every step of the protocol that delivers, a client folds exactly the messages that its node hands over |
| Delivery.InboxIsFolded | clients/geomqtt-core/src/client.ts:160-202 | Over every run a client's map comes from its own steps and the publishes at the positions of its inbox, in that order, and from nothing else |
| Delivery.ExactlyOncePerClient | crates/geomqtt-server/src/redis.rs:54-83 | A client takes no publish twice, and one that follows a tile topic throughout takes each of its publishes exactly once when its node has bridged everything |
| SessionDelivery.PublishesReach | crates/geomqtt-server/src/broker.rs:97-109 | A list of publishes queues for a session just the packets of the messages it hears, in order |
| SessionDelivery.StepReaches | crates/geomqtt-server/src/redis.rs:62-83 | One emission, one bridged wire message or one event of any session queues for a session exactly its items |
| SessionDelivery.ExactlyOncePerSession | crates/geomqtt-server/src/redis.rs:54-83 | Any nodes, any sessions, filters that change at will: what is new in a connected session's queue is copies of publishes, none twice, each as its origin would have sent it, plus what was sent to it directly; each copy was due at its node and heard at some time, each origin's in order; and every publish that was due, tile or object, is there if its topic was heard throughout |
| EndToEnd.TunedHears | crates/geomqtt-server/src/broker.rs:99-104 | A session whose filters are a client's tile topics hears exactly the messages the client wants |
| EndToEnd.StepIsReceived | clients/geomqtt-core/src/client.ts:153-202 | A proxied command or one bridged message: what the brokers queue for the client's session, decoded and handled in order, is what the protocol's step delivers, and this can go on from step to step |
| Refinement.DeedIsStep | crates/geomqtt-server/src/mqtt.rs:180-240 | A proxied command, a bridged message, a viewport change with its packets, or a snapshot task: what brokers and decoding clients do is the protocol's step, and every session stays tuned to its client |
| Refinement.RunsOfTheCode | crates/geomqtt-server/src/redis.rs:48-90 | Every run of nodes, bytes, sessions and decoding clients is a run of the protocol: same Redis, same bus, same progress, same map at every client |
| Refinement.DecodedMapIsRight | clients/geomqtt-core/src/client.ts:153-202 | After any deeds that keep to the protocol's conditions, a client whose node has bridged everything and whose snapshots have come has decoded exactly what the query returns |
| Tiles.CellNests | crates/geomqtt-server/src/coord.rs:6-14 | The cell at zoom z is the cell at zoom z+k divided by 2^k, clamping included |
| Tiles.ServerConfigValid | crates/geomqtt-server/src/coord.rs:6-14 | Tiles carry their zoom, and positions that share a tile share every coarser tile |
| Tiles.ColumnHolds | crates/geomqtt-server/src/coord.rs:6-14 | The column of a position is the one of the 2^z slices of 360 degrees that holds its longitude, counted eastward from -180; beyond the map it is the first or the last |
| Tiles.RowHolds | crates/geomqtt-server/src/coord.rs:6-14 | The row of a position is the one of the 2^z slices of the northing that holds its latitude, clamped at 85.05112878 degrees, counted from the north; beyond the map it is the first or the last |
| Tiles.EastAndNorth | crates/geomqtt-server/src/coord.rs:6-14 | Further east never means a smaller column, further north never a larger row |
| Tiles.TilesCoveringBbox | crates/geomqtt-server/src/coord.rs:47-61 | The tiles of a box: no duplicates, never empty, and exactly the tiles that hold a point of the nudged box |
| Tiles.RangeIsTouched | clients/geomqtt-core/src/coord.ts:48-70 | A tile lies in the cell range of two corners if and only if it holds a point of the rectangle between them |
| Tiles.AlignedColumns | clients/geomqtt-core/src/coord.ts:41-46 | A box whose west and east edges are tile boundaries covers exactly the columns between them, no neighbour |
| Tiles.AlignedRows | crates/geomqtt-server/src/coord.rs:47-61 | A box whose north and south edges are tile boundaries covers exactly the rows between them, where a nudge is less than a row |
| Tiles.TouchesInside | crates/geomqtt-server/src/coord.rs:41-46 | For a box larger than two nudges, the covering tiles are exactly those that hold a point at least a billionth of a tile inside the box |
| UpdateShape.MovesThenSwaps | crates/geomqtt-server/src/fanout.rs:86-112 | One position update over ascending zooms is `move`* (`remove` `add`)*, each message spelled out, one per zoom and one more for each zoom at or beyond the first split |
| Zooms.Expand | crates/geomqtt-server/src/config.rs:117-137 | All zooms of all tokens, or the error of the first bad token |
| Zooms.Dedup | crates/geomqtt-server/src/config.rs:139 | An ordered list becomes strictly ascending with the same members |
| Zooms.ParseZoomList | crates/geomqtt-server/src/config.rs:116-141 | Succeeds if and only if every token is good; then strictly ascending and equal to the union of the listed zooms and ranges |
| Zooms.WrittenListIsRead | crates/geomqtt-server/src/config.rs:108-115 | A comma-separated list of zooms and ranges up to 255, with any white space (around the dash as well) and empty parts, is read as just those ranges |
| Zooms.TrimPadded | crates/geomqtt-server/src/config.rs:118-122 | White space around a text goes away, and nothing else does |
| Zooms.AsciiSpaces | crates/geomqtt-server/src/config.rs:118-122 | Of the first 128 characters, the blank and those from the tab to the carriage return are white space |
| Zooms.ErrorsExact | crates/geomqtt-server/src/config.rs:120-137 | Reversed ranges, ranges and zooms beyond 255, and words that are no number give their errors |
| Zooms.TileSizesExact | crates/geomqtt-server/src/config.rs:90-101 | Exactly the powers of two from 1 to 256 are accepted as tile sizes |
| Zooms.TileSizeTimesShift | crates/geomqtt-server/src/config.rs:90-106 | For every accepted tile size, size times 2^offset is 256 |
| Zooms.ShiftKeepsOrderExact | crates/geomqtt-server/src/config.rs:41-44 | The saturating shift keeps the list strictly ascending if and only if the last but one zoom stays below the cap |
| Zooms.ClosestPublishedZoom | clients/geomqtt-core/src/coord.ts:77-90 | The greatest published zoom not above the current one, else the least; with none published, the floor |
| Text.DecimalDigits | crates/geomqtt-server/src/payload.rs:140-147 | Numbers in names are written digit by digit, the highest first and none too many |
| Text.ParseUnsignedReads | crates/geomqtt-server/src/mqtt.rs:299-301 | A number is read with leading zeros and with a plus sign, if and only if it fits |
| Text.ParseUnsignedRefuses | crates/geomqtt-server/src/mqtt.rs:299-301 | Nothing is read from an empty text, a lone plus sign, or a text with any other character than digits behind the sign |
| Topics.TopicTextInjective | crates/geomqtt-server/src/payload.rs:140-147 | Different topics never have the same text, whatever the names contain |
| Topics.TopicLevels | crates/geomqtt-server/src/payload.rs:140-147 | A tile topic has the levels geo, set, zoom, x and y in this order, an object topic the levels objects and id |
| Topics.ParseTileFilterExact | crates/geomqtt-server/src/mqtt.rs:291-303 | A tile topic is recognised as its set and tile if and only if the set's name has no `/`, the zoom is at most 255 and x and y fit into 32 bits |
| Topics.TileFiltersExact | crates/geomqtt-server/src/mqtt.rs:291-303 | Of all filters exactly those with five levels, geo first and three fitting numbers last, are taken for tiles, and for which ones |
| Topics.MatchesExact | crates/geomqtt-server/src/broker.rs:101-107 | Section 4.7 of MQTT 3.1.1 by positions, for every topic and filter: `+` stands for any one level, `#` for all that follows and for nothing, and filters that start with a wildcard match no topic that starts with `$` |
| Topics.ZoomFilterExact | crates/geomqtt-server/src/broker.rs:101-107 | The filter geo/set/zoom/+/+ matches exactly the tile topics of that set and zoom, whatever is published |
| Topics.SubscriptionIsMembership | crates/geomqtt-server/src/broker.rs:99-104 | Filter matching (section 4.7 of MQTT 3.1.1) on topics without wildcard levels is equality of topics |
| Topics.ObjectChannelRoundTrip | crates/geomqtt-server/src/redis.rs:127-131 | An object's channel always leads back to its topic |
| Topics.TileChannelExact | crates/geomqtt-server/src/redis.rs:116-126 | A tile's channel leads back to its topic if and only if the set's name has no `:` |
| Topics.ChannelsExact | crates/geomqtt-server/src/redis.rs:116-132 | Of all channels exactly an object's, and a tile's with at least three colons behind its prefix, have a topic |
| Topics.ChannelsAreHeard | crates/geomqtt-server/src/redis.rs:54-58 | The two patterns a bridge subscribes to take in the channel of every topic |
| Topics.EnvelopeExact | crates/geomqtt-server/src/redis.rs:92-104 | Splitting a built envelope returns sender and body, for every body, if and only if the sender has no bar |
| MqttBroker.PublishToOneMore | crates/geomqtt-server/src/broker.rs:101-107 | One more session in the delivery loop: it gets the packet, and is counted, exactly when it hears the topic |
| MqttBroker.Broker.constructor | crates/geomqtt-server/src/broker.rs:29-36 | Ids start at 1, no sessions |
| MqttBroker.Broker.Register | crates/geomqtt-server/src/broker.rs:38-51 | A new session under the next id, without filters |
| MqttBroker.Broker.Deregister | crates/geomqtt-server/src/broker.rs:53-57 | The session is gone, nothing else changes |
| MqttBroker.Broker.Subscribe | crates/geomqtt-server/src/broker.rs:59-66 | The filter is added to that session unless it is there; unknown sessions change nothing |
| MqttBroker.Broker.Unsubscribe | crates/geomqtt-server/src/broker.rs:68-73 | The filter is removed from that session |
| MqttBroker.Broker.PublishLocal | crates/geomqtt-server/src/broker.rs:97-109 | Every session with a matching filter and a reader gets one copy, no other does, and their number is returned |
| MqttBroker.Broker.SendDirect | crates/geomqtt-server/src/broker.rs:113-118 | The packet goes to that one session if it exists |
| MqttBroker.RunValid | crates/geomqtt-server/src/broker.rs:38-73 | In every run ids in use stay below the next one and no filter is listed twice |
| MqttBroker.SessionIsolation | crates/geomqtt-server/src/broker.rs:97-118 | Over every run a session behaves as if alone with a set of filters: each matching publish once and in order, plus what is sent to it directly |
| MqttBroker.LifeOfASession | crates/geomqtt-server/src/broker.rs:38-57 | From its registration on a session is a lone subscriber without filters and messages; once deregistered it is gone for good |
| MqttBroker.OneCopy | crates/geomqtt-server/src/broker.rs:59-66 | A subscriber gets one copy of a publish exactly when the new or an older filter matches |
| MqttBroker.IdsNeverReused | crates/geomqtt-server/src/broker.rs:38-57 | An id that was given out and is gone never comes back |
| MqttBroker.LateSnapshotReachesOwner | crates/geomqtt-server/src/mqtt.rs:218-228 | Whatever a session's snapshot task sends, and whenever, no other session sees it |
| TileFanout.EmitAppend | crates/geomqtt-server/src/fanout.rs:30-47 | Two lists of messages published one after the other are one list, at the broker and on the bus alike |
| TileFanout.FindOldTile | crates/geomqtt-server/src/fanout.rs:92-95 | Looking up a zoom among the old tiles finds the old position's tile of that zoom |
| TileFanout.Fanout.PublishTile | crates/geomqtt-server/src/fanout.rs:30-47 | One local publish and one envelope with the node's id, same message |
| TileFanout.Fanout.PublishObject | crates/geomqtt-server/src/fanout.rs:49-69 | The same for an object message; a write of fields also gives InfluxDB a point |
| TileFanout.Fanout.WriteAtZoom | crates/geomqtt-server/src/fanout.rs:91-112 | At one zoom: an `add`, a `move`, or a `remove` and an `add` |
| TileFanout.Fanout.OnGeoWrite | crates/geomqtt-server/src/fanout.rs:74-126 | Publishes exactly the protocol's messages of a position update, locally and on the bus, adds the set to the index, and gives InfluxDB one position point |
| TileFanout.Fanout.OnGeoRemove | crates/geomqtt-server/src/fanout.rs:129-144 | Publishes one `remove` per zoom and takes the set out of the index; no point |
| TileFanout.Fanout.AttrInLayer | crates/geomqtt-server/src/fanout.rs:165-183 | One `attr` per covering tile of the object's position in one set, nothing if it has none |
| TileFanout.Fanout.OnAttrTile | crates/geomqtt-server/src/fanout.rs:152-185 | The same for every set the index lists, each once; nothing for empty attributes |
| RespProxy.ExtractGeoAddMembers | crates/geomqtt-server/src/resp.rs:174-198 | After leading flags, every complete longitude-latitude-member triple in order; bad numbers count as 0 |
| ProxyArguments.GeoAddExact | crates/geomqtt-server/src/resp.rs:174-198 | After any flags exactly the written members come out, in order, each at its latitude and longitude, an unreadable number as 0; up to two arguments that complete no member are ignored |
| ProxyArguments.KindsExact | crates/geomqtt-server/src/resp.rs:84-168 | GEOADD, ZREM, HSET, HMSET, HDEL and DEL are recognised in every spelling, the first two only with enough arguments, and nothing else is |
| ProxyArguments.FlagsExact | crates/geomqtt-server/src/resp.rs:176-181 | Exactly NX, XX and CH in any spelling are flags |
| RespProxy.ExtractFields | crates/geomqtt-server/src/resp.rs:226-230 | Name-value pairs, the last value of a name counts |
| ProxyArguments.FieldsExact | crates/geomqtt-server/src/resp.rs:226-230 | Of written name-value pairs exactly the names are fields, each with the value of its last pair; a name without a value is ignored |
| ProxyArguments.RecordedExact | crates/geomqtt-server/src/resp.rs:144-149 | Whatever options a command has and however often it names a member, InfluxDB gets the points of its single commands, in order |
| RespProxy.Proxy.HandleCommand | crates/geomqtt-server/src/resp.rs:72-172 | Whatever Redis does: an error reply publishes and changes nothing; otherwise exactly the command's messages, from positions before and hashes after it, the index updates, and the points for InfluxDB |
| RespProxy.Proxy.ReportGeoAdd | crates/geomqtt-server/src/resp.rs:130-151 | One position update and one point per member against its prefetched position |
| RespProxy.Proxy.ReportZRem | crates/geomqtt-server/src/resp.rs:154-163 | One removal per member that had a position |
| RespProxy.Proxy.HandleHashWrite | crates/geomqtt-server/src/resp.rs:213-246 | The object message with all fields, then the enriched fields to tiles; nothing for other keys |
| RespProxy.Proxy.HandleDel | crates/geomqtt-server/src/resp.rs:248-255 | One delete message per object key |
| ProxyCommands.ProxyIsCommandSequence | crates/geomqtt-server/src/resp.rs:128-169 | For every command that Redis takes plainly and that names no member twice, messages and Redis are those of its single-member commands executed one by one |
| ProxyCommands.ExecutesPublish | crates/geomqtt-server/src/resp.rs:128-169 | The protocol's steps for those commands put exactly these messages on the bus and deliver exactly these to the clients of the node |
| GeoAddOptions.FlaggedWriteExact | crates/geomqtt-server/src/resp.rs:131-149 | From the arguments of a GEOADD with NX or XX: a client that was right stays right, for a member named once, if and only if Redis did set the position or both positions look the same to the client |
| GeoAddOptions.RepeatedMemberExact | crates/geomqtt-server/src/resp.rs:132-149 | From the arguments of a GEOADD that names a member any number of times: a client that was right stays right if and only if it sees the last position, saw the one before the command, or sees none of those in between |
| GeoAddOptions.ReportLands | crates/geomqtt-server/src/resp.rs:130-151 | What a client shows after the report of any GEOADD: each position given lands in turn, all against the position before the command |
| Witnesses.OvertakingWriteFails | crates/geomqtt-server/src/fanout.rs:30-47 | Two nodes, a reachable state and a GEOADD after which a client is wrong for good |
| Witnesses.OvertakingHashWriteFails | crates/geomqtt-server/src/fanout.rs:152-185 | The same for an HSET |
| Witnesses.LateSnapshotFails | crates/geomqtt-server/src/mqtt.rs:218-228 | A reachable state in which a client changes its zoom before its snapshot has come, is right, and is wrong for good once everything has arrived |
| Witnesses.ZoomChangeFails | clients/geomqtt-core/src/client.ts:95-103 | Between two bridged messages of one update a client changes its zoom and keeps a feature for good |
| Witnesses.FlaggedWriteFails | crates/geomqtt-server/src/resp.rs:131-149 | The arguments of a GEOADD NX that Redis refuses and that takes a feature off a client's map |
| Witnesses.RepeatedMemberFails | crates/geomqtt-server/src/resp.rs:132-149 | The arguments of a GEOADD that names a member twice and leaves it on a map where it is not |
| Witnesses.LayerDeletionFails | crates/geomqtt-server/src/resp.rs:248-255 | DEL of a set leaves its features on a map |
| Witnesses.HashDeletionFails | crates/geomqtt-server/src/resp.rs:223-255 | HDEL of a field, or DEL of the hash, leaves the field on a map |
| Witnesses.WatchedObjectFails | clients/geomqtt-core/src/client.ts:224-233 | A watched object stays on a map that looks elsewhere |
| Witnesses.QueuedMessageFails | clients/geomqtt-core/src/client.ts:160-202 | A queued `move` brings a feature back to a map that looks elsewhere |
| Bridge.Receive | crates/geomqtt-server/src/redis.rs:62-83 | One received message: published locally if it is well formed, from another node, and of a known channel |
| Bridge.AcceptedExact | crates/geomqtt-server/src/redis.rs:62-83 | A message is passed on if and only if something valid other than this node's id stands before its first bar and its channel has a topic; what follows the bar is passed on untouched |
| Bridge.RunBridge | crates/geomqtt-server/src/redis.rs:62-83 | The receive loop publishes locally exactly the well-formed messages of other nodes with a known channel |
| Bridge.BridgeReplaysForeign | crates/geomqtt-server/src/redis.rs:62-83 | From the bytes on the bus a node's bridge makes exactly the local publishes that the other nodes made, in bus order, and none of its own |
| Snapshots.Connection.constructor | crates/geomqtt-server/src/mqtt.rs:91-92 | A connection owns a freshly registered session |
| Snapshots.Connection.HandleConnect | crates/geomqtt-server/src/mqtt.rs:193-200 | CONNECT has been seen, and the session gets a CONNACK |
| Snapshots.Connection.HandleSubscribe | crates/geomqtt-server/src/mqtt.rs:201-229 | Before CONNECT an error; else every filter is noted in order, the session gets a SUBACK with one granted QoS 0 per filter, and every filter will get its snapshot |
| Snapshots.Connection.HandleUnsubscribe | crates/geomqtt-server/src/mqtt.rs:230-239 | Every filter is removed in order, and the session gets an UNSUBACK |
| Snapshots.RequestsAreAnswered | crates/geomqtt-server/src/mqtt.rs:201-239 | A request adds or takes away exactly its filters and is answered once, under its own packet identifier, a SUBSCRIBE with as many zeros as it has filters |
| Snapshots.Connection.SnapshotForFilter | crates/geomqtt-server/src/mqtt.rs:276-289 | A tile filter gets the tile's members, an object filter the object's fields if it has any, to this session only |
| Snapshots.Connection.SnapshotTile | crates/geomqtt-server/src/mqtt.rs:309-333 | One snapshot per member of the tile, with its position and enriched attributes |
| Snapshots.BurstIsSnapshot | crates/geomqtt-server/src/mqtt.rs:324-331 | Message by message, in any order of the members, a burst leaves the client with what the protocol's snapshot step says |
| MapClient.DiffSubscriptions | clients/geomqtt-core/src/viewport.ts:19-29 | Exactly the topics to add and exactly those to drop, each once |
| MapClient.GeomqttClient.constructor | clients/geomqtt-core/src/client.ts:28-34 | Nothing held, zooms sorted |
| MapClient.GeomqttClient.Connect | clients/geomqtt-core/src/client.ts:36-46 | A new connection on which nothing was sent, unless there is one |
| MapClient.GeomqttClient.Disconnect | clients/geomqtt-core/src/client.ts:65-71 | Everything is forgotten |
| MapClient.GeomqttClient.SetViewport | clients/geomqtt-core/src/client.ts:90-111 | At the closest published zoom, the tiles touching the box become the subscribed ones; packets carry exactly the differences; eviction happens exactly when something is dropped |
| MapClient.LookInOrder | clients/geomqtt-core/src/client.ts:98-109 | Nothing leaves the map when no tile is given up; otherwise, when connected, one packet gives up tiles and then one asks for others |
| MapClient.GeomqttClient.EvictFeaturesNotInTopics | clients/geomqtt-core/src/client.ts:224-233 | Keeps exactly the features whose tile is wanted or whose object is watched |
| MapClient.GeomqttClient.SubscribeObject | clients/geomqtt-core/src/client.ts:113-119 | One packet for a new object, nothing for a watched one |
| MapClient.GeomqttClient.UnsubscribeObject | clients/geomqtt-core/src/client.ts:121-127 | The reverse |
| MapClient.GeomqttClient.OnMessage | clients/geomqtt-core/src/client.ts:153-157 | Tile and object messages change the features as the protocol says |
| MapClient.GeomqttClient.HandleTile | clients/geomqtt-core/src/client.ts:160-202 | The five tile messages, with merged and kept properties |
| MapClient.GeomqttClient.HandleObject | clients/geomqtt-core/src/client.ts:204-218 | Object fields are merged into a held feature only |
| MapClient.FreshAfterDisconnect | clients/geomqtt-core/src/client.ts:65-71 | After a disconnect and a new connection the client shows only what it hears then and has asked for exactly the tiles it looks at |
| WatchedObjects.EveryWriteIsTold | crates/geomqtt-server/src/resp.rs:213-255 | Every write of an object's hash is told once on the object's topic: HSET with its fields, HDEL with none, DEL as a deletion, and nothing else is |
| WatchedObjects.WatchKeeps | clients/geomqtt-core/src/client.ts:204-218 | One command: a watching client that shows all of the object's hash goes on doing so, keeps the position, and shows the fields it showed and those that were set |
| WatchedObjects.ObjectSnapshotShows | crates/geomqtt-server/src/mqtt.rs:335-357 | The snapshot that answers the subscription makes a client that holds the object show its whole hash; it is one message, or none when there is no hash |
| WatchedObjects.WatchedObjectExact | clients/geomqtt-core/src/client.ts:204-218 | From the snapshot on, after any run of commands, a watching client shows every field of the hash, and exactly the hash if and only if no field it showed, that the snapshot brought or that was ever set is missing from the hash now |
| ClientView.LookIsChangeViewport | clients/geomqtt-core/src/client.ts:90-111 | Without watched objects the client's viewport change is the protocol's |
| ClientView.ReceiveIsDelivery | clients/geomqtt-core/src/client.ts:160-202 | Receiving a subscribed message is the protocol's delivery |
| ClientView.WatchedObjectsExact | clients/geomqtt-core/src/client.ts:224-233 | After looking elsewhere, at the same or another zoom, a client is up to date if and only if no watched object it shows lies outside the new tiles |
| ClientView.QueuedMessagesExact | clients/geomqtt-core/src/client.ts:160-202 | Messages queued for a client when it looks elsewhere: if they would have made it right where it was, it is right where it looks now if and only if none of them repositions a member that goes out of view |
| Subscriptions.SubscriptionAgreement | clients/geomqtt-core/src/client.ts:90-127 | In every run, whatever part of the packets the broker has seen, applying the rest gives exactly the last viewport's tiles and the watched objects; nothing is asked for twice or given up in vain |
| Subscriptions.LateConnectExact | clients/geomqtt-core/src/client.ts:36-46 | After connecting, broker and client agree if and only if nothing was subscribed before |
| Subscriptions.BrokerFollowsPackets | crates/geomqtt-server/src/broker.rs:59-73 | A session whose packets were handled, among whatever else happens, hears a topic if and only if the packets subscribe it |
| Codec.WriteRemainingLength | clients/geomqtt-unreal/Source/Geomqtt/Private/MqttCodec.cpp:5-14 | Appends the variable-length form (section 2.2.3 of MQTT 3.1.1) |
| Codec.ReadRemainingLength | clients/geomqtt-unreal/Source/Geomqtt/Private/MqttCodec.cpp:18-35 | 0 exactly on an incomplete field, -1 exactly on four continuation bytes, else the field's size and value, never above 268435455 |
| Codec.VarIntShortest | clients/geomqtt-unreal/Source/Geomqtt/Private/MqttCodec.cpp:5-14 | One to four bytes exactly for numbers up to 268435455, and no shorter field says the same number |
| Codec.VarIntBytes | clients/geomqtt-unreal/Source/Geomqtt/Private/MqttCodec.cpp:5-14 | The bytes of a length field: seven bits each, the lowest first, a high bit on all but the last |
| Codec.RemainingLengthExact | clients/geomqtt-unreal/Source/Geomqtt/Private/MqttCodec.cpp:5-35 | Reading what was written, wherever it stands, returns it if and only if it is in range |
| Packets.WriteUtf8String | clients/geomqtt-unreal/Source/Geomqtt/Private/MqttCodec.cpp:37-45 | Two length bytes and the string |
| Packets.ReadUtf8String | clients/geomqtt-unreal/Source/Geomqtt/Private/MqttCodec.cpp:47-56 | The string at the cursor if it ends in time |
| Packets.StringRead | clients/geomqtt-unreal/Source/Geomqtt/Private/MqttCodec.cpp:37-56 | A written string is read back wherever it stands |
| Packets.EncodeConnect | clients/geomqtt-unreal/Source/Geomqtt/Private/MqttCodec.cpp:61-76 | Appends a clean-session CONNECT |
| Packets.ConnectRoundTrip | clients/geomqtt-unreal/Source/Geomqtt/Private/MqttCodec.cpp:61-76 | From the whole packet, header byte and length included, a decoder of section 3.1 gets back keep alive and client identifier |
| Packets.ConnectOnTheWire | clients/geomqtt-unreal/Source/Geomqtt/Private/MqttCodec.cpp:61-76 | A CONNECT is its header, its length, the fixed bytes with the keep alive, and the client identifier |
| Packets.ConnectHeadBytes | clients/geomqtt-unreal/Source/Geomqtt/Private/MqttCodec.cpp:61-76 | The fixed bytes one by one: the string MQTT, level 4, clean session, keep alive |
| Packets.EncodeSubscribe | clients/geomqtt-unreal/Source/Geomqtt/Private/MqttCodec.cpp:78-91 | Appends a SUBSCRIBE for the topics |
| Packets.EncodeUnsubscribe | clients/geomqtt-unreal/Source/Geomqtt/Private/MqttCodec.cpp:93-105 | Appends an UNSUBSCRIBE for the topics |
| Packets.RequestExact | clients/geomqtt-unreal/Source/Geomqtt/Private/MqttCodec.cpp:78-105 | A decoder of sections 3.8 and 3.10 gets back identifier and topics if and only if there is a topic and the packet is not too long |
| Packets.RequestOnTheWire | clients/geomqtt-unreal/Source/Geomqtt/Private/MqttCodec.cpp:78-105 | SUBSCRIBE and UNSUBSCRIBE for one topic, byte by byte: headers 0x82 and 0xA2, high bytes first, QoS 0 |
| Packets.TryParseNextPacket | clients/geomqtt-unreal/Source/Geomqtt/Private/MqttCodec.cpp:119-165 | A whole packet is taken off the front; too few bytes change nothing; a bad length clears the buffer; a bad PUBLISH loses its bytes |
| Packets.FramedParsed | clients/geomqtt-unreal/Source/Geomqtt/Private/MqttCodec.cpp:139-164 | Any whole packet of a permitted length is taken off exactly, whatever follows: by type, as a PUBLISH, or as malformed |
| Packets.ParsedFromTheWire | clients/geomqtt-unreal/Source/Geomqtt/Private/MqttCodec.cpp:139-164 | What the parser makes of a packet below 128 bytes, given byte by byte: its type, or a PUBLISH with topic and payload, or nothing when the topic does not fit |
| Packets.UnparsedFromTheWire | clients/geomqtt-unreal/Source/Geomqtt/Private/MqttCodec.cpp:119-137 | A packet with bytes missing waits, and four length bytes that each announce another one are refused |
| Packets.PublishRoundTrip | clients/geomqtt-unreal/Source/Geomqtt/Private/MqttCodec.cpp:119-165 | A QoS 0 PUBLISH (section 3.3) followed by any bytes gives back topic and payload and leaves exactly the rest |
| Stream.Receiver.DrainInbound | clients/geomqtt-unreal/Source/Geomqtt/Private/GeomqttClient.cpp:106-125 | Dispatches the buffer's packets in order and ends, since each shrinks the buffer |
| Stream.Receiver.HandleRawMessage | clients/geomqtt-unreal/Source/Geomqtt/Private/GeomqttClient.cpp:95-104 | Appends, and drains when the websocket message is complete |
| Stream.MalformedOnTheWire | clients/geomqtt-unreal/Source/Geomqtt/Private/GeomqttClient.cpp:106-125 | A refused length loses all that was received; a malformed PUBLISH loses its own bytes, and what follows waits for more |
| Stream.CuttingExact | clients/geomqtt-unreal/Source/Geomqtt/Private/MqttCodec.cpp:119-165 | Cutting a stream in two never matters if and only if nothing is malformed or nothing can be parsed behind what is |
| Stream.ChunkingIndependence | clients/geomqtt-unreal/Source/Geomqtt/Private/GeomqttClient.cpp:95-125 | Such a stream, in any pieces and any websocket framing, gives the same packets and the same leftover as in one piece |
| Stream.PacketsArrive | clients/geomqtt-unreal/Source/Geomqtt/Private/GeomqttClient.cpp:95-125 | Packets sent back to back arrive complete and in order, however they are cut |
| Influx.Sink.TrySend | crates/geomqtt-server/src/influx.rs:82-95 | Enqueued and counted, or dropped and counted when 4096 lines wait |
| Influx.Sink.FillBatch | crates/geomqtt-server/src/influx.rs:125-140 | With senders going on meanwhile: a batch of 1 to 500 lines from the front of the queue, nothing lost or reordered, and fewer than 500 only after a deadline or when no line is left and none will come |
| Influx.Sink.PostBatch | crates/geomqtt-server/src/influx.rs:141-162 | The batch is handed over once and counted as sent or failed |
| Influx.Sink.WriterTask | crates/geomqtt-server/src/influx.rs:124-163 | However senders, deadlines and replies interleave: when the senders are gone the writer ends, everything accepted has been posted in order, and every line offered was accepted or counted as dropped |
| Influx.QueueCorrect | crates/geomqtt-server/src/influx.rs:82-163 | Over every interleaving: posted batches, current batch and queue are the accepted lines in order, within their bounds, and accepted plus dropped are all lines offered |
| Influx.DropsExact | crates/geomqtt-server/src/influx.rs:82-95 | A line is dropped if and only if 4096 lines wait already; otherwise it is the last of the queue and of those accepted |
| Influx.FewAreNeverDropped | crates/geomqtt-server/src/influx.rs:82-95 | Up to 4096 lines are all accepted, however slow the writer is |
| Influx.BatchesAreFull | crates/geomqtt-server/src/influx.rs:128-140 | Without a deadline or the end of the senders every batch posted has 500 lines |
| Influx.RepliesCounted | crates/geomqtt-server/src/influx.rs:149-162 | Requests are counted as sent or failed by their replies |
| LineProtocol.EscapeTag | crates/geomqtt-server/src/influx.rs:166-176 | Appends the escaped tag |
| LineProtocol.PushStringField | crates/geomqtt-server/src/influx.rs:182-194 | Appends the quoted string |
| LineProtocol.Attr | crates/geomqtt-server/src/influx.rs:51-80 | The line of all fields that are not null, or none |
| LineProtocol.Position | crates/geomqtt-server/src/influx.rs:35-46 | The line of a position |
| LineProtocol.TagExact | crates/geomqtt-server/src/influx.rs:166-176 | A tag followed by a separator is read back if and only if it neither ends in a backslash nor holds a line break |
| LineProtocol.TextRoundTrip | crates/geomqtt-server/src/influx.rs:182-194 | A quoted string is read back whatever it holds and whatever follows |
| LineProtocol.AttrExact | crates/geomqtt-server/src/influx.rs:51-80 | An attribute line, whatever lines follow, gives back object and full field list if and only if neither the object's name nor a field's name ends in a backslash or holds a line break |
| LineProtocol.PositionExact | crates/geomqtt-server/src/influx.rs:35-46 | A position line, whatever lines follow, gives back set, member and both numbers if and only if neither name ends in a backslash or holds a line break |
| LineProtocol.LinesOnTheWire | crates/geomqtt-server/src/influx.rs:35-80 | The layout of both lines for names that need no escape |
| LineProtocol.EscapesOnTheWire | crates/geomqtt-server/src/influx.rs:166-194 | A backslash before comma, equals sign and blank in names, before quote and backslash in values, and nothing else changes |
| LineProtocol.ValuesOnTheWire | crates/geomqtt-server/src/influx.rs:60-75 | What is written of a text, number, boolean, null or nested value |
| LineProtocol.BatchOnTheWire | crates/geomqtt-server/src/influx.rs:141-147 | One line break between two batches makes one of them |
| LineProtocol.BatchExact | crates/geomqtt-server/src/influx.rs:141-147 | Of a batch joined with line breaks, all lines come back in order if and only if no set, object or field name in any of them ends in a backslash or holds a line break |

## Left out

- Protocol.InFlightCorrect: one GEOADD of several members is several steps here; `ProxyCommands.ProxyIsCommandSequence` shows that this is the same as long as no member is named twice.
- SingleNode.AlwaysRight: speaks about clients without watched objects; `ClientView.WatchedObjectsExact` says what watching changes.
- Stream.Receiver.DrainInbound: taking the address one past the end of the buffer, for an empty payload or string at its end, is harmless here; the range check of checked Unreal builds is not modelled.
- MapClient.GeomqttClient.SetViewport: with no published zooms the current zoom must not be negative, since tiles have natural zooms.
- Influx.Sink.WriterTask: a writer whose HTTP client cannot be built only drains the queue and is not modelled.
- Refinement.RunsOfTheCode: each client handles what is queued for it within the deed; `ClientView.QueuedMessagesExact` says what happens when it looks elsewhere first. Clients watch no objects, and sessions neither come nor go.
- SessionDelivery.ExactlyOncePerSession: publishes of MQTT clients are not emitted by nodes here.
- FreeWrites.AnyWritesExact: about positions, while the client looks at the same tiles; its viewport changes are `Viewports.ViewportChangeExact`, which starts from allowed runs.
- LineProtocol.PositionExact: floating-point printing is not modelled, numbers are texts without commas and line breaks.
- Tiles.TilesCoveringBbox: floating-point rounding is not modelled, and neither is the saturation of tile numbers to 32 bits beyond zoom 32.
- MqttBroker.Broker.Register: ids are unbounded, the source's have 64 bits.
- Sockets, tokio tasks, websocket handshakes, HTTP routes, metrics and logging; listeners of the client; JSON texts and timestamps.
- Redis internals: geohash rounding of stored positions, GEOSEARCH box geometry, commands that are not intercepted, writes that bypass the proxy, failing Redis calls, the open race between GEOPOS and the write.
- The haversine size of the search box and the sorting of hits by distance.
- PUBLISH packets that MQTT clients send; they go to `gmq:user:` channels, to which no bridge listens.
- Reconnecting and resubscribing of the TypeScript client, packet identifiers of the Unreal client, decoding of UTF-8.
- The Unity client, the Unreal tile arithmetic and markers, the Leaflet and MapLibre adapters, demos and benchmarks: the same logic again, or display.
