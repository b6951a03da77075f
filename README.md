# Positional graph engine of pollo-backend, modelled in Dafny

pollo-backend gathers the devices that take part in an "event". Each device
reports where it is (latitude, longitude, altitude and their accuracies) and
the distances it measures to other devices. The backend keeps three things:

- a weighted directed graph of these measurements, stored in Redis;
- a set of connections to which it broadcasts messages;
- a force-directed layout, in which every device is a particle confined to a
  cylinder about its reported position.

The layout is turned into integer ranks on every axis, and a scheduler runs
the layout after updates.

This project models that core:

- **The graph stores.** The three Redis-backed `GraphStore` classes are
  classes. Their Redis state is a set of node ids, one edge table per node
  and a per-node location or metadata table.
- **The publish/subscribe services.** They are classes over an
  insertion-ordered map of subscribers and a log of the messages sent.
- **The confined particles.** There are two versions, the current one and an
  earlier one. Both are classes with their clamp given as a pure function.
- **Quantization and ranking.** These are pure functions. Loop methods are
  proved equal to them.
- **The simulation scheduler.** It is a class, together with a pure state
  machine over histories of events.
- **The vector helpers and `getSetFromObjectAttributes`.**

Numbers are `real` (no rounding) and ids are strings. Several things that are
external to the model become parameters:

- `Math.sqrt` is a function satisfying `IsSqrt`;
- the geodesic displacement is a function;
- the current time is an `int`;
- `randomUUID()` is a fresh id.

### Files

| file | module | models |
|---|---|---|
| `wrappers.dfy` | `Wrappers` | `Option` and `Result` |
| `real_math.dfy` | `RealMath` | `Math.max`/`Math.min`, the `minMax` clamp, products and square roots |
| `vectors.dfy` | `Vectors` | `src/schemas/vectors.ts`, and the fresh-value `subtract`, `lengthSquared`, `normalize` and `scale` of `src/utils/vectors.ts`, which compute the same |
| `mutable_vectors.dfy` | `MutableVectors` | the in-place `add` of `src/utils/vectors.ts` |
| `schemas.dfy` | `Schemas` | locations, edges, metadata and messages |
| `graph.dfy` | `Graph` | the edge tables that all three stores share |
| `metadata_store.dfy` | `MetadataStore` | `src/services/graph/store/index.ts` |
| `location_store.dfy` | `LocationStore` | `src/services/graph/store.ts` |
| `event_graph_store.dfy` | `EventGraphStore` | `src/services/event/graph.ts` |
| `ordered_maps.dfy` | `OrderedMaps` | a JavaScript `Map` (or a string-keyed record) with its insertion order |
| `channels.dfy` | `Channels` | sending one message to a list of connections |
| `event_service.dfy` | `EventServices` | `src/services/event/index.ts` |
| `guarded_pub_sub.dfy` | `GuardedPubSub` | `src/services/events.ts` |
| `event_pub_sub.dfy` | `EventPubSubs` | `src/services/events/event-pub-sub.ts` |
| `quantizer.dfy` | `Quantizer` | `quantize`, `createRankMap` and `quantizeAndRankLocations` |
| `particle_ranking.dfy` | `ParticleRanking` | `quantizeAndRankParticles` |
| `confined_particle.dfy` | `ConfinedParticles` | `src/services/graph/draw/confined-particle/index.ts` |
| `legacy_particle.dfy` | `LegacyParticles` | `src/services/graph/draw/confined-particle.ts` |
| `particle_factory.dfy` | `ParticleFactory` | `create-particle-from-location.ts` |
| `scheduler.dfy` | `Scheduling` | `src/services/graph/draw/simulation-scheduler.ts` |
| `attribute_set.dfy` | `AttributeSets` | `getSetFromObjectAttributes` of `src/utils/index.ts` |

### Notes on the model

- **Stores.** Every store method is proved against the `Graph` functions.
  Each keeps the invariant `Valid()`: every edge endpoint is a node, and only
  nodes own edge tables.
  - `removeNode` deletes incoming edges only from the members it reads
    before removing the node.
  - `deleteGraph` in `store.ts` and `event/graph.ts` leaves the location
    hash in place, and the model keeps it too.
- **Location schema.** It bounds longitude by [-90, 90], not [-180, 180]
  (`src/schemas/location.ts:5`), and `Schemas.LocationAccepted` keeps that
  bound as written. It matters: `listNodesMetadata` filters with the metadata
  schema (`src/services/graph/store/index.ts:94-98`), so a node stored with
  longitude 120 is left out of `listNodesMetadata` and `getEventGraph`. The
  model does the same (`MetadataStore.WideLongitudeNotListed`).
- **User-joined message.** The message schema names the user-joined payload
  `NEW_SUB` with a device id only (`src/schemas/messages.ts:13-41`). The
  event service publishes `USER_JOINED` with the id and the location. The
  model follows the service.
- **Quantization.** It is proved for an arbitrary cell function `cell`, with
  the default `Math.floor(v / 0.25)` as one instance.

## Model

| member | source | states |
|---|---|---|
| RealMath.MinMax | src/services/graph/draw/confined-particle/index.ts:49 | the clamped height never exceeds the upper bound; it is at least the lower bound when the band is non-empty; a value inside the band is kept; an empty band yields its upper bound |
| Vectors.VectorNull | src/schemas/vectors.ts:15 | the null vector is the identity of `add` on either side |
| Vectors.Add | src/schemas/vectors.ts:75-77 | a zero operand on either side leaves the other as it is (its inverse law is stated on `Vectors.Subtract`) |
| Vectors.Subtract | src/schemas/vectors.ts:23-25 | subtraction inverts addition (`Add(a - b, b) == a`); the difference is zero exactly when the points are equal |
| Vectors.LengthSquared | src/schemas/vectors.ts:33-35 | the squared length is non-negative and zero exactly for the null vector |
| Vectors.Scale | src/schemas/vectors.ts:65-67 | scaling by `k` multiplies the squared length by `k²` |
| Vectors.DistanceBetweenPoints | src/schemas/vectors.ts:43-45 | the distance is non-negative, its square is the squared length of the difference, and it is zero exactly when the points coincide |
| Vectors.Normalize | src/schemas/vectors.ts:53-57 | the null vector is returned as it is; any other vector becomes a unit vector that, scaled by the original length, gives the vector back |
| Vectors.NullLength | src/schemas/vectors.ts:15 | `vectorNull` is the only vector of squared length zero |
| Vectors.AddIdentity | src/schemas/vectors.ts:75-77 | adding `vectorNull` on either side changes nothing |
| Vectors.AddCommutative | src/schemas/vectors.ts:75-77 | addition is commutative |
| Vectors.ScaleByOne | src/schemas/vectors.ts:65-67 | scaling by 1 changes nothing |
| Vectors.DistanceSymmetric | src/schemas/vectors.ts:43-45 | the distance from a to b is the distance from b to a |
| Vectors.RootOfLength | src/schemas/vectors.ts:53-55 | the length used by `normalize` is a non-negative root of the squared length, zero only for the null vector |
| Schemas.LocationAccepted | src/schemas/location.ts:3-9 | the location schema as written; by `LongitudeBeyondNinetyRefused` and `OnlyCoordinatesBounded` it refuses any longitude beyond ±90 and bounds nothing but the two coordinates |
| Schemas.LongitudeBeyondNinetyRefused | src/schemas/location.ts:5 | a longitude beyond 90 degrees east or west is refused, whatever else the location holds |
| Schemas.OnlyCoordinatesBounded | src/schemas/location.ts:3-9 | altitude and both accuracies never affect acceptance |
| Schemas.MetadataAccepted | src/schemas/graph.ts:35-38 | the metadata schema; by `MetadataAcceptsAnyPosition` it accepts exactly the metadata whose location passes, whatever the position |
| Schemas.MetadataAcceptsAnyPosition | src/schemas/graph.ts:35-38 | acceptance depends on the location only, and any position or none is allowed |
| MutableVectors.Add | src/utils/vectors.ts:21-27 | `add(a, b)` returns `a` itself with the sum written into it; `b` is untouched unless it is `a` |
| Graph.SetWeight | src/services/graph/store/index.ts:106-113 | the weight `from -> to` becomes the new value, and every other weight is unchanged |
| Graph.DeleteWeight | src/services/graph/store/index.ts:115-119 | there is no weight `from -> to` afterwards; every other weight and every table stays |
| Graph.WithoutIncoming | src/services/graph/store/index.ts:134-138 | the edges into the node from the listed sources are gone, and all others are unchanged |
| Graph.WithoutNode | src/services/graph/store/index.ts:125-146 | the node's own table and its incoming edges from the listed sources are gone, and all other weights are unchanged |
| Graph.ListedEdges | src/services/graph/store/index.ts:159-187 | an edge is listed exactly when its source is a member and its weight is stored |
| Graph.ListedAllWhenClosed | src/services/graph/store/index.ts:159-187 | when the graph is closed, every stored weight is listed, and both endpoints of each listed edge are members |
| Graph.SetEdgeKeepsClosed | src/services/graph/store/index.ts:106-113 | adding both endpoints and the weight keeps the graph closed |
| Graph.DeleteEdgeKeepsClosed | src/services/graph/store/index.ts:115-119 | deleting a weight keeps the graph closed |
| Graph.RemoveNodeKeepsClosed | src/services/graph/store/index.ts:125-146 | removing a node keeps the graph closed and leaves no edge from or to it |
| Graph.DeleteGraphEmpties | src/services/graph/store/index.ts:148-157 | when the graph is closed, deleting the members' tables leaves no edge at all |
| Graph.SetWeightIdempotent | src/services/graph/store/index.ts:106-113 | setting the same edge twice is the same as setting it once |
| Graph.SetThenDelete | src/services/graph/store/index.ts:106-119 | setting and then removing an edge leaves every weight as before except that one, which is gone |
| Graph.Members | src/services/graph/store/index.ts:121-123 | `smembers` lists each member exactly once |
| Graph.DropIncoming | src/services/graph/store/index.ts:134-138 | the loop over the members equals `WithoutIncoming` |
| Graph.ListEdgesOf | src/services/graph/store/index.ts:159-187 | the loop lists exactly `ListedEdges`, without repeats |
| MetadataStore.ListedMetadata | src/services/graph/store/index.ts:71-104 | a node is listed exactly when it is a member with metadata that passes the schema, and with that metadata |
| MetadataStore.WideLongitudeNotListed | src/services/graph/store/index.ts:94-98 | a member stored with a longitude beyond ±90 is not listed, and every listed location lies within [-90, 90] on both coordinates |
| MetadataStore.WithLocation | src/services/graph/store/index.ts:42-52 | setting a location replaces the location and keeps any stored position |
| MetadataStore.GraphStore.constructor | src/services/graph/store/index.ts:19-22 | a store opened over existing Redis contents sees exactly those contents |
| MetadataStore.GraphStore.AddNode | src/services/graph/store/index.ts:36-40 | the node joins the node set; edges and metadata are unchanged; the invariant is kept |
| MetadataStore.GraphStore.GetNodeMetadata | src/services/graph/store/index.ts:66-69 | returns the node's metadata exactly when some is stored, and null otherwise |
| MetadataStore.GraphStore.SetNodeLocation | src/services/graph/store/index.ts:42-52 | the node's metadata gets the new location and keeps its position, and is created when absent |
| MetadataStore.GraphStore.SetNodePosition | src/services/graph/store/index.ts:54-64 | with metadata present, only its position changes; without it, nothing changes |
| MetadataStore.GraphStore.ListNodesMetadata | src/services/graph/store/index.ts:71-104 | returns exactly `ListedMetadata` of the members |
| MetadataStore.GraphStore.SetEdge | src/services/graph/store/index.ts:106-113 | both endpoints join the node set and the weight is set; metadata is unchanged; the invariant is kept |
| MetadataStore.GraphStore.RemoveEdge | src/services/graph/store/index.ts:115-119 | only that weight is removed |
| MetadataStore.GraphStore.ListNodes | src/services/graph/store/index.ts:121-123 | lists each member once |
| MetadataStore.GraphStore.RemoveNode | src/services/graph/store/index.ts:125-146 | the node leaves the set, and its table, metadata and incoming edges from members are gone; the invariant is kept |
| MetadataStore.GraphStore.DeleteGraph | src/services/graph/store/index.ts:148-157 | nodes and metadata are emptied, and the members' tables are deleted (all edges, when the invariant held) |
| MetadataStore.GraphStore.ListEdges | src/services/graph/store/index.ts:159-187 | lists exactly the members' stored weights, without repeats, between members when the invariant holds |
| MetadataStore.GraphStore.GetEventGraph | src/services/graph/store/index.ts:189-213 | the nodes are the listed metadata and the edges are the listed edges |
| LocationStore.GraphStore.constructor | src/services/graph/store.ts:18-21 | a store opened over existing contents sees exactly those |
| LocationStore.GraphStore.AddNode | src/services/graph/store.ts:35-37 | the node joins the set, and nothing else changes |
| LocationStore.GraphStore.SetNodeLocation | src/services/graph/store.ts:39-42 | the node's location is replaced, and nothing else changes |
| LocationStore.GraphStore.GetNodeLocation | src/services/graph/store.ts:44-47 | returns the stored location exactly when there is one |
| LocationStore.GraphStore.SetEdge | src/services/graph/store.ts:49-53 | both endpoints join the set and the weight is set; the invariant is kept |
| LocationStore.GraphStore.RemoveEdge | src/services/graph/store.ts:55-57 | only that weight is removed |
| LocationStore.GraphStore.ListNodes | src/services/graph/store.ts:59-61 | lists each member once |
| LocationStore.GraphStore.RemoveNode | src/services/graph/store.ts:63-84 | the node, its table, its location and its incoming edges from members are gone |
| LocationStore.GraphStore.DeleteGraph | src/services/graph/store.ts:86-93 | the node set and the members' tables are deleted; locations are kept |
| LocationStore.GraphStore.ListEdges | src/services/graph/store.ts:95-123 | lists exactly the members' stored weights, without repeats |
| EventGraphStore.GraphStore.constructor | src/services/event/graph.ts:17-20 | a store opened over existing contents sees exactly those |
| EventGraphStore.GraphStore.AddNode | src/services/event/graph.ts:34-36 | the node joins the set, and nothing else changes |
| EventGraphStore.GraphStore.SetNodeLocation | src/services/event/graph.ts:38-41 | the node's location is replaced, and nothing else changes |
| EventGraphStore.GraphStore.GetNodeLocation | src/services/event/graph.ts:43-46 | returns the stored location exactly when there is one |
| EventGraphStore.GraphStore.SetEdge | src/services/event/graph.ts:48-52 | both endpoints join the set and the weight is set; the invariant is kept |
| EventGraphStore.GraphStore.RemoveEdge | src/services/event/graph.ts:54-56 | only that weight is removed |
| EventGraphStore.GraphStore.ListNodes | src/services/event/graph.ts:58-60 | lists each member once |
| EventGraphStore.GraphStore.RemoveNode | src/services/event/graph.ts:62-83 | the node, its table, its location and its incoming edges from members are gone |
| EventGraphStore.GraphStore.DeleteGraph | src/services/event/graph.ts:85-92 | the node set and the members' tables are deleted; locations are kept |
| OrderedMaps.Put | src/services/event/index.ts:81 | `Map.set` stores the value; a new key goes last, and an existing key keeps its place |
| OrderedMaps.Remove | src/services/event/index.ts:112 | `Map.delete` drops the key and its value and keeps the order of the rest |
| OrderedMaps.Without | src/services/event/index.ts:112 | removing a key from the key order keeps every other key, and keeps them distinct |
| OrderedMaps.Values | src/services/event/index.ts:67-69 | iteration visits the values in insertion order, once each |
| OrderedMaps.PutThenRemove | src/services/event/index.ts:72-119 | subscribing a new id and then unsubscribing it restores the map exactly |
| OrderedMaps.PutExistingKeepsOrder | src/services/event/index.ts:94-103 | overwriting an existing id keeps the iteration order and replaces that one value |
| Channels.SendAll | src/services/event/index.ts:62-70 | one delivery per connection, in order, each carrying the message |
| Channels.SendAllRecipients | src/services/event/index.ts:62-70 | a delivery goes to a listed connection with the message, and every listed connection gets one |
| EventServices.Connections | src/services/event/index.ts:67-69 | the subscriber connections are exactly those of the stored subscribers |
| EventServices.AudienceMembers | src/services/event/index.ts:62-70 | a publish reaches the admin (when connected) and every subscriber, and nothing else |
| EventServices.EventService.constructor | src/services/event/index.ts:29-39 | a new service has no admin connection, no subscribers and has sent nothing |
| EventServices.EventService.SetAdminConnection | src/services/event/index.ts:45-47 | the admin connection is set, and nothing else changes |
| EventServices.EventService.GetSubscribers | src/services/event/index.ts:49-54 | the id and location of every subscriber, in insertion order |
| EventServices.EventService.NotifyAdmin | src/services/event/index.ts:56-60 | sends the message to the admin when connected, and to nobody otherwise |
| EventServices.EventService.Publish | src/services/event/index.ts:62-70 | sends the message to the admin (when connected) and then to every subscriber in order |
| EventServices.EventService.Subscribe | src/services/event/index.ts:72-83 | announces `USER_JOINED` to the previous audience, stores the subscriber and adds its node to the graph |
| EventServices.EventService.SetDistanceToDevice | src/services/event/index.ts:85-92 | a missing or zero distance removes the edge; any other value sets it |
| EventServices.EventService.UpdateSubLocation | src/services/event/index.ts:94-103 | an unknown id changes nothing; a known one gets the new location in place and in the graph |
| EventServices.EventService.Unsubscribe | src/services/event/index.ts:105-119 | an unknown id changes nothing; a known one is removed from the subscribers and the graph, and `USER_LEFT` goes to the rest |
| EventServices.JoinerNotNotified | src/services/event/index.ts:72-83 | the joining device does not receive its own announcement, and everyone already there does |
| GuardedPubSub.Connections | src/services/events.ts:66-70 | the subscriber connections in insertion order |
| GuardedPubSub.EventPubSub.constructor | src/services/events.ts:24-35 | a new pub-sub starts `OPEN`, with no admin connection and no subscribers |
| GuardedPubSub.EventPubSub.SetAdminConnection | src/services/events.ts:37-39 | the admin connection is set, and nothing else changes |
| GuardedPubSub.EventPubSub.Subscribe | src/services/events.ts:41-64 | as written: any state other than the misspelt `ClOSED` throws; only then is the subscriber stored, the admin told and the id returned |
| GuardedPubSub.EventPubSub.SubscribeIntended | src/services/events.ts:41-64 | a closed event refuses; an open one stores the subscriber under the fresh id, tells the admin and returns the id |
| GuardedPubSub.EventPubSub.Publish | src/services/events.ts:66-70 | sends the message to every subscriber in order, and not to the admin |
| GuardedPubSub.SubscribeAlwaysRefused | src/services/events.ts:26-46 | a fresh pub-sub refuses every subscription, with or without an admin connection |
| GuardedPubSub.SubscribeIntendedAccepted | src/services/events.ts:48-63 | with the guard corrected, a fresh pub-sub accepts and stores the subscriber |
| EventPubSubs.Connections | src/services/events/event-pub-sub.ts:49-53 | the subscriber connections in insertion order |
| EventPubSubs.EventPubSub.constructor | src/services/events/event-pub-sub.ts:9-22 | the status is the given one, or `OPEN` when none is given; there are no subscribers and no admin connection |
| EventPubSubs.EventPubSub.SetAdminConnection | src/services/events/event-pub-sub.ts:24-26 | the admin connection is set, and nothing else changes |
| EventPubSubs.EventPubSub.NotifyAdmin | src/services/events/event-pub-sub.ts:43-47 | the JSON of the message goes to the admin when connected |
| EventPubSubs.EventPubSub.Subscribe | src/services/events/event-pub-sub.ts:28-41 | stores the subscriber under the fresh id, tells the admin and returns the id |
| EventPubSubs.EventPubSub.Publish | src/services/events/event-pub-sub.ts:49-53 | the JSON of the message goes to every subscriber in order |
| EventPubSubs.JoinNoticeRecipients | src/services/events/event-pub-sub.ts:43-47 | an admin notice is one delivery to the admin when connected, and none otherwise |
| Quantizer.QuantizeBounds | src/services/graph/draw/quatizes.ts:12-14 | a value lies in the cell `[q·p, (q+1)·p)` of its quantum `q` |
| Quantizer.Quantize | src/services/graph/draw/quatizes.ts:12-14 | on a positive grid the result is the index of the cell `[q·p, (q+1)·p)` that holds the value |
| Quantizer.QuantizeMonotone | src/services/graph/draw/quatizes.ts:12-14 | quantization preserves order |
| Quantizer.QuantizeCell | src/services/graph/draw/quatizes.ts:12-14 | every value of a cell quantizes to that cell's index |
| Quantizer.SortedDistinct | src/services/graph/draw/quatizes.ts:18 | de-duplicating and sorting gives a strictly increasing list of exactly the values |
| Quantizer.CreateRankMap | src/services/graph/draw/quatizes.ts:16-20 | the keys are the distinct values, and each maps to the number of distinct values below it |
| Quantizer.RankOrder | src/services/graph/draw/quatizes.ts:16-20 | ranks preserve and reflect both `<` and `==` |
| Quantizer.RanksDense | src/services/graph/draw/quatizes.ts:16-20 | the ranks are exactly 0 to K−1, for K distinct values |
| Quantizer.AllEqualRankZero | src/services/graph/draw/quatizes.ts:16-20 | equal values all get rank 0 |
| Quantizer.Ranked | src/services/graph/draw/quatizes.ts:44-59 | every node gets an entry, and its absolute position is its displacement |
| Quantizer.RankedOrder | src/services/graph/draw/quatizes.ts:40-56 | on every axis one node's relative coordinate is below another's exactly when its quantum is, and equal exactly when the quanta are equal |
| Quantizer.RankedMonotone | src/services/graph/draw/quatizes.ts:12-56 | with the default precision, a node that lies no further along an axis gets no higher rank on it |
| Quantizer.RankedAxesIndependent | src/services/graph/draw/quatizes.ts:40-56 | the ranks on an axis depend only on the coordinates on that axis |
| Quantizer.CollectQuantized | src/services/graph/draw/quatizes.ts:31-38 | the collected lists hold exactly the quanta of all nodes on each axis |
| Quantizer.LookUpRanks | src/services/graph/draw/quatizes.ts:44-57 | the result loop builds exactly `Ranked` |
| Quantizer.RankPositions | src/services/graph/draw/quatizes.ts:31-59 | collecting, ranking and looking up give exactly `Ranked` |
| Quantizer.QuantizeAndRankLocations | src/services/graph/draw/quatizes.ts:22-60 | the result is `Ranked` of the displacements of the nodes from the base |
| ParticleRanking.QuantizeAndRankParticles | src/services/graph/draw/quatizes.ts:62-91 | the result is `Ranked` of the particles' current positions, and no particle changes |
| ConfinedParticles.ClampedHeight | src/services/graph/draw/confined-particle/index.ts:49 | the height is clamped into `[minZ, maxZ]`, and a height already inside is kept |
| ConfinedParticles.InsideKept | src/services/graph/draw/confined-particle/index.ts:51-60 | a target within `radius` of the cylinder's axis keeps its horizontal position |
| ConfinedParticles.OutsideProjected | src/services/graph/draw/confined-particle/index.ts:60-69 | a target outside is moved onto the wall, along the same direction from the axis |
| ConfinedParticles.ResultInside | src/services/graph/draw/confined-particle/index.ts:48-72 | every clamped position lies within `radius` of the axis |
| ConfinedParticles.ZeroRadiusPinned | src/services/graph/draw/confined-particle/index.ts:60-69 | with radius 0, the particle is pinned to the axis |
| ConfinedParticles.ClampedIdempotent | src/services/graph/draw/confined-particle/index.ts:48-72 | clamping twice is clamping once |
| ConfinedParticles.InsideFixed | src/services/graph/draw/confined-particle/index.ts:48-72 | a position inside the cylinder is a fixed point of the clamp |
| ConfinedParticles.NoForceNoMove | src/services/graph/draw/confined-particle/index.ts:83-93 | with no accumulated force, the force magnitude is 0 and a particle inside does not move |
| ConfinedParticles.ConfinedParticle.constructor | src/services/graph/draw/confined-particle/index.ts:20-42 | the axis is the point's displacement from the base; the particle starts there at the point's altitude, with the height band altitude ± vertical accuracy and the horizontal accuracy as radius |
| ConfinedParticles.ConfinedParticle.GetPosition | src/services/graph/draw/confined-particle/index.ts:44-46 | returns the current position |
| ConfinedParticles.ConfinedParticle.MoveTo | src/services/graph/draw/confined-particle/index.ts:48-72 | the new position is the clamp of the target about the particle's own axis |
| ConfinedParticles.ConfinedParticle.MoveBy | src/services/graph/draw/confined-particle/index.ts:74-77 | moves to the clamp of the old position plus the step |
| ConfinedParticles.ConfinedParticle.ApplyForce | src/services/graph/draw/confined-particle/index.ts:79-81 | the force is added to the buffer, and the position is unchanged |
| ConfinedParticles.ConfinedParticle.ComputeAccumulatedForce | src/services/graph/draw/confined-particle/index.ts:83-93 | returns the buffer's magnitude (zero exactly for no force), moves by the buffer and empties it |
| LegacyParticles.LegacyClampsAboutOrigin | src/services/graph/draw/confined-particle.ts:44-63 | the earlier clamp is the current one about the axis (0, 0), and lands within `radius` of the origin |
| LegacyParticles.OwnPositionMoved | src/services/graph/draw/confined-particle.ts:44-63 | a point `a > radius` east of the origin is pulled to `radius`, although the clamp about its own axis keeps it |
| LegacyParticles.ConfinedParticle.constructor | src/services/graph/draw/confined-particle.ts:19-38 | records the displacement as `baseX, baseY` and starts there, with the same band and radius as the current particle |
| LegacyParticles.ConfinedParticle.GetPosition | src/services/graph/draw/confined-particle.ts:40-42 | returns the current position |
| LegacyParticles.ConfinedParticle.MoveTo | src/services/graph/draw/confined-particle.ts:44-63 | as written: the new position is the clamp of the target about the origin |
| LegacyParticles.ConfinedParticle.MoveToCorrected | src/services/graph/draw/confined-particle.ts:44-63 | corrected: the clamp about `(baseX, baseY)`, which always lands inside that cylinder |
| LegacyParticles.ConfinedParticle.MoveBy | src/services/graph/draw/confined-particle.ts:65-68 | moves to the clamp of the old position plus the step |
| LegacyParticles.ConfinedParticle.ApplyForce | src/services/graph/draw/confined-particle.ts:70-72 | the force is added to the buffer, and the position is unchanged |
| LegacyParticles.ConfinedParticle.ComputeAccumulatedForce | src/services/graph/draw/confined-particle.ts:74-78 | moves by the buffer and empties it, returning nothing |
| LegacyParticles.MoveToOwnPosition | src/services/graph/draw/confined-particle.ts:19-63 | a particle `east > radius` from the base, moved to its own starting point, ends at `radius` east as written and stays put when corrected |
| ParticleFactory.CreateParticleRoundTrip | src/services/graph/draw/confined-particle/create-particle-from-location.ts:5-26 | the displacement, altitude and both accuracies can be read back from the created particle's arguments |
| ParticleFactory.CreateParticleDependsOnFootprint | src/services/graph/draw/confined-particle/create-particle-from-location.ts:5-26 | two points with the same displacement, altitude and accuracies give the same particle |
| ParticleFactory.CreateParticleFromLocation | src/services/graph/draw/confined-particle/create-particle-from-location.ts:5-26 | the displacement from the base (east on x, north on z), the altitude (on y) and both accuracies are what the particle is built from |
| Scheduling.MaxInt | src/services/graph/draw/simulation-scheduler.ts:44 | `Math.max` is an upper bound that is one of its arguments |
| Scheduling.NotifyArmsDebounce | src/services/graph/draw/simulation-scheduler.ts:25-38 | an update marks work pending and re-arms the debounce timer `debounceMs` from now |
| Scheduling.MaxWaitDeadline | src/services/graph/draw/simulation-scheduler.ts:40-47 | an empty max-wait slot is armed at `max(now, lastRun + maxWaitMs)`, and an occupied one is left alone |
| Scheduling.TriggerOutcome | src/services/graph/draw/simulation-scheduler.ts:61-68 | `trigger` is a no-op while running or with nothing pending; otherwise it clears both timers and starts a run now, with nothing pending |
| Scheduling.PendingSurvivesRun | src/services/graph/draw/simulation-scheduler.ts:61-77 | during a run no event but its end changes `isRunning` or `lastRun`, and an update received meanwhile is still pending when the run ends |
| Scheduling.CorrectedKeepsNoStaleHandle | src/services/graph/draw/simulation-scheduler.ts:37-46 | with callbacks that release their slot, no slot ever holds a fired handle, over any history |
| Scheduling.CorrectedUpdateArmsMaxWait | src/services/graph/draw/simulation-scheduler.ts:40-47 | with the corrected callbacks every update, after any history, leaves a max-wait deadline armed |
| Scheduling.StaleHandleStarves | src/services/graph/draw/simulation-scheduler.ts:40-46 | as written, a history exists after which an update is pending, no run is in progress, and the max-wait slot holds a fired handle, so the next update arms no deadline |
| Scheduling.SimulationScheduler.constructor | src/services/graph/draw/simulation-scheduler.ts:8-23 | idle, nothing pending, no timers and `lastRun` now |
| Scheduling.SimulationScheduler.NotifyUpdate | src/services/graph/draw/simulation-scheduler.ts:25-29 | the state becomes `Notified` of the old one |
| Scheduling.SimulationScheduler.ResetDebounceTimer | src/services/graph/draw/simulation-scheduler.ts:31-38 | the debounce slot is armed `debounceMs` from now |
| Scheduling.SimulationScheduler.ScheduleMaxWaitTimer | src/services/graph/draw/simulation-scheduler.ts:40-47 | the max-wait slot is armed only when it is empty |
| Scheduling.SimulationScheduler.ClearTimers | src/services/graph/draw/simulation-scheduler.ts:49-59 | both slots are emptied |
| Scheduling.SimulationScheduler.Trigger | src/services/graph/draw/simulation-scheduler.ts:61-69 | reports whether a run starts, and the state becomes `Triggered` |
| Scheduling.SimulationScheduler.FinishRun | src/services/graph/draw/simulation-scheduler.ts:70-76 | the run ends whether it succeeded or threw |
| Scheduling.SimulationScheduler.DebounceTimerFires | src/services/graph/draw/simulation-scheduler.ts:37 | the debounce callback triggers, and its fired handle stays in the slot |
| Scheduling.SimulationScheduler.MaxTimerFires | src/services/graph/draw/simulation-scheduler.ts:46 | the max-wait callback triggers, and its fired handle stays in the slot |
| Scheduling.SimulationScheduler.MaxTimerFiresCorrected | src/services/graph/draw/simulation-scheduler.ts:46 | corrected: the max-wait callback empties its slot and then triggers |
| Scheduling.SimulationScheduler.DebounceTimerFiresCorrected | src/services/graph/draw/simulation-scheduler.ts:37 | corrected: the debounce callback empties its slot and then triggers |
| AttributeSets.GetSetFromObjectAttributes | src/utils/index.ts:8-21 | as written: for an array, the set of the elements' attributes; for a `Map`, the empty set |
| AttributeSets.GetSetFromObjectAttributesIntended | src/utils/index.ts:8-21 | corrected: for a `Map`, the set of its values' attributes |
| AttributeSets.EmptyArrayEmptySet | src/utils/index.ts:12-15 | an empty array gives the empty set |
| AttributeSets.AttributeSetSize | src/utils/index.ts:12-15 | the set has at most as many attributes as there are elements |
| AttributeSets.MapBranchDropsValues | src/utils/index.ts:16-18 | for the `Map` `{"a" → 1}`, the code as written gives {} where {1} is meant |

## Left out

- Redis itself: the connection, key expiry (`expire` with `TTL` in `store/index.ts`) and failures of a pipeline or of one command in it (the source throws on a null pipeline result and skips failed replies). No command fails in the model, and stored weights read back exactly.
- Key collisions in `store.ts` and `event/graph.ts`: a node named `nodes` or `node_location` would share its key with the node set or the location hash. The model keeps these tables apart.
- JSON and schema validation: values are already typed. Validation is modelled only where the source filters (`MetadataAccepted` in `listNodesMetadata`). NaN, infinities and floating-point rounding are not modelled because numbers are reals.
- Asynchrony: `await`ed Redis calls happen at once and in order, and the `EventService` calls it does not await are modelled as finishing before the method returns.
- Logging (`console.log`, `console.error`).
- Failing sends: every `sendMessage` callback returns normally in the model. In the source the callbacks call a socket's `send`, which can throw. A throw would end `publish`'s `forEach` part-way (`src/services/event/index.ts:62-70`). In `subscribe` it would also skip `subscribers.set` and `addNode` (`src/services/event/index.ts:72-83`). In `src/services/events.ts:48-63` the subscriber would be stored but no id returned. `Channels.SendAll` and the `Publish`, `NotifyAdmin` and `Subscribe` methods therefore state only the outcome when every send succeeds.
- I/O and foreign calls become parameters:
  - the current time (`Date.now()`);
  - `randomUUID()` (a fresh id);
  - `Math.sqrt` (any function satisfying `IsSqrt`);
  - the geodesic displacement `displacementOnEarth` / `computeDisplacement` (any function).
- Node.js timers: the runtime raises a delay below 1 ms to 1 ms and treats one above 2³¹−1 as 1 ms. The model arms a deadline of exactly `now + delay`. When a due timer fires is left to the history, and the `run` callback itself is not modelled, only its start (`Trigger`) and its `finally` (`FinishRun`).
- `getAdminId` (`src/services/event/index.ts:41-43`): it returns the constant field `adminId`.
- The unused `pixels` field (`src/services/events.ts:28`).
- `truncateDecimalPlaces` (`src/utils/index.ts:1-6`) and `randomVector`: neither is used by the modelled core.
- The particle constructor taking `{ position, radius, deltaZ }`, which `createParticleFromLocation` calls, is not part of this model. `ParticleFactory.CreateParticleFromLocation` returns its argument record.
- `minMax` is not part of this model. It is taken to be `min(max(value, lo), hi)`.
- Quantizer.Quantize: requires a non-zero precision. A zero precision yields ±Infinity or NaN in the source, which reals cannot express. Its contract describes the cell only for a positive precision, the only kind the source uses (0.25).
- ConfinedParticles.ConfinedParticle.constructor: requires a non-negative horizontal accuracy. With a negative radius the source's clamp scales a point through the axis and leaves it outside any cylinder.
- LegacyParticles.ConfinedParticle.constructor: requires a non-negative horizontal accuracy, for the same reason.
- ConfinedParticles.ConfinedParticle.GetPosition: returns a copy of the position. The source returns the live object, and `moveBy` passes it to the in-place `add`, which writes the sum into it before `moveTo` replaces it. `MutableVectors.Add` models that in-place `add`, but aliasing across the particle is not modelled.
- LegacyParticles.ConfinedParticle.GetPosition: returns a copy of the position. `src/services/graph/draw/confined-particle.ts:40-42` returns the live object, and `moveBy` (lines 65-68) passes it to the in-place `add`; no caller keeps the reference (`src/services/graph/draw/index.ts:15,37`), so only aliasing is lost.
- `src/services/graph/draw/confined-particle/index.ts:4` imports `vectorNull` from `src/utils/vectors.ts`, which exports no such name; the field initializer (line 18) and the force reset (line 90) are modelled with the null vector of `src/schemas/vectors.ts:15`, `Vectors.VectorNull`.
- Subscribing with an id that is already present overwrites that subscriber in place. The model does this through `OrderedMaps.Put`, but a `randomUUID()` collision is not modelled.

## Findings

| source | as written | input that shows it | evidently intended | confidence | as-written member | corrected member |
|---|---|---|---|---|---|---|
| src/services/events.ts:42-46 | `if (this.state !== 'ClOSED') throw`: the guard is negated, so it throws in every state but the closed one (`'ClOSED'` is the spelling of the state type at line 6, so the spelling changes nothing) | any subscription to a fresh pub-sub, whose state is `'OPEN'` | refuse only when the event is `'CLOSED'` | high, not executed | GuardedPubSub.SubscribeAlwaysRefused | GuardedPubSub.SubscribeIntendedAccepted |
| src/services/graph/draw/simulation-scheduler.ts:40-47 | `if (this.maxTimer) return`: a fired timeout handle stays truthy when its `trigger` was a no-op, so the slot stays taken until the next run starts (`clearTimers`, lines 55-58 and 64), and until then no update arms a max-wait deadline | debounce 10, max-wait 100: update at 0, debounce fires at 10, update at 20, debounce (30) and max-wait (110) fire during the run, the run ends, update at 200 | a fired timer frees its slot, so every later update arms a max-wait deadline | medium, not executed | Scheduling.StaleHandleStarves | Scheduling.CorrectedUpdateArmsMaxWait |
| src/services/graph/draw/confined-particle.ts:50-56 | the horizontal clamp uses the distance from the origin; `baseX` and `baseY` are stored but never read | a particle 20 m east of the base with a 10 m radius, moved to its own position | clamp about `(baseX, baseY)`, as the current particle does | high, not executed | LegacyParticles.OwnPositionMoved | LegacyParticles.ConfinedParticle.MoveToCorrected |
| src/utils/index.ts:16-18 | `Object.values(obj)` on a `Map` yields no entries | `new Map([["a", 1]])` | collect the attribute of every value of the map | medium, not executed | AttributeSets.MapBranchDropsValues | AttributeSets.GetSetFromObjectAttributesIntended |
