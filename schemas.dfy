/**
 * The value types the graph engine passes around: locations
 * (src/schemas/location.ts), graph nodes, edges and node metadata
 * (src/schemas/graph.ts), and the messages sent to connected clients
 * (src/schemas/messages.ts). Validation by the schema library is not part of
 * this model; only the shapes are.
 */
module Schemas {
  import opened Wrappers
  import opened Vectors

  /** A device or graph node id. */
  type Node = string

  /** A reported position with its accuracies, in degrees and meters. */
  datatype Location = Location(
    latitude: real,
    longitude: real,
    horizontalAccuracy: real,
    altitude: real,
    verticalAccuracy: real)

  /** The base point of an event. */
  datatype ExactLocation = ExactLocation(latitude: real, longitude: real)

  /** The local offset of a point from a base, in meters east and north. */
  datatype Displacement = Displacement(deltaEast: real, deltaNorth: real)

  /** A directed weighted edge `from -> to`. */
  datatype Edge = Edge(from: Node, to: Node, value: real)

  /** A node's real-world position and its rank on every axis. */
  datatype PositionPair = PositionPair(relative: Vector3, absolute: Vector3)

  datatype NodePosition = NodePosition(uncorrected: PositionPair, simulated: PositionPair)

  /** What the metadata store keeps per node; `position` is nullish. */
  datatype Metadata = Metadata(location: Location, position: Option<NodePosition>)

  /** A graph as returned to clients. */
  datatype EventGraph = EventGraph(nodes: map<Node, Metadata>, edges: seq<Edge>)

  /**
   * Messages sent over a client connection. `UserJoined` is the payload the
   * event service publishes (device id and location); the `USER_LEFT`
   * payload carries its id in a field the source spells `devideId`.
   */
  datatype Message =
    | Authentication(token: string)
    | Join(deviceId: string, location: Location)
    | UserJoined(deviceId: string, location: Location)
    | DistanceReport(from: string, to: string, distance: real)
    | UserLeft(devideId: string)

  /**
   * What the location schema accepts. Both latitude and longitude are
   * bounded by [-90, 90], as written in src/schemas/location.ts.
   */
  predicate LocationAccepted(l: Location)
  {
    -90.0 <= l.latitude <= 90.0 && -90.0 <= l.longitude <= 90.0
  }

  /** What the metadata schema accepts: its location must pass the location schema. */
  predicate MetadataAccepted(m: Metadata)
  {
    LocationAccepted(m.location)
  }

  /** As written, a longitude beyond 90 degrees east or west is refused, whatever else the location holds. */
  lemma LongitudeBeyondNinetyRefused(l: Location)
    requires l.longitude < -90.0 || 90.0 < l.longitude
    ensures !LocationAccepted(l)
  {
  }

  /** The location schema bounds only latitude and longitude; altitude and the accuracies may be any number. */
  lemma OnlyCoordinatesBounded(l: Location, altitude: real, horizontalAccuracy: real, verticalAccuracy: real)
    ensures LocationAccepted(l) == LocationAccepted(l.(altitude := altitude, horizontalAccuracy := horizontalAccuracy, verticalAccuracy := verticalAccuracy))
  {
  }

  /** The metadata schema accepts any position, or none, next to an accepted location. */
  lemma MetadataAcceptsAnyPosition(m: Metadata, position: Option<NodePosition>)
    ensures MetadataAccepted(m) == MetadataAccepted(m.(position := position))
    ensures MetadataAccepted(m) == LocationAccepted(m.location)
  {
  }
}
