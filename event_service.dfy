/**
 * The live session of one event (src/services/event/index.ts): the
 * connected devices in a `Map` keyed by device id, the admin's connection
 * if there is one, and the event's graph in the oldest graph store. Every
 * `sendMessage` call is recorded as a delivery in `sent`; a connection is
 * named by an opaque number standing for its callback.
 */
module EventServices {
  import opened Wrappers
  import opened Schemas
  import opened OrderedMaps
  import opened Channels
  import EventGraphStore
  import Graph

  datatype Subscriber = Subscriber(deviceId: string, location: Location, sendMessage: Connection)

  /** The callbacks of the subscribers, in insertion order. */
  function Connections(subscribers: OrderedMap<Subscriber>): (r: seq<Connection>)
    requires OrderedMaps.Valid(subscribers)
    ensures forall c :: c in r <==> exists k | k in subscribers.values :: subscribers.values[k].sendMessage == c
  {
    var values := OrderedMaps.Values(subscribers);
    var r := seq(|values|, i requires 0 <= i < |values| => values[i].sendMessage);
    assert forall c :: c in r <==> exists k | k in subscribers.values :: subscribers.values[k].sendMessage == c by {
      forall c | exists k | k in subscribers.values :: subscribers.values[k].sendMessage == c
        ensures c in r
      {
        var k :| k in subscribers.values && subscribers.values[k].sendMessage == c;
        var i :| 0 <= i < |subscribers.keys| && subscribers.keys[i] == k;
        assert r[i] == c;
      }
    }
    r
  }

  /** The admin, if connected, then every subscriber: the receivers of `publish`. */
  function Audience(admin: Option<Connection>, subscribers: OrderedMap<Subscriber>): seq<Connection>
    requires OrderedMaps.Valid(subscribers)
  {
    (if admin.Some? then [admin.value] else []) + Connections(subscribers)
  }

  /**
   * Exactly the admin, if connected, and the current subscribers receive a
   * broadcast, and they receive nothing else.
   */
  lemma AudienceMembers(admin: Option<Connection>, subscribers: OrderedMap<Subscriber>)
    requires OrderedMaps.Valid(subscribers)
    ensures forall c :: c in Audience(admin, subscribers) <==>
      admin == Some(c) || exists k | k in subscribers.values :: subscribers.values[k].sendMessage == c
  {
  }

  class EventService {
    const id: string
    const adminId: string
    var adminConnection: Option<Connection>
    var subscribers: OrderedMap<Subscriber>
    const eventGraph: EventGraphStore.GraphStore
    /** Every message sent so far, in order. */
    var sent: seq<Delivery<Message>>

    /** The subscriber map is well formed and each subscriber is stored under its own device id. */
    ghost predicate Valid()
      reads this
    {
      && OrderedMaps.Valid(subscribers)
      && forall k | k in subscribers.values :: subscribers.values[k].deviceId == k
    }

    /** A new session: no subscribers and no admin connection; `graph` stands for the store over the event id. */
    constructor(eventId: string, admin: string, graph: EventGraphStore.GraphStore)
      ensures Valid()
      ensures id == eventId && adminId == admin && eventGraph == graph
      ensures adminConnection == None && subscribers.values == map[] && sent == []
    {
      id := eventId;
      adminId := admin;
      eventGraph := graph;
      adminConnection := None;
      subscribers := Empty();
      sent := [];
    }

    /** `setAdminConnection`: replaces the admin's callback. */
    method SetAdminConnection(send: Connection)
      modifies this
      ensures adminConnection == Some(send)
      ensures subscribers == old(subscribers) && sent == old(sent)
    {
      adminConnection := Some(send);
    }

    /** `getSubscribers`: every (device id, location) pair, in insertion order. */
    method GetSubscribers() returns (r: seq<(string, Location)>)
      requires Valid()
      ensures |r| == |subscribers.keys|
      ensures forall i | 0 <= i < |r| :: r[i] == (subscribers.keys[i], subscribers.values[subscribers.keys[i]].location)
      ensures forall p :: p in r <==> p.0 in subscribers.values && p.1 == subscribers.values[p.0].location
    {
      var subs := subscribers;
      r := seq(|subs.keys|, i requires 0 <= i < |subs.keys| => (subs.keys[i], subs.values[subs.keys[i]].location));
      forall p: (string, Location) | p.0 in subs.values && p.1 == subs.values[p.0].location
        ensures p in r
      {
        var i :| 0 <= i < |subs.keys| && subs.keys[i] == p.0;
        assert r[i] == p;
      }
    }

    /** `notifyAdmin`: one delivery to the admin if connected, none otherwise. */
    method NotifyAdmin(message: Message)
      modifies this
      ensures adminConnection == old(adminConnection) && subscribers == old(subscribers)
      ensures sent == old(sent) + SendAll(if adminConnection.Some? then [adminConnection.value] else [], message)
    {
      if adminConnection.Some? {
        sent := sent + [Delivery(adminConnection.value, message)];
      }
    }

    /** `publish`: the admin first, then every subscriber in insertion order. */
    method Publish(message: Message)
      requires Valid()
      modifies this
      ensures adminConnection == old(adminConnection) && subscribers == old(subscribers)
      ensures sent == old(sent) + SendAll(Audience(adminConnection, subscribers), message)
    {
      ghost var admin := if adminConnection.Some? then [adminConnection.value] else [];
      NotifyAdmin(message);
      var values := Values(subscribers);
      ghost var start := sent;
      ghost var done: seq<Connection> := [];
      var i := 0;
      while i < |values|
        invariant 0 <= i <= |values|
        invariant adminConnection == old(adminConnection) && subscribers == old(subscribers)
        invariant done == Connections(subscribers)[..i]
        invariant sent == start + SendAll(done, message)
      {
        SendAllAppend(done, values[i].sendMessage, message);
        assert Connections(subscribers)[..i + 1] == done + [values[i].sendMessage];
        sent := sent + [Delivery(values[i].sendMessage, message)];
        done := done + [values[i].sendMessage];
        i := i + 1;
      }
      assert done == Connections(subscribers);
      AppendAssociative(old(sent), SendAll(admin, message), SendAll(done, message));
      assert SendAll(admin + done, message) == SendAll(admin, message) + SendAll(done, message);
    }

    /**
     * `subscribe`: USER_JOINED goes out to the admin and the current
     * subscribers before the joiner is registered (replacing an entry with
     * the same device id); then the device becomes a graph node.
     */
    method Subscribe(subscriber: Subscriber)
      requires Valid()
      modifies this, eventGraph
      ensures Valid()
      ensures sent == old(sent) + SendAll(Audience(old(adminConnection), old(subscribers)), UserJoined(subscriber.deviceId, subscriber.location))
      ensures subscribers == Put(old(subscribers), subscriber.deviceId, subscriber)
      ensures adminConnection == old(adminConnection)
      ensures eventGraph.nodes == old(eventGraph.nodes) + {subscriber.deviceId}
      ensures eventGraph.edges == old(eventGraph.edges) && eventGraph.locations == old(eventGraph.locations)
    {
      Publish(UserJoined(subscriber.deviceId, subscriber.location));
      subscribers := Put(subscribers, subscriber.deviceId, subscriber);
      eventGraph.AddNode(subscriber.deviceId);
    }

    /** `setDistanceToDevice`: a falsy distance (null or 0) removes `from -> to`, any other sets it. */
    method SetDistanceToDevice(from: string, to: string, value: Option<real>)
      modifies eventGraph
      ensures value.None? || value.value == 0.0 ==>
        eventGraph.edges == Graph.DeleteWeight(old(eventGraph.edges), from, to) && eventGraph.nodes == old(eventGraph.nodes)
      ensures value.Some? && value.value != 0.0 ==>
        eventGraph.edges == Graph.SetWeight(old(eventGraph.edges), from, to, value.value)
        && eventGraph.nodes == old(eventGraph.nodes) + {from, to}
      ensures eventGraph.locations == old(eventGraph.locations)
      ensures old(eventGraph.Valid()) ==> eventGraph.Valid()
    {
      if value.None? || value.value == 0.0 {
        eventGraph.RemoveEdge(from, to);
        return;
      }
      eventGraph.SetEdge(from, to, value.value);
    }

    /**
     * `updateSubLocation`: for a registered device, replaces its location in
     * the subscriber map (keeping its place) and in the graph; otherwise
     * nothing changes.
     */
    method UpdateSubLocation(deviceId: string, location: Location)
      requires Valid()
      modifies this, eventGraph
      ensures Valid()
      ensures deviceId !in old(subscribers.values) ==>
        subscribers == old(subscribers) && eventGraph.locations == old(eventGraph.locations)
      ensures deviceId in old(subscribers.values) ==>
        subscribers == Put(old(subscribers), deviceId, old(subscribers.values[deviceId]).(location := location))
        && eventGraph.locations == old(eventGraph.locations)[deviceId := location]
      ensures sent == old(sent) && adminConnection == old(adminConnection)
      ensures eventGraph.nodes == old(eventGraph.nodes) && eventGraph.edges == old(eventGraph.edges)
    {
      if deviceId !in subscribers.values {
        return;
      }
      var sub := subscribers.values[deviceId];
      subscribers := Put(subscribers, deviceId, sub.(location := location));
      eventGraph.SetNodeLocation(deviceId, location);
    }

    /**
     * `unsubscribe`: for a registered device, removes it from the subscriber
     * map and the graph, then publishes USER_LEFT to the admin and the
     * remaining subscribers; otherwise nothing changes and nothing is sent.
     */
    method Unsubscribe(deviceId: string)
      requires Valid()
      modifies this, eventGraph
      ensures Valid()
      ensures deviceId !in old(subscribers.values) ==>
        subscribers == old(subscribers) && sent == old(sent)
        && eventGraph.nodes == old(eventGraph.nodes) && eventGraph.edges == old(eventGraph.edges)
        && eventGraph.locations == old(eventGraph.locations)
      ensures deviceId in old(subscribers.values) ==>
        && subscribers == Remove(old(subscribers), deviceId)
        && sent == old(sent) + SendAll(Audience(adminConnection, subscribers), UserLeft(deviceId))
        && eventGraph.nodes == old(eventGraph.nodes) - {deviceId}
        && eventGraph.edges == Graph.WithoutNode(old(eventGraph.edges), old(eventGraph.nodes), deviceId)
        && eventGraph.locations == old(eventGraph.locations) - {deviceId}
      ensures adminConnection == old(adminConnection)
    {
      if deviceId !in subscribers.values {
        return;
      }
      var sub := subscribers.values[deviceId];
      subscribers := Remove(subscribers, deviceId);
      eventGraph.RemoveNode(deviceId);
      Publish(UserLeft(sub.deviceId));
    }
  }

  /**
   * A device joining under a new id with its own connection is not among
   * the receivers of its USER_JOINED; the admin and every earlier
   * subscriber are.
   */
  lemma JoinerNotNotified(admin: Option<Connection>, subscribers: OrderedMap<Subscriber>, joiner: Subscriber)
    requires OrderedMaps.Valid(subscribers)
    requires admin != Some(joiner.sendMessage)
    requires forall k | k in subscribers.values :: subscribers.values[k].sendMessage != joiner.sendMessage
    ensures forall d | d in SendAll(Audience(admin, subscribers), UserJoined(joiner.deviceId, joiner.location)) ::
      d.to != joiner.sendMessage
    ensures forall c | admin == Some(c) || exists k | k in subscribers.values :: subscribers.values[k].sendMessage == c ::
      Delivery(c, UserJoined(joiner.deviceId, joiner.location))
        in SendAll(Audience(admin, subscribers), UserJoined(joiner.deviceId, joiner.location))
  {
    AudienceMembers(admin, subscribers);
    SendAllRecipients(Audience(admin, subscribers), UserJoined(joiner.deviceId, joiner.location));
  }
}
