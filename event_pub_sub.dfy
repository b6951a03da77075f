/**
 * The publish/subscribe registry of src/services/events/event-pub-sub.ts:
 * subscribers in a record keyed by a fresh id, an optional admin
 * connection and an event status that nothing changes after construction.
 * Every message is sent as its JSON text; `JsonOf(m)` stands for
 * `JSON.stringify(m)`. `randomUUID` enters as the fresh id argument.
 */
module EventPubSubs {
  import opened Wrappers
  import opened OrderedMaps
  import opened Channels

  /** The messages of src/services/event/types.d.ts. */
  datatype Message =
    | UserJoinedMessage(id: string, latitude: real, longitude: real, accuracy: real)
    | AuthMessage(token: string)
    | UserLeftMessage(id: string)
    | UserMatrixPosition(id: string, row: real, column: real)
    | Effect

  /** The text a callback receives. */
  datatype Wire = JsonOf(message: Message)

  datatype Subscriber = Subscriber(
    latitude: real,
    longitude: real,
    accuracy: real,
    altitude: real,
    altitudeAccuracy: real,
    sendMessage: Connection)

  /** The status the constructor falls back to. */
  const DefaultStatus: string := "OPEN"

  /** The callbacks of the subscribers, in insertion order. */
  function Connections(subscribers: OrderedMap<Subscriber>): (r: seq<Connection>)
    requires OrderedMaps.Valid(subscribers)
    ensures |r| == |subscribers.keys|
    ensures forall i | 0 <= i < |r| :: r[i] == subscribers.values[subscribers.keys[i]].sendMessage
  {
    var values := OrderedMaps.Values(subscribers);
    seq(|values|, i requires 0 <= i < |values| => values[i].sendMessage)
  }

  class EventPubSub {
    const adminId: string
    const status: string
    var adminConnection: Option<Connection>
    var subscribers: OrderedMap<Subscriber>
    /** Every text sent so far, in order. */
    var sent: seq<Delivery<Wire>>

    ghost predicate Valid()
      reads this
    {
      OrderedMaps.Valid(subscribers)
    }

    /** A new registry: the given status or OPEN, no subscribers, no admin connection. */
    constructor(initialStatus: Option<string>, admin: string)
      ensures Valid()
      ensures status == (if initialStatus.Some? then initialStatus.value else DefaultStatus)
      ensures adminId == admin && adminConnection == None
      ensures subscribers.values == map[] && sent == []
    {
      status := if initialStatus.Some? then initialStatus.value else DefaultStatus;
      subscribers := Empty();
      adminId := admin;
      adminConnection := None;
      sent := [];
    }

    /** `setAdminConnection`: replaces the admin's callback. */
    method SetAdminConnection(sendMessage: Connection)
      modifies this
      ensures adminConnection == Some(sendMessage)
      ensures subscribers == old(subscribers) && sent == old(sent)
    {
      adminConnection := Some(sendMessage);
    }

    /** `notifyAdmin`: the JSON text of the message to the admin if connected, nothing otherwise. */
    method NotifyAdmin(message: Message)
      modifies this
      ensures sent == old(sent) + SendAll(if adminConnection.Some? then [adminConnection.value] else [], JsonOf(message))
      ensures adminConnection == old(adminConnection) && subscribers == old(subscribers)
    {
      if adminConnection.Some? {
        sent := sent + [Delivery(adminConnection.value, JsonOf(message))];
      }
    }

    /**
     * `subscribe`: stores the subscriber under the fresh id with no status
     * check, sends one USER_JOINED to the admin when connected, and returns
     * the id.
     */
    method Subscribe(subscriber: Subscriber, freshId: string) returns (id: string)
      requires Valid()
      modifies this
      ensures Valid()
      ensures id == freshId
      ensures subscribers == Put(old(subscribers), freshId, subscriber)
      ensures sent == old(sent) + SendAll(
        if adminConnection.Some? then [adminConnection.value] else [],
        JsonOf(UserJoinedMessage(freshId, subscriber.latitude, subscriber.longitude, subscriber.accuracy)))
      ensures adminConnection == old(adminConnection)
    {
      id := freshId;
      subscribers := Put(subscribers, id, subscriber);
      NotifyAdmin(UserJoinedMessage(id, subscriber.latitude, subscriber.longitude, subscriber.accuracy));
    }

    /** `publish`: the JSON text to every subscriber, in insertion order, and not to the admin. */
    method Publish(message: Message)
      requires Valid()
      modifies this
      ensures adminConnection == old(adminConnection) && subscribers == old(subscribers)
      ensures sent == old(sent) + SendAll(Connections(subscribers), JsonOf(message))
    {
      var values := Values(subscribers);
      ghost var done: seq<Connection> := [];
      var i := 0;
      while i < |values|
        invariant 0 <= i <= |values|
        invariant adminConnection == old(adminConnection) && subscribers == old(subscribers)
        invariant done == Connections(subscribers)[..i]
        invariant sent == old(sent) + SendAll(done, JsonOf(message))
      {
        SendAllAppend(done, values[i].sendMessage, JsonOf(message));
        assert Connections(subscribers)[..i + 1] == done + [values[i].sendMessage];
        AppendAssociative(old(sent), SendAll(done, JsonOf(message)), [Delivery(values[i].sendMessage, JsonOf(message))]);
        sent := sent + [Delivery(values[i].sendMessage, JsonOf(message))];
        done := done + [values[i].sendMessage];
        i := i + 1;
      }
      assert done == Connections(subscribers);
    }
  }

  /**
   * A subscription tells a connected admin exactly once and nobody else,
   * and tells nobody when no admin is connected.
   */
  lemma JoinNoticeRecipients(admin: Option<Connection>, message: Message)
    ensures |SendAll(if admin.Some? then [admin.value] else [], JsonOf(message))| == (if admin.Some? then 1 else 0)
    ensures forall d | d in SendAll(if admin.Some? then [admin.value] else [], JsonOf(message)) :: Some(d.to) == admin
  {
  }
}
