/**
 * The state-guarded publish/subscribe registry (src/services/events.ts).
 * Subscribers are kept in a record keyed by a fresh id, the admin may be
 * connected, and `subscribe` is guarded by the event state. Every
 * `sendMessage` call is recorded in `sent`; `randomUUID` enters as the
 * fresh id argument.
 */
module GuardedPubSub {
  import opened Wrappers
  import opened OrderedMaps
  import opened Channels

  datatype MessageType = UserJoinedType | SetStatus

  /**
   * The `value` text of a message. `UserJoinedJson` stands for the JSON text
   * `subscribe` writes for a new subscriber; `Text` for any other text.
   */
  datatype Payload =
    | Text(text: string)
    | UserJoinedJson(id: string, latitude: real, longitude: real, accuracy: real)

  datatype Message = Message(messageType: MessageType, value: Payload)

  /** The two states; the closed one is spelled `'ClOSED'` in the source. */
  datatype EventState = Open | Closed

  datatype Subscriber = Subscriber(
    latitude: real,
    longitude: real,
    accuracy: real,
    altitude: real,
    altitudeAccuracy: real,
    sendMessage: Connection)

  /** The message the admin gets when `id` subscribes. */
  function JoinedNotice(id: string, subscriber: Subscriber): Message
  {
    Message(UserJoinedType, UserJoinedJson(id, subscriber.latitude, subscriber.longitude, subscriber.accuracy))
  }

  /** The error `subscribe` throws. */
  const SubscribeError: string := "You cannot subscribe to an Event that is already closed."

  class EventPubSub {
    const adminId: string
    var adminConnection: Option<Connection>
    var state: EventState
    var subscribers: OrderedMap<Subscriber>
    /** Every message sent so far, in order. */
    var sent: seq<Delivery<Message>>

    /** The subscriber record is well formed, and the state is the initial one: no method changes it. */
    ghost predicate Valid()
      reads this
    {
      OrderedMaps.Valid(subscribers) && state == Open
    }

    /** A new registry: state OPEN, no subscribers, no admin connection. */
    constructor(admin: string)
      ensures Valid()
      ensures adminId == admin && adminConnection == None && state == Open
      ensures subscribers.values == map[] && sent == []
    {
      adminId := admin;
      adminConnection := None;
      state := Open;
      subscribers := Empty();
      sent := [];
    }

    /** `setAdminConnection`: replaces the admin's callback. */
    method SetAdminConnection(connection: Connection)
      requires Valid()
      modifies this
      ensures Valid()
      ensures adminConnection == Some(connection)
      ensures state == old(state) && subscribers == old(subscribers) && sent == old(sent)
    {
      adminConnection := Some(connection);
    }

    /**
     * `subscribe` as written: it throws unless the state is CLOSED, so on
     * every reachable state it throws and changes nothing. Were the guard
     * passed, it would store the subscriber under the fresh id, tell the
     * admin if connected, and return the id.
     */
    method Subscribe(subscriber: Subscriber, freshId: string) returns (r: Result<string, string>)
      requires OrderedMaps.Valid(subscribers)
      modifies this
      ensures OrderedMaps.Valid(subscribers) && (old(Valid()) ==> Valid())
      ensures old(state) != Closed ==>
        r == Failure(SubscribeError) && subscribers == old(subscribers) && sent == old(sent)
      ensures old(state) == Closed ==>
        && r == Success(freshId)
        && subscribers == Put(old(subscribers), freshId, subscriber)
        && sent == old(sent) + SendAll(if adminConnection.Some? then [adminConnection.value] else [], JoinedNotice(freshId, subscriber))
      ensures state == old(state) && adminConnection == old(adminConnection)
    {
      if state != Closed {
        return Failure(SubscribeError);
      }
      subscribers := Put(subscribers, freshId, subscriber);
      if adminConnection.Some? {
        sent := sent + [Delivery(adminConnection.value, JoinedNotice(freshId, subscriber))];
      }
      r := Success(freshId);
    }

    /**
     * `subscribe` with the guard as its error message describes it: it
     * throws only when the event is closed. On an open event the subscriber
     * is stored under the fresh id, the admin is told if connected, and the
     * id is returned.
     */
    method SubscribeIntended(subscriber: Subscriber, freshId: string) returns (r: Result<string, string>)
      requires OrderedMaps.Valid(subscribers)
      modifies this
      ensures OrderedMaps.Valid(subscribers) && (old(Valid()) ==> Valid())
      ensures old(state) == Closed ==>
        r == Failure(SubscribeError) && subscribers == old(subscribers) && sent == old(sent)
      ensures old(state) == Open ==>
        && r == Success(freshId)
        && subscribers == Put(old(subscribers), freshId, subscriber)
        && subscribers.values[freshId] == subscriber
        && sent == old(sent) + SendAll(if adminConnection.Some? then [adminConnection.value] else [], JoinedNotice(freshId, subscriber))
      ensures state == old(state) && adminConnection == old(adminConnection)
    {
      if state == Closed {
        return Failure(SubscribeError);
      }
      subscribers := Put(subscribers, freshId, subscriber);
      if adminConnection.Some? {
        sent := sent + [Delivery(adminConnection.value, JoinedNotice(freshId, subscriber))];
      }
      r := Success(freshId);
    }

    /** `publish`: every subscriber, in insertion order, and not the admin. */
    method Publish(message: Message)
      requires Valid()
      modifies this
      ensures Valid()
      ensures adminConnection == old(adminConnection) && subscribers == old(subscribers) && state == old(state)
      ensures sent == old(sent) + SendAll(Connections(subscribers), message)
    {
      var values := Values(subscribers);
      ghost var done: seq<Connection> := [];
      var i := 0;
      while i < |values|
        invariant 0 <= i <= |values|
        invariant adminConnection == old(adminConnection) && subscribers == old(subscribers) && state == old(state)
        invariant done == Connections(subscribers)[..i]
        invariant sent == old(sent) + SendAll(done, message)
      {
        SendAllAppend(done, values[i].sendMessage, message);
        assert Connections(subscribers)[..i + 1] == done + [values[i].sendMessage];
        AppendAssociative(old(sent), SendAll(done, message), [Delivery(values[i].sendMessage, message)]);
        sent := sent + [Delivery(values[i].sendMessage, message)];
        done := done + [values[i].sendMessage];
        i := i + 1;
      }
      assert done == Connections(subscribers);
    }
  }

  /** The callbacks of the subscribers, in insertion order. */
  function Connections(subscribers: OrderedMap<Subscriber>): (r: seq<Connection>)
    requires OrderedMaps.Valid(subscribers)
    ensures |r| == |subscribers.keys|
    ensures forall i | 0 <= i < |r| :: r[i] == subscribers.values[subscribers.keys[i]].sendMessage
  {
    var values := OrderedMaps.Values(subscribers);
    seq(|values|, i requires 0 <= i < |values| => values[i].sendMessage)
  }

  /**
   * On a freshly constructed registry every subscription is refused, with
   * or without an admin connection, and however often it is tried.
   */
  method SubscribeAlwaysRefused(admin: string, connection: Option<Connection>, subscriber: Subscriber, freshId: string)
    returns (first: Result<string, string>, second: Result<string, string>)
    ensures first == Failure(SubscribeError) && second == Failure(SubscribeError)
  {
    var pubSub := new EventPubSub(admin);
    if connection.Some? {
      pubSub.SetAdminConnection(connection.value);
    }
    first := pubSub.Subscribe(subscriber, freshId);
    second := pubSub.Subscribe(subscriber, freshId);
  }

  /** With the intended guard, a fresh registry accepts a subscriber and stores it under the fresh id. */
  method SubscribeIntendedAccepted(admin: string, subscriber: Subscriber, freshId: string)
    returns (r: Result<string, string>, stored: Option<Subscriber>)
    ensures r == Success(freshId)
    ensures stored == Some(subscriber)
  {
    var pubSub := new EventPubSub(admin);
    r := pubSub.SubscribeIntended(subscriber, freshId);
    stored := if freshId in pubSub.subscribers.values then Some(pubSub.subscribers.values[freshId]) else None;
  }
}
