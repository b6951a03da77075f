/**
 * Client connections as the services see them: a connection is the
 * `sendMessage` callback of one client, named here by an opaque number, and
 * a delivery is one call of such a callback.
 */
module Channels {
  /** The identity of one `sendMessage` callback. */
  type Connection = nat

  /** One `sendMessage(message)` call on `to`. */
  datatype Delivery<M> = Delivery(to: Connection, message: M)

  /** One delivery of `message` to each of `to`, in that order. */
  function SendAll<M>(to: seq<Connection>, message: M): (r: seq<Delivery<M>>)
    ensures |r| == |to|
    ensures forall i | 0 <= i < |to| :: r[i] == Delivery(to[i], message)
  {
    seq(|to|, i requires 0 <= i < |to| => Delivery(to[i], message))
  }

  /** Sending to exactly `to`: a connection receives `message` iff it is listed, and nothing else is sent. */
  lemma SendAllRecipients<M>(to: seq<Connection>, message: M)
    ensures forall d | d in SendAll(to, message) :: d.message == message && d.to in to
    ensures forall c | c in to :: Delivery(c, message) in SendAll(to, message)
  {
    var r := SendAll(to, message);
    forall c | c in to
      ensures Delivery(c, message) in r
    {
      var i :| 0 <= i < |to| && to[i] == c;
      assert r[i] == Delivery(c, message);
    }
  }

  /** One more step of a sending loop. */
  lemma SendAllAppend<M>(to: seq<Connection>, c: Connection, message: M)
    ensures SendAll(to + [c], message) == SendAll(to, message) + [Delivery(c, message)]
  {
  }

  lemma AppendAssociative<T>(a: seq<T>, b: seq<T>, c: seq<T>)
    ensures (a + b) + c == a + (b + c)
  {
  }
}
