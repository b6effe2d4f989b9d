/**
 * The `Bus` the agents publish on, backed by the transport session: a
 * message goes out to the session's outbox, and subscriptions are recorded
 * in the order they are made.
 */
module BusSession {
  import opened Json

  /** One sent message: its destination topic and the payload it serialises. */
  datatype Message = Message(destination: string, data: Json)

  /** The messages a publish actually sends: none when the session is down. */
  function Delivered(up: bool, out: seq<Message>): (r: seq<Message>)
    ensures up ==> r == out
    ensures !up ==> r == []
  {
    if up then out else []
  }

  class Bus {
    /** Whether `session.send` succeeds; when it does not, publishing throws. */
    const up: bool
    /** Every message sent so far, oldest first. */
    var sent: seq<Message>
    /** Every subscription made so far, in order. */
    var subscriptions: seq<string>

    constructor (up: bool)
      ensures this.up == up && sent == [] && subscriptions == []
    {
      this.up := up;
      sent := [];
      subscriptions := [];
    }

    /**
     * `bus.publish(topic, data)`: one message to `topic` carrying `data`;
     * `threw` reports the exception `session.send` raises on a session
     * that is not up, in which case nothing is sent.
     */
    method Publish(topic: string, data: Json) returns (threw: bool)
      modifies this`sent
      ensures threw == !up
      ensures sent == old(sent) + Delivered(up, [Message(topic, data)])
    {
      threw := !up;
      if up {
        sent := sent + [Message(topic, data)];
      }
    }

    /** `session.subscribe(destination(topic), ...)`: record one subscription. */
    method Subscribe(topic: string)
      modifies this`subscriptions
      ensures subscriptions == old(subscriptions) + [topic]
    {
      subscriptions := subscriptions + [topic];
    }
  }
}
