/**
 * The content agent: on `content/requested` it posts a compose request to
 * the worker API and publishes whatever JSON body comes back as a
 * `content/generated` envelope. Every error inside `handle` is caught.
 */
module Content {
  import opened Wrappers
  import opened Json
  import opened Topics
  import opened BusSession

  /**
   * What the compose call yields: the `fetch` itself rejected, or a response
   * with its HTTP status and its body as `res.json()` parses it (`None`
   * when that parse rejects).
   */
  datatype ComposeReply = Unreachable | Responded(status: int, body: Option<Json>)

  /** The inbound fields copied into the compose request. */
  const RequestKeys: set<string> := {"childId", "kind", "prompt"}

  /**
   * `JSON.stringify({childId: data.childId, kind: data.kind, prompt: data.prompt})`
   * as an object: `undefined` fields are dropped, the others copied.
   */
  function ComposeRequest(data: Json): (r: Json)
    ensures r.Obj? && r.fields.Keys <= RequestKeys
    ensures forall k :: k in RequestKeys ==> Get(r, k) == Get(data, k)
  {
    Obj(map k | k in RequestKeys && Get(data, k).Some? :: Get(data, k).value)
  }

  /**
   * The request `handle` posts, if it posts one: only for a `content/requested`
   * topic, and not when `data` is null (reading `data.childId` throws first).
   */
  function ComposeCall(topic: string, data: Json): (r: Option<Json>)
    ensures r.Some? <==> !data.Null? && ParseTopic(topic).Some? && ParseTopic(topic).value.kind == ContentRequested
    ensures r.Some? ==> r.value == ComposeRequest(data)
  {
    match ParseTopic(topic)
    case Some(p) => if p.kind == ContentRequested && !data.Null? then Some(ComposeRequest(data)) else None
    case None => None
  }

  /**
   * `{...body, childId: data.childId}` as it is serialised: the body's fields,
   * with `childId` replaced by the inbound one (and dropped when that is
   * `undefined`).
   */
  function GeneratedPayload(body: Json, data: Json): (r: Json)
    ensures r.Obj?
    ensures Get(r, "childId") == Get(data, "childId")
    ensures forall k :: k != "childId" ==> Get(r, k) == Get(body, k)
  {
    var fields := Spread(body);
    match Get(data, "childId")
    case Some(v) => Obj(fields["childId" := v])
    case None => Obj(fields - {"childId"})
  }

  /**
   * The envelopes `handle(topic, data)` publishes given the compose reply:
   * exactly one when a request was posted and its body parsed, whatever the
   * status; it goes to the `content/generated` topic of the topic's child.
   */
  function ContentOut(topic: string, data: Json, reply: ComposeReply): (out: seq<Message>)
    ensures |out| <= 1
    ensures out != [] <==> ComposeCall(topic, data).Some? && reply.Responded? && reply.body.Some?
    ensures out != [] ==>
      ParseTopic(topic).Some? &&
      topic == TopicFor(ParseTopic(topic).value.childId, ContentRequested) &&
      out[0] == Message(
        TopicFor(ParseTopic(topic).value.childId, ContentGenerated),
        GeneratedPayload(reply.body.value, data))
  {
    if ComposeCall(topic, data).Some? && reply.Responded? && reply.body.Some? then
      var p := ParseTopic(topic).value;
      TopicForInjective(p.childId, p.kind, p.childId, ContentRequested);
      [Message(TopicContentGenerated(p.childId), GeneratedPayload(reply.body.value, data))]
    else []
  }

  /** The HTTP status is never looked at: only whether the body parsed. */
  lemma StatusIgnored(topic: string, data: Json, s1: int, s2: int, body: Option<Json>)
    ensures ContentOut(topic, data, Responded(s1, body)) == ContentOut(topic, data, Responded(s2, body))
  {
  }

  /** `ContentAgent`: its only field is the bus; it keeps nothing between requests. */
  class ContentAgent {
    const bus: Bus

    constructor (bus: Bus)
      ensures this.bus == bus
    {
      this.bus := bus;
    }

    /**
     * `handle(topic, data)` with the compose call's outcome as `reply`:
     * returns the request it posted, and publishes `ContentOut`. A publish
     * that throws is caught like every other error, so `handle` never fails.
     */
    method Handle(topic: string, data: Json, reply: ComposeReply) returns (request: Option<Json>)
      modifies bus`sent
      ensures request == ComposeCall(topic, data)
      ensures bus.sent == old(bus.sent) + Delivered(bus.up, ContentOut(topic, data, reply))
    {
      request := None;
      var parsed := ParseTopic(topic);
      if parsed.None? || parsed.value.kind != ContentRequested {
        return;
      }
      // Inside the try: `data.childId` on a null payload throws a TypeError,
      // which the catch logs before any request is made.
      if data.Null? {
        return;
      }
      request := Some(ComposeRequest(data));
      match reply
      case Unreachable =>
      case Responded(_, body) =>
        if body.Some? {
          var replyTopic := TopicContentGenerated(parsed.value.childId);
          var threw := bus.Publish(replyTopic, GeneratedPayload(body.value, data));
        }
    }
  }
}
