/**
 * The planner agent: a stateless filter on `challenge/created` whose only
 * effect is a log line naming the child and the challenge.
 */
module Planner {
  import opened Wrappers
  import opened Json
  import opened Topics

  /** The pair the planner logs: the topic's child id and `data?.id`. */
  datatype PlanNote = PlanNote(childId: string, challengeId: Option<Json>)

  /**
   * `PlannerAgent.handle(topic, data)`: the note it logs, or `None` when it
   * returns early. It holds no state and never publishes.
   */
  function Handle(topic: string, data: Json): (r: Option<PlanNote>)
    ensures r.Some? <==> ParseTopic(topic).Some? && ParseTopic(topic).value.kind == ChallengeCreated
    ensures r.Some? ==> topic == TopicFor(r.value.childId, ChallengeCreated)
    ensures r.Some? ==> r.value.challengeId == Get(data, "id")
  {
    match ParseTopic(topic)
    case Some(p) =>
      if p.kind == ChallengeCreated then Some(PlanNote(p.childId, Get(data, "id"))) else None
    case None => None
  }
}
