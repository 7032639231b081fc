/**
 * What the two route handlers send back through Express's `resp`, and the
 * path-parameter check both handlers start with.
 */
module Http {
  import opened Wrappers
  import opened Js

  /**
   * A response: `resp.status(s).json(body)`, or `resp.json(body)` with the
   * default status 200. `Unanswered` is a handler that throws before it
   * responds.
   */
  datatype Reply = Reply(status: int, body: Json) | Unanswered

  /** The body `{error: msg}`. */
  function ErrorBody(msg: string): (b: Json)
    ensures b.Obj? && b.fields.Keys == {"error"} && b.fields["error"] == Str(msg)
  {
    Obj(map["error" := Str(msg)])
  }

  const TopicMessage := "Path parameter 'topic' undefined or blank"

  /** `topic === undefined || !topic` for the `:topic` path parameter. */
  predicate TopicBlank(topic: Option<string>)
  {
    topic.None? || topic.value == ""
  }

  /** The 400 reply for a blank topic. */
  function TopicRejection(): (r: Reply)
    ensures r.Reply? && r.status == 400 && r.body == ErrorBody(TopicMessage)
  {
    Reply(400, ErrorBody(TopicMessage))
  }
}
