/** The interaction record captured by the tracking hooks and buffered by the federated
    learning client, with the JavaScript truthiness rules its consumers apply. */
module Interactions {
  import opened Wrappers
  import opened Json

  /** An optional string field is truthy when present and non-empty. */
  predicate Present(o: Option<string>) {
    o.Some? && o.value != ""
  }

  /** `a || b` on optional strings. */
  function Or(a: Option<string>, b: Option<string>): (r: Option<string>)
    ensures Present(a) ==> r == a
    ensures !Present(a) ==> r == b
  {
    if Present(a) then a else b
  }

  /** An optional flag is truthy when it is `true`. */
  predicate IsTrue(o: Option<bool>) {
    o == Some(true)
  }

  /** `x || 0` on an optional number. */
  function OrZero(o: Option<real>): real {
    match o
    case Some(x) => x
    case None => 0.0
  }

  datatype Feedback = Feedback(helpful: bool, rating: int)

  /** A captured user-behaviour event. Absent optional fields are `None`. */
  datatype InteractionRecord = InteractionRecord(
    interactionType: string,
    topic: Option<string>,
    subtopic: Option<string>,
    difficulty: Option<string>,
    timeSpent: Option<real>,
    completed: Option<bool>,
    score: Option<real>,
    feedback: Option<Feedback>,
    metadata: Fields,
    sessionId: Option<string>,
    timestamp: Option<int>)

  /** A record with only a type and a topic; the hooks fill in the rest. */
  function Blank(interactionType: string, topic: Option<string>): (r: InteractionRecord)
    ensures r.interactionType == interactionType && r.topic == topic
    ensures r.completed.None? && r.score.None? && r.timestamp.None? && r.metadata == map[]
  {
    InteractionRecord(interactionType, topic, None, None, None, None, None, None, map[], None, None)
  }
}
