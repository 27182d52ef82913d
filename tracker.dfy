/** The interaction-capture hooks (src/hooks/useInteractionTracker.js): the records a page
    hands to the context's `trackInteraction`, and the per-page state (session start time
    and interaction count) the page hook keeps between renders. */
module InteractionTracker {
  import opened Wrappers
  import opened Json
  import opened Interactions
  import opened Features

  const DefaultDifficulty := "intermediate"

  /** The hook's `options`: a default difficulty and extra metadata for every record. */
  datatype TrackerOptions = TrackerOptions(difficulty: Option<string>, metadata: Fields)

  /** The `details` a page passes to `track`. */
  datatype Details = Details(
    topic: Option<string>,
    subtopic: Option<string>,
    difficulty: Option<string>,
    timeSpent: Option<real>,
    completed: Option<bool>,
    score: Option<real>,
    feedback: Option<Feedback>,
    metadata: Fields)

  const NoDetails := Details(None, None, None, None, None, None, None, map[])

  /** The record emitted on mount. */
  function PageView(page: string, options: TrackerOptions): (r: InteractionRecord)
    ensures r.interactionType == "page_view" && r.topic == Some(page)
    ensures Present(r.difficulty)
    ensures r.difficulty == if Present(options.difficulty) then options.difficulty else Some(DefaultDifficulty)
    ensures "page" in r.metadata
    ensures "page" !in options.metadata ==> r.metadata["page"] == Str(page)
  {
    Blank("page_view", Some(page)).(
      difficulty := Or(options.difficulty, Some(DefaultDifficulty)),
      metadata := Spread(map["page" := Str(page)], options.metadata))
  }

  /** The record emitted on unmount: whole seconds on the page (floored), completed when
      the page saw at least one interaction, and no difficulty. */
  function PageExit(page: string, options: TrackerOptions, elapsedMs: int, interactions: nat): (r: InteractionRecord)
    ensures r.interactionType == "page_exit" && r.topic == Some(page) && r.difficulty.None?
    ensures r.timeSpent.Some? && r.timeSpent.value == (r.timeSpent.value.Floor) as real
    ensures var seconds := r.timeSpent.value.Floor; seconds * 1000 <= elapsedMs < (seconds + 1) * 1000
    ensures r.completed == Some(interactions > 0)
    ensures "page" in r.metadata && "interactions" in r.metadata
  {
    Blank("page_exit", Some(page)).(
      timeSpent := Some((elapsedMs / 1000) as real),
      completed := Some(interactions > 0),
      metadata := Spread(map["page" := Str(page), "interactions" := Num(interactions as real)], options.metadata))
  }

  /** The record `track(interactionType, details)` emits: the topic falls back to the page,
      the difficulty to the hook's default and then to 'intermediate'. */
  function TrackRecord(page: string, options: TrackerOptions, interactionType: string, details: Details)
    : (r: InteractionRecord)
    ensures r.interactionType == interactionType
    ensures r.topic == if Present(details.topic) then details.topic else Some(page)
    ensures Present(r.difficulty)
    ensures r.difficulty ==
      if Present(details.difficulty) then details.difficulty
      else if Present(options.difficulty) then options.difficulty
      else Some(DefaultDifficulty)
    ensures r.subtopic == details.subtopic && r.timeSpent == details.timeSpent && r.completed == details.completed
    ensures r.score == details.score && r.feedback == details.feedback
    ensures "page" in r.metadata
  {
    InteractionRecord(
      interactionType,
      Or(details.topic, Some(page)),
      details.subtopic,
      Or(details.difficulty, Or(options.difficulty, Some(DefaultDifficulty))),
      details.timeSpent,
      details.completed,
      details.score,
      details.feedback,
      Spread(map["page" := Str(page)], details.metadata),
      None,
      None)
  }

  /** What the hook hands over, in order. */
  datatype TrackerEvent = SessionStarted | Tracked(record: InteractionRecord) | SessionEnded

  /** One page's use of the hook. */
  class PageTracker {
    const page: string
    const options: TrackerOptions
    var sessionStartTime: Option<int>
    var interactionCount: nat
    /** The calls made to the context, in order. */
    var emitted: seq<TrackerEvent>

    constructor (page: string, options: TrackerOptions)
      ensures this.page == page && this.options == options
      ensures sessionStartTime.None? && interactionCount == 0 && emitted == []
    {
      this.page := page;
      this.options := options;
      sessionStartTime := None;
      interactionCount := 0;
      emitted := [];
    }

    /** The mount effect: start a session, note the time, record the page view. */
    method Mount(now: int)
      modifies this
      ensures sessionStartTime == Some(now) && interactionCount == old(interactionCount)
      ensures emitted == old(emitted) + [SessionStarted, Tracked(PageView(page, options))]
    {
      sessionStartTime := Some(now);
      emitted := emitted + [SessionStarted, Tracked(PageView(page, options))];
    }

    /** The unmount cleanup: record the page exit, then end the session. */
    method Unmount(now: int)
      requires sessionStartTime.Some?
      modifies this
      ensures sessionStartTime == old(sessionStartTime) && interactionCount == old(interactionCount)
      ensures emitted == old(emitted) +
        [Tracked(PageExit(page, options, now - sessionStartTime.value, interactionCount)), SessionEnded]
    {
      var elapsed := now - sessionStartTime.value;
      emitted := emitted + [Tracked(PageExit(page, options, elapsed, interactionCount)), SessionEnded];
    }

    /** `track`: count the interaction and record it. */
    method Track(interactionType: string, details: Details)
      modifies this
      ensures interactionCount == old(interactionCount) + 1
      ensures sessionStartTime == old(sessionStartTime)
      ensures emitted == old(emitted) + [Tracked(TrackRecord(page, options, interactionType, details))]
    {
      interactionCount := interactionCount + 1;
      emitted := emitted + [Tracked(TrackRecord(page, options, interactionType, details))];
    }
  }

  /** A page visit: mount, the given interactions, unmount. The exit record is completed
      exactly when there was at least one interaction, and the session brackets every
      record. */
  method Visit(page: string, options: TrackerOptions, start: int, stop: int, interactions: seq<(string, Details)>)
    returns (emitted: seq<TrackerEvent>)
    ensures |emitted| == |interactions| + 4
    ensures emitted[0] == SessionStarted && emitted[|emitted| - 1] == SessionEnded
    ensures emitted[1] == Tracked(PageView(page, options))
    ensures emitted[|emitted| - 2] == Tracked(PageExit(page, options, stop - start, |interactions|))
    ensures emitted[|emitted| - 2].record.completed == Some(|interactions| > 0)
    ensures forall i :: 0 <= i < |interactions| ==>
      emitted[i + 2] == Tracked(TrackRecord(page, options, interactions[i].0, interactions[i].1))
  {
    var tracker := new PageTracker(page, options);
    tracker.Mount(start);
    var i := 0;
    while i < |interactions|
      invariant 0 <= i <= |interactions|
      invariant tracker.sessionStartTime == Some(start) && tracker.interactionCount == i
      invariant tracker.page == page && tracker.options == options
      invariant |tracker.emitted| == i + 2
      invariant tracker.emitted[0] == SessionStarted && tracker.emitted[1] == Tracked(PageView(page, options))
      invariant forall j :: 0 <= j < i ==>
        tracker.emitted[j + 2] == Tracked(TrackRecord(page, options, interactions[j].0, interactions[j].1))
    {
      tracker.Track(interactions[i].0, interactions[i].1);
      i := i + 1;
    }
    tracker.Unmount(stop);
    emitted := tracker.emitted;
  }

  /** `useChatbotTracker().trackMessage`. */
  function ChatbotMessage(topic: Option<string>, messageLength: int, responseTime: real): (r: InteractionRecord)
    ensures r.interactionType == "chatbot" && r.completed.None? && r.feedback.None?
    ensures r.topic == if Present(topic) then topic else Some("chatbot")
  {
    TrackRecord("chatbot", TrackerOptions(None, map[]), "chatbot",
      NoDetails.(topic := topic,
                 metadata := map["messageLength" := Num(messageLength as real), "responseTime" := Num(responseTime)]))
  }

  /** `useChatbotTracker().trackFeedback`: always completed. */
  function ChatbotFeedback(topic: Option<string>, helpful: bool, rating: int): (r: InteractionRecord)
    ensures r.interactionType == "chatbot" && r.completed == Some(true)
    ensures r.feedback == Some(Feedback(helpful, rating))
  {
    TrackRecord("chatbot", TrackerOptions(None, map[]), "chatbot",
      NoDetails.(topic := topic, feedback := Some(Feedback(helpful, rating)), completed := Some(true)))
  }

  /** `useChecklistTracker().trackChecklistItem`. */
  function ChecklistItem(topic: Option<string>, completed: Option<bool>, timeSpent: Option<real>): (r: InteractionRecord)
    ensures r.interactionType == "checklist" && r.completed == completed && r.timeSpent == timeSpent
  {
    TrackRecord("checklist", TrackerOptions(None, map[]), "checklist",
      NoDetails.(topic := topic, completed := completed, timeSpent := timeSpent))
  }

  /** `useChecklistTracker().trackChecklistProgress`: completed exactly at 100%. */
  function ChecklistProgress(topic: Option<string>, completionRate: real): (r: InteractionRecord)
    ensures r.interactionType == "checklist" && r.score == Some(completionRate)
    ensures IsTrue(r.completed) <==> completionRate >= 100.0
  {
    TrackRecord("checklist", TrackerOptions(None, map[]), "checklist",
      NoDetails.(topic := topic, score := Some(completionRate), completed := Some(completionRate >= 100.0)))
  }

  /** `useQuizTracker().trackQuizAttempt`, sent to the context directly. */
  function QuizAttempt(topic: Option<string>, difficulty: Option<string>, score: Option<real>, timeSpent: Option<real>)
    : (r: InteractionRecord)
    ensures r.interactionType == "quiz" && r.completed == Some(true)
    ensures r.difficulty == difficulty && r.score == score && r.timeSpent == timeSpent
  {
    Blank("quiz", topic).(difficulty := difficulty, score := score, timeSpent := timeSpent, completed := Some(true))
  }

  /** `useQuizTracker().trackQuizQuestion`: score 100 for a correct answer, 0 otherwise. */
  function QuizQuestion(topic: Option<string>, difficulty: Option<string>, correct: bool): (r: InteractionRecord)
    ensures r.interactionType == "quiz" && r.completed == Some(true)
    ensures r.score == Some(if correct then 100.0 else 0.0)
  {
    Blank("quiz", topic).(difficulty := difficulty, score := Some(if correct then 100.0 else 0.0),
                          completed := Some(true), metadata := map["correct" := Flag(correct)])
  }

  /** A quiz question becomes a positive training example whose score slot says whether
      the answer was right; feedback likewise always trains as completed. */
  lemma QuizQuestionEncoding(topic: Option<string>, difficulty: Option<string>, correct: bool, hour: Hour)
    ensures Label(QuizQuestion(topic, difficulty, correct))[0] == 1.0
    ensures ExtractFeatures(QuizQuestion(topic, difficulty, correct), hour)[8] == if correct then 1.0 else 0.0
    ensures ExtractFeatures(QuizQuestion(topic, difficulty, correct), hour)[7] == 1.0
    ensures Label(ChatbotFeedback(topic, correct, 0))[0] == 1.0
  {
  }

  /** A checklist progress record trains as positive exactly at full completion, and a
      chatbot message never does. */
  lemma ProgressEncoding(topic: Option<string>, completionRate: real, messageLength: int, responseTime: real)
    ensures Label(ChecklistProgress(topic, completionRate))[0] == 1.0 <==> completionRate >= 100.0
    ensures Label(ChatbotMessage(topic, messageLength, responseTime))[0] == 0.0
  {
  }
}
