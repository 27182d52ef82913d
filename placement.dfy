// The placement preparation page: the request for company-specific questions, answering,
// scoring, navigating the questions and the score colour.

module PlacementPage {
  import opened Wrappers
  import opened Text
  import opened Interactions

  /** A generated question; `correctAnswer` may be absent from the server's answer. */
  datatype Question = Question(question: string, options: seq<string>, correctAnswer: Option<string>)

  /** The page state. `answers` is `selectedAnswers`, keyed by question index. */
  datatype Quiz = Quiz(
    companyName: string,
    role: string,
    customRole: string,
    questions: seq<Question>,
    concepts: string,
    index: int,
    answers: map<int, string>,
    showResults: bool,
    score: nat,
    error: Option<string>)

  /** The request the page sends. */
  datatype PlacementRequest = PlacementRequest(companyName: string, role: string, authorization: Option<string>)

  /** How the request ends. */
  datatype GenerateReply =
    | Generated(questions: seq<Question>, concepts: string)
    | GenerateRejected(error: Option<string>) // non-ok, with the body's `error`
    | GenerateThrows(message: string)         // the request throws

  datatype Generation = Generation(quiz: Quiz, request: Option<PlacementRequest>)

  const CompanyMissing := "Please enter a company name"
  const RoleMissing := "Please select or enter a role"
  const GenerateFailed := "Failed to generate placement content"

  /** The role asked for: the typed role when "custom" is chosen. */
  function FinalRole(q: Quiz): string {
    if q.role == "custom" then q.customRole else q.role
  }

  /** The state once a request starts: the previous questions, answers and results cleared. */
  function Started(q: Quiz): (r: Quiz)
    ensures r.questions == [] && r.concepts == "" && r.answers == map[] && !r.showResults
    ensures r.index == 0 && r.error.None? && r.score == q.score
    ensures r.companyName == q.companyName && r.role == q.role
    ensures r.customRole == if q.role == "custom" then q.customRole else ""
  {
    q.(questions := [], concepts := "", answers := map[], showResults := false, index := 0, error := None,
       customRole := if q.role != "custom" then "" else q.customRole)
  }

  /** `generatePlacementContent`: a blank company or role shows an error and sends nothing;
      otherwise the quiz is cleared, the trimmed names are sent, and the answer fills the
      questions or the error. */
  function GeneratePlacementContent(q: Quiz, token: Option<string>, reply: GenerateReply): (g: Generation)
    ensures IsBlank(q.companyName) ==> g == Generation(q.(error := Some(CompanyMissing)), None)
    ensures !IsBlank(q.companyName) && IsBlank(FinalRole(q)) ==> g == Generation(q.(error := Some(RoleMissing)), None)
    ensures g.request.Some? <==> !IsBlank(q.companyName) && !IsBlank(FinalRole(q))
    ensures g.request.Some? ==>
      g.request.value == PlacementRequest(Trim(q.companyName), Trim(FinalRole(q)), if Present(token) then token else None)
    ensures g.request.Some? ==> g.quiz.answers == map[] && g.quiz.index == 0 && !g.quiz.showResults
    ensures g.request.Some? && reply.Generated? ==> g.quiz.questions == reply.questions && g.quiz.error.None?
    ensures g.request.Some? && !reply.Generated? ==> g.quiz.questions == [] && g.quiz.error.Some?
  {
    if IsBlank(q.companyName) then Generation(q.(error := Some(CompanyMissing)), None)
    else if IsBlank(FinalRole(q)) then Generation(q.(error := Some(RoleMissing)), None)
    else
      var request := PlacementRequest(Trim(q.companyName), Trim(FinalRole(q)), if Present(token) then token else None);
      var started := Started(q);
      var finished := match reply
        case Generated(questions, concepts) => started.(questions := questions, concepts := concepts)
        case GenerateRejected(error) =>
          started.(error := Some(if error.Some? && error.value != "" then error.value else GenerateFailed))
        case GenerateThrows(message) => started.(error := Some(message));
      Generation(finished, Some(request))
  }

  /** `handleAnswerSelect(i, option)`. */
  function SelectAnswer(q: Quiz, i: int, option: string): (r: Quiz)
    ensures i in r.answers && r.answers[i] == option
    ensures forall j :: j != i ==> (j in r.answers <==> j in q.answers)
    ensures forall j :: j != i && j in q.answers ==> r.answers[j] == q.answers[j]
    ensures r.questions == q.questions && r.index == q.index && r.score == q.score
  {
    q.(answers := q.answers[i := option])
  }

  /** `selectedAnswers[i] === question.correctAnswer`: an unanswered question matches only a
      question without a correct answer, as `undefined === undefined`. */
  predicate Correct(questions: seq<Question>, answers: map<int, string>, i: nat)
    requires i < |questions|
  {
    (if i in answers then Some(answers[i]) else None) == questions[i].correctAnswer
  }

  /** The number of correctly answered questions. */
  function CountCorrect(questions: seq<Question>, answers: map<int, string>): (n: nat)
    ensures n <= |questions|
  {
    if questions == [] then 0
    else
      var init := questions[..|questions| - 1];
      assert forall i :: 0 <= i < |init| ==> init[i] == questions[i];
      CountCorrect(init, answers) + (if Correct(questions, answers, |questions| - 1) then 1 else 0)
  }

  lemma CountCorrectPrefix(questions: seq<Question>, answers: map<int, string>, k: nat)
    requires k < |questions|
    ensures CountCorrect(questions[..k + 1], answers) ==
      CountCorrect(questions[..k], answers) + (if Correct(questions, answers, k) then 1 else 0)
  {
    assert questions[..k + 1][..k] == questions[..k];
  }

  /** `calculateScore`: counts the correct answers and shows the results. */
  method CalculateScore(q: Quiz) returns (r: Quiz)
    ensures r == q.(score := CountCorrect(q.questions, q.answers), showResults := true)
    ensures r.score <= |q.questions|
  {
    var correctAnswers := 0;
    for index := 0 to |q.questions|
      invariant correctAnswers == CountCorrect(q.questions[..index], q.answers)
    {
      CountCorrectPrefix(q.questions, q.answers, index);
      if (if index in q.answers then Some(q.answers[index]) else None) == q.questions[index].correctAnswer {
        correctAnswers := correctAnswers + 1;
      }
    }
    assert q.questions[..|q.questions|] == q.questions;
    r := q.(score := correctAnswers, showResults := true);
  }

  /** Answering every question with its correct answer scores every question. */
  lemma {:induction false} AllCorrectScoresAll(questions: seq<Question>, answers: map<int, string>)
    requires forall i :: 0 <= i < |questions| ==> Correct(questions, answers, i)
    ensures CountCorrect(questions, answers) == |questions|
  {
    if questions != [] {
      var init := questions[..|questions| - 1];
      assert forall i :: 0 <= i < |init| ==> Correct(init, answers, i) by {
        forall i | 0 <= i < |init| ensures Correct(init, answers, i) {
          assert Correct(questions, answers, i);
        }
      }
      AllCorrectScoresAll(init, answers);
    }
  }

  /** Changing the answer to one question moves the count only for that question. */
  lemma {:induction false} AnswerChangesOneQuestion(questions: seq<Question>, answers: map<int, string>, i: nat, option: string)
    requires i < |questions|
    ensures var after := answers[i := option];
      CountCorrect(questions, after) + (if Correct(questions, answers, i) then 1 else 0) ==
      CountCorrect(questions, answers) + (if Correct(questions, after, i) then 1 else 0)
  {
    var after := answers[i := option];
    if |questions| - 1 != i {
      var init := questions[..|questions| - 1];
      assert init[i] == questions[i];
      AnswerChangesOneQuestion(init, answers, i, option);
      assert Correct(init, answers, i) == Correct(questions, answers, i);
      assert Correct(init, after, i) == Correct(questions, after, i);
    } else {
      var init := questions[..|questions| - 1];
      SameCountAway(init, answers, i, option);
    }
  }

  /** An answer to a question past the end does not change the count. */
  lemma {:induction false} SameCountAway(questions: seq<Question>, answers: map<int, string>, i: nat, option: string)
    requires |questions| <= i
    ensures CountCorrect(questions, answers[i := option]) == CountCorrect(questions, answers)
  {
    if questions != [] {
      var init := questions[..|questions| - 1];
      SameCountAway(init, answers, i, option);
    }
  }

  /** `resetQuiz`. */
  function ResetQuiz(q: Quiz): (r: Quiz)
    ensures r.answers == map[] && !r.showResults && r.index == 0 && r.score == 0
    ensures r.questions == q.questions && r.concepts == q.concepts
  {
    q.(answers := map[], showResults := false, index := 0, score := 0)
  }

  /** After a reset only questions without a correct answer would count. */
  lemma {:induction false} ResetScoresNothing(questions: seq<Question>)
    requires forall i :: 0 <= i < |questions| ==> questions[i].correctAnswer.Some?
    ensures CountCorrect(questions, map[]) == 0
  {
    if questions != [] {
      var init := questions[..|questions| - 1];
      assert forall i :: 0 <= i < |init| ==> init[i] == questions[i];
      ResetScoresNothing(init);
    }
  }

  /** `nextQuestion`. */
  function NextQuestion(q: Quiz): (r: Quiz)
    ensures r == q.(index := r.index)
    ensures r.index == if q.index < |q.questions| - 1 then q.index + 1 else q.index
  {
    if q.index < |q.questions| - 1 then q.(index := q.index + 1) else q
  }

  /** `prevQuestion`. */
  function PrevQuestion(q: Quiz): (r: Quiz)
    ensures r == q.(index := r.index)
    ensures r.index == if q.index > 0 then q.index - 1 else q.index
  {
    if q.index > 0 then q.(index := q.index - 1) else q
  }

  /** The index points at a question, or is 0 when there are none. */
  predicate InRange(q: Quiz) {
    0 <= q.index < |q.questions| || (q.questions == [] && q.index == 0)
  }

  /** Moving keeps the index in range, and going back undoes going forward. */
  lemma NavigationStaysInRange(q: Quiz)
    requires InRange(q)
    ensures InRange(NextQuestion(q)) && InRange(PrevQuestion(q))
    ensures NextQuestion(q).index != q.index ==> PrevQuestion(NextQuestion(q)) == q
    ensures PrevQuestion(q).index != q.index ==> NextQuestion(PrevQuestion(q)) == q
  {
  }

  const Green := "text-green-600"
  const Yellow := "text-yellow-600"
  const Red := "text-red-600"

  /** `getScoreColor` with `(score / total) * 100` in exact arithmetic; with no questions the
      ratio is Infinity (green) for a positive score and NaN (red) for 0. */
  function ScoreColor(score: nat, total: nat): (color: string)
    ensures color in {Green, Yellow, Red}
    ensures total > 0 ==> (color == Green <==> 100 * score >= 80 * total)
    ensures total > 0 ==> (color == Red <==> 100 * score < 60 * total)
  {
    if total == 0 then (if score > 0 then Green else Red)
    else if 100 * score >= 80 * total then Green
    else if 100 * score >= 60 * total then Yellow
    else Red
  }

  function ColorRank(color: string): nat {
    if color == Green then 2 else if color == Yellow then 1 else 0
  }

  /** A higher score never gets a worse colour. */
  lemma ScoreColorMonotone(a: nat, b: nat, total: nat)
    requires a <= b
    ensures ColorRank(ScoreColor(a, total)) <= ColorRank(ScoreColor(b, total))
  {
  }

  /** A computed score over no questions is 0, so it is shown red. */
  lemma NoQuestionsIsRed(q: Quiz)
    requires q.questions == []
    ensures ScoreColor(CountCorrect(q.questions, q.answers), |q.questions|) == Red
  {
  }
}
