/**
 * The quiz page (`QuizComponent`): a question cursor that stays inside the quiz, an answer
 * dictionary keyed by question id, the all-answered guard of a submission and the payload it
 * sends, and a restart that empties everything and asks for a new quiz.
 */
module Quiz {
  import opened Wrappers
  import opened JsValue
  import opened Token
  import opened Api

  const AnswerAllMessage := "Please answer all questions before submitting."
  const GenerateErrorDefault := "Failed to generate quiz. Please try again."
  const SubmitErrorDefault := "Failed to submit quiz. Please try again."

  /** A question: its id and its options (`None` when the server sent none). */
  datatype Question = Question(questionId: nat, options: Option<seq<Value>>)

  datatype QuizData = QuizData(quizId: Value, questions: seq<Question>)

  /** The body of `Quiz/generate`. */
  datatype GenerationRequest = GenerationRequest(learnerId: Number, quizType: string, difficulty: string,
                                                 numberOfQuestions: nat)

  datatype Answer = Answer(questionId: nat, selectedAnswer: string)

  /** The body of `Quiz/submit`. */
  datatype Submission = Submission(quizId: Value, learnerId: Number, answers: seq<Answer>)

  /** `Number(tokenUserId || routeLearnerId || 2)`. */
  function LearnerIdOf(tokenUserId: Value, routeLearnerId: Value): (r: Number)
    ensures Truthy(tokenUserId) ==> r == ToNumber(tokenUserId)
    ensures !Truthy(tokenUserId) && Truthy(routeLearnerId) ==> r == ToNumber(routeLearnerId)
    ensures !Truthy(tokenUserId) && !Truthy(routeLearnerId) ==> r == Finite(2)
  {
    OrAllThree(tokenUserId, routeLearnerId, Num(2));
    ToNumber(OrAll([tokenUserId, routeLearnerId, Num(2)]))
  }

  /** The request `generateQuiz` sends: ten medium software-engineering questions. */
  function QuizRequest(learnerId: Number): GenerationRequest {
    GenerationRequest(learnerId, "Software engineer", "medium", 10)
  }

  /** `m` is the least of the ids in `s`. */
  predicate IsLeast(m: nat, s: set<nat>) {
    m in s && forall x :: x in s ==> m <= x
  }

  /** A non-empty set of ids has a least element. */
  lemma {:induction false} LeastExists(s: set<nat>)
    requires s != {}
    ensures exists m :: IsLeast(m, s)
    decreases |s|
  {
    var y :| y in s;
    var rest := s - {y};
    if rest != {} {
      assert |rest| < |s|;
      LeastExists(rest);
      var m :| IsLeast(m, rest);
      var least := if y < m then y else m;
      forall x | x in s
        ensures least <= x
      {
        if x != y {
          assert x in rest;
        }
      }
      assert IsLeast(least, s);
    } else {
      forall x | x in s
        ensures y <= x
      {
        assert x !in rest;
      }
      assert IsLeast(y, s);
    }
  }

  function Least(s: set<nat>): (m: nat)
    requires s != {}
    ensures IsLeast(m, s)
  {
    LeastExists(s);
    var m :| IsLeast(m, s);
    m
  }

  /**
   * `Object.keys` of a dictionary whose keys are array indices: every key once, in
   * ascending numeric order.
   */
  function SortedKeys(s: set<nat>): (r: seq<nat>)
    ensures |r| == |s|
    ensures forall x :: x in r <==> x in s
    ensures forall i, j :: 0 <= i < j < |r| ==> r[i] < r[j]
    decreases |s|
  {
    if s == {} then []
    else
      var m := Least(s);
      [m] + SortedKeys(s - {m})
  }

  /** One answer per key of `keys`, in the order of `keys`. */
  function AnswersFor(keys: seq<nat>, answers: map<nat, string>): (r: seq<Answer>)
    requires forall k :: k in keys ==> k in answers
    ensures |r| == |keys|
    ensures forall i :: 0 <= i < |r| ==> r[i] == Answer(keys[i], answers[keys[i]])
  {
    seq(|keys|, i requires 0 <= i < |keys| => Answer(keys[i], answers[keys[i]]))
  }

  /** Every answered question has its entry when the keys list every answered question. */
  lemma AnswersForCovers(keys: seq<nat>, answers: map<nat, string>)
    requires forall k :: k in keys <==> k in answers
    ensures forall q :: q in answers ==>
              exists i :: 0 <= i < |AnswersFor(keys, answers)| && AnswersFor(keys, answers)[i].questionId == q
  {
    var r := AnswersFor(keys, answers);
    forall q | q in answers
      ensures exists i :: 0 <= i < |r| && r[i].questionId == q
    {
      var i :| 0 <= i < |keys| && keys[i] == q;
      assert r[i].questionId == q;
    }
  }

  /** The `answers` list of a submission: one entry per answered question, by ascending id. */
  function AnswerList(answers: map<nat, string>): (r: seq<Answer>)
    ensures |r| == |answers|
    ensures forall i :: 0 <= i < |r| ==> r[i].questionId in answers && r[i].selectedAnswer == answers[r[i].questionId]
    ensures forall q :: q in answers ==> exists i :: 0 <= i < |r| && r[i].questionId == q
    ensures forall i, j :: 0 <= i < j < |r| ==> r[i].questionId < r[j].questionId
  {
    var keys := SortedKeys(answers.Keys);
    AnswersForCovers(keys, answers);
    AnswersFor(keys, answers)
  }

  /** `opt.text || opt` for every option. */
  function OptionTexts(options: seq<Value>): (r: seq<Value>)
    ensures |r| == |options|
    ensures forall i :: 0 <= i < |r| ==> r[i] == Or(Get(options[i], "text"), options[i])
  {
    seq(|options|, i requires 0 <= i < |options| => Or(Get(options[i], "text"), options[i]))
  }

  /** `getCurrentQuestionOptions` for a question that may be missing. */
  function OptionsOf(question: Option<Question>): (r: seq<Value>)
    ensures question.None? || question.value.options.None? ==> r == []
    ensures question.Some? && question.value.options.Some? ==>
              var opts := question.value.options.value;
              (|opts| > 0 && opts[0].Str? ==> r == opts)
              && (!(|opts| > 0 && opts[0].Str?) ==> r == OptionTexts(opts))
  {
    if question.None? || question.value.options.None? then []
    else
      var opts := question.value.options.value;
      if |opts| > 0 && opts[0].Str? then opts else OptionTexts(opts)
  }

  /** Objects with a truthy `text` show that text; string options show themselves. */
  lemma OptionTextChoice(options: seq<Value>, i: nat)
    requires i < |options|
    ensures Truthy(Get(options[i], "text")) ==> OptionTexts(options)[i] == Get(options[i], "text")
    ensures options[i].Str? ==> OptionTexts(options)[i] == options[i]
  {
  }

  /** Selecting an answer counts a question once however often it is answered. */
  lemma AnsweredCountAfterSelect(answers: map<nat, string>, q: nat, answer: string)
    ensures q in answers ==> |answers[q := answer]| == |answers|
    ensures q !in answers ==> |answers[q := answer]| == |answers| + 1
  {
    if q in answers {
      assert answers[q := answer].Keys == answers.Keys;
    } else {
      assert answers[q := answer].Keys == answers.Keys + {q};
    }
  }

  class QuizComponent {
    var quiz: Option<QuizData>
    var isLoading: bool
    var isSubmitting: bool
    var errorMessage: string
    var currentQuestionIndex: int
    var answers: map<nat, string>
    var showResults: bool
    var quizResult: Value
    var learnerId: Number

    const tokens: TokenService

    constructor(tokens: TokenService)
      ensures this.tokens == tokens && quiz.None? && currentQuestionIndex == 0 && answers == map[]
      ensures !isLoading && !isSubmitting && errorMessage == "" && !showResults && quizResult == Null
      ensures learnerId == Finite(0)
    {
      this.tokens := tokens;
      quiz := None;
      isLoading, isSubmitting, errorMessage := false, false, "";
      currentQuestionIndex := 0;
      answers := map[];
      showResults, quizResult := false, Null;
      learnerId := Finite(0);
    }

    /** `quiz?.questions.length || 0`. */
    function QuestionCount(): (r: nat)
      reads this
      ensures quiz.None? ==> r == 0
      ensures quiz.Some? ==> r == |quiz.value.questions|
    {
      if quiz.None? then 0 else |quiz.value.questions|
    }

    /** The cursor is inside `[0, max(n - 1, 0)]`. */
    predicate InRange()
      reads this
    {
      0 <= currentQuestionIndex && (currentQuestionIndex == 0 || currentQuestionIndex < QuestionCount())
    }

    /** `generateQuiz`: the learner id is chosen and the request is sent. */
    method GenerateQuiz(routeLearnerId: Value) returns (request: GenerationRequest)
      modifies this
      ensures isLoading && errorMessage == ""
      ensures learnerId == LearnerIdOf(tokens.GetUserId(), routeLearnerId)
      ensures request == QuizRequest(learnerId)
      ensures quiz == old(quiz) && currentQuestionIndex == old(currentQuestionIndex) && answers == old(answers)
      ensures isSubmitting == old(isSubmitting) && showResults == old(showResults) && quizResult == old(quizResult)
    {
      var id := LearnerIdOf(tokens.GetUserId(), routeLearnerId);
      isLoading, errorMessage, learnerId := true, "", id;
      request := QuizRequest(id);
    }

    method OnQuizGenerated(data: QuizData)
      modifies this
      ensures quiz == Some(data) && !isLoading
      ensures errorMessage == old(errorMessage) && currentQuestionIndex == old(currentQuestionIndex)
      ensures answers == old(answers) && learnerId == old(learnerId) && isSubmitting == old(isSubmitting)
      ensures showResults == old(showResults) && quizResult == old(quizResult)
    {
      quiz := Some(data);
      isLoading := false;
    }

    method OnQuizFailed(fault: Fault)
      modifies this
      ensures !isLoading && errorMessage == (if fault.message != "" then fault.message else GenerateErrorDefault)
      ensures quiz == old(quiz) && currentQuestionIndex == old(currentQuestionIndex) && answers == old(answers)
      ensures learnerId == old(learnerId) && isSubmitting == old(isSubmitting)
      ensures showResults == old(showResults) && quizResult == old(quizResult)
    {
      isLoading := false;
      errorMessage := if fault.message != "" then fault.message else GenerateErrorDefault;
    }

    /** `selectAnswer`: that question's answer is set or overwritten, no other. */
    method SelectAnswer(questionId: nat, answer: string)
      modifies this
      ensures answers == old(answers)[questionId := answer]
      ensures |answers| == |old(answers)| + (if questionId in old(answers) then 0 else 1)
      ensures quiz == old(quiz) && currentQuestionIndex == old(currentQuestionIndex)
      ensures isLoading == old(isLoading) && isSubmitting == old(isSubmitting) && errorMessage == old(errorMessage)
      ensures showResults == old(showResults) && quizResult == old(quizResult) && learnerId == old(learnerId)
    {
      AnsweredCountAfterSelect(answers, questionId, answer);
      answers := answers[questionId := answer];
    }

    function IsAnswerSelected(questionId: nat, answer: string): (r: bool)
      reads this
      ensures r <==> questionId in answers && answers[questionId] == answer
    {
      questionId in answers && answers[questionId] == answer
    }

    /** `answers[questionId] || ''`. */
    function SelectedAnswer(questionId: nat): (r: string)
      reads this
      ensures questionId in answers ==> r == answers[questionId]
      ensures questionId !in answers ==> r == ""
    {
      if questionId in answers then answers[questionId] else ""
    }

    /** `getCurrentQuestion`: the question under the cursor, if the cursor points at one. */
    function CurrentQuestion(): (r: Option<Question>)
      reads this
      ensures r.Some? <==> quiz.Some? && 0 <= currentQuestionIndex < |quiz.value.questions|
      ensures r.Some? ==> r.value == quiz.value.questions[currentQuestionIndex]
    {
      if quiz.None? || !(0 <= currentQuestionIndex < |quiz.value.questions|) then None
      else Some(quiz.value.questions[currentQuestionIndex])
    }

    function CurrentQuestionOptions(): (r: seq<Value>)
      reads this
      ensures CurrentQuestion().None? ==> r == []
      ensures r == OptionsOf(CurrentQuestion())
    {
      OptionsOf(CurrentQuestion())
    }

    /** `getAnsweredCount`: one per answered question, which is one per submitted answer. */
    function AnsweredCount(): (r: nat)
      reads this
      ensures r == |answers.Keys|
      ensures r == |AnswerList(answers)|
    {
      |answers|
    }

    /** `isAllAnswered`: as many distinct answered questions as there are questions. */
    function IsAllAnswered(): (r: bool)
      reads this
      ensures r <==> |answers.Keys| == QuestionCount()
    {
      AnsweredCount() == QuestionCount()
    }

    /** `nextQuestion`: one step forward, never past the last question. */
    method NextQuestion()
      modifies this
      ensures old(currentQuestionIndex) < old(QuestionCount()) - 1 ==> currentQuestionIndex == old(currentQuestionIndex) + 1
      ensures old(currentQuestionIndex) >= old(QuestionCount()) - 1 ==> currentQuestionIndex == old(currentQuestionIndex)
      ensures old(InRange()) ==> InRange()
      ensures quiz == old(quiz) && answers == old(answers) && isLoading == old(isLoading)
      ensures isSubmitting == old(isSubmitting) && errorMessage == old(errorMessage)
      ensures showResults == old(showResults) && quizResult == old(quizResult) && learnerId == old(learnerId)
    {
      if currentQuestionIndex < QuestionCount() - 1 {
        currentQuestionIndex := currentQuestionIndex + 1;
      }
    }

    /** `previousQuestion`: one step back, never before the first question. */
    method PreviousQuestion()
      modifies this
      ensures old(currentQuestionIndex) > 0 ==> currentQuestionIndex == old(currentQuestionIndex) - 1
      ensures old(currentQuestionIndex) <= 0 ==> currentQuestionIndex == old(currentQuestionIndex)
      ensures old(InRange()) ==> InRange()
      ensures quiz == old(quiz) && answers == old(answers) && isLoading == old(isLoading)
      ensures isSubmitting == old(isSubmitting) && errorMessage == old(errorMessage)
      ensures showResults == old(showResults) && quizResult == old(quizResult) && learnerId == old(learnerId)
    {
      if currentQuestionIndex > 0 {
        currentQuestionIndex := currentQuestionIndex - 1;
      }
    }

    /** `goToQuestion`: a jump to an existing question; any other index is ignored. */
    method GoToQuestion(index: int)
      modifies this
      ensures 0 <= index < old(QuestionCount()) ==> currentQuestionIndex == index && InRange()
      ensures !(0 <= index < old(QuestionCount())) ==> currentQuestionIndex == old(currentQuestionIndex)
      ensures old(InRange()) ==> InRange()
      ensures quiz == old(quiz) && answers == old(answers) && isLoading == old(isLoading)
      ensures isSubmitting == old(isSubmitting) && errorMessage == old(errorMessage)
      ensures showResults == old(showResults) && quizResult == old(quizResult) && learnerId == old(learnerId)
    {
      if 0 <= index < QuestionCount() {
        currentQuestionIndex := index;
      }
    }

    /**
     * `submitQuiz`: without a quiz, or with a question unanswered, only the message is set;
     * otherwise the answers are sent.
     */
    method SubmitQuiz() returns (request: Option<Submission>)
      modifies this
      ensures request.None? <==> old(quiz).None? || !old(IsAllAnswered())
      ensures request.None? ==> errorMessage == AnswerAllMessage && isSubmitting == old(isSubmitting)
      ensures request.Some? ==>
                quiz.Some? && request.value == Submission(quiz.value.quizId, learnerId, AnswerList(answers))
                && isSubmitting && errorMessage == ""
      ensures quiz == old(quiz) && answers == old(answers) && currentQuestionIndex == old(currentQuestionIndex)
      ensures isLoading == old(isLoading) && showResults == old(showResults)
      ensures quizResult == old(quizResult) && learnerId == old(learnerId)
    {
      if quiz.None? || !IsAllAnswered() {
        errorMessage := AnswerAllMessage;
        return None;
      }
      var submission := Submission(quiz.value.quizId, learnerId, AnswerList(answers));
      isSubmitting, errorMessage := true, "";
      request := Some(submission);
    }

    method OnSubmitted(result: Value)
      modifies this
      ensures quizResult == result && showResults && !isSubmitting
      ensures quiz == old(quiz) && answers == old(answers) && currentQuestionIndex == old(currentQuestionIndex)
      ensures isLoading == old(isLoading) && errorMessage == old(errorMessage) && learnerId == old(learnerId)
    {
      quizResult := result;
      showResults := true;
      isSubmitting := false;
    }

    method OnSubmitFailed(fault: Fault)
      modifies this
      ensures !isSubmitting && errorMessage == (if fault.message != "" then fault.message else SubmitErrorDefault)
      ensures quiz == old(quiz) && answers == old(answers) && currentQuestionIndex == old(currentQuestionIndex)
      ensures isLoading == old(isLoading) && showResults == old(showResults)
      ensures quizResult == old(quizResult) && learnerId == old(learnerId)
    {
      isSubmitting := false;
      errorMessage := if fault.message != "" then fault.message else SubmitErrorDefault;
    }

    /** `restartQuiz`: back to the first question with no answers and no result, then a new quiz. */
    method RestartQuiz(routeLearnerId: Value) returns (request: GenerationRequest)
      modifies this
      ensures currentQuestionIndex == 0 && answers == map[] && !showResults && quizResult == Null
      ensures InRange()
      ensures isLoading && errorMessage == ""
      ensures learnerId == LearnerIdOf(tokens.GetUserId(), routeLearnerId)
      ensures request == QuizRequest(learnerId)
      ensures quiz == old(quiz) && isSubmitting == old(isSubmitting)
    {
      currentQuestionIndex := 0;
      answers := map[];
      showResults := false;
      quizResult := Null;
      request := GenerateQuiz(routeLearnerId);
    }
  }
}
