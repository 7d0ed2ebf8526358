/** The quiz page: three generated questions answered by radio buttons,
    checked all at once, with each card coloured by the verdict. The question
    generator is a server action; its request is returned and its questions
    are passed in. */
module QuizPage {
  import opened Common
  import opened LanguageContext

  datatype Question = Question(question: string, options: seq<string>, correctAnswer: string, explanation: string)

  /** One entry of `selectedAnswers`: `null` before an answer, a chosen option
      after one, and a hole where an assignment past the end of the array
      skipped positions (a hole reads as `undefined`). */
  datatype Slot = Unanswered | Hole | Answered(answer: string)

  /** `selectedAnswers[i]`, which is `undefined` past the end. */
  function SlotAt(answers: seq<Slot>, i: nat): Slot {
    if i < |answers| then answers[i] else Hole
  }

  /** `handleAnswerChange`: a copy of the answers with position i set to the
      answer; every other position reads as before, and an index past the
      end lengthens the array. */
  function SetAnswer(answers: seq<Slot>, i: nat, answer: string): (r: seq<Slot>)
    ensures |r| == if i < |answers| then |answers| else i + 1
    ensures r[i] == Answered(answer)
    ensures forall j | 0 <= j < |r| && j != i :: r[j] == SlotAt(answers, j)
  {
    if i < |answers| then answers[i := Answered(answer)]
    else answers + seq(i - |answers|, _ => Hole) + [Answered(answer)]
  }

  /** `Array(3).fill(null)`. */
  const NewAnswers: seq<Slot> := [Unanswered, Unanswered, Unanswered]

  /** `allQuestionsAnswered`: `every` finds no `null` (it skips holes) and
      there are exactly three entries. */
  predicate AllAnswered(answers: seq<Slot>)
    ensures AllAnswered(answers) <==> |answers| == 3 && Unanswered !in answers
  {
    (forall i | 0 <= i < |answers| :: answers[i] != Unanswered) && |answers| == 3
  }

  /** A new quiz is not answered yet; answering its three questions, in any
      order, completes it. */
  lemma AnsweringAllThree(a: string, b: string, c: string, order: seq<nat>)
    requires order == [0, 1, 2] || order == [0, 2, 1] || order == [1, 0, 2] ||
             order == [1, 2, 0] || order == [2, 0, 1] || order == [2, 1, 0]
    ensures !AllAnswered(NewAnswers)
    ensures AllAnswered(SetAnswer(SetAnswer(SetAnswer(NewAnswers, order[0], a), order[1], b), order[2], c))
  {
    assert NewAnswers[0] == Unanswered;
    var first := SetAnswer(NewAnswers, order[0], a);
    var second := SetAnswer(first, order[1], b);
    var third := SetAnswer(second, order[2], c);
    assert forall i | 0 <= i < 3 :: third[i] != Unanswered;
  }

  /** Answering leaves the answers complete once they are. */
  lemma AnsweringKeepsComplete(answers: seq<Slot>, i: nat, answer: string)
    requires AllAnswered(answers) && i < 3
    ensures AllAnswered(SetAnswer(answers, i, answer))
  {
  }

  /** `isCorrect` of a question card. */
  predicate IsCorrect(isSubmitted: bool, selected: Slot, q: Question) {
    isSubmitted && selected == Answered(q.correctAnswer)
  }

  /** `handleCheckAnswers`' results: one verdict per question. */
  function Grade(questions: seq<Question>, answers: seq<Slot>): (results: seq<bool>)
    ensures |results| == |questions|
  {
    seq(|questions|, i requires 0 <= i < |questions| => SlotAt(answers, i) == Answered(questions[i].correctAnswer))
  }

  /** Each checked result is the verdict its card shows once submitted: the
      recorded answer is the question's correct answer. */
  lemma GradeMatchesCards(questions: seq<Question>, answers: seq<Slot>)
    ensures forall i | 0 <= i < |questions| ::
      Grade(questions, answers)[i] == IsCorrect(true, SlotAt(answers, i), questions[i])
    ensures forall i | 0 <= i < |questions| ::
      Grade(questions, answers)[i] <==> i < |answers| && answers[i] == Answered(questions[i].correctAnswer)
  {
  }

  /** A new quiz's answers grade every question as wrong. */
  lemma NewAnswersGradeWrong(questions: seq<Question>)
    ensures forall i | 0 <= i < |questions| :: !Grade(questions, NewAnswers)[i]
  {
    forall i | 0 <= i < |questions|
      ensures !Grade(questions, NewAnswers)[i]
    {
      assert SlotAt(NewAnswers, i) != Answered(questions[i].correctAnswer);
    }
  }

  datatype Colour = Green | Red | Plain

  /** The colour of one option of a card. */
  function OptionColour(isSubmitted: bool, option: string, q: Question, selected: Slot): (c: Colour)
    ensures c == Green <==> isSubmitted && option == q.correctAnswer
    ensures c == Red <==> isSubmitted && option != q.correctAnswer && selected == Answered(option)
  {
    if !isSubmitted then Plain
    else if option == q.correctAnswer then Green
    else if selected == Answered(option) then Red
    else Plain
  }

  /** Before submission nothing is coloured. After it, the options equal to
      the correct answer are green, one option is red exactly when the card is
      wrong with a listed option selected, and nothing is red on a correct
      card. */
  lemma ColoursAgreeWithVerdict(isSubmitted: bool, q: Question, selected: Slot)
    ensures !isSubmitted ==> forall o :: OptionColour(isSubmitted, o, q, selected) == Plain
    ensures isSubmitted ==> forall o :: OptionColour(isSubmitted, o, q, selected) == Green <==> o == q.correctAnswer
    ensures isSubmitted ==>
      ((exists i | 0 <= i < |q.options| :: OptionColour(isSubmitted, q.options[i], q, selected) == Red) <==>
       (!IsCorrect(isSubmitted, selected, q) && selected.Answered? && selected.answer in q.options))
  {
    if isSubmitted && !IsCorrect(isSubmitted, selected, q) && selected.Answered? && selected.answer in q.options {
      var i :| 0 <= i < |q.options| && q.options[i] == selected.answer;
      assert OptionColour(isSubmitted, q.options[i], q, selected) == Red;
    }
  }

  /** The language named in the question request. */
  function RequestLanguage(l: Language): (name: string)
    ensures l == Es ==> name == "Spanish"
    ensures l == En ==> name == "English"
  {
    if l == Es then "Spanish" else "English"
  }

  /** The form data sent to the question generator. */
  datatype QuizRequest = QuizRequest(category: string, language: string)

  /** The page's state. */
  class QuizSession {
    var selectedAnswers: seq<Slot>
    var isSubmitted: bool
    var category: string
    var results: seq<bool>
    var quizStarted: bool

    constructor ()
      ensures selectedAnswers == [] && !isSubmitted && category == "Asteroids"
      ensures results == [] && !quizStarted
    {
      selectedAnswers := [];
      isSubmitted := false;
      category := "Asteroids";
      results := [];
      quizStarted := false;
    }

    method AnswerChange(questionIndex: nat, answer: string)
      modifies this
      ensures selectedAnswers == SetAnswer(old(selectedAnswers), questionIndex, answer)
      ensures unchanged(this`isSubmitted, this`category, this`results, this`quizStarted)
    {
      selectedAnswers := SetAnswer(selectedAnswers, questionIndex, answer);
    }

    /** `handleCheckAnswers`: without questions nothing happens; otherwise
        every question is graded and the quiz is marked submitted. */
    method CheckAnswers(questions: Option<seq<Question>>)
      modifies this
      ensures questions.None? ==>
        unchanged(this`selectedAnswers, this`isSubmitted, this`category, this`results, this`quizStarted)
      ensures questions.Some? ==>
        results == Grade(questions.value, selectedAnswers) && isSubmitted &&
        unchanged(this`selectedAnswers, this`category, this`quizStarted)
    {
      if questions.Some? {
        results := Grade(questions.value, selectedAnswers);
        isSubmitted := true;
      }
    }

    /** `startNewQuiz`: clear the answers and results, and ask for new
        questions in the category and the interface language. */
    method StartNewQuiz(language: Language) returns (request: QuizRequest)
      modifies this
      ensures selectedAnswers == NewAnswers && !isSubmitted && results == []
      ensures unchanged(this`category, this`quizStarted)
      ensures request == QuizRequest(category, RequestLanguage(language))
    {
      selectedAnswers := NewAnswers;
      isSubmitted := false;
      results := [];
      request := QuizRequest(category, RequestLanguage(language));
    }

    /** `handleStartQuiz`. */
    method StartQuiz(language: Language) returns (request: QuizRequest)
      modifies this
      ensures quizStarted && selectedAnswers == NewAnswers && !isSubmitted && results == []
      ensures unchanged(this`category)
      ensures request == QuizRequest(category, RequestLanguage(language))
    {
      quizStarted := true;
      request := StartNewQuiz(language);
    }

    method SetCategory(c: string)
      modifies this
      ensures category == c
      ensures unchanged(this`selectedAnswers, this`isSubmitted, this`results, this`quizStarted)
    {
      category := c;
    }
  }
}
