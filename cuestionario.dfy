/** The small quiz widget: a start button loads two fixed questions, the
    player picks an option and moves on, and after the last question the
    widget shows its result screen. */
module Cuestionario {
  import opened Common

  datatype Question = Question(text: string, options: seq<string>, correctAnswer: int)

  /** The two questions the start button loads. */
  const FixedQuestions: seq<Question> := [
    Question("What is the largest planet in our solar system?", ["Earth", "Jupiter", "Mars", "Saturn"], 1),
    Question("Which planet is known as the Red Planet?", ["Venus", "Mars", "Mercury", "Uranus"], 1)
  ]

  /** Every fixed question's correct answer is one of its options: Jupiter
      and Mars. */
  lemma FixedAnswersAreOptions()
    ensures |FixedQuestions| == 2
    ensures forall q | q in FixedQuestions :: 0 <= q.correctAnswer < |q.options|
    ensures FixedQuestions[0].options[FixedQuestions[0].correctAnswer] == "Jupiter"
    ensures FixedQuestions[1].options[FixedQuestions[1].correctAnswer] == "Mars"
  {
  }

  /** The label of the button under a question. */
  datatype NextLabel = NextQuestion | Submit

  /** What the widget renders. */
  datatype Screen = StartButton | ResultScreen | QuestionScreen(index: int, button: NextLabel)

  /** The option buttons' look: the selected one is filled, the others
      outlined. */
  datatype Variant = Filled | Outlined

  function OptionVariant(selectedAnswer: Option<int>, index: int): (v: Variant)
    ensures v == Filled <==> selectedAnswer == Some(index)
  {
    if selectedAnswer == Some(index) then Filled else Outlined
  }

  class QuizWidget {
    var questions: seq<Question>
    var currentQuestion: int
    var selectedAnswer: Option<int>
    var showResult: bool

    /** The index stays a position of the loaded questions. */
    predicate Valid()
      reads this
    {
      0 <= currentQuestion && (questions != [] ==> currentQuestion < |questions|)
    }

    constructor ()
      ensures questions == [] && currentQuestion == 0 && selectedAnswer == None && !showResult
      ensures Valid()
    {
      questions := [];
      currentQuestion := 0;
      selectedAnswer := None;
      showResult := false;
    }

    /** `handleStartQuiz`: load the questions and start from the first one. */
    method Start()
      modifies this
      ensures questions == FixedQuestions && currentQuestion == 0
      ensures selectedAnswer == None && !showResult
      ensures Valid()
    {
      questions := FixedQuestions;
      currentQuestion := 0;
      selectedAnswer := None;
      showResult := false;
    }

    /** `handleSelectAnswer`: only the selection changes. */
    method SelectAnswer(index: int)
      modifies this
      ensures selectedAnswer == Some(index)
      ensures unchanged(this`questions, this`currentQuestion, this`showResult)
    {
      selectedAnswer := Some(index);
    }

    /** `handleNextQuestion`: without a selection nothing happens; before the
        last question the index moves on by one and the selection clears; on
        the last question the result screen is shown. */
    method Next()
      requires Valid()
      modifies this
      ensures Valid()
      ensures old(selectedAnswer) == None ==>
        unchanged(this`questions, this`currentQuestion, this`selectedAnswer, this`showResult)
      ensures old(selectedAnswer) != None && old(currentQuestion) < |questions| - 1 ==>
        currentQuestion == old(currentQuestion) + 1 && selectedAnswer == None &&
        unchanged(this`questions, this`showResult)
      ensures old(selectedAnswer) != None && old(currentQuestion) >= |questions| - 1 ==>
        showResult && unchanged(this`questions, this`currentQuestion, this`selectedAnswer)
    {
      if selectedAnswer != None {
        if currentQuestion < |questions| - 1 {
          currentQuestion := currentQuestion + 1;
          selectedAnswer := None;
        } else {
          showResult := true;
        }
      }
    }

    /** The render branches: no questions show the start button, a finished
        quiz its result, and otherwise the current question, whose button
        reads 'submit' on the last question only. */
    function Render(): (s: Screen)
      requires Valid()
      reads this
      ensures s == StartButton <==> questions == []
      ensures s == ResultScreen <==> questions != [] && showResult
      ensures s.QuestionScreen? ==>
        s.index == currentQuestion && 0 <= s.index < |questions| &&
        (s.button == Submit <==> s.index == |questions| - 1)
    {
      if questions == [] then StartButton
      else if showResult then ResultScreen
      else QuestionScreen(currentQuestion,
        if currentQuestion < |questions| - 1 then NextQuestion else Submit)
    }
  }

  /** Selecting on every question and pressing next each time, from a fresh
      start, walks through both questions and ends on the result screen. */
  method PlayThrough(w: QuizWidget, first: int, second: int)
    modifies w
    ensures w.questions == FixedQuestions && w.currentQuestion == 1 && w.showResult
    ensures w.Valid() && w.Render() == ResultScreen
  {
    w.Start();
    assert w.Render() == QuestionScreen(0, NextQuestion);
    w.SelectAnswer(first);
    w.Next();
    assert w.Render() == QuestionScreen(1, Submit);
    w.SelectAnswer(second);
    w.Next();
  }
}
