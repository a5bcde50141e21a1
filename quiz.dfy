/**
 * The knowledge-check quiz: a fixed list of questions answered one at a
 * time, a running score, and a results screen with "Try Again".
 */
module Quiz {
  import opened Wrappers

  datatype Question = Question(id: int, question: string, options: seq<string>, correctAnswer: int, explanation: string)

  const Questions: seq<Question> := [
    Question(1, "When did Capital One migrate to the public cloud (AWS)?",
      ["2010", "2015", "2018", "2020"], 1,
      "Capital One became the first major US bank to announce a full migration to the public cloud in 2015."),
    Question(2, "What is the name of Capital One's AI assistant?",
      ["Siri", "Alexa", "Eno", "Cortana"], 2,
      "Eno is Capital One's intelligent assistant that monitors accounts and provides virtual card numbers."),
    Question(3, "Which strategy did Capital One pioneer in 1994?",
      ["Information-Based Strategy (IBS)", "Brick-and-Mortar Expansion", "Crypto Trading", "High-Frequency Trading"], 0,
      "Capital One pioneered the Information-Based Strategy (IBS), using data analytics to tailor credit offers."),
    Question(4, "What is a key risk associated with digital transformation mentioned in the case study?",
      ["Too many customers", "Cybersecurity Threats", "Lower profits", "Slower transactions"], 1,
      "As banks digitize, the attack surface grows, making cybersecurity and data privacy critical risks.")
  ]

  /** Every question's correct answer is one of its options. */
  lemma CorrectAnswersAreOptions()
    ensures forall k :: 0 <= k < |Questions| ==> 0 <= Questions[k].correctAnswer < |Questions[k].options|
  {
  }

  /** How many of `answers` (one chosen option per question, in order) are correct. */
  function CorrectCount(answers: seq<int>): (n: nat)
    requires |answers| <= |Questions|
    ensures n <= |answers|
    ensures n == |answers| <==> forall k :: 0 <= k < |answers| ==> answers[k] == Questions[k].correctAnswer
  {
    if answers == [] then 0
    else
      var last := |answers| - 1;
      CorrectCount(answers[..last]) + (if answers[last] == Questions[last].correctAnswer then 1 else 0)
  }

  /** Answering one more question adds one exactly when that answer is right. */
  lemma CorrectCountSnoc(answers: seq<int>, a: int)
    requires |answers| < |Questions|
    ensures CorrectCount(answers + [a])
         == CorrectCount(answers) + (if a == Questions[|answers|].correctAnswer then 1 else 0)
  {
    assert (answers + [a])[..|answers|] == answers;
  }

  /** The look of one option button. */
  datatype OptionLook = Plain | Chosen | RightAnswer | WrongChoice | Dimmed

  /**
   * Before an answer the chosen option is highlighted; after it the correct
   * option is marked right, a different chosen option wrong, the rest dimmed.
   */
  function OptionStyle(index: int, isAnswered: bool, selectedOption: Option<int>, correctAnswer: int): (look: OptionLook)
    ensures look == RightAnswer <==> isAnswered && index == correctAnswer
    ensures look == WrongChoice <==> isAnswered && selectedOption == Some(index) && index != correctAnswer
    ensures look == Chosen <==> !isAnswered && selectedOption == Some(index)
    ensures look == Dimmed <==> isAnswered && index != correctAnswer && selectedOption != Some(index)
  {
    if isAnswered then
      if index == correctAnswer then RightAnswer
      else if selectedOption == Some(index) then WrongChoice
      else Dimmed
    else if selectedOption == Some(index) then Chosen
    else Plain
  }

  /**
   * Once a question is answered exactly one option is marked right, and one
   * is marked wrong exactly when the chosen option was not the answer.
   */
  lemma AnsweredQuestionMarks(q: Question, chosen: int)
    requires 0 <= q.correctAnswer < |q.options|
    ensures forall k :: 0 <= k < |q.options| && OptionStyle(k, true, Some(chosen), q.correctAnswer) == RightAnswer
              ==> k == q.correctAnswer
    ensures OptionStyle(q.correctAnswer, true, Some(chosen), q.correctAnswer) == RightAnswer
    ensures (exists k :: 0 <= k < |q.options| && OptionStyle(k, true, Some(chosen), q.correctAnswer) == WrongChoice)
              <==> chosen != q.correctAnswer && 0 <= chosen < |q.options|
  {
    if chosen != q.correctAnswer && 0 <= chosen < |q.options| {
      assert OptionStyle(chosen, true, Some(chosen), q.correctAnswer) == WrongChoice;
    }
  }

  /** The quiz component's five state fields. */
  class QuizSection {
    var currentQuestion: nat
    var score: nat
    var showResults: bool
    var selectedOption: Option<int>
    var isAnswered: bool
    /** The option chosen for each question answered so far. */
    ghost var answers: seq<int>

    /**
     * The question index stays in the table, an option is selected exactly
     * while the question is answered, results only follow an answered last
     * question, and the score never exceeds the questions answered so far.
     */
    ghost predicate Valid()
      reads this
    {
      && currentQuestion < |Questions|
      && (selectedOption.Some? <==> isAnswered)
      && (showResults ==> isAnswered && currentQuestion == |Questions| - 1)
      && |answers| == currentQuestion + (if isAnswered then 1 else 0)
      && (isAnswered ==> selectedOption == Some(answers[currentQuestion]))
      && score == CorrectCount(answers)
    }

    /** The state the quiz starts in (and that "Try Again" restores). */
    ghost predicate IsInitial()
      reads this
    {
      currentQuestion == 0 && score == 0 && !showResults && selectedOption == None && !isAnswered
      && answers == []
    }

    constructor ()
      ensures Valid() && IsInitial()
    {
      currentQuestion, score, showResults := 0, 0, false;
      selectedOption, isAnswered := None, false;
      answers := [];
    }

    /**
     * A click on option `optionIndex`. Ignored once the question is answered;
     * otherwise the option is recorded and the score rises by one exactly
     * when it is the correct answer.
     */
    method HandleAnswer(optionIndex: int)
      requires Valid()
      modifies this
      ensures Valid()
      ensures old(isAnswered) ==>
        currentQuestion == old(currentQuestion) && score == old(score) && showResults == old(showResults)
        && selectedOption == old(selectedOption) && isAnswered && answers == old(answers)
      ensures !old(isAnswered) ==>
        && answers == old(answers) + [optionIndex]
        && isAnswered && selectedOption == Some(optionIndex)
        && currentQuestion == old(currentQuestion) && showResults == old(showResults)
        && score == old(score) + (if optionIndex == Questions[currentQuestion].correctAnswer then 1 else 0)
    {
      if isAnswered {
        return;
      }
      CorrectCountSnoc(answers, optionIndex);
      answers := answers + [optionIndex];
      selectedOption := Some(optionIndex);
      isAnswered := true;
      if optionIndex == Questions[currentQuestion].correctAnswer {
        score := score + 1;
      }
    }

    /**
     * "Next Question" / "See Results", shown only once the question is
     * answered: move to the next question, or after the last one show the
     * results.
     */
    method NextQuestion()
      requires Valid() && isAnswered
      modifies this
      ensures Valid()
      ensures score == old(score) && answers == old(answers)
      ensures old(currentQuestion) < |Questions| - 1 ==>
        currentQuestion == old(currentQuestion) + 1 && selectedOption == None && !isAnswered
        && showResults == old(showResults)
      ensures old(currentQuestion) == |Questions| - 1 ==>
        showResults && currentQuestion == old(currentQuestion)
        && selectedOption == old(selectedOption) && isAnswered
    {
      if currentQuestion < |Questions| - 1 {
        currentQuestion := currentQuestion + 1;
        selectedOption := None;
        isAnswered := false;
      } else {
        showResults := true;
      }
    }

    /** "Try Again": back to the initial state. */
    method ResetQuiz()
      modifies this
      ensures Valid() && IsInitial()
    {
      currentQuestion := 0;
      score := 0;
      showResults := false;
      selectedOption := None;
      isAnswered := false;
      answers := [];
    }
  }

  /**
   * The score is the number of correct answers given so far, so the results
   * screen ("You scored n out of 4") never shows more than the question count,
   * and shows the full count exactly when every answer was right.
   */
  lemma FinalScoreBounded(quiz: QuizSection)
    requires quiz.Valid()
    ensures quiz.score <= |Questions|
    ensures quiz.showResults ==> |quiz.answers| == |Questions|
    ensures quiz.showResults ==>
      (quiz.score == |Questions| <==> forall k :: 0 <= k < |Questions| ==> quiz.answers[k] == Questions[k].correctAnswer)
  {
  }
}
