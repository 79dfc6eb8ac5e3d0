/**
  The quiz's navigation state: which question is shown and the answers given
  so far. The handlers run one after another, each reading the state left by
  the previous one.
 */
module QuizFlow {
  import opened Records
  import opened QuizData

  /** Index of the last question. */
  function LastStep(): nat
  {
    QuestionIdCount();
    |QuizQuestions| - 1
  }

  class Quiz {
    var currentStep: int
    var responses: Record

    /** The step points at a question and every key is a question identifier. */
    ghost predicate Valid()
      reads this
    {
      && 0 <= currentStep <= LastStep()
      && KeySet(responses) <= QuestionIds()
    }

    /** Every stored answer is one the answer buttons offer. */
    ghost predicate AnswersInRange()
      reads this
    {
      forall e :: e in responses ==> 1 <= e.value <= 5
    }

    /** A fresh quiz: the first question, nothing answered. */
    constructor ()
      ensures Valid() && AnswersInRange()
      ensures currentStep == 0 && responses == []
    {
      currentStep := 0;
      responses := [];
    }

    /** The shown question: always one of the table's questions, never undefined. */
    function CurrentQuestion(): (q: QuizQuestion)
      reads this
      requires Valid()
      ensures q in QuizQuestions && q.id in QuestionIds()
    {
      QuizQuestions[currentStep]
    }

    /** The shown question has an answer. */
    function IsAnswered(): (answered: bool)
      reads this
      requires Valid()
      ensures answered <==> CurrentQuestion().id in KeySet(responses)
    {
      Get(responses, CurrentQuestion().id) != None
    }

    /** As many answers as questions, which happens exactly when every question is answered. */
    function IsComplete(): (complete: bool)
      reads this
      requires Valid()
      ensures complete <==> KeySet(responses) == QuestionIds()
      ensures complete <==> forall q :: q in QuizQuestions ==> q.id in KeySet(responses)
    {
      KeyCount(responses);
      QuestionIdCount();
      if |responses| == |QuizQuestions| then
        SubsetOfSameSize(KeySet(responses), QuestionIds());
        true
      else
        false
    }

    /** "Previous" is clickable unless the first question is shown. */
    function PreviousEnabled(): (enabled: bool)
      reads this
      requires Valid()
      ensures enabled ==> currentStep > 0
    {
      currentStep != 0
    }

    /** "Next" is shown and clickable: the question is answered and is not the last. */
    function NextEnabled(): (enabled: bool)
      reads this
      requires Valid()
      ensures enabled ==> currentStep < LastStep() && CurrentQuestion().id in KeySet(responses)
    {
      IsAnswered() && currentStep != LastStep()
    }

    /** "View Results" replaces "Next" on the last question once every question is answered. */
    function CompleteOffered(): (offered: bool)
      reads this
      requires Valid()
      ensures offered ==> currentStep == LastStep() && KeySet(responses) == QuestionIds()
    {
      currentStep == LastStep() && IsComplete()
    }

    /** Record `value` for the shown question and move on unless it is the last. */
    method HandleAnswer(value: int)
      requires Valid()
      modifies this
      ensures Valid()
      ensures responses == Put(old(responses), QuizQuestions[old(currentStep)].id, value)
      ensures Get(responses, QuizQuestions[old(currentStep)].id) == Some(value)
      ensures forall k :: k != QuizQuestions[old(currentStep)].id ==> Get(responses, k) == Get(old(responses), k)
      ensures KeySet(responses) == KeySet(old(responses)) + {QuizQuestions[old(currentStep)].id}
      ensures currentStep == if old(currentStep) < LastStep() then old(currentStep) + 1 else old(currentStep)
      ensures old(AnswersInRange()) && 1 <= value <= 5 ==> AnswersInRange()
    {
      var id := QuizQuestions[currentStep].id;
      responses := Put(responses, id, value);
      if currentStep < |QuizQuestions| - 1 {
        currentStep := currentStep + 1;
      }
    }

    /** A click on the `index`-th answer button of the shown question. */
    method SelectAnswer(index: nat)
      requires Valid() && AnswersInRange()
      requires index < |CurrentQuestion().answers|
      modifies this
      ensures Valid() && AnswersInRange()
      ensures responses == Put(old(responses), QuizQuestions[old(currentStep)].id, index + 1)
      ensures currentStep == if old(currentStep) < LastStep() then old(currentStep) + 1 else old(currentStep)
    {
      var q := CurrentQuestion();
      AnswerValueAt(q, index);
      HandleAnswer(q.answers[index].value);
    }

    /** Move forward one question; nothing happens on the last one. */
    method HandleNext()
      requires Valid()
      modifies this
      ensures Valid()
      ensures responses == old(responses)
      ensures currentStep == if old(currentStep) < LastStep() then old(currentStep) + 1 else old(currentStep)
    {
      if currentStep < |QuizQuestions| - 1 {
        currentStep := currentStep + 1;
      }
    }

    /** Move back one question; nothing happens on the first one. */
    method HandlePrevious()
      requires Valid()
      modifies this
      ensures Valid()
      ensures responses == old(responses)
      ensures currentStep == if old(currentStep) > 0 then old(currentStep) - 1 else old(currentStep)
    {
      if currentStep > 0 {
        currentStep := currentStep - 1;
      }
    }

    /** The scenarios computed when "View Results" is clicked: the engine sees
        one answer in 1..5 for each of the eight questions, so its average is
        a number between 1 and 5 and never NaN. */
    method HandleComplete() returns (scenarios: Scenarios)
      requires Valid() && AnswersInRange()
      requires CompleteOffered()
      ensures scenarios == CalculateScenarios(responses)
      ensures |responses| == |QuizQuestions| && KeySet(responses) == QuestionIds()
      ensures AvgScore(responses).Num? && 1.0 <= AvgScore(responses).value <= 5.0
    {
      KeyCount(responses);
      QuestionIdCount();
      AvgScoreBounds(responses, 1, 5);
      scenarios := CalculateScenarios(responses);
    }
  }

  /** A subset as large as its superset is the whole superset. */
  lemma SubsetOfSameSize<T>(a: set<T>, b: set<T>)
    requires a <= b && |a| == |b|
    ensures a == b
  {
    if a != b {
      assert !(b <= a);
      var x :| x in b && x !in a;
      assert a <= b - {x};
      assert |b - {x}| == |b| - 1;
      SubsetSize(a, b - {x});
    }
  }

  /** A subset is no larger than its superset. */
  lemma {:induction false} SubsetSize<T>(a: set<T>, b: set<T>)
    requires a <= b
    ensures |a| <= |b|
    decreases |b|
  {
    if b != {} {
      var x :| x in b;
      SubsetSize(a - {x}, b - {x});
    }
  }
}
