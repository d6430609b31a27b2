/**
 * The quiz session of js/app.js: the current question index, the answer
 * slots and the score table, with the operations that change them
 * (`selectAnswer`, `nextQuestion`, `prevQuestion`, `restartQuiz`,
 * `calculateResult`).
 */
module Session {
  import opened Options
  import opened Scoring
  import opened Classify
  import opened Selection

  class Quiz {
    const questions: seq<Question>
    const choiceScores: seq<int>
    const thresholds: Thresholds
    var currentIndex: nat
    var answers: array<Option<int>>
    var scores: Scores

    /** One answer slot per question, all ten keys, an index on a question. */
    ghost predicate Valid()
      reads this
    {
      && answers.Length == |questions|
      && Complete(scores)
      && (currentIndex == 0 || currentIndex < |questions|)
    }

    /** The state once the data is loaded: every slot empty, index 0, all scores 0. */
    constructor (qs: seq<Question>, cs: seq<int>, th: Thresholds)
      ensures Valid() && fresh(answers)
      ensures questions == qs && choiceScores == cs && thresholds == th
      ensures currentIndex == 0 && scores == Zero()
      ensures answers[..] == seq(|qs|, _ => None)
    {
      questions, choiceScores, thresholds := qs, cs, th;
      currentIndex := 0;
      answers := new Option<int>[|qs|](_ => None);
      scores := Zero();
    }

    method StartQuiz()
      requires Valid()
      modifies this`currentIndex
      ensures Valid() && currentIndex == 0
    {
      currentIndex := 0;
    }

    /**
     * Records `value` in the current question's slot, overwriting any
     * earlier answer, and reports the button to mark as selected.
     */
    method SelectAnswer(value: int) returns (button: Option<nat>)
      requires Valid() && currentIndex < |questions|
      modifies answers
      ensures Valid()
      ensures answers[..] == old(answers[..])[currentIndex := Some(value)]
      ensures button == SelectedButton(questions[currentIndex], value, choiceScores)
    {
      answers[currentIndex] := Some(value);
      var q := questions[currentIndex];
      var index := if q.isMChoice then value else IndexOf(choiceScores, value);
      button := if index != -1 && 0 <= index < ButtonCount(q) then Some(index) else None;
    }

    /** The button shown as selected when the current question is displayed again. */
    method RestoreSelection() returns (button: Option<nat>)
      requires Valid() && currentIndex < |questions|
      ensures button == RestoredButton(questions[currentIndex], answers[currentIndex], choiceScores)
    {
      button := None;
      if answers[currentIndex] != None {
        var q := questions[currentIndex];
        var stored := answers[currentIndex].value;
        var index := if q.isMChoice then stored else IndexOf(choiceScores, stored);
        if index != -1 && 0 <= index < ButtonCount(q) {
          button := Some(index);
        }
      }
    }

    /**
     * Moves to the next question; on the last one (or with no questions)
     * scores the quiz instead and returns the result string.
     */
    method NextQuestion() returns (result: Option<string>)
      requires Valid()
      modifies this`currentIndex, this`scores
      ensures Valid()
      ensures old(currentIndex) < |questions| - 1 ==>
        currentIndex == old(currentIndex) + 1 && result == None && scores == old(scores)
      ensures old(currentIndex) >= |questions| - 1 ==>
        currentIndex == old(currentIndex) &&
        scores == Score(questions, answers[..]) &&
        result == Some(ResultCode(scores, thresholds))
    {
      if currentIndex < |questions| - 1 {
        currentIndex := currentIndex + 1;
        result := None;
      } else {
        var code := CalculateResult();
        result := Some(code);
      }
    }

    /** Moves to the previous question, staying on the first one. */
    method PrevQuestion()
      requires Valid()
      modifies this`currentIndex
      ensures Valid()
      ensures currentIndex == if old(currentIndex) > 0 then old(currentIndex) - 1 else 0
    {
      if currentIndex > 0 {
        currentIndex := currentIndex - 1;
      }
    }

    /** Sets every key of the table to 0, key by key. */
    method ResetScores()
      requires Complete(scores)
      modifies this`scores
      ensures scores == Zero()
    {
      var i := 0;
      while i < |KeyOrder|
        invariant 0 <= i <= |KeyOrder|
        invariant Complete(scores)
        invariant forall j :: 0 <= j < i ==> scores[KeyOrder[j]] == 0
      {
        scores := scores[KeyOrder[i] := 0];
        i := i + 1;
      }
      AllKeysCovered();
    }

    /**
     * `scores[name] += amount`.  A name outside the ten keys would create a
     * new property of the score object, which nothing reads; the table of
     * ten keys is then unchanged.
     */
    method AddNamed(name: string, amount: int)
      requires Complete(scores)
      modifies this`scores
      ensures Complete(scores)
      ensures forall k :: scores[k] == old(scores[k]) + (if KeyNamed(name) == Some(k) then amount else 0)
    {
      match KeyNamed(name)
      case Some(k) =>
        scores := scores[k := scores[k] + amount];
      case None =>
    }

    /** Adds the contribution of question `q` answered with `answer`. */
    method ApplyAnswer(q: Question, answer: Option<int>)
      requires Complete(scores)
      modifies this`scores
      ensures Complete(scores)
      ensures forall k :: scores[k] == old(scores[k]) + Delta(q, answer, k)
    {
      if answer == None {
        return;
      }
      var v := answer.value;
      if q.isMChoice {
        var axisNum := Name(q.target)[1];
        GroupDigit(q.target);
        if v == 0 {
          AddNamed(if axisNum == '1' then "S1" else if axisNum == '2' then "V2" else "A3", 2);
        } else if v == 1 {
          AddNamed(if axisNum == '1' then "P1" else if axisNum == '2' then "G2" else "E3", 2);
        } else if v == 2 {
          AddNamed(['M', axisNum], 2);
        }
      } else if q.target == CL {
        var processed := if q.scoreEffect == Some(1) then v else -v;
        scores := scores[CL := scores[CL] + processed];
      } else {
        AddNamed(Name(q.target), v);
      }
    }

    /**
     * Scores the quiz from scratch and returns `type-level`: the table is
     * exactly the sum of the answered questions' contributions.
     */
    method CalculateResult() returns (code: string)
      requires Valid()
      modifies this`scores
      ensures Valid()
      ensures scores == Score(questions, answers[..])
      ensures code == ResultCode(scores, thresholds)
    {
      ResetScores();
      ScoreUnanswered([], []);
      var i := 0;
      while i < |questions|
        invariant 0 <= i <= |questions|
        invariant Complete(scores)
        invariant scores == Score(questions[..i], answers[..i])
      {
        ghost var before := scores;
        ApplyAnswer(questions[i], answers[i]);
        ScoreAdvance(questions, answers[..], i, before, scores);
        i := i + 1;
      }
      assert questions[..i] == questions && answers[..i] == answers[..];
      code := ResultCode(scores, thresholds);
    }

    /** Back to a fresh session: every slot empty, index 0, every score 0. */
    method RestartQuiz()
      requires Valid()
      modifies this
      ensures Valid() && fresh(answers)
      ensures currentIndex == 0 && scores == Zero()
      ensures answers[..] == seq(|questions|, _ => None)
    {
      currentIndex := 0;
      answers := new Option<int>[|questions|](_ => None);
      ResetScores();
    }
  }
}
