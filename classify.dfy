/**
 * The classifiers of the personality quiz (js/app.js, `determineType`,
 * `determineLevel` and the result string built by `calculateResult`).
 */
module Classify {
  import opened Options
  import opened Scoring

  /**
   * The letter of one axis group: the pole that strictly beats both other
   * keys of its group, and the middle letter `M` in every other case.
   */
  function AxisLetter(first: int, middle: int, second: int,
                      firstLetter: char, secondLetter: char): (c: char)
    requires firstLetter != 'M' && secondLetter != 'M' && firstLetter != secondLetter
    ensures c == firstLetter <==> first > middle && first > second
    ensures c == secondLetter <==> second > middle && second > first
    ensures c == firstLetter || c == secondLetter || c == 'M'
  {
    if first > middle && first > second then firstLetter
    else if second > middle && second > first then secondLetter
    else 'M'
  }

  /**
   * Ties go to the middle: when the middle key reaches the largest score, or
   * when two keys share the largest score, the letter is `M`.
   */
  lemma TieGoesToMiddle(first: int, middle: int, second: int,
                        firstLetter: char, secondLetter: char)
    requires firstLetter != 'M' && secondLetter != 'M' && firstLetter != secondLetter
    requires (middle >= first && middle >= second) ||
             (first == second && first >= middle)
    ensures AxisLetter(first, middle, second, firstLetter, secondLetter) == 'M'
  {
  }

  /** The three-letter type code of a score table. */
  function DetermineType(s: Scores): (t: string)
    requires Complete(s)
    ensures |t| == 3
    ensures t[0] in "SPM" && t[1] in "VGM" && t[2] in "AEM"
    ensures t[0] == 'S' <==> s[S1] > s[M1] && s[S1] > s[P1]
    ensures t[0] == 'P' <==> s[P1] > s[M1] && s[P1] > s[S1]
    ensures t[1] == 'V' <==> s[V2] > s[M2] && s[V2] > s[G2]
    ensures t[1] == 'G' <==> s[G2] > s[M2] && s[G2] > s[V2]
    ensures t[2] == 'A' <==> s[A3] > s[M3] && s[A3] > s[E3]
    ensures t[2] == 'E' <==> s[E3] > s[M3] && s[E3] > s[A3]
  {
    [AxisLetter(s[S1], s[M1], s[P1], 'S', 'P'),
     AxisLetter(s[V2], s[M2], s[G2], 'V', 'G'),
     AxisLetter(s[A3], s[M3], s[E3], 'A', 'E')]
  }

  /** The five configured inclusive upper bounds of the CL bands. */
  datatype Thresholds = Thresholds(level1End: int, level2End: int, level3End: int,
                                   level4End: int, level5End: int)

  /** The upper bound of band `j`, for `j` in 1..5. */
  function Bound(th: Thresholds, j: int): int
    requires 1 <= j <= 5
  {
    if j == 1 then th.level1End
    else if j == 2 then th.level2End
    else if j == 3 then th.level3End
    else if j == 4 then th.level4End
    else th.level5End
  }

  /** The hard-coded CL score from which level 6 is given. */
  const Level6Min: int := 61

  /**
   * The CL level: the first band whose bound `cl` does not exceed; past all
   * five bounds, 6 when `cl` reaches 61 and 5 otherwise.
   */
  function DetermineLevel(cl: int, th: Thresholds): (level: int)
    ensures 1 <= level <= 6
    ensures forall j :: 1 <= j <= 5 && j < level ==> cl > Bound(th, j)
    ensures (exists j :: 1 <= j <= 5 && cl <= Bound(th, j)) ==>
              level <= 5 && cl <= Bound(th, level)
    ensures (forall j :: 1 <= j <= 5 ==> cl > Bound(th, j)) ==>
              level == (if cl >= Level6Min then 6 else 5)
  {
    if cl <= th.level1End then 1
    else if cl <= th.level2End then 2
    else if cl <= th.level3End then 3
    else if cl <= th.level4End then 4
    else if cl <= th.level5End then 5
    else if cl >= Level6Min then 6
    else 5
  }

  predicate Ascending(th: Thresholds)
  {
    th.level1End <= th.level2End <= th.level3End <= th.level4End <= th.level5End
  }

  /** With ascending bounds, a higher CL score never gives a lower level. */
  lemma LevelMonotone(th: Thresholds, c1: int, c2: int)
    requires Ascending(th) && c1 <= c2
    ensures DetermineLevel(c1, th) <= DetermineLevel(c2, th)
  {
  }

  /** The result string `type-level`, the level written as one decimal digit. */
  function ResultCode(s: Scores, th: Thresholds): (code: string)
    requires Complete(s)
    ensures |code| == 5 && code[3] == '-'
    ensures code[..3] == DetermineType(s)
    ensures code[4] as int - '0' as int == DetermineLevel(s[CL], th)
  {
    var level := DetermineLevel(s[CL], th);
    DetermineType(s) + "-" + [('0' as int + level) as char]
  }

  /** With every answer slot empty the type is "MMM" and the level is that of CL = 0. */
  lemma {:induction false} UnansweredResult(qs: seq<Question>, ans: seq<Option<int>>, th: Thresholds)
    requires |qs| == |ans|
    requires forall i :: 0 <= i < |ans| ==> ans[i] == None
    ensures DetermineType(Score(qs, ans)) == "MMM"
    ensures ResultCode(Score(qs, ans), th)[4] as int - '0' as int == DetermineLevel(0, th)
  {
    ScoreUnanswered(qs, ans);
  }

  /** Level boundaries for the bounds -10, 0, 10, 20, 30. */
  lemma LevelBoundaries()
    ensures var th := Thresholds(-10, 0, 10, 20, 30);
      DetermineLevel(0, th) == 2 && DetermineLevel(10, th) == 3 &&
      DetermineLevel(31, th) == 5 && DetermineLevel(61, th) == 6
  {
  }

  /** The questions and answers of the worked scenario below. */
  function ScenarioQuestions(): seq<Question>
  {
    [Question(false, S1, None), Question(true, P1, None), Question(false, CL, Some(1))]
  }

  function ScenarioAnswers(): seq<Option<int>>
  {
    [Some(2), Some(1), Some(5)]
  }

  /**
   * A five-point S1 question answered 2, a three-choice group-1 question
   * answered with index 1, and a CL question with `scoreEffect` 1 answered
   * 5 give S1 = P1 = 2, CL = 5 and 0 elsewhere.
   */
  lemma {:induction false} ScenarioScores(k: Key)
    ensures Score(ScenarioQuestions(), ScenarioAnswers())[k] ==
      if k == S1 || k == P1 then 2 else if k == CL then 5 else 0
  {
    var qs, ans := ScenarioQuestions(), ScenarioAnswers();
    ScoreUnanswered(qs[..0], ans[..0]);
    ScoreStep(qs, ans, 0);
    ScoreStep(qs, ans, 1);
    ScoreStep(qs, ans, 2);
    assert qs[..3] == qs && ans[..3] == ans;
  }

  /** The S1/P1 tie of the scenario resolves to "MMM"; CL = 5 falls in band 3. */
  lemma ScenarioResult()
    ensures ResultCode(Score(ScenarioQuestions(), ScenarioAnswers()), Thresholds(-10, 0, 10, 20, 30)) == "MMM-3"
  {
    var s := Score(ScenarioQuestions(), ScenarioAnswers());
    ScenarioScores(S1); ScenarioScores(M1); ScenarioScores(P1);
    ScenarioScores(V2); ScenarioScores(M2); ScenarioScores(G2);
    ScenarioScores(A3); ScenarioScores(M3); ScenarioScores(E3);
    ScenarioScores(CL);
    assert DetermineType(s) == "MMM";
  }
}
