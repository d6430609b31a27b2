/**
 * Which choice button shows as selected for a stored answer (js/app.js,
 * the lookups in `loadQuestion` and `selectAnswer`).  A three-choice
 * button carries its own position as its value; a five-point button
 * carries the configured `choiceScores` entry at its position, so the
 * position is recovered with `indexOf`.
 */
module Selection {
  import opened Options
  import opened Scoring

  /** `indexOf`: the first position of `x` in `s`, or -1 when there is none. */
  function IndexOf(s: seq<int>, x: int): (r: int)
    ensures -1 <= r < |s|
    ensures r == -1 <==> x !in s
    ensures 0 <= r ==> s[r] == x && x !in s[..r]
  {
    if s == [] then -1
    else if s[0] == x then 0
    else
      var j := IndexOf(s[1..], x);
      if j == -1 then -1 else j + 1
  }

  /** Three-choice questions show three buttons; five-point questions five. */
  function ButtonCount(q: Question): nat
  {
    if q.isMChoice then 3 else 5
  }

  /** The answer value the button at `position` records. */
  function ButtonValue(q: Question, position: nat, choiceScores: seq<int>): int
    requires position < ButtonCount(q)
    requires !q.isMChoice ==> position < |choiceScores|
  {
    if q.isMChoice then position else choiceScores[position]
  }

  /**
   * The button marked selected for answer `value`: its position when that
   * is not -1 and a button exists there, none otherwise.
   */
  function SelectedButton(q: Question, value: int, choiceScores: seq<int>): (b: Option<nat>)
    ensures b.Some? ==> b.value < ButtonCount(q)
    ensures q.isMChoice ==> (b.Some? <==> 0 <= value < 3) && (b.Some? ==> b.value == value)
    ensures !q.isMChoice ==>
      (b.Some? <==> value in choiceScores[..if |choiceScores| < 5 then |choiceScores| else 5]) &&
      (b.Some? ==> b.value < |choiceScores| && choiceScores[b.value] == value && value !in choiceScores[..b.value])
  {
    var index := if q.isMChoice then value else IndexOf(choiceScores, value);
    if index != -1 && 0 <= index < ButtonCount(q) then Some(index) else None
  }

  /**
   * The button marked selected when a question is shown again with slot
   * `stored`: none for an empty slot; for a three-choice question the stored
   * index itself; for a five-point question the first of the five buttons
   * whose score equals the stored one.
   */
  function RestoredButton(q: Question, stored: Option<int>, choiceScores: seq<int>): (b: Option<nat>)
    ensures stored.None? ==> b.None?
    ensures stored.Some? && q.isMChoice ==>
      (b.Some? <==> 0 <= stored.value < 3) && (b.Some? ==> b.value == stored.value)
    ensures stored.Some? && !q.isMChoice ==>
      (b.Some? <==> stored.value in choiceScores[..if |choiceScores| < 5 then |choiceScores| else 5]) &&
      (b.Some? ==> b.value < 5 && b.value < |choiceScores| && choiceScores[b.value] == stored.value &&
                   stored.value !in choiceScores[..b.value])
  {
    if stored == None then None
    else
      var answerIndex := if q.isMChoice then stored.value else IndexOf(choiceScores, stored.value);
      if answerIndex != -1 && 0 <= answerIndex < ButtonCount(q) then Some(answerIndex) else None
  }

  /**
   * The lookup that restores a selection and the one that marks a fresh
   * click are written separately; they always pick the same button.
   */
  lemma RestoreAgreesWithSelect(q: Question, value: int, choiceScores: seq<int>)
    ensures RestoredButton(q, Some(value), choiceScores) == SelectedButton(q, value, choiceScores)
  {
  }

  /**
   * Clicking a button and showing the question again marks that same
   * button exactly when no earlier five-point button carries the same score.
   */
  lemma SelectThenRestore(q: Question, position: nat, choiceScores: seq<int>)
    requires position < ButtonCount(q)
    requires !q.isMChoice ==> position < |choiceScores|
    ensures RestoredButton(q, Some(ButtonValue(q, position, choiceScores)), choiceScores) == Some(position)
        <==> (q.isMChoice || choiceScores[position] !in choiceScores[..position])
  {
  }

  /** With distinct configured scores every button survives the round trip. */
  lemma DistinctScoresRoundTrip(q: Question, position: nat, choiceScores: seq<int>)
    requires position < ButtonCount(q)
    requires !q.isMChoice ==> position < |choiceScores|
    requires forall i, j :: 0 <= i < j < |choiceScores| ==> choiceScores[i] != choiceScores[j]
    ensures RestoredButton(q, Some(ButtonValue(q, position, choiceScores)), choiceScores) == Some(position)
  {
    SelectThenRestore(q, position, choiceScores);
  }
}
