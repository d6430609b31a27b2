# Personality quiz scoring core, modelled in Dafny

This project models the scoring and classification core of a browser
personality quiz (js/app.js), together with the small session state that
feeds it.

- **Score table.** The table has ten integer keys: S1, M1, P1, V2, M2, G2, A3, M3, E3 and CL.
- **Axis groups.** Groups 1, 2 and 3 each have two poles and a middle key. CL is a separate "consciousness level" axis.
- **Questions.** A question either offers three choices (`isMChoice`) or is a five-point agreement scale. It targets one key. A CL question may carry a `scoreEffect`.
- **Scorer.** Scoring walks the questions together with their answer slots and skips empty slots.
  - A three-choice answer adds 2 to the first pole, the second pole or the middle key of the target's group.
  - A CL answer is added as is when `scoreEffect` is 1, and negated otherwise.
  - Any other answer is added to its target key.
- **Type classifier.** Each group gets the letter of the pole that strictly beats both other keys of the group. Every other case gives `M`.
- **Level classifier.** The level is the first of five configured CL bands that holds the score. Past the last band, the level is 6 from a CL of 61 up, and 5 below that.
- **Result.** The result string is `type-level`, for example `SVA-3`.

Modules:

- `Scoring` (scoring.dfy) holds the keys and their property names and the `Question` record.
  - `Delta` says what one answered question adds to each key.
  - `Score` is the sum of those contributions over the whole questionnaire.
  - The lemmas give each kind of question's contribution, show that scoring does not depend on question order, and show that a questionnaire with no answers scores 0.
- `Classify` (classify.dfy) holds the type letter rule, the level bands and the result string.
- `Selection` (selection.dfy) holds `indexOf` and the lookup that turns a stored answer back into the position of the button to highlight.
- `Session` (session.dfy) holds the class `Quiz`.
  - Its state is the current question index, the answer slots (an array of optional integers, `null` being `None`) and the score table (a map).
  - Its methods are the source's `selectAnswer`, `nextQuestion`, `prevQuestion`, `restartQuiz` and `calculateResult`.
  - The imperative scorer follows the source's name-based key lookups: `charAt(1)` of the target's name, the nested conditionals, and `M` joined with the group digit. It is proved to leave the table equal to `Score`.
- `Options` (options.dfy) holds the `Option` type.

Two behaviours of the code are modelled as written:

- **`scoreEffect`.** The answer to a CL scale question is negated for any `scoreEffect` other than 1. This includes a question with no such field, which is modelled as `None`.
- **Three-choice question on CL.** A three-choice question may target CL, whose name gives no group digit. Index 0 and index 1 then fall through to A3 and E3, and index 2 names `ML`, which is outside the ten-key table.

## Model

| member | source | states |
|---|---|---|
| Scoring.KeyNamed | js/app.js:231-235 | the property name looked up in the score object denotes exactly the key with that name, and no key when no key has it |
| Scoring.Zero | js/app.js:8-10 | the initial and reset table holds all ten keys, each 0 |
| Scoring.Delta | js/app.js:224-244 | an empty slot adds nothing; a three-choice question adds 0 or 2, and only to a key of its target's group (A3 or E3 for a CL target); a scale question changes only its target key |
| Scoring.Score | js/app.js:223-245 | a scoring pass yields a table with all ten keys |
| Scoring.GroupDigit | js/app.js:229-235 | the second character of the target's name is the group digit, and `M` plus that digit names the group's middle key (no key for CL) |
| Scoring.NoContribution | js/app.js:224-236 | an empty slot, and a three-choice answer other than 0, 1 or 2, add nothing to any key |
| Scoring.DeltaTouchesOneKey | js/app.js:227-243 | each question changes at most one key |
| Scoring.ThreeChoiceContribution | js/app.js:227-236 | a three-choice answer adds exactly 2 to one key of the target's group: the first pole for index 0, the second pole for 1, the middle key for 2 |
| Scoring.ThreeChoiceOnCl | js/app.js:229-235 | a three-choice question on CL adds 2 to A3 for index 0, to E3 for index 1, and to none of the ten keys for index 2 |
| Scoring.ScaleContribution | js/app.js:237-243 | a CL scale answer adds `+answer` when `scoreEffect` is 1 and `-answer` otherwise; any other scale answer adds to its target only |
| Scoring.ScoreStep | js/app.js:223-245 | scoring one more question adds exactly its contribution to every key |
| Scoring.ScoreUnanswered | js/app.js:218-225 | with every slot empty, every key scores 0 |
| Scoring.TotalPermutation | js/app.js:223-245 | the sum of contributions to a key is the same for any ordering of the (question, answer) pairs |
| Scoring.ScorePermutation | js/app.js:223-245 | permuting the questions, each keeping its answer, gives the same score table |
| Classify.AxisLetter | js/app.js:257-259 | a pole's letter is chosen exactly when that pole strictly beats both other keys of its group; otherwise the letter is `M` |
| Classify.TieGoesToMiddle | js/app.js:257-269 | when the middle key reaches the top score, or the two poles share it, the letter is `M` |
| Classify.DetermineType | js/app.js:255-272 | the type is three letters over {S,P,M}, {V,G,M}, {A,E,M}, and each extreme letter appears exactly when its key strictly beats both others of its group |
| Classify.DetermineLevel | js/app.js:275-293 | the level is in 1..6 and is the first band whose inclusive bound holds CL; past all five bounds it is 6 exactly when CL >= 61, and 5 otherwise |
| Classify.LevelMonotone | js/app.js:279-292 | with ascending bounds, a higher CL never gives a lower level |
| Classify.LevelBoundaries | js/app.js:279-292 | with bounds -10, 0, 10, 20, 30, a CL of 0, 10, 31 and 61 gives levels 2, 3, 5 and 6 |
| Classify.ResultCode | js/app.js:248-251 | the result is the type, `-` and the level as one decimal digit |
| Classify.UnansweredResult | js/app.js:218-225 | with every slot empty, the type is `MMM` and the level is that of CL = 0 |
| Classify.ScenarioScores | js/app.js:223-245 | a three-question scenario scores S1 = P1 = 2, CL = 5 and 0 elsewhere |
| Classify.ScenarioResult | js/app.js:247-251 | that scenario's S1/P1 tie gives `MMM`, and CL = 5 gives level 3 |
| Selection.IndexOf | js/app.js:134 | `indexOf` returns -1 exactly when the value is absent; otherwise it returns the first position holding the value |
| Selection.SelectedButton | js/app.js:169-176 | the highlighted button is the answer itself for a three-choice question and the first matching score position for a scale question; nothing is highlighted when there is no match or no such button |
| Selection.RestoredButton | js/app.js:129-138 | an empty slot highlights nothing; a three-choice slot highlights button `v` exactly when `0 <= v < 3`; a scale slot highlights the first of the five buttons whose score equals the stored one, and nothing when no such button exists |
| Selection.RestoreAgreesWithSelect | js/app.js:132-136 | the restore lookup and the click lookup (lines 170-174) pick the same button for every answer value |
| Selection.SelectThenRestore | js/app.js:109-136 | clicking a button and showing the question again highlights that same button exactly when no earlier scale button has the same score |
| Selection.DistinctScoresRoundTrip | js/app.js:123-136 | with distinct configured scores, every button is restored to itself |
| Session.Quiz.constructor | js/app.js:3-30 | a loaded session has every slot empty, index 0 and every score 0 |
| Session.Quiz.StartQuiz | js/app.js:74-79 | starting puts the index on the first question |
| Session.Quiz.SelectAnswer | js/app.js:162-179 | only the current question's slot changes, and it now holds the answer; the returned button is the one `SelectedButton` gives |
| Session.Quiz.RestoreSelection | js/app.js:129-138 | showing the current question highlights the button `RestoredButton` gives for its slot |
| Session.Quiz.NextQuestion | js/app.js:182-189 | before the last question, the index moves up by one and stays in bounds; on the last question, the quiz is scored and its result string returned |
| Session.Quiz.PrevQuestion | js/app.js:192-197 | the index moves down by one, but never below 0 |
| Session.Quiz.ResetScores | js/app.js:218-220 | every key of the table becomes 0 |
| Session.Quiz.AddNamed | js/app.js:231-235 | adding under a name changes only the key of that name |
| Session.Quiz.ApplyAnswer | js/app.js:224-244 | one question's branch adds its contribution (`Delta`) to every key |
| Session.Quiz.CalculateResult | js/app.js:216-252 | after a fresh pass the table is exactly `Score` of the questions and slots, and the result is its `ResultCode` |
| Session.Quiz.RestartQuiz | js/app.js:296-301 | restarting empties every slot and sets the index to 0 and every score to 0, as in a fresh session |

## Left out

- The DOM is not modelled: screens, buttons, labels, the next button's enabled state and the selected-class styling. This is presentation only.
- Data loading is not modelled: `fetch`, `Promise.all`, JSON parsing and the failure alert. The loaded questions, `choiceScores` and level bounds are constructor parameters, and the questions are fixed for the session.
- Translations are not modelled: language choice, per-question text and the `{current}`/`{total}` counter. This is display text only.
- The progress bar is not modelled. It is a floating-point percentage for display.
- Scoring.Delta and Session.Quiz.AddNamed: a three-choice question on CL answered with index 2 makes the source create a property `ML` outside the ten keys. It holds `NaN` after the first pass. Once it exists, the `for...in` resets set it to 0, so later passes store 2, 4 and so on. The model keeps only the ten keys and drops that write. The classifiers never read `ML`.
- Selection.ButtonCount: a three-choice question is taken to show three buttons. In the source the count is the length of a translated label list.
- Answers are integers. JavaScript numbers that are not integers do not arise from the buttons and are not modelled.
- Session.Quiz.SelectAnswer: requires the current index to be on a question. In the source it is reached only from a button of a displayed question, so the questionnaire is not empty.
- `targetScore` is an enumeration of the ten keys. A question naming any other key is not representable.
