# Code-line ordering quiz, modelled in Dafny

The system is a browser quiz. It shows a question and the lines of a code
snippet in scrambled order. The learner puts the lines back in order by
moving them between two pads: the options pad, which holds the lines not yet
used, and the answer pad. The page keeps the drawn quiz, the current
position and the score, and saves its progress in one `localStorage` slot.
At the end it reports a rounded percentage and compares it with 80.

The repository holds two drafts of the page logic. Each has its own module,
because they behave differently:

- `QuizPage` models `script.js`:
  - it puts every question of the bank, of all languages and levels
    together, into one list and draws at most 20 of them through a real
    downward swap shuffle;
  - each render shuffles the answer lines again, so Previous shows a
    question's lines in a new order;
  - it compares answer lines exactly;
  - it schedules the next question after any complete answer, right or wrong.
- `QuizPage2` models `script2.js`:
  - it draws from the questions of one level and one language;
  - it trims lines before comparing them;
  - it moves on only after a correct answer;
  - it saves the language and the level with the progress, and falls back
    to defaults on load.
  - Its shuffle assigns each slot its own value (`[a[i], a[j]] = [a[i], a[j]]`),
    so it returns the lines in their original order. The model keeps this
    behaviour (`QuizPage2.Shuffle` ensures `r == s`). As a result, a question
    is shown with its lines already in the correct order, and a quiz starts
    with the first `min(20, n)` questions of the pool in bank order.

`QuizBasics` holds what both drafts share:

- the question record;
- the parsed bank: each JSON object is the sequence of its entries in the
  order `Object.values` visits them, with no key twice, as `JSON.parse` builds it;
- the index a shuffle step draws;
- moving a line between the pads;
- JavaScript's `String.prototype.trim`;
- the percentage `Math.round(score / length * 100)` as a JavaScript value:
  a whole number, `Infinity` or `NaN`.

Each page is a class `Page`. Its fields are the handler's closure variables,
plus:

- the contents of the two pads, as sequences of strings;
- the storage slot, as an `Option`;
- a count of scheduled `nextQuestion` timers (`pendingAdvances`);
- in `QuizPage2`, the completion message.

`Valid()` holds after every operation. It says that while a question is
current, the two pads together hold exactly that question's lines as a
multiset. In `QuizPage2` it also says that the language and the level are
never empty.

Inputs the drafts take from outside are parameters:

- the slot's contents when the page loads (a constructor argument);
- the parsed `questions.json`, given to the method `Loaded` when the fetch
  succeeds. The buttons work before that, so `Loaded` is taken in any state;
- the draws of `Math.random` for each shuffle, as a function from the loop
  index `i` to a number, reduced to an index `j <= i`;
- for `script.js`, the learner's answer to the final `confirm` dialog
  (`retry`).

A timer firing is the separate call `FireAdvance`.

## Model

| member | source | states |
|---|---|---|
| QuizBasics.Get | script2.js:56 | property access finds a value exactly when some entry has the key, the value found is stored under that key, and in an object without repeated keys it is the value of the entry with that key |
| QuizBasics.Pick | script.js:18 | the index a shuffle step exchanges with is never above the loop index |
| QuizBasics.Move | script.js:86-91 | the moved line becomes the last line of the target pad, the source pad loses exactly that line, the other pad is untouched when a line is dropped onto its own pad, and the two pads together keep the same multiset of lines |
| QuizBasics.TrimStartIsSuffix | script2.js:167 | trimming the front removes a run made only of whitespace and line terminators, and leaves a suffix that does not start with one |
| QuizBasics.TrimEndIsPrefix | script2.js:167 | trimming the back removes a run made only of whitespace and line terminators, and leaves a prefix that does not end with one |
| QuizBasics.TrimIsInterior | script2.js:167 | trim returns a contiguous part of the string with only whitespace before and after it, and neither end of the result is whitespace |
| QuizBasics.TrimIgnoresPadding | script2.js:174 | whitespace added before and after a line does not change its trimmed value |
| QuizBasics.RoundedPercent | script.js:129 | the percentage is the integer nearest to 100 * score / length, halves rounded up |
| QuizBasics.ReachesEighty | script.js:132 | the percentage passes `>= 80` exactly when 200 * score >= 159 * length, or, for an empty quiz, exactly when score > 0 (Infinity passes, NaN does not) |
| QuizBasics.PercentInRange | script2.js:213 | a score no larger than a non-empty quiz gives a whole percentage of at most 100, and a full score gives exactly 100 |
| QuizPage.SwapDownPermutes | script.js:17-20 | the downward exchange loop returns a permutation of its input (same multiset) |
| QuizPage.Exchange | script.js:19 | the array after the destructuring swap is the input with slots i and j exchanged |
| QuizPage.Shuffle | script.js:15-22 | the loop over a fresh copy returns the downward exchange sequence of the input under the given draws; the argument is a value and is not changed |
| QuizPage.CollectQuestions | script.js:46-52 | the nested loops build the concatenation of every question array of every outer value, in iteration order |
| QuizPage.ConcatMembers | script.js:49-51 | a question is in one language's concatenation exactly when it is in one of its arrays |
| QuizPage.FlattenMembers | script.js:48-52 | a question is in the list exactly when it is in some array of some outer value of the bank |
| QuizPage.FlattenAppend | script.js:48-52 | the list of a bank made of two parts is the first part's list followed by the second part's |
| QuizPage.Draw | script.js:55 | the drawn quiz has min(20, n) questions, all taken from the list without repetition beyond the list's own (sub-multiset) |
| QuizPage.MatchesIff | script.js:102 | a complete answer passes the position-by-position test exactly when it equals the correct lines |
| QuizPage.Summary | script.js:128-133 | the dialog shows the rounded percentage and offers the next level exactly when it is at least 80 |
| QuizPage.Page.constructor | script.js:9-12 | the page starts with no questions, no quiz, position 0, score 0, empty pads, no timers and the given slot |
| QuizPage.Page.Loaded | script.js:45-58 | from any state: the list is built from the bank; a saved snapshot replaces position, score and quiz as it is; without one a new quiz is drawn and position and score stay; the current question, if any, is then rendered and saved, and otherwise pads and slot stay |
| QuizPage.Page.DrawQuiz | script.js:55 | the quiz becomes the first min(20, n) questions of the shuffled list |
| QuizPage.Page.SaveProgress | script.js:24-29 | the slot holds the current position, score and quiz |
| QuizPage.Page.LoadProgress | script.js:31-40 | an empty slot changes nothing and reports false; otherwise the three saved values are taken as they are |
| QuizPage.Page.SaveLoadRoundTrip | script.js:24-40 | a save followed by a load gives back the position, score and quiz |
| QuizPage.Page.RenderQuestion | script.js:63-76 | without a current question nothing changes; otherwise the answer pad is emptied, the options pad gets the shuffled lines of the question, and a snapshot is saved |
| QuizPage.Page.MoveAnswer | script.js:86-93 | the clicked line moves to the end of the other pad, the pads' multiset is kept, and the answer is then checked |
| QuizPage.Page.CheckAnswerCompletion | script.js:96-106 | an incomplete answer changes nothing; a complete one scores exactly when it equals the correct lines, and schedules the next question either way; a check with no current question raises the TypeError |
| QuizPage.Page.NextQuestion | script.js:109-116 | the position rises by one and the next question is rendered; from the last question the quiz ends instead, and an accepted dialog clears the slot and restarts the page |
| QuizPage.Page.PrevQuestion | script.js:118-122 | at position 0 nothing changes; otherwise the position drops by one and that question is rendered; the score never changes |
| QuizPage.Page.FireAdvance | script.js:105 | a scheduled timer runs nextQuestion once and is used up: the next question is shown with quiz, score and list kept, or the quiz ends; a declined dialog keeps everything but the position, and an accepted one reloads the page |
| QuizPage.Page.EndQuiz | script.js:128-139 | the outcome is the summary of score and quiz length; a declined dialog changes nothing; an accepted one clears the slot and reloads, leaving the page as the constructor does with an empty slot |
| QuizPage2.Reassign | script2.js:22 | the self-assignment leaves the array as it was |
| QuizPage2.Shuffle | script2.js:18-25 | the draft's shuffle returns its input unchanged at every position, whatever the draws |
| QuizPage2.Pool | script2.js:56 | a non-empty pool is the array stored under the language key inside the value stored under the level key, and in a bank without repeated keys the array stored there is the pool |
| QuizPage2.EveryLineMatchesIff | script2.js:174 | the `every` test holds exactly when each answered line equals the trimmed expected line at its position |
| QuizPage2.IsCorrectIff | script2.js:167-174 | a complete answer is correct exactly when every trimmed answer line equals the trimmed expected line at the same position |
| QuizPage2.PaddedLinesAreCorrect | script2.js:167-174 | the expected lines in their own order are accepted even when each carries extra whitespace around it |
| QuizPage2.Summary | script2.js:212-217 | the completion shows the rounded percentage and "Great job" exactly when it is at least 80 |
| QuizPage2.Decode | script2.js:40-49 | a missing position or score gives 0, a missing quiz gives [], a missing or empty language gives "python", a missing or empty level gives "beginner", a field that is present (and, for language and level, not empty) is kept as stored, and language and level are never empty |
| QuizPage2.DecodeEncode | script2.js:27-49 | what a save writes, a load reads back unchanged when the language and the level are not empty |
| QuizPage2.Page.constructor | script2.js:8-15 | the page starts with an empty bank and pool, no quiz, position 0, score 0, language "python", level "beginner", empty pads, no completion, no timers and the given slot |
| QuizPage2.Page.Loaded | script2.js:72-79 | from any valid state: the bank is stored; resumes exactly when the slot holds a record whose quiz is not empty, restoring the decoded values, rendering, and keeping the slot and the pool; otherwise starts a new quiz from the pool of the loaded (or current) language and level, and with an empty pool only the loaded values change |
| QuizPage2.Page.SaveProgress | script2.js:27-38 | the slot holds position, score, quiz, language and level |
| QuizPage2.Page.LoadProgress | script2.js:40-53 | an empty slot changes nothing and reports false; otherwise the five values are restored with their defaults |
| QuizPage2.Page.StartNewQuiz | script2.js:55-67 | an empty pool changes neither quiz, position, score, slot nor pads; otherwise the quiz is the first min(20, n) questions of the pool, position and score are 0, the slot is cleared and the first question is rendered |
| QuizPage2.Page.Begin | script2.js:62-66 | the new quiz starts at position 0 with score 0 and an empty slot, rendered |
| QuizPage2.Page.RenderQuestion | script2.js:87-104 | with a current question the answer pad is emptied and the options pad holds the question's lines in their own order; past the end the quiz ends |
| QuizPage2.Page.EndQuiz | script2.js:212-220 | the completion message is the summary of score and quiz length, and both pads are emptied |
| QuizPage2.Page.Click | script2.js:153-163 | the clicked line moves to the end of the other pad, the pads keep the question's lines, and the answer is then checked |
| QuizPage2.Page.Drop | script2.js:139-149 | a dropped line moves to the end of the pad it is dropped on, and the answer is then checked |
| QuizPage2.Page.MoveLine | script2.js:146 | `appendChild` on the page's pads moves one line and keeps the pads holding the question's lines |
| QuizPage2.Page.CheckAnswerCompletion | script2.js:165-184 | an incomplete answer changes nothing; a complete one scores and schedules the next question exactly when the trimmed lines match; a wrong one changes nothing |
| QuizPage2.Page.NextQuestion | script2.js:195-199 | the position rises by exactly one and the page is rendered; the slot then holds the new position with the old score, quiz, language and level; nothing else changes |
| QuizPage2.Page.PrevQuestion | script2.js:201-206 | at position 0 nothing changes; otherwise the position drops by one and that question is rendered; only the position, the pads and the completion message can change |
| QuizPage2.Page.FireAdvance | script2.js:182 | a scheduled timer runs nextQuestion once and is used up; the slot then holds the new position with the old score, quiz, language and level |

## Left out

- The DOM is not modelled. This covers element lookup, `innerHTML`/`textContent` rendering, the question text, the CSS classes `correct`, `incorrect`, `dragging` and `drag-over`, and the score display. Only the pads' contents, and in `script2.js` the completion message, are kept.
- The disabled Previous and Next buttons after `script2.js`'s endQuiz (lines 221-222) are not modelled. The model lets both operations still be called.
- Drag-and-drop event wiring and `dataTransfer` are not modelled. A drop is "append this line to that pad" (`QuizPage2.Page.Drop`). The check that the dragged element's text matches the transferred text always holds in the model.
- `fetch` and JSON parsing are not modelled. The parsed bank is the argument of `Loaded`, and a failed fetch never calls it. The bank is required to have no repeated keys, which `JSON.parse` guarantees (a repeated key in the file keeps its last value).
- The order in which `Object.values` visits keys is taken as the entry order of the bank; the rule that integer-like keys come first, in ascending order, is not modelled.
- Strings are Dafny strings of Unicode scalar values, not JavaScript's UTF-16 code units.
- `localStorage` is one optional slot. In `script.js` the record is assumed to have the shape `saveProgress` writes. In `script2.js` each key may be missing.
- The shapes of records written by one draft and read by the other are not modelled beyond missing keys.
- `alert`, `confirm` and `location.reload` are not modelled. The answer to `confirm` is the `retry` parameter. A reload leaves the page as the constructor does with an empty slot; the new page's fetch is the caller's next call to `Loaded`.
- `setTimeout` delays are not modelled. A scheduled advance is counted and runs when the caller calls `FireAdvance`. Overlapping timers are allowed, as in the source.
- Randomness is not modelled. The draws are a parameter.
- QuizPage.SwapDownPermutes: states that the shuffle is a permutation, not that it is unbiased.
- Floating point in `Math.round(score / length * 100)` is written as exact integer rounding, halves up. An empty quiz gives `Infinity` (score above 0) or `NaN` (score 0), as in JavaScript.
- The commented-out language and level selectors (`script2.js`, lines 231-240) are not modelled.
- Neither draft implements the following, so the model does not either:
  - a re-shuffle when a shuffle returns the original order;
  - validation of a loaded record: `script.js` trusts it completely, and `script2.js` only applies `||` defaults;
  - moving on to a next level;
  - a guard against scoring the same question twice. After Previous, a question can be answered and scored again.
