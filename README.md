# Quiz session model

A Dafny model of the quiz page of a small React quiz application. The page
loads the questions of one category, shows one question at a time with its
answer options, and scores each form submission. On the last question it
adds the player's result to a per-category leaderboard and passes a summary
to the result page. The model covers the page's state and its transitions:

- `Questions`: the question data, how a submitted answer key is scored
  (`correct_answers["<key>_correct"] === "true"`), the scoring loop, and the
  projection of a question onto the ordered keys of its offered answers.
- `Leaderboard`: the leaderboard document, a map from category to a list
  of entries, and the merge that appends one entry.
- `Quiz`: the class `QuizSession`. Its fields are the page's state
  variables (`questions`, `index`, `current`, `selected`, `score`, `failed`,
  `buttonText`). Its methods are the initial state, the effect that loads
  the fetched questions, answer selection, option building and the form
  action `NextQuestion`.
- `Scenarios`: whole sessions driven through the class's contracts alone.

The model follows the code on these points, where a cleaner design might
differ:

- A question earns one point for each submitted key marked correct. It
  does not earn one point per question.
- A question counts as failed when none of its submitted keys is correct.
  This includes an empty submission.
- The summary for the result page carries the failed list from before the
  final submission. The state update that records a failed last question is
  queued, so the summary does not see it. `SingleQuestionSkipped` shows
  this.
- The button label changes only when the quiz moves on. With a single
  question it reads "Next Question" until the end.
- The leaderboard is updated only when the route's category is neither
  undefined nor the empty string.
- An empty question list is not an error state. No question is shown.
  Loading new questions does not reset the index.
- A second submission for the same question is not rejected.

React's batched state updates are modelled as plain field assignments. The
only batching effect kept is the stale failed list in the summary. The
leaderboard document is modelled as a value. It is freshly parsed from
text before each merge, so updating it in place is the same as building a
new map. The submitted answer keys and the fetched leaderboard document are
parameters of `NextQuestion`. The updated document is part of its result.

## Model

| member | source | states |
|---|---|---|
| `Questions.CorrectnessKeyInjective` | src/pages/Quiz.tsx:76 | two different answer keys never look up the same correctness entry |
| `Questions.CorrectCount` | src/pages/Quiz.tsx:74-79 | the points for a submission are at most the number of submitted keys; they are zero exactly when no submitted key is marked correct, and equal the key count exactly when every key is |
| `Questions.CorrectCountIsPositionCount` | src/pages/Quiz.tsx:74-79 | the points equal the number of submitted positions whose key is marked correct: one point per correct key, duplicates included |
| `Questions.CorrectCountAppend` | src/pages/Quiz.tsx:74-79 | the points of a concatenated submission are the sum of the points of its parts, so the order of the keys does not matter |
| `Questions.ScoreAnswers` | src/pages/Quiz.tsx:70-82 | the loop returns the old score plus the number of correct keys, and reports failure exactly when no key was correct; an empty submission leaves the score alone and fails |
| `Questions.OptionKeys` | src/pages/Quiz.tsx:137-141 | the options are no more than the answers, and every option is the key of an answer whose text is neither null nor undefined |
| `Questions.OptionKeysComplete` | src/pages/Quiz.tsx:139-141 | every answer whose text is neither null nor undefined has its key among the options |
| `Questions.OptionKeysAppend` | src/pages/Quiz.tsx:139-141 | the projection distributes over concatenation, so the options keep the answers' order |
| `Questions.OptionKeysAllShown` | src/pages/Quiz.tsx:138-141 | when every answer has a text, the options are exactly all keys, in order |
| `Leaderboard.Merge` | src/pages/Quiz.tsx:109-117 | the merged document has the old categories plus this one; that category's list is its old list, or an empty one if it was missing, with the entry appended at the end; every other category is unchanged |
| `Leaderboard.MergeAppendOnly` | src/pages/Quiz.tsx:109-117 | no category is lost, and each old list is a prefix of its new list |
| `Leaderboard.MergeTwiceKeepsOrder` | src/pages/Quiz.tsx:113-117 | merging e1 then e2 into one category leaves its old list followed by [e1, e2] |
| `Leaderboard.MergeFreshCategoryTwice` | src/pages/Quiz.tsx:109-117 | two merges into a category that did not exist give the old document plus that category holding [e1, e2] |
| `Leaderboard.MergeCommutesAcrossCategories` | src/pages/Quiz.tsx:108-117 | merges into two different categories give the same document in either order |
| `Quiz.QuizSession.constructor` | src/pages/Quiz.tsx:23-29 | the page starts at index 0 with no questions and no question shown, an empty selection, score 0, no failed questions and the label "Next Question" |
| `Quiz.QuizSession.Load` | src/pages/Quiz.tsx:61-66 | loading keeps the fetched list and shows its first element (none if empty); from index 0 the shown question is the one at the index |
| `Quiz.QuizSession.Select` | src/pages/Quiz.tsx:144 | clicking an option makes its key the selected answer and changes nothing else |
| `Quiz.QuizSession.Options` | src/pages/Quiz.tsx:137-172 | the loop yields the option projection of the shown question, or nothing when no question is shown |
| `Quiz.QuizSession.NextQuestion` | src/pages/Quiz.tsx:69-134 | the score rises by the number of correct keys; the failed list gains the shown question exactly when no key was correct, and is otherwise unchanged; before the last question the index rises by one, the selection is cleared, the next question is shown and the label is "Finish" exactly when the new index is the last one, "Next Question" otherwise; on the last question the index, selection, shown question and label stay, and the result is the summary (new score, question count, the failed list from before this call, the category) together with the merged leaderboard when the category is set and non-empty; a shown question at the index and an index in range are both preserved |
| `Scenarios.ScienceRound` | src/pages/Quiz.tsx:69-134 | three "science" questions answered right, wrong, right give score 2 of 3, the second question as failed, and one saved entry |
| `Scenarios.SingleQuestionSkipped` | src/pages/Quiz.tsx:84-131 | with one question and an empty submission, the session records the question as failed but the summary's failed list is empty; the label stays "Next Question"; without a category nothing is saved |
| `Scenarios.FirstOptions` | src/pages/Quiz.tsx:137-141 | a question with answers a and b having text, and c null, offers ["answer_a", "answer_b"] |

The contracts above are stated with these definitions, which need no row of
their own: `Questions.IsCorrect` (src/pages/Quiz.tsx:76, a key scores when the
shown question's "_correct" entry is "true"), `Questions.CorrectnessKey`
(src/pages/Quiz.tsx:76), `Questions.Shown` (src/pages/Quiz.tsx:140),
`Leaderboard.NamesList` (src/pages/Quiz.tsx:108), `Leaderboard.Recorded`
(src/pages/Quiz.tsx:109-110) and the label rule of `NextQuestion`
(src/pages/Quiz.tsx:93-97).

## Left out

- Rendering, theming and layout (the JSX of the quiz page, `src/components/Main.tsx`, `src/pages/Custom404.tsx`) and the app bootstrap in `src/main.tsx`: presentation only.
- Fetching the questions and the leaderboard, and saving the leaderboard: network I/O through libraries outside this model. The fetched data are inputs. The document to save is an output.
- `JSON.parse` and `JSON.stringify` of the leaderboard text: the document is taken already parsed, as a map whose every value is a list of entries. A missing or unparsable `score_data` throws in the source. It is not modelled. The source tests whether the category's value is falsy, not whether the key is present. So it also replaces a stored `null` with an empty list, and the push throws on any other value that is not a list. The model tests for a missing key. The two agree only because every value of the modelled document is a list.
- The loading and error flags of the questions query: they only choose what is displayed.
- Navigation to the result page: modelled as the `Finished` outcome that carries its state.
- Route parameters and the user context: the category and the user name are constructor parameters.
- `console.log` calls: no effect on state.
- How the form collects the submitted keys: `NextQuestion` takes them as a list. The page's options are one radio group named "answers" whose checked input is the selected key (src/pages/Quiz.tsx:151-158), so the form submits at most one key. Scoring several keys, or the same key twice, is what the form action does with such a list, but the page never sends one.
- Categories that name a built-in property of JavaScript objects, such as "constructor": the source then reads that property instead of a missing list. The model treats every category as an ordinary key.
- Key order of the `answers` object: the model keeps answers in a list in object order. It does not model JavaScript's rule that integer-like keys come first.
- The `answers` object being `null`: that gives no options, the same as an empty answer list.
- A question whose `correct_answers` is `null` or `undefined`: the lookup at src/pages/Quiz.tsx:76 guards only the question, so it throws. In the model `correctAnswers` is always a map.
