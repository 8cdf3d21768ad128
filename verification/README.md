# Career quiz core, modelled in Dafny

A model of the logic of the single-page career quiz (`app.js`): a session record
holding the loaded dimensions, questions and profiles, a per-dimension integer
score map and a question cursor `qIndex`. Loading fills the record and zeroes
the scores; each click on an option adds that option's deltas into the score
map and moves the cursor on by one; after the last question every profile is
given an affinity (the dot product of the score map with the profile's
weights), the profiles are sorted by descending affinity with a stable sort,
and the first five are listed. A progress line shows `current / total` and a
rounded percentage.

Modules, one per component:

- `Wrappers` (`wrappers.dfy`): `Option` for JSON fields that may be absent, `Result` for the load.
- `QuizData` (`data.dfy`): questions, options (`Choice`), profiles, the two parsed documents.
- `Scores` (`scores.dfy`): `InitScores` and the addition of an option's deltas (`Added`, `Apply`).
- `Affinity` (`affinity.dfy`): the affinity as a sum over the set of score keys (`Dot`, `AffinityOf`).
- `Ranking` (`ranking.dfy`): stable insertion sort by descending score, `Top` (the `slice`), `Ranked`.
- `Progress` (`progress.dfy`): the percentage in exact integer arithmetic, the clamp, the bar.
- `Quiz` (`session.dfy`): the `Session` class (load, add scores, answer, score a profile, results, progress) and the ranking specification.
- `QuizScenarios` (`scenarios.dfy`): worked cases with two dimensions and two profiles.

Two behaviours one might expect of such a quiz are not what `app.js` does, and the model follows the code:

- One might expect delta keys that are not declared dimensions to be ignored. They are not: `addScores` creates them in the score map, and `scoreProfile` sums over every key of the score map, so they do contribute to affinities (`AddedKeepsUndeclaredKeys`, `AffinityAdded`, `UndeclaredKeyCounts`).
- One might expect the bar to reach 100% only on the results screen. That holds only when there are fewer than 200 questions; from 200 questions on, the last question already rounds to 100% (`PercentAtLastQuestion`, `PercentBelowFull`).

`app.js` has no backward navigation, answer log, revert or restart logic (restart is a page reload), so none is modelled.

## Model

| member | source | states |
|---|---|---|
| `Scores.InitScores` | app.js:16-20 | the keys are exactly the given dimensions, each bound to 0 |
| `Scores.AddedCommutes` | app.js:86-91 | adding two options' deltas gives the same scores in either order |
| `Scores.AddedEmpty` | app.js:86-91 | an option with an empty `add` object leaves the scores unchanged |
| `Scores.AddedKeepsUndeclaredKeys` | app.js:88-90 | a delta key outside the declared dimensions becomes a new score key holding the delta, and the keys are the dimensions plus the delta keys |
| `Affinity.DotRemove` | app.js:124-126 | the sum may take the keys in any order: it splits at any key into that key's product plus the sum of the rest |
| `Affinity.NoDimsScoresZero` | app.js:123-126 | a profile without `dims` has affinity 0 whatever the scores |
| `Affinity.InitialAffinityZero` | app.js:121-128 | with freshly initialised scores every profile has affinity 0 |
| `Affinity.AffinityAdded` | app.js:121-128 | adding deltas raises a profile's affinity by exactly the affinity of the deltas, undeclared keys included |
| `Ranking.Insert` | app.js:138 | inserting an entry yields the old entries plus that entry, as a multiset |
| `Ranking.SortByScore` | app.js:138 | the sort returns a permutation (same multiset) of its input in non-increasing score order |
| `Ranking.SortStable` | app.js:138 | for every score, the entries with that score appear in the same order as in the input (stability) |
| `Ranking.StableSortUnique` | app.js:138 | two non-increasing sequences with the same per-score entry order are equal, so any stable descending sort agrees with `SortByScore` |
| `Ranking.Top` | app.js:139 | `slice(0, n)` keeps a prefix of length `min(n, |s|)` |
| `Ranking.RankedShape` | app.js:136-139 | the list has `min(5, n)` entries, is non-increasing and is drawn from the input (sub-multiset) |
| `Ranking.RankedStable` | app.js:136-139 | for every score, the listed entries with that score are a prefix of the input's entries with that score |
| `Ranking.RankedLeftOut` | app.js:136-139 | every entry left out of the list scores no higher than every entry kept |
| `Progress.RoundHalfUp` | app.js:34 | the result is the integer within one half of `a / b`, a half going up (as `Math.round`) |
| `Progress.RoundHalfUpUnique` | app.js:34 | no other integer is within that half, so the integer formula is exactly `Math.round` |
| `Progress.Clamp` | app.js:35 | the result lies in 0..100 and equals the input when the input already does |
| `Progress.ProgressOf` | app.js:22-40 | no questions shows the loading state with an empty bar; otherwise the counter is `min(qIndex + 1, total)` and the width lies in 0..100 |
| `Progress.PercentInRange` | app.js:33-35 | for `qIndex <= total` the rounded percentage is at most 100, so the clamp changes nothing |
| `Progress.PercentAtStart` | app.js:34 | before the first answer the percentage is 0 |
| `Progress.PercentMonotone` | app.js:34 | a later question never shows a smaller percentage |
| `Progress.PercentAtLastQuestion` | app.js:34 | the last question shows 100% if and only if there are at least 200 questions |
| `Progress.PercentBelowFull` | app.js:34 | with fewer than 200 questions no question shows 100% |
| `Quiz.RecommendationsSpec` | app.js:136-139 | the results list has `min(5, |profiles|)` entries, each an input profile with its own affinity, non-increasing, ties in input order, none left out scoring higher than one kept |
| `Quiz.InitialRecommendations` | app.js:136-139 | with all scores zero the list is the first five profiles in input order |
| `Quiz.Session.constructor` | app.js:8-14 | the initial record: no data, empty scores, cursor 0 |
| `Quiz.Session.Load` | app.js:42-66 | a failed load changes nothing; a successful one defaults missing fields to empty lists, sets the scores to `InitScores(dimensions)` and the cursor to 0, and reports no content (no question shown) exactly when the question list is empty |
| `Quiz.Session.AddScores` | app.js:86-91 | a missing `add` changes nothing; otherwise each delta key holds its old value (0 if absent) plus the delta, keys of both maps are kept, every other key is unchanged, and only `scores` is written |
| `Quiz.Session.Answer` | app.js:111-115 | the chosen option's deltas are added, the cursor moves on by one and never passes the question count, and the quiz is finished exactly when the cursor reaches the question count |
| `Quiz.Session.ScoreProfile` | app.js:121-128 | the loop's total equals the affinity of the profile with the current scores |
| `Quiz.Session.Results` | app.js:136-139 | the list computed is the results list specified by `Recommendations` |
| `Quiz.Session.ProgressBar` | app.js:22-40 | on the results screen the bar is 100%; with no questions it is empty; at question `i` of `n` it shows `i + 1 / n` and the rounded percentage, within 0..100 |
| `QuizScenarios.InitDims` | app.js:16-20 | `initScores(["data", "field"])` is `{data: 0, field: 0}` |
| `QuizScenarios.ScoresAfterA` | app.js:86-91 | choosing `A` (`data: 2`) gives the scores `{data: 2, field: 0}` |
| `QuizScenarios.RankingAfterA` | app.js:121-139 | with those scores the list is P1 (2) then P2 (0) |
| `QuizScenarios.ScoresAfterB` | app.js:86-91 | choosing `B` (`field: 3`) gives the scores `{data: 0, field: 3}` |
| `QuizScenarios.RankingAfterB` | app.js:121-139 | with those scores the list is P2 (3) then P1 (0) |
| `QuizScenarios.UndeclaredKeyCounts` | app.js:86-128 | an option adding to an undeclared key `extra` creates that score key and moves a profile weighted on `extra` |

## Left out

- DOM work: the card templates, button creation and `onclick` wiring, the progress texts and bar style writes. Only the values they display are modelled (`ProgressBar`, the results list).
- `fetch`, `res.json()`, the HTTP status checks and `console.error`: the load takes the two documents already parsed, or an abstract `LoadError`. The retry and restart buttons reload the page (`location.reload()`), which is outside the model.
- Floating point in `updateProgress`: the percentage is computed with exact rational rounding. Where `qIndex / total * 100` is not exactly representable and lands on the other side of a half, `Math.round` on the float could differ from the model by one.
- JavaScript numbers: deltas and weights are unbounded integers; non-integer, non-numeric or beyond-2^53 values in the JSON, and the `|| 0` coercion of `NaN`, are not modelled.
- The enumeration order of `Object.entries`/`Object.keys`: the model adds and sums over key sets and proves the result independent of the order (`DotRemove`, the set loop of `AddScores`).
- `Quiz.Session.Answer` requires a current question and an existing option, because a click can only come from a rendered option button; a question with no options leaves the quiz stuck, as in the page.
- Malformed list entries are not modelled: every question has an `options` list, and every question and profile is an object. In the page, a question without `options` makes `renderQuestion` throw. For the first question, rendered from `loadData`, the throw is caught by the load's `try` and the load-error card is shown. For any later question, rendered from the click handler, the question text has already been written into the card, the throw is uncaught, and the page stays on that question with no buttons and no error card. A `null` question throws when its text is read, and a `null` profile throws when the results are computed, so no results list appears.
- Keys that name `Object.prototype` members (`constructor`, `toString`, `__proto__`, ...) are treated as ordinary keys. In the page, `state.scores` and a profile's `dims` are plain objects, so such a key reads the inherited value: a missing `constructor` weight makes the affinity `NaN`, adding to `toString` concatenates onto the function's text, and assigning to `__proto__` is ignored. "A missing key reads 0" (`Scores.Get`) and hence `Added`, `Dot` and `AffinityOf` hold for all other keys only.
- `tags || []` is applied only when rendering a result; tags are carried as a plain list and play no part in scoring.
