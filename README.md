# namunaquiz game core in Dafny

This is a model of the game core of namunaquiz, a live quiz web application in the style of Kahoot.
The modelled parts are:

- the host's round engine: phases, countdown, answer map, the early end once everyone has answered, scoring and the option shuffle;
- the end-of-game overview: ranking, room statistics, accuracy and medals;
- the player's report: which history is shown, summary counts, and how each option is highlighted;
- the quiz editor: the option editor, the editor's question list, the JSON import and the save payload;
- the join page: the checks before a player row is created, and PIN input normalisation;
- PIN generation and medal colours.

The model is split into these Dafny modules:

- `Wrappers`: `Option` and `OrZero`. `OrZero` is JavaScript's `x || 0` on a counter that may be missing.
- `Decimal`: decimal rendering and parsing of naturals, used for `toString()`.
- `QuizTypes`: the shared records.
  - The editor's options are objects (`OptionCell`), because the editor writes into them in place.
  - The host's options are values (`Choice`).
- `GameLogic`: `generatePIN` and `getMedalColor`.
- `HostRunner`: the `Round` class, which holds the host component's state.
  - Its methods are the component's handlers.
  - The two React effects are explicit steps: `Tick` and `CheckAllAnswered`.
  - Writes to the database are recorded in an `effects` log.
- `HostGameOverview`: the sorted copy, the aggregates (with `Math.round` written in integer arithmetic) and the medals.
- `PlayerReport`: history selection, report statistics and option classification.
- `QuestionForm`: `handleOptionChange`, which works through aliasing, `handleCorrectChange`, and the two field inputs.
- `CreateQuiz`: the `CreatePage` class (title, question list, JSON box, alerts, an id counter) and `handleSave`.
- `JoinGame`: `handleJoin`, treating the store as a value queried as the page queries it, and the PIN field.

Inputs that are not part of the program become parameters:

- Every `Math.random()` draw is a `real` in [0, 1).
- The answers from the database are booleans or optional ids.
- The player's reply to `confirm` is a boolean.
- `crypto.randomUUID()` is a counter that hands out a new id at each call.

The model follows the code as written, which differs from a richer design in places:

- Answers are last-write-wins, with no phase guard.
- The quorum counts answer keys against all joined players, not present ones.
- No streaks or power-ups exist.
- The final leaderboard only raises a "Game Over" notice; no `finished` status is written.

## Model

| member | source | states |
|---|---|---|
| Wrappers.OrZero | src/components/game/HostRunner.tsx:120-123 | a missing counter reads as 0 and a present one as itself |
| Decimal.NatToString | src/lib/game-logic.ts:3 | the decimal rendering of a natural is a non-empty digit string |
| Decimal.ParseAfterRender | src/lib/game-logic.ts:3 | parsing the rendered digits gives back the number |
| Decimal.NoLeadingZero | src/lib/game-logic.ts:3 | a positive number's rendering does not start with '0' |
| Decimal.LengthOfRender | src/lib/game-logic.ts:3 | a number in [10^(k-1), 10^k) renders to exactly k digits |
| QuizTypes.OptionCell.constructor | src/app/admin/create/page.tsx:30 | a new option object holds the given id, text and flag |
| GameLogic.GeneratePin | src/lib/game-logic.ts:2-4 | the PIN number is in 100000..999999 for every draw in [0, 1) |
| GameLogic.PinString | src/lib/game-logic.ts:2-4 | the PIN text has six digits, does not start with '0', and parses back to the PIN number |
| GameLogic.GetMedalColor | src/lib/game-logic.ts:6-13 | ranks 0, 1, 2 map to yellow, slate-300 and amber (each iff), every other rank (negative ones included) to slate-500 |
| HostRunner.Pick | src/components/game/HostRunner.tsx:33 | `floor(random * (i + 1))` is a position in 0..i |
| HostRunner.ShuffleFromPermutes | src/components/game/HostRunner.tsx:32-35 | the remaining swap steps leave the multiset of elements unchanged |
| HostRunner.Shuffle | src/components/game/HostRunner.tsx:30-37 | the in-place swap loop over a copy yields exactly the Fisher-Yates specification for the given draws, has the input's length and is a permutation of it; the input is untouched |
| HostRunner.ShuffleFromKeepsCount | src/components/game/HostRunner.tsx:34 | the remaining swap steps keep the number of correct options |
| HostRunner.ShuffleKeepsCorrectness | src/components/game/HostRunner.tsx:49 | every shuffled option is a stored option with its own flag, and the number of correct options is unchanged |
| HostRunner.PermutationMembers | src/components/game/HostRunner.tsx:49 | every element of a permutation of a list is an element of that list |
| HostRunner.FirstCorrect | src/components/game/HostRunner.tsx:99 | `findIndex(o => o.isCorrect)`: -1 iff no option is correct, otherwise a correct option with none correct before it |
| HostRunner.Hit | src/components/game/HostRunner.tsx:102-108 | `answers[p.id] === correctIndex`: a player with no recorded answer never hits |
| HostRunner.ScorePlayer | src/components/game/HostRunner.tsx:101-124 | a player whose answer equals the correct index gets +1000, status correct and one more correct answer; every other player (no answer included) keeps the score, gets status incorrect and one more wrong answer; id and name are kept |
| HostRunner.ScoringRaisesOneCounter | src/components/game/HostRunner.tsx:101-124 | exactly one of the two counters rises by one, and no score or counter goes down |
| HostRunner.ScoreAll | src/components/game/HostRunner.tsx:101 | the scored list has the same players in the same order, each scored by the per-player rule |
| HostRunner.ScoreAllTotal | src/components/game/HostRunner.tsx:97-125 | a question raises the room's total score by exactly 1000 per correct answerer |
| HostRunner.NoCorrectOptionNoPoints | src/components/game/HostRunner.tsx:99-108 | with no option marked correct, no answer that is an option index earns points |
| HostRunner.NoCorrectFlagged | src/components/game/HostRunner.tsx:99 | no correct flag makes findIndex return -1 |
| HostRunner.NoHitsBelowZero | src/components/game/HostRunner.tsx:108 | when every answer is a non-negative index, none equals -1 |
| HostRunner.DistinctIdsCount | src/components/game/HostRunner.tsx:78-80 | a player list with distinct ids has as many ids as players |
| HostRunner.AllAnswered | src/components/game/HostRunner.tsx:78-80 | the early-end condition (question phase, a player, as many answer keys as players) never holds without an answer |
| HostRunner.EveryPlayerAnsweredEndsQuestion | src/components/game/HostRunner.tsx:77-84 | once every joined player has answered, the question ends early |
| HostRunner.StrayAnswerCanEndEarly | src/components/game/HostRunner.tsx:79-80 | the check counts keys, so an answer keyed by an id outside the roster can end the question while a listed player has not answered |
| HostRunner.ScoreWrites | src/components/game/HostRunner.tsx:129-136 | one score, status and counter update per scored player, in order |
| HostRunner.StatusResets | src/components/game/HostRunner.tsx:156-158 | one status-clearing update per player, in order |
| HostRunner.ClearStatuses | src/components/game/HostRunner.tsx:154 | every player keeps all fields except the answer status, which becomes null |
| HostRunner.QuestionTime | src/components/game/HostRunner.tsx:89 | the current question's time limit or 20: a loaded question's non-zero limit, otherwise 20; never 0 |
| HostRunner.Round.constructor | src/components/game/HostRunner.tsx:22-27 | the host starts with no questions, in the preview of question 0, the timer at 5, an empty answer map and the initial players |
| HostRunner.Round.LoadQuestions | src/components/game/HostRunner.tsx:45-50 | each fetched question is kept with its options shuffled by its own draws, in fetch order |
| HostRunner.Round.RecordAnswer | src/components/game/HostRunner.tsx:57-58 | the answer map is updated only at the sender's key, the last write winning; a repeat sender does not add a key, a new sender adds one |
| HostRunner.Round.CalculateScores | src/components/game/HostRunner.tsx:97-137 | with the current question loaded, every player is scored against its first correct option and one write per player is logged; without it nothing changes; scores never go down |
| HostRunner.Round.HandleTimerEnd | src/components/game/HostRunner.tsx:86-95 | TimerEnded: preview goes to question with the question's time limit (20 when falsy or not loaded), players and log unchanged; question is scored with one write per player (unchanged when not loaded) and goes to results with the timer at 0; results and leaderboard are left as they are |
| HostRunner.Round.Tick | src/components/game/HostRunner.tsx:67-74 | a running timer drops by exactly one and nothing else changes; at zero the step is exactly handleTimerEnd (TimerEnded: the preview/question/other-phase branches, including the scoring and the logged score writes); the timer invariant is kept |
| HostRunner.Round.CheckAllAnswered | src/components/game/HostRunner.tsx:77-84 | when the phase is question, there is a player and the number of answer keys equals the number of players, the step is exactly handleTimerEnd from the question phase (scored when loaded, score writes logged, players unchanged when not loaded, results, timer 0); otherwise nothing changes |
| HostRunner.Round.NextQuestion | src/components/game/HostRunner.tsx:139-165 | results goes to leaderboard. From the leaderboard with a question left: next index, preview, timer 5, no answers, statuses cleared, status resets and the new index logged. On the last question only a Game Over notice, with the state unchanged. Other phases are unchanged |
| HostGameOverview.RoundHalfUp | src/components/game/HostGameOverview.tsx:33 | `Math.round(n / d)`: the integer r with r - 1/2 <= n/d < r + 1/2 |
| HostGameOverview.RoundWithin | src/components/game/HostGameOverview.tsx:37 | a ratio between lo and hi rounds to a value between lo and hi |
| HostGameOverview.InsertPermutes | src/components/game/HostGameOverview.tsx:27 | inserting adds exactly that player to the multiset |
| HostGameOverview.InsertSorted | src/components/game/HostGameOverview.tsx:27 | inserting into a list sorted by descending score keeps it sorted |
| HostGameOverview.SortByScore | src/components/game/HostGameOverview.tsx:26-28 | a new list of the players' length (its order and permutation are SortByScoreCorrect) |
| HostGameOverview.SortByScoreCorrect | src/components/game/HostGameOverview.tsx:26-28 | the sorted copy has the players' length, is a permutation of them, and its scores do not increase (a missing score counts as 0) |
| HostGameOverview.ComputeStats | src/components/game/HostGameOverview.tsx:30-41 | the player count; the correct and wrong totals; the average score as the rounded total / players (0 with no players); the average accuracy as the rounded 100 * correct / (players * questions) (0 when either count is 0) |
| HostGameOverview.AvgAccuracyInRange | src/components/game/HostGameOverview.tsx:36-38 | when no player has more correct answers than there are questions, the average accuracy is in 0..100 |
| HostGameOverview.TotalCorrectBounded | src/components/game/HostGameOverview.tsx:34 | the correct total is at most players * questions under that bound |
| HostGameOverview.PlayerAccuracy | src/components/game/HostGameOverview.tsx:149 | the rounded 100 * correct / questions, 0 without questions, within 0..100 when the count is at most the question count |
| HostGameOverview.MedalIcon | src/components/game/HostGameOverview.tsx:43-48 | an icon exists iff the rank is 0, 1 or 2, namely trophy, medal and award |
| HostGameOverview.RankBadge | src/components/game/HostGameOverview.tsx:131 | positions below 3 show exactly getMedalIcon(index)'s medal (and only they show a medal); the others show their number index + 1 |
| HostGameOverview.PodiumMedalsDistinct | src/components/game/HostGameOverview.tsx:131 | the three podium places show three different medals |
| PlayerReport.SelectHistory | src/components/game/PlayerReport.tsx:25-44 | a non-empty initial history is shown; otherwise a stored non-empty list when the path names a game; otherwise the history stays as it is |
| PlayerReport.CountCorrect | src/components/game/PlayerReport.tsx:48 | the count is at most the length; it is 0 iff no item is correct and equals the length iff every item is |
| PlayerReport.Stats | src/components/game/PlayerReport.tsx:46-52 | total is the length; correct + incorrect = total; accuracy is the rounded 100 * correct / total, in 0..100, 0 for an empty history or no correct answer, 100 when all are correct |
| PlayerReport.Classify | src/components/game/PlayerReport.tsx:185-196 | each option gets exactly one highlight: correct iff it is the correct answer; chosen-wrong iff the player chose it and it is not correct; dimmed iff neither |
| PlayerReport.AtMostOneChosenWrong | src/components/game/PlayerReport.tsx:185-195 | at most one option of a question is marked as the player's wrong choice |
| PlayerReport.ShapeIndex | src/components/game/PlayerReport.tsx:209 | `optIndex % SHAPES.length` indexes inside the shapes array, and is the index itself when that is already in range |
| PlayerReport.IsPlayerAnswer | src/components/game/PlayerReport.tsx:185 | `optIndex === item.playerAnswerIndex`: no option is the player's answer when none was recorded |
| PlayerReport.IsCorrectAnswer | src/components/game/PlayerReport.tsx:186 | `optIndex === item.correctAnswerIndex`: no option is marked correct when no correct index was recorded |
| PlayerReport.IsWrongAnswer | src/components/game/PlayerReport.tsx:187 | neither correct nor chosen: with neither index recorded every option is dimmed |
| QuestionForm.SingleChoice | src/components/game/QuestionForm.tsx:27 | the flags after choosing option k are true at k and false everywhere else |
| QuestionForm.SingleChoiceCount | src/components/game/QuestionForm.tsx:24-30 | choosing an option in range leaves exactly one flag set; an index out of range leaves none |
| QuestionForm.HandleOptionChange | src/components/game/QuestionForm.tsx:18-22 | the edited option object is shared, so the question handed in sees the new text too; other options' texts, the edited option's id and all flags are unchanged |
| QuestionForm.HandleCorrectChange | src/components/game/QuestionForm.tsx:24-30 | new option objects with the same ids and texts and the option count kept; the flags are those of choosing optIndex; the question's other fields are kept |
| QuestionForm.ChooseTimeLimit | src/components/game/QuestionForm.tsx:50-59 | the new time limit is the chosen value, one of 10, 20, 30, 60; id, text and options are kept |
| QuestionForm.ChangeText | src/components/game/QuestionForm.tsx:44 | the question text is replaced; id, time limit and options are kept |
| CreateQuiz.Removed | src/app/admin/create/page.tsx:46-47 | splicing out position i shortens the list by one and keeps the others in order |
| CreateQuiz.ImportedTimeLimit | src/app/admin/create/page.tsx:58 | the time limit or 20: a given non-zero limit is kept, a missing or zero one becomes 20 |
| CreateQuiz.Payload | src/app/admin/create/page.tsx:89-95 | one row per question, in order, carrying the quiz id and the question's fields, with order_index equal to its position |
| CreateQuiz.HandleSave | src/app/admin/create/page.tsx:73-95 | refused iff the title is empty (checked first) or, with a title, there are no questions; a failed quiz insert stops before the rows; otherwise the rows are the payload: one row per question, carrying that question's text, limit and options, at its own order_index |
| CreateQuiz.CreatePage.constructor | src/app/admin/create/page.tsx:18-22 | the page starts with no title, no questions and a closed, empty JSON box |
| CreateQuiz.UuidInjective | src/app/admin/create/page.tsx:26 | two different calls of the id generator never hand out the same id |
| CreateQuiz.CreatePage.NextId | src/app/admin/create/page.tsx:26 | each call hands out the id of the current counter and advances the counter, so (by UuidInjective) no id repeats |
| CreateQuiz.CreatePage.AddQuestion | src/app/admin/create/page.tsx:24-37 | exactly one question is appended, with an empty text, time limit 20 and four new empty options all marked incorrect; the existing questions are unchanged |
| CreateQuiz.CreatePage.UpdateQuestion | src/app/admin/create/page.tsx:39-43 | only position i is replaced; the length and the other entries are unchanged |
| CreateQuiz.CreatePage.RemoveQuestion | src/app/admin/create/page.tsx:45-49 | the list becomes the old one with position i spliced out |
| CreateQuiz.CreatePage.ImportOne | src/app/admin/create/page.tsx:55-64 | an imported question keeps its text, defaults its time limit, and gets one new option object per given option with that option's text and flag |
| CreateQuiz.CreatePage.HandleJsonImport | src/app/admin/create/page.tsx:51-71 | unusable input changes nothing but raises the "Invalid JSON format" alert; usable input appends the mapped questions after the existing ones in input order and closes and clears the JSON box |
| JoinGame.UpperChar | src/app/play/page.tsx:112 | ASCII case mapping: each of a-z becomes the matching capital (32 code points lower), every other character is kept (non-ASCII letters are outside the model) |
| JoinGame.Select | src/app/play/page.tsx:29-33 | a chain of `.eq` filters: a row is selected iff it is in the table and matches, never more rows than the table has |
| JoinGame.PinInput | src/app/play/page.tsx:111-114 | the typed text cut to six characters, each upper-cased by the ASCII map, so at most six characters are stored |
| JoinGame.PinInputIdempotent | src/app/play/page.tsx:112-114 | normalising an already normalised PIN changes nothing |
| JoinGame.Suffix | src/app/play/page.tsx:57 | the suffix is in 1000..9999 for every draw in [0, 1) |
| JoinGame.SuggestedName | src/app/play/page.tsx:57-58 | the suggestion is the name, '#', then four digits with no leading zero that parse back to the suffix |
| JoinGame.SessionsWithPin | src/app/play/page.tsx:29-32 | `.eq('pin', pin)`: a session is selected iff it is in the store and carries the PIN |
| JoinGame.PlayersNamed | src/app/play/page.tsx:49-53 | the two `.eq` filters: a player row is selected iff it is in the store, belongs to the session and carries the name |
| JoinGame.LookupSession | src/app/play/page.tsx:29-35 | `.single()`: a session is found iff exactly one row carries the PIN, and then it is that row |
| JoinGame.NameTaken | src/app/play/page.tsx:49-56 | `.maybeSingle()`: the name counts as taken iff exactly one row of the session carries it; for several rows the query errors and the name counts as free |
| JoinGame.NoMatchIff | src/app/play/page.tsx:29-33 | a filtered query returns no row iff no row matches |
| JoinGame.OneMatchIff | src/app/play/page.tsx:33 | a filtered query returns a single row iff exactly one row matches |
| JoinGame.HandleJoin | src/app/play/page.tsx:18-89 | an empty PIN is refused iff empty; an unknown PIN iff the lookup fails; a finished game iff its status is finished; a declined rename iff the name is taken and the player refuses, carrying the suffixed suggestion. A join creates a row for that session with score 0 and the new id, named the suggestion exactly when the name was taken. A join error only when the insert fails |
| JoinGame.NoneNamedIff | src/app/play/page.tsx:49-56 | the name query finds no row iff no player of that session carries the name |
| JoinGame.DuplicatedNameIsKept | src/app/play/page.tsx:54-56 | when several rows already carry the name, `.maybeSingle()` reports no player, and the name is kept as typed |

## Left out

- Network I/O is not modelled: the database reads and writes, `updateSessionState`, the broadcast channel and sessionStorage.
  - Reads become parameters (the store value, the stored history, the insert outcome).
  - Writes made by the host are a recorded `effects` log; the model does not wait for the writes, and their completion order is not modelled.
- `setTimeout` and React effect scheduling become the explicit `Tick` and `CheckAllAnswered` steps.
  - The model makes no claim that scoring happens exactly once when the timer and the quorum fire together.
- Randomness is a parameter: every `Math.random()` draw is a mathematical real in [0, 1), not an IEEE double.
  - `crypto.randomUUID()` is a counter of issued ids; `CreateQuiz.UuidInjective` shows that distinct counter values give distinct ids.
- `Math.round` and float division are stated in integer arithmetic (round half up). JavaScript's float error at the halves is not modelled.
- `HostRunner.Round.CalculateScores`: the source dereferences a question that is not loaded and throws inside an async function. The model leaves the players unchanged in that case.
- JSX rendering is not modelled: CSS classes, colours and shapes beyond the index bound, and the `loading` and `saving` flags.
- The leaderboard view sorts `players` in place while rendering (src/components/game/HostRunner.tsx:249). This mutation of React state is not modelled.
- HostGameOverview.SortByScoreCorrect: `Array.prototype.sort` is stable, and so is the model's insertion sort, but stability is not stated.
- HostGameOverview.SortByScoreCorrect: the comparator `b.score - a.score` with a missing score is treated as 0 (NaN in JavaScript gives an engine-defined order).
- JoinGame.UpperChar: only ASCII case mapping is modelled. JavaScript's `toUpperCase()` also maps letters outside ASCII ('é' to 'É'), and some to two characters ('ß' to 'SS').
- JoinGame.PinInput: the six-character bound holds only when no typed character grows under case mapping. In the source, six typed 'ß' are stored as twelve characters. The browser's `maxLength` also counts UTF-16 code units while the model counts Unicode scalar values, so six typed emoji are kept in the model where the browser keeps three.
- PlayerReport.SelectHistory: a stored JSON value that is not a list is modelled as unparseable. The source would also install a non-empty non-list value such as a string.
- QuestionForm.HandleCorrectChange: the `map` that builds new option objects is a loop, because allocating objects needs a method.
- CreateQuiz.HandleJsonImport: JSON parsing is not modelled. The input arrives as "malformed" or as a list of entries.
  - An entry without an `options` array makes the import fail.
  - An option's missing `text` or `isCorrect` (`undefined` in JavaScript) is not modelled.
- CreateQuiz.HandleSave: `auth.getUser()` and the quiz insert are a parameter (the new quiz id, or none on failure). The alerts and the navigation to the dashboard are the outcome value.
- JoinGame.HandleJoin: `setName(finalName)`, `setLoading` and storing the player id in sessionStorage are not modelled. The outcome carries the final name and the new row.
- JoinGame.HandleJoin: `confirm` and `alert` dialogs are parameters and outcomes.
- Features the code does not implement are not modelled: streaks, power-ups, presence tracking, first-answer-wins, auto-advance and a persisted `finished` status.
- Parts of the application outside this core are not part of this model: the dashboard, settings, theme, sounds, lobby, login, layouts, UI components and the edit page.
