# Sign-language quiz game: store, profile and quiz session

This project models the logic under the views of a single-page browser game that teaches
sign-language vocabulary (`app.js`). Three pieces are modelled:

- **`MemoryDB`**: the in-memory key/value store that stands in for localStorage. It is the class
  `MemoryStore.MemoryDB` and holds a `map` field.
- **The profile service.** `initProfile` creates the default `"user"` record when it is missing.
  `gainXP` adds the points of a finished game, counts the game and sets the level to
  `floor(xp / 50) + 1`. The stage lookup of `loadQuestions` is also here.
- **The quiz route's session.** The closure variables `index`, `score`, `locked` and `timeLeft`
  are fields of `Quiz.QuizSession`. Each browser event is one method:
  - a click on a choice (`Choose`);
  - the skip button (`Skip`);
  - one callback of the per-question interval (`Tick`);
  - one callback of the one-second `setTimeout` scheduled by an answer (`DelayedAdvance`).

  Real timers become these explicit events, so any interleaving of clicks and timer callbacks
  is a sequence of method calls. `timerRunning` stands for the live interval behind `timerId`.
  `pendingAdvances` counts timeouts that are scheduled but have not run yet.

The room get-or-create of the multiplayer view is modelled too (`Multiplayer`).

Store values are `Records.Value`: a profile, a room, or the `null` that `initProfile` passes as
its fallback. The pure parts are functions on the store's map (`InitProfileOf`, `GainXPOf`,
`VisitRoomOf`): the level formula, the stage lookup and the effect of each operation. The
methods perform the update on the shared store object and are proved equal to those functions.

The session's invariant `QuizSession.Valid` states the score accounting:
- `score` is 10 times the number of questions whose first accepted selection was correct.
- Only the shown question can be locked, and only after it has an accepted selection.
- The completion branch has called `gainXP(score)` once for every index past the last question
  that the session has reached, and always with the final score.

The double advance and double award the code allows are part of this model, because the model
follows the code:
- The completion branch returns before `clearInterval` (app.js:193 vs 245). If the last
  question is answered or skipped, the old interval keeps ticking and later runs `nextQ` and
  `gainXP` a second time (`Scenarios.LeftoverIntervalAwardsTwice`).
- The answer's `setTimeout` is never cancelled. A skip inside that second advances twice
  (`Scenarios.SkipDuringDelayAdvancesTwice`).

`QuizSession.ProfileAccount` turns the award count into the profile: for any sequence of events
the profile has gained `score` XP and one game per award, on top of the profile at route entry.

So XP is not awarded "exactly once" in general. `QuizSession.AwardsAccount` proves when it is:
there is exactly one award precisely when the session stopped at the first index past the last
question. `Scenarios.SkipThenTimeout` shows an ordering that ends that way with the timer stopped.
The evident intent is one award per quiz, with every way of leaving a question stopping its
countdown. The code does neither, and the model follows the code.

## Model

| member | source | states |
|---|---|---|
| `MemoryStore.MemoryDB.constructor` | app.js:25 | the store starts with no keys |
| `MemoryStore.MemoryDB.Get` | app.js:26-28 | returns the stored value when the key is present, else the fallback; as a function of the store it changes nothing |
| `MemoryStore.MemoryDB.Set` | app.js:29-31 | afterwards `Get(key, _)` returns the new value for every fallback, and every other key reads as before |
| `Profile.Level` | app.js:53-55 | the level is the 50-point band that holds the experience, `50*(level-1) <= xp < 50*level`, and is at least 1 for non-negative experience |
| `Profile.LevelUnique` | app.js:54 | any level whose band holds `xp` is `Level(xp)`, so the band characterises the formula |
| `Profile.LevelMonotone` | app.js:54 | more experience never gives a lower level |
| `Profile.LevelExamples` | app.js:53-55 | xp 0 and 49 give level 1, xp 50 and 99 give level 2, xp 100 gives level 3 |
| `Profile.DefaultUserIsFresh` | app.js:38-45 | the default profile has level 1, xp 0, no games played, and its level agrees with its xp |
| `Profile.InitProfileOf` | app.js:35-47 | an existing profile leaves the store untouched; otherwise the default profile is stored under "user" and every other key is kept |
| `Profile.InitProfileIdempotent` | app.js:35-47 | initialising twice gives the same store as initialising once |
| `Profile.InitProfileKeepsInvariants` | app.js:35-47 | initialisation keeps the "user" slot holding a profile and keeps its level consistent with its xp |
| `Profile.InitProfile` | app.js:35-47 | the store's new contents are `InitProfileOf` of the old |
| `Profile.ProfileOf` | app.js:50 | the profile `gainXP` starts from is the stored one, or the empty `{}` record with 0 xp, 0 games and no level |
| `Profile.GainXPOf` | app.js:49-57 | the profile's xp grows by the points, games played by one, the level becomes `Level` of the new xp, identity fields and other keys are kept; a missing profile starts from the empty record |
| `Profile.GainXPKeepsOtherKeys` | app.js:49-57 | a game's award leaves every record other than "user", such as the room, unchanged |
| `Profile.GainAllTotals` | app.js:49-57 | after any run of games the xp is the start plus the sum of their points and games played grows by their number; for a non-empty run the level is that of the total |
| `Profile.SumConstant` | app.js:51 | games that all scored the same points total that score times their number |
| `Profile.GainAllSnoc` | app.js:49-57 | one more `gainXP` after a run of games is the run extended by that game |
| `Profile.GainXP` | app.js:49-57 | the store's new contents are `GainXPOf` of the old |
| `Questions.LoadQuestions` | app.js:59-63 | a known stage yields its list of questions, an unknown stage the empty list |
| `Questions.Scores` | app.js:233 | a first selection scores exactly when it is present and equal to the question's `correctIndex`; no selection never scores |
| `Questions.CountCorrect` | app.js:229-235 | the number of correctly answered questions is at most the number of questions, and 0 when none is answered |
| `Questions.CountCorrectAnswer` | app.js:230-235 | recording a first selection for an unanswered question adds one correct answer exactly when the chosen index is the correct one |
| `Quiz.QuizSession.constructor` | app.js:164-171 | route entry: stage-1 questions, index 0, score 0, unlocked, no pending timeouts; with questions the clock runs at 20, with none `gainXP(0)` runs at once |
| `Quiz.QuizSession.RenderQ` | app.js:173-194 | with no question at the index, `gainXP(score)` runs and the timer is left as it was; otherwise the interval restarts with 20 seconds and the store is unchanged |
| `Quiz.QuizSession.NextQ` | app.js:258-262 | the index grows by exactly one, the lock is cleared, the score is unchanged, and the invariant is re-established |
| `Quiz.QuizSession.Choose` | app.js:228-242 | while locked nothing changes; otherwise it locks, records the selection, adds 10 points exactly when the index is correct and schedules one delayed advance |
| `Quiz.QuizSession.Skip` | app.js:226 | advances as `nextQ` does, whatever the lock, with no score change |
| `Quiz.QuizSession.Tick` | app.js:247-255 | the clock goes down by one; when it reaches zero the interval stops and the quiz advances, or completes with the timer stopped |
| `Quiz.QuizSession.DelayedAdvance` | app.js:240 | one scheduled timeout is consumed and the quiz advances as `nextQ` does, from wherever it now is |
| `Quiz.QuizSession.AwardsAccount` | app.js:173-176 | the score is a multiple of 10 and at most 10 per question; every `gainXP` call received 10 times the correct count; there is exactly one call exactly when the session ended on the first index past the last question |
| `Quiz.QuizSession.ProfileAccount` | app.js:173-176 | for every interleaving of events, the profile has gained `score` xp and one game per `gainXP` call of the session, on top of the profile at route entry, and its level is that of the new xp once any award was made |
| `Multiplayer.NewRoom` | app.js:296-300 | a new room carries the visit's time as its creation time, has two players, and it is the first player's turn |
| `Multiplayer.RoomKey` | app.js:295-296 | the room's key is "room:" followed by the room id |
| `Multiplayer.VisitRoomOf` | app.js:294-301 | a stored room keeps the store unchanged; otherwise a new room with the given creation time is stored |
| `Multiplayer.VisitRoomKeepsRoom` | app.js:296-301 | every visit after the first keeps the stored room, its creation time included |
| `Multiplayer.VisitRoomKeepsProfile` | app.js:296-301 | a visit leaves the "user" record as it was |
| `Multiplayer.VisitRoom` | app.js:294-301 | the store's new contents are `VisitRoomOf` of the old, and the returned room is the stored one |
| `Scenarios.WaitForTimeout` | app.js:247-255 | letting the clock run out advances exactly once; at the end of the quiz the interval is stopped and `gainXP(score)` has run |
| `Scenarios.TwoCorrectAnswers` | app.js:164-264 | two correct answers give score 20, xp 20, level 1 and one game |
| `Scenarios.SkipThenTimeout` | app.js:164-264 | a skip then a timeout give score 0, xp 0 and one game, and leave no timer running |
| `Scenarios.UnknownStage` | app.js:62 | an unknown stage completes at once with score 0 and one game |
| `Scenarios.SecondClickIgnored` | app.js:230 | a second click on a locked question changes neither the score nor the scheduled timeouts |
| `Scenarios.LeftoverIntervalAwardsTwice` | app.js:173-193 | answering the only question and then waiting 20 seconds on the result view awards the 10 points twice, giving xp 20 and two games |
| `Scenarios.SkipDuringDelayAdvancesTwice` | app.js:226-240 | a skip during the second after an answer advances past the next question too |

## Left out

- Views and the DOM are not modelled: `el`, `$`, `layout`, `createCharacterAvatar`, every route template, the hint toggle (app.js:222-225), the simulation view and the profile view and its reset. They only present state.
- The hash router (app.js:1-13) is not modelled. It is `window` events and `location.hash` handling around a dictionary lookup.
- `fetch` and `res.json()` in `loadQuestions` are left out, because they are network I/O. The parsed `questions.json` is the `data` parameter, so its failure case is not modelled.
- Real `setInterval`/`setTimeout` timing is left out. Timers are the explicit events `Tick` and `DelayedAdvance`, with no wall-clock time. `Date.now()` is the `now` parameter of `VisitRoom`.
- Navigating away from the quiz is not modelled. The source does not tear down the session then either: its timers keep running.
- `MemoryStore.MemoryDB.Get`: a key stored with the value `undefined` reads as absent in the source. The model has no `undefined` value, and nothing in the app stores one.
- `Profile.GainXP` requires the "user" key to hold a profile or be absent. Every operation of the app keeps that true. In the source a stored non-profile object would gain the fields instead, and a stored `null` would throw.
- JavaScript numbers are unbounded integers here. Floating point, `NaN` and the truthiness of `|| 0` on non-numbers are not modelled. Absent fields of the `{}` fallback read as 0, "" and false.
- `Quiz.QuizSession.Choose` requires the index of an existing choice button, because only those can be clicked. The source has no check against an out-of-range index.
