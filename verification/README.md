# Mini-game platform: game rules and image-quiz editing, modelled in Dafny

This project models the rule-bearing core of a web platform of small educational games.

- **Image-reveal quiz.** A 16 × 8 grid of tiles hides a picture and one tile is uncovered per tick. The player buzzes in and picks an answer. Points depend on how fast the answer came, and every answer is logged.
- **Whack-a-mole, two boards.**
  - The single-level board has golden moles, enemies and traps, a combo multiplier and a speed-up.
  - The three-level board adds level thresholds, a level-1 bonus spell, phishing robots at level 2 and a boss at level 3.
- **Unjumble.** Words of a sentence are clicked from a shuffled pool into a sentence. The answer is right when the words, read in click order, form the target sentence.
- **Airplane quiz engine.**
  - A plane flies into answer clouds.
  - Correct clouds score and advance the question. Wrong clouds cost a life and disappear.
  - In math mode questions are generated with three distinct wrong answers.
- **Image-quiz editor.**
  - The create and edit pages: round editing, the one-correct-answer choice, and the submit checks that build the error map.
  - The validation schema.
  - The loader that maps a stored quiz onto editor rounds of exactly three answers.
  - The two multipart payload builders for create and update.
- **Crossword page.** The clock text `MM:SS` and its (never started) timer.

How the model treats the program:

- React state of a page is a Dafny `class` whose fields the handlers update, with `modifies` clauses and a `Valid()` invariant.
- React effects, intervals and timeouts are explicit methods that the environment may call at any point. A flag records whether a timer is armed.
- Randomness (`Math.random`, `uuidv4`, the random shuffle) and clock readings (`Date.now`, animation timestamps) are parameters.
- Pure helpers (the points table, the schema, the payload builders, `formatTime`) are functions.
- Loops of the source (answer padding, the collision scan, the error-map `forEach`, the file collection) are methods proved against those functions.
- The server's API base address (`VITE_API_URL`) is a parameter. A request's multipart form is a list of named fields.

## Model

| member | source | states |
|---|---|---|
| `TimeFormat.FormatTime` | src/pages/crosswords/index.tsx:9-15 | the text has at least two minute digits, a colon third from the end, and digits everywhere else |
| `TimeFormat.FormatTimeFiveChars` | src/pages/crosswords/index.tsx:9-15 | below 6000 seconds (100 minutes) the clock text is exactly five characters, `MM:SS` |
| `TimeFormat.FormatTimeRoundTrip` | src/pages/image-quiz/PlayImageQuiz.tsx:608-612 | reading the clock text back as minutes and seconds gives exactly the number of seconds formatted, so no two durations share a text |
| `Crosswords.CrosswordClock.constructor` | src/pages/crosswords/index.tsx:22-24 | the page starts not playing, unpaused, with the clock at zero |
| `Crosswords.CrosswordClock.Tick` | src/pages/crosswords/index.tsx:27-35 | the interval adds one second only while playing and not paused; nothing else changes |
| `Crosswords.CrosswordClock.TogglePause` | src/pages/crosswords/index.tsx:49-51 | the pause button flips the paused flag and leaves the clock alone |
| `Crosswords.CrosswordClock.Exit` | src/pages/crosswords/index.tsx:38-47 | exit pauses and leaves the page whether or not the play-count report failed |
| `Crosswords.ClockStaysAtZero` | src/pages/crosswords/index.tsx:22 | since play is never switched on, any sequence of ticks, toggles and exits leaves the clock at zero |
| `ImageQuizPlay.CalculatePoints` | src/pages/image-quiz/PlayImageQuiz.tsx:444-449 | 5 points exactly up to and including 5 s, at least 4 exactly up to 10 s, at least 3 exactly up to 20 s, otherwise 1; never 2 |
| `ImageQuizPlay.PointsForMs` | src/pages/image-quiz/PlayImageQuiz.tsx:494-500 | on whole elapsed milliseconds: 5 points exactly up to and including 5000 ms, at least 4 exactly up to 10000 ms, at least 3 exactly up to 20000 ms, otherwise 1 |
| `ImageQuizPlay.PointsForMsMatchesSeconds` | src/pages/image-quiz/PlayImageQuiz.tsx:494-500 | the table on whole milliseconds gives the same points as the page's table on seconds, with every boundary inclusive |
| `ImageQuizPlay.PointsNeverIncrease` | src/pages/image-quiz/PlayImageQuiz.tsx:444-449 | answering later never earns more points |
| `ImageQuizPlay.AllBlocks` | src/pages/image-quiz/PlayImageQuiz.tsx:56-58 | the full grid is the list 0, 1, …, 127 |
| `ImageQuizPlay.AllBlocksWellFormed` | src/pages/image-quiz/PlayImageQuiz.tsx:286-287 | the full grid lists every tile once and nothing outside the grid |
| `ImageQuizPlay.RemoveTileWellFormed` | src/pages/image-quiz/PlayImageQuiz.tsx:377-381 | uncovering one tile keeps the hidden list duplicate-free and inside the grid |
| `ImageQuizPlay.ForwardSlashes` | src/pages/image-quiz/PlayImageQuiz.tsx:604 | every backslash becomes a slash and every other character stays |
| `ImageQuizPlay.GetImageUrl` | src/pages/image-quiz/PlayImageQuiz.tsx:601-606 | none exactly for a missing or empty path; an `http…` path unchanged; otherwise the API base, a slash and `ForwardSlashes` of the path, so no backslash is left in it |
| `ImageQuizPlay.TimeLimitOf` | src/pages/image-quiz/PlayImageQuiz.tsx:282 | the quiz's limit when it is given and non-zero, else thirty seconds; never zero |
| `ImageQuizPlay.PickParticles` | src/pages/image-quiz/PlayImageQuiz.tsx:507-516 | as many particles as the points, or as tiles when fewer; particle i is delayed 200·i ms; the tiles come from the hidden list without repetition |
| `ImageQuizPlay.ParticlesDistinct` | src/pages/image-quiz/PlayImageQuiz.tsx:508-515 | particles drawn from a duplicate-free tile list sit on pairwise distinct tiles of that list |
| `ImageQuizPlay.Award` | src/pages/image-quiz/PlayImageQuiz.tsx:497-500 | positive exactly for the correct answer, at most 5 |
| `ImageQuizPlay.RoundController.constructor` | src/pages/image-quiz/PlayImageQuiz.tsx:226-264 | before the quiz arrives: question 0, score 0, empty log, no tiles, thirty seconds, no countdown |
| `ImageQuizPlay.RoundController.LoadEffect` | src/pages/image-quiz/PlayImageQuiz.tsx:266-294 | while fetching only loading is set; a non-empty error is recorded; loaded data sets the quiz, the time limit and clock, and hides the whole grid |
| `ImageQuizPlay.RoundController.ResetGrid` | src/pages/image-quiz/PlayImageQuiz.tsx:338-350 | the whole grid hidden again, no particles, not playing or paused, no dialog, time-up cleared, reveal timer stopped, clock at the limit |
| `ImageQuizPlay.RoundController.InitiateRoundStart` | src/pages/image-quiz/PlayImageQuiz.tsx:352-357 | a loaded, unfinished quiz starts a three-second countdown; otherwise nothing changes |
| `ImageQuizPlay.RoundController.StartActualGame` | src/pages/image-quiz/PlayImageQuiz.tsx:359-386 | playing, unpaused, no dialog, clock at the limit, round start time recorded, reveal timer armed |
| `ImageQuizPlay.RoundController.CountdownTick` | src/pages/image-quiz/PlayImageQuiz.tsx:296-309 | the countdown drops by one, and on reaching zero the round starts; the grid, score and log are untouched |
| `ImageQuizPlay.RoundController.RevealTick` | src/pages/image-quiz/PlayImageQuiz.tsx:370-385 | an empty hidden list stops the timer and stays empty; otherwise exactly the drawn tile is removed and the rest keep their order |
| `ImageQuizPlay.RoundController.TimeTick` | src/pages/image-quiz/PlayImageQuiz.tsx:311-325 | the clock drops by one second and never goes below zero |
| `ImageQuizPlay.RoundController.HandleTimeUp` | src/pages/image-quiz/PlayImageQuiz.tsx:388-397 | time is up: not playing, paused, answer dialog open, timers stopped; grid, clock, score and log unchanged |
| `ImageQuizPlay.RoundController.TimeUpEffect` | src/pages/image-quiz/PlayImageQuiz.tsx:327-331 | time-up is triggered exactly when the clock shows zero or less during unpaused play |
| `ImageQuizPlay.RoundController.OpenPauseMenu` | src/pages/image-quiz/PlayImageQuiz.tsx:399-405 | timers stop, play pauses and the pause menu opens; grid, clock, score and log unchanged |
| `ImageQuizPlay.RoundController.OpenAnswerModal` | src/pages/image-quiz/PlayImageQuiz.tsx:407-414 | timers stop, play pauses and the answer dialog opens; grid, clock, score and log unchanged |
| `ImageQuizPlay.RoundController.ResumeGame` | src/pages/image-quiz/PlayImageQuiz.tsx:416-442 | once time is up the page stays paused, not playing, with its dialog; otherwise unpaused with no dialog, and playing again (reveal timer with it) exactly for a loaded, unfinished quiz with time left; grid, clock, score and log unchanged |
| `ImageQuizPlay.RoundController.AnswerSelect` | src/pages/image-quiz/PlayImageQuiz.tsx:482-561 | timers stop and the grid empties; the score grows by the tier points for a correct answer and by nothing otherwise; exactly one record (question, choice, time spent) is appended to the log; the advance is armed, after 2.5 s or 1.5 s |
| `ImageQuizPlay.RoundController.RecordAnswer` | src/pages/image-quiz/PlayImageQuiz.tsx:505-534 | the points join the score and the record joins the end of the log, earlier records unchanged |
| `ImageQuizPlay.RoundController.StopForAnswer` | src/pages/image-quiz/PlayImageQuiz.tsx:483-489 | not playing or paused, no dialog, time-up cleared, reveal timer stopped, grid empty |
| `ImageQuizPlay.RoundController.ShowParticles` | src/pages/image-quiz/PlayImageQuiz.tsx:507-523 | the particles are drawn from the hidden tiles and their removal is armed after (points − 1)·200 + 1400 ms |
| `ImageQuizPlay.RoundController.ClearParticles` | src/pages/image-quiz/PlayImageQuiz.tsx:518-523 | the particles disappear and nothing else changes |
| `ImageQuizPlay.RoundController.AdvanceAfterFeedback` | src/pages/image-quiz/PlayImageQuiz.tsx:548-560 | after a non-last question the index moves on by one, the grid is reset and a countdown starts; after the last one the answers are submitted |
| `ImageQuizPlay.RoundController.ReceiveResult` | src/pages/image-quiz/PlayImageQuiz.tsx:578-599 | the server's total score replaces the local score; a failure keeps the score and records the error; the quiz is finished either way |
| `ImageQuizPlay.RoundController.PlayAgain` | src/pages/image-quiz/PlayImageQuiz.tsx:714-724 | back to question 0 with score 0, an empty log, the whole grid hidden and the clock at the limit |
| `WhackSimple.Speed` | src/pages/whack-a-mole/components/GameBoard-Simple.tsx:67 | exactly max(500, 1100 − 18·score): never under either, equal to one of them; at most 1100 ms for a non-negative score |
| `WhackSimple.SpeedNeverRises` | src/pages/whack-a-mole/components/GameBoard-Simple.tsx:67 | a higher score never makes the moles slower |
| `WhackSimple.MoleTypeShares` | src/pages/whack-a-mole/components/GameBoard-Simple.tsx:78-86 | golden exactly above 0.9, trap exactly in (0.7, 0.9], enemy exactly up to 0.7 |
| `WhackSimple.Board.constructor` | src/pages/whack-a-mole/components/GameBoard-Simple.tsx:11-26 | score 0, thirty seconds, not playing, no mole, speed 1100, combo 0 |
| `WhackSimple.Board.StartGame` | src/pages/whack-a-mole/components/GameBoard-Simple.tsx:28-38 | a fresh game: score 0, thirty seconds, playing unpaused, speed 1100, no mole, combo 0 |
| `WhackSimple.Board.TogglePause` | src/pages/whack-a-mole/components/GameBoard-Simple.tsx:40-42 | flips the paused flag and nothing else |
| `WhackSimple.Board.ExitGame` | src/pages/whack-a-mole/components/GameBoard-Simple.tsx:44-48 | play stops, the pause clears and the board is left |
| `WhackSimple.Board.CountdownTick` | src/pages/whack-a-mole/components/GameBoard-Simple.tsx:50-54 | one second less, only while playing unpaused with time left |
| `WhackSimple.Board.CountdownEndEffect` | src/pages/whack-a-mole/components/GameBoard-Simple.tsx:55-59 | a running game at zero seconds stops and its mole goes; otherwise play and mole are unchanged |
| `WhackSimple.Board.SpeedEffect` | src/pages/whack-a-mole/components/GameBoard-Simple.tsx:63-67 | while the game runs the speed follows the score formula |
| `WhackSimple.Board.MoleMove` | src/pages/whack-a-mole/components/GameBoard-Simple.tsx:70-88 | an unhit previous mole that was not a trap resets the combo; the new mole is in a hole 0–8, of the type the random draw picks, not yet hit |
| `WhackSimple.Board.Whack` | src/pages/whack-a-mole/components/GameBoard-Simple.tsx:92-121 | nothing unless playing, unpaused and on the active hole; golden +5×multiplier and +5 s, enemy +1×multiplier, combo +1 for both; a trap takes 3 points, floored at 0, and resets the combo; the multiplier is 2 exactly from combo 5 |
| `WhackLevel.Requirement` | src/pages/whack-a-mole/components/GameBoard-Level.tsx:39-43 | the thresholds are 30, 70 and 120 points |
| `WhackLevel.RequirementsIncrease` | src/pages/whack-a-mole/components/GameBoard-Level.tsx:39-43 | each level asks for more points than the one before |
| `WhackLevel.Speed` | src/pages/whack-a-mole/components/GameBoard-Level.tsx:175-180 | exactly max(floor, base − 10·score), with base 1100/900/700 and floor 500/500/400 for levels 1/2/3: never under either, equal to one of them; at most the base for a non-negative score |
| `WhackLevel.SpeedMonotone` | src/pages/whack-a-mole/components/GameBoard-Level.tsx:175-180 | a higher score never slows the moles; a higher level is never slower at the same score |
| `WhackLevel.MoleTypeFor` | src/pages/whack-a-mole/components/GameBoard-Level.tsx:200-227 | a boss exactly at level 3 with boss health left; bonus play yields only enemies and golden moles; phishing only at level 2 outside bonus play; golden only above 0.7 |
| `WhackLevel.PhishingShare` | src/pages/whack-a-mole/components/GameBoard-Level.tsx:216-221 | at level 2 outside bonus and boss play a phishing robot appears exactly for draws in (0.5, 0.75] |
| `WhackLevel.Board.constructor` | src/pages/whack-a-mole/components/GameBoard-Level.tsx:11-36 | level 1, score 0, thirty seconds, nothing complete, no bonus, no boss, speed 1100 |
| `WhackLevel.Board.StartGame` | src/pages/whack-a-mole/components/GameBoard-Level.tsx:130-146 | level 1 from scratch: score 0, thirty seconds, playing, combo 0, nothing complete, no bonus, no boss, no transition |
| `WhackLevel.Board.ResetRound` | src/pages/whack-a-mole/components/GameBoard-Level.tsx:131-138 | score 0, thirty seconds, playing unpaused, speed 1100, no mole, combo 0 |
| `WhackLevel.Board.ResetLevels` | src/pages/whack-a-mole/components/GameBoard-Level.tsx:139-145 | level 1, nothing complete, no bonus, no boss, no transition |
| `WhackLevel.Board.TogglePause` | src/pages/whack-a-mole/components/GameBoard-Level.tsx:148-150 | flips the paused flag and nothing else |
| `WhackLevel.Board.ExitGame` | src/pages/whack-a-mole/components/GameBoard-Level.tsx:152-156 | play stops, the pause clears and the board is left |
| `WhackLevel.Board.LevelEffect` | src/pages/whack-a-mole/components/GameBoard-Level.tsx:56-99 | in a running, unwon game, 30 points at level 1 or 70 at level 2 complete the level and arm the transition to the next; 120 at level 3 wins and stops play |
| `WhackLevel.Board.LevelTimeout` | src/pages/whack-a-mole/components/GameBoard-Level.tsx:67-72 | the next level starts with thirty seconds and the transition ends |
| `WhackLevel.Board.BonusEffect` | src/pages/whack-a-mole/components/GameBoard-Level.tsx:101-121 | at level 1, running unpaused at exactly fifteen seconds without a bonus, the bonus starts and its five-second end stays armed |
| `WhackLevel.Board.BonusEffectAsWritten` | src/pages/whack-a-mole/components/GameBoard-Level.tsx:101-121 | the same, but each run's cleanup cancels the pending end, so after the re-render the bonus is on and nothing will end it |
| `WhackLevel.Board.BonusTimeout` | src/pages/whack-a-mole/components/GameBoard-Level.tsx:113-115 | the bonus ends |
| `WhackLevel.Board.BossEffect` | src/pages/whack-a-mole/components/GameBoard-Level.tsx:124-128 | at level 3, running unpaused with no boss health, the boss spawns with 5; otherwise health is unchanged |
| `WhackLevel.Board.CountdownTick` | src/pages/whack-a-mole/components/GameBoard-Level.tsx:159-162 | one second less, only while running unpaused outside a level transition |
| `WhackLevel.Board.CountdownEndEffect` | src/pages/whack-a-mole/components/GameBoard-Level.tsx:163-167 | at zero seconds an unwon game stops and its mole goes; otherwise play and mole are unchanged |
| `WhackLevel.Board.SpeedEffect` | src/pages/whack-a-mole/components/GameBoard-Level.tsx:171-181 | while running outside a transition the speed follows the level's formula |
| `WhackLevel.Board.MoleMove` | src/pages/whack-a-mole/components/GameBoard-Level.tsx:183-228 | an unhit previous mole that was neither trap nor boss resets the combo; the new mole is in a hole 0–8, of the type the level's rules pick |
| `WhackLevel.Board.Whack` | src/pages/whack-a-mole/components/GameBoard-Level.tsx:244-288 | nothing unless playing, unpaused and on the active hole; a boss hit takes one health and adds to the combo, and the killing hit also gives 10×multiplier and +10 s; golden and enemy as on the simple board; phishing takes 5 and trap 3, floored at 0, both resetting the combo |
| `WhackLevel.BonusNeverEndsAsWritten` | src/pages/whack-a-mole/components/GameBoard-Level.tsx:101-121 | a level-1 game reaching fifteen seconds is left with the bonus on and no timeout pending, so level 2 could never show a phishing robot |
| `WhackLevel.BonusEndsAsIntended` | src/pages/whack-a-mole/components/GameBoard-Level.tsx:113-115 | with the pending end kept, the same game's bonus ends, and level 2 shows phishing robots again |
| `Unjumble.Cards` | src/pages/unjumble/gameUnjumble.tsx:23-130 | the cards are the correct order's words numbered from 1, all in the pool |
| `Unjumble.QuestionsWellFormed` | src/pages/unjumble/gameUnjumble.tsx:23-130 | there are four built-in questions; in each the written-out answer string is the correct order's words joined by single spaces, the cards carry exactly the correct order's words, with distinct ids, all in the pool, and no word is empty or holds a space |
| `Unjumble.Q1AnswerJoined` | src/pages/unjumble/gameUnjumble.tsx:34-35 | question 1's answer string is its correct order joined by single spaces |
| `Unjumble.Q2AnswerJoined` | src/pages/unjumble/gameUnjumble.tsx:51-63 | question 2's answer string is its correct order joined by single spaces |
| `Unjumble.Q3AnswerJoined` | src/pages/unjumble/gameUnjumble.tsx:80-93 | question 3's answer string is its correct order joined by single spaces |
| `Unjumble.Q4AnswerJoined` | src/pages/unjumble/gameUnjumble.tsx:112-128 | question 4's answer string is its correct order joined by single spaces |
| `Unjumble.MakeQuestionWellFormed` | src/pages/unjumble/gameUnjumble.tsx:23-36 | a question written out from a correct order without empty words or inner spaces, whose answer string is that order joined by spaces, is well formed |
| `Unjumble.Shuffle` | src/pages/unjumble/gameUnjumble.tsx:140 | the shuffle keeps every card, in some order |
| `Unjumble.ShuffleKeepsIdsDistinct` | src/pages/unjumble/gameUnjumble.tsx:209 | shuffling keeps the card ids distinct |
| `Unjumble.PoolAndPlacedPartition` | src/pages/unjumble/gameUnjumble.tsx:244-247 | every card is in exactly one of the pool and the sentence |
| `Unjumble.SortByKey` | src/pages/unjumble/gameUnjumble.tsx:155 | the sort keeps every card |
| `Unjumble.SortByKeySorted` | src/pages/unjumble/gameUnjumble.tsx:245-247 | the sentence is in ascending click order |
| `Unjumble.SortByKeyStrict` | src/pages/unjumble/gameUnjumble.tsx:155 | with distinct click numbers the sentence is strictly increasing |
| `Unjumble.StrictlySortedUnique` | src/pages/unjumble/gameUnjumble.tsx:155 | two strictly increasing arrangements of the same cards are equal, so the sentence does not depend on how the sort breaks ties |
| `Unjumble.ValidateAnswerIffCorrectOrder` | src/pages/unjumble/gameUnjumble.tsx:152-161 | when the question's answer string is its correct order joined by spaces, the sentence read in click order and joined equals that string exactly when the sentence's words are the correct order (for readable words) |
| `Unjumble.Click` | src/pages/unjumble/gameUnjumble.tsx:171-188 | other cards are unchanged; the clicked card changes side; into the sentence it gets click number counter + 1, back to the pool it loses its number |
| `Unjumble.PoolHitsOfDistinct` | src/pages/unjumble/gameUnjumble.tsx:174 | with distinct ids the counter goes up by one exactly when the clicked card was in the pool |
| `Unjumble.PlacedKeysDistinct` | src/pages/unjumble/gameUnjumble.tsx:178 | consistent click numbers never collide |
| `Unjumble.PlaceKeepsConsistent` | src/pages/unjumble/gameUnjumble.tsx:173-179 | placing a pool card as number counter + 1 keeps the click numbers distinct and at most the new counter |
| `Unjumble.UnplaceKeepsConsistent` | src/pages/unjumble/gameUnjumble.tsx:180-186 | returning a card to the pool keeps the click numbers consistent |
| `Unjumble.SentenceKeysBounded` | src/pages/unjumble/gameUnjumble.tsx:178 | every sentence card's click number is at most the counter |
| `Unjumble.PlaceAppends` | src/pages/unjumble/gameUnjumble.tsx:173-179 | a clicked pool card goes to the end of the sentence, after every placed word, the sentence before it unchanged |
| `Unjumble.UnplaceRemoves` | src/pages/unjumble/gameUnjumble.tsx:180-186 | a clicked sentence card leaves the sentence, which keeps all its other words in increasing order |
| `Unjumble.ClickAll` | src/pages/unjumble/gameUnjumble.tsx:170-190 | the map keeps the number of cards |
| `Unjumble.ClickPlaces` | src/pages/unjumble/gameUnjumble.tsx:170-190 | clicking a pool card changes only that card, counts once, and appends it to the sentence |
| `Unjumble.ClickUnplaces` | src/pages/unjumble/gameUnjumble.tsx:170-190 | clicking a sentence card changes only that card, does not count, and takes it out of the sentence |
| `Unjumble.ClickMisses` | src/pages/unjumble/gameUnjumble.tsx:170-190 | a click on an id no card carries changes nothing |
| `Unjumble.ClickMapIsUpdate` | src/pages/unjumble/gameUnjumble.tsx:170-190 | with distinct ids the click changes just the one card that carries the id |
| `Unjumble.Percentage` | src/pages/unjumble/gameUnjumble.tsx:252 | the nearest whole percentage of score over total, halves up, between 0 and 100 when the score is at most the total |
| `Unjumble.PercentageAtMost100` | src/pages/unjumble/gameUnjumble.tsx:252 | a score of at most the total never shows more than 100 % |
| `Unjumble.Game.constructor` | src/pages/unjumble/gameUnjumble.tsx:138-145 | over a non-empty list of well-formed questions (the page's list is one, by `QuestionsWellFormed`): first question, its cards shuffled, nothing placed, counter and score 0, active, not ended |
| `Unjumble.Game.WordClick` | src/pages/unjumble/gameUnjumble.tsx:166-193 | ignored once inactive; otherwise only the clicked card changes side, and the counter grows exactly when a pool card was placed |
| `Unjumble.Game.CheckAnswer` | src/pages/unjumble/gameUnjumble.tsx:152-161 | compares the joined sentence with the current question's answer string, and that holds exactly when the sentence's words in click order are the question's correct order |
| `Unjumble.Game.NextQuestion` | src/pages/unjumble/gameUnjumble.tsx:198-215 | the answer is checked on the cards as they were; one point exactly for a correct answer; then the next question freshly shuffled with nothing placed and the counter at 0, or, after the last question, the game ends with the cards left as they are |
| `Unjumble.Game.Award` | src/pages/unjumble/gameUnjumble.tsx:201-203 | one point for a correct answer, and the score stays at most the current question number |
| `Unjumble.Game.Deal` | src/pages/unjumble/gameUnjumble.tsx:207-210 | the given question's cards freshly shuffled, nothing placed, counter 0 |
| `Unjumble.Game.PlayAgain` | src/pages/unjumble/gameUnjumble.tsx:283-292 | back to the first question, freshly shuffled, counter and score 0, active and not ended |
| `Unjumble.Game.ExitGame` | src/pages/unjumble/gameUnjumble.tsx:220-242 | clicks are ignored from now on and the page is left |
| `Unjumble.ClickKeepsCards` | src/pages/unjumble/gameUnjumble.tsx:170-190 | a click keeps the cards those of the question, with distinct ids and consistent click numbers |
| `Unjumble.FreshDeal` | src/pages/unjumble/gameUnjumble.tsx:209 | a freshly shuffled well-formed question meets the card invariants with nothing placed |
| `Airplane.OverlapsIffSharedPixel` | src/pages/airplane/hooks/useGeneralGameEngine.ts:161-166 | for boxes of positive size the strict overlap test holds exactly when some pixel lies in both boxes |
| `Airplane.Operand` | src/pages/airplane/hooks/useGeneralGameEngine.ts:28-29 | an operand is between 1 and 10 |
| `Airplane.Candidate` | src/pages/airplane/hooks/useGeneralGameEngine.ts:35 | a candidate wrong answer lies between answer − 5 and answer + 4 |
| `Airplane.CollectedSound` | src/pages/airplane/hooks/useGeneralGameEngine.ts:33-37 | the collected wrong answers are never the answer, lie within the candidate range, and are pairwise different |
| `Airplane.CollectedPrefix` | src/pages/airplane/hooks/useGeneralGameEngine.ts:34-37 | later draws only add to the end of the collection |
| `Airplane.CollectedComplete` | src/pages/airplane/hooks/useGeneralGameEngine.ts:36 | every drawn candidate that is not the answer ends up in the collection |
| `Airplane.ThreeUsableRollsSuffice` | src/pages/airplane/hooks/useGeneralGameEngine.ts:34-37 | three draws that differ from each other and from the answer's offset are enough for the loop to stop |
| `Airplane.MathQuestionSound` | src/pages/airplane/hooks/useGeneralGameEngine.ts:27-43 | a generated question has exactly three distinct wrong answers, none of them the correct one; each is the decimal rendering of a number that differs from the answer and lies from five below to four above it |
| `Airplane.GenerateMathQuestion` | src/pages/airplane/hooks/useGeneralGameEngine.ts:27-43 | the generator builds exactly the question its draws determine |
| `Airplane.CollectWrongAnswers` | src/pages/airplane/hooks/useGeneralGameEngine.ts:33-37 | the loop stops with the first three distinct wrong answers, in the order they were drawn |
| `Airplane.Strings` | src/pages/airplane/hooks/useGeneralGameEngine.ts:42 | each number rendered as its decimal string |
| `Airplane.Moved` | src/pages/airplane/hooks/useGeneralGameEngine.ts:151 | every cloud moves left by its speed and nothing else about it changes |
| `Airplane.Visible` | src/pages/airplane/hooks/useGeneralGameEngine.ts:152 | a cloud is kept exactly when its right edge is right of −50 |
| `Airplane.VisibleAppend` | src/pages/airplane/hooks/useGeneralGameEngine.ts:152 | culling is a filter: the kept clouds stay in their order (culling a joined list joins the culled halves) |
| `Airplane.Survivors` | src/pages/airplane/hooks/useGeneralGameEngine.ts:177-184 | a cloud survives the scan exactly when it is not a touched wrong cloud |
| `Airplane.ScanTotals` | src/pages/airplane/hooks/useGeneralGameEngine.ts:159-186 | the scan adds 10 per touched correct cloud and takes a life per touched wrong one; game over exactly when a wrong hit left no lives |
| `Airplane.ScanClouds` | src/pages/airplane/hooks/useGeneralGameEngine.ts:159-186 | once a correct cloud is touched the list is empty; until then exactly the touched wrong clouds are spliced out, the rest in order |
| `Airplane.ScanQuestions` | src/pages/airplane/hooks/useGeneralGameEngine.ts:167-176 | in math mode a correct hit replaces the question and keeps the index; in general mode the questions stay, and the index moves on by one per correct cloud touched, or to 0 when the scan began at the last question |
| `Airplane.ScanOutcome` | src/pages/airplane/hooks/useGeneralGameEngine.ts:155-187 | the whole backward scan in closed form: score, lives, game state, clouds and question position |
| `Airplane.ScanCollisions` | src/pages/airplane/hooks/useGeneralGameEngine.ts:159-186 | the backward loop computes the scan |
| `Airplane.ScanOne` | src/pages/airplane/hooks/useGeneralGameEngine.ts:160-185 | one iteration handles one cloud as the scan says |
| `Airplane.SurvivorsShaped` | src/pages/airplane/hooks/useGeneralGameEngine.ts:129-138 | splicing keeps the spawned clouds' size and speed |
| `Airplane.FallbackWrongAnswersDistinct` | src/pages/airplane/hooks/useGeneralGameEngine.ts:85-91 | the fallback questions have distinct wrong answers, none of them correct |
| `Airplane.ScanKeepsValid` | src/pages/airplane/hooks/useGeneralGameEngine.ts:155-187 | a scan keeps the score in non-negative tens, lives at most three, clouds as spawned, and the questions sound |
| `Airplane.Collide` | src/pages/airplane/hooks/useGeneralGameEngine.ts:155-187 | the collision step keeps the engine invariant and has the closed-form outcome |
| `Airplane.Engine.constructor` | src/pages/airplane/hooks/useGeneralGameEngine.ts:13-25 | the menu: general mode, score 0, three lives, no questions, no clouds, the plane at its start |
| `Airplane.Engine.CurrentQuestion` | src/pages/airplane/hooks/useGeneralGameEngine.ts:109-112 | the only question in math mode, the current one otherwise, and none when that position is empty |
| `Airplane.Engine.StartGame` | src/pages/airplane/hooks/useGeneralGameEngine.ts:93-107 | score 0, three lives, index 0, no clouds, the plane at (50, 300); math mode plays one generated question, general mode starts loading |
| `Airplane.Engine.GeneralLoaded` | src/pages/airplane/hooks/useGeneralGameEngine.ts:69-91 | the questions found, or the two fallback questions when none were found, and play starts |
| `Airplane.Engine.SpawnCloud` | src/pages/airplane/hooks/useGeneralGameEngine.ts:114-143 | a cloud is appended only more than 2500 ms after the last spawn and when there is a current question; it starts at x = 850 at the given height, is correct exactly for a draw above 0.6, then carries the correct answer and otherwise one of the wrong answers; for a sound question its text tells the two apart |
| `Airplane.Engine.UpdatePhysics` | src/pages/airplane/hooks/useGeneralGameEngine.ts:145-153 | the clouds move left by their speed and those past the left edge are dropped |
| `Airplane.Engine.CheckCollisions` | src/pages/airplane/hooks/useGeneralGameEngine.ts:155-187 | +10 per touched correct cloud, −1 life per touched wrong cloud, game over when lives reach 0, the clouds emptied or the wrong ones removed, the question advanced with wrap-around |
| `Airplane.Engine.PauseGame` | src/pages/airplane/hooks/useGeneralGameEngine.ts:226 | the game pauses |
| `Airplane.Engine.ResumeGame` | src/pages/airplane/hooks/useGeneralGameEngine.ts:227 | the game plays again |
| `Airplane.Engine.Frame` | src/pages/airplane/hooks/useGeneralGameEngine.ts:189-197 | a frame does nothing unless playing; the score never drops, lives never rise, and the state only stays or becomes game over |
| `FormErrors.ErrorMapKeys` | src/pages/image-quiz/CreateImageQuiz.tsx:152-155 | a key is in the error map exactly when some problem's path joins to it |
| `FormErrors.ErrorMapLastWins` | src/pages/image-quiz/CreateImageQuiz.tsx:152-155 | a key holds the message of the last problem with that path |
| `FormErrors.ErrorMapEmptyIff` | src/pages/image-quiz/CreateImageQuiz.tsx:148-157 | the error map is empty exactly when there are no problems |
| `FormErrors.CollectErrors` | src/pages/image-quiz/CreateImageQuiz.tsx:150-155 | the loop builds the error map of the problems |
| `FormErrors.ClearError` | src/pages/image-quiz/EditImageQuiz.tsx:197-205 | the given key is removed whenever it shows a message and can remain only with an empty one; every other key and message stays |
| `QuizForm.PadIds` | src/api/image-quiz/useFetchImageQuizDetail.ts:79-80 | three padding ids per round |
| `QuizForm.BlankAnswer` | src/api/image-quiz/useFetchImageQuizDetail.ts:80 | a blank answer has no text and is not correct |
| `QuizForm.BlankRound` | src/pages/image-quiz/CreateImageQuiz.tsx:55-67 | a new round has no text, image or correct id, and three blank incorrect answers carrying the three given ids |
| `QuizForm.ChooseCorrect` | src/pages/image-quiz/CreateImageQuiz.tsx:107-116 | the round keeps its id, text, image and answer texts; the correct id becomes the chosen answer's id |
| `QuizForm.ChooseCorrectExactlyOne` | src/pages/image-quiz/EditImageQuiz.tsx:218-226 | exactly the chosen answer is marked correct, and with distinct answer ids the mark and the correct id agree |
| `QuizForm.SetAnswerText` | src/pages/image-quiz/CreateImageQuiz.tsx:97-105 | only the text of the given answer changes |
| `QuizForm.DropRound` | src/pages/image-quiz/CreateImageQuiz.tsx:93-95 | exactly the round at the index goes and the others keep their order; an index past the end changes nothing |
| `QuizForm.ThreeAnswersShape` | src/api/image-quiz/useFetchImageQuizDetail.ts:77-82 | normalising leaves exactly three answers: the first three originals in order, then blank incorrect answers |
| `QuizForm.PadAnswers` | src/api/image-quiz/useFetchImageQuizDetail.ts:78-80 | the slice-and-push loop computes the normalised answers |
| `QuizForm.BlankRoundChoice` | src/pages/image-quiz/CreateImageQuiz.tsx:55-67 | a blank round with distinct ids lets any answer be chosen with mark and correct id in agreement |
| `QuizForm.EditBlankRoundAsWritten` | src/pages/image-quiz/EditImageQuiz.tsx:169-184 | the edit page's new round has three answers sharing one id |
| `QuizForm.SharedIdsAreAsWritten` | src/pages/image-quiz/EditImageQuiz.tsx:169-184 | a blank round whose three option ids are one id is exactly the edit page's new round as written |
| `QuizForm.SharedIdBreaksChoice` | src/pages/image-quiz/EditImageQuiz.tsx:169-184 | in such a round, choosing the first answer leaves mark and correct id in disagreement for the other two |
| `QuizSchema.ParsedTheme` | src/validation/imageQuizSchema.ts:34 | the theme given, or `family100` by default |
| `QuizSchema.ParsedThemeKnown` | src/validation/imageQuizSchema.ts:34 | a valid quiz's theme is one of the three known themes |
| `QuizSchema.Problem` | src/validation/imageQuizSchema.ts:3-37 | a rule reports one problem exactly when it fails |
| `QuizSchema.AnswersIssuesEmptyIff` | src/validation/imageQuizSchema.ts:3-7 | the answers report no problem exactly when each has a uuid id and a non-empty text |
| `QuizSchema.QuestionIssuesEmptyIff` | src/validation/imageQuizSchema.ts:9-23 | a round reports no problem exactly when its ids are uuids, its category is non-empty, its image is an upload, and it has three valid answers at least one of them correct |
| `QuizSchema.QuestionsIssuesEmptyIff` | src/validation/imageQuizSchema.ts:29 | the rounds report no problem exactly when each round is valid |
| `QuizSchema.IssuesEmptyIffValid` | src/validation/imageQuizSchema.ts:25-37 | the schema reports no problem exactly when the title is three UTF-16 code units long or more, a thumbnail file is given, there is at least one round, every round is valid and the theme is known |
| `QuizPayload.ThemeOrDefault` | src/api/image-quiz/useCreateImageQuiz.ts:60 | the theme given when non-empty, else `family100`; never empty |
| `QuizPayload.FilesPrefix` | src/api/image-quiz/useCreateImageQuiz.ts:63-68 | the files of earlier rounds come first, and a round's own upload comes right after them |
| `QuizPayload.FileFields` | src/api/image-quiz/useCreateImageQuiz.ts:71 | one `files_to_upload` field per file, in order |
| `QuizPayload.FileFieldsLookup` | src/api/image-quiz/useUpdateImageQuiz.ts:118-120 | the file fields hold exactly the files, in order, and nothing under any other name |
| `QuizPayload.AnswersPayload` | src/api/image-quiz/useCreateImageQuiz.ts:78-81 | each answer becomes its id and text, without the correct flag, in order |
| `QuizCreatePayload.ImageAmongFiles` | src/api/image-quiz/useCreateImageQuiz.ts:63-68 | every uploaded round image is among the collected files |
| `QuizCreatePayload.RoundsPayload` | src/api/image-quiz/useCreateImageQuiz.ts:74-86 | one entry per round, in round order |
| `QuizCreatePayload.RoundsPayloadMeaning` | src/api/image-quiz/useCreateImageQuiz.ts:74-86 | a round's entry keeps its id, text, correct id and answers; its image index is absent without an image and otherwise names a file that is that round's image, and exactly that round's position among the uploads when uploads are distinct |
| `QuizCreatePayload.CreateDescriptionField` | src/api/image-quiz/useCreateImageQuiz.ts:41-43 | the description is sent only when non-empty |
| `QuizCreatePayload.CreatePublishField` | src/api/image-quiz/useCreateImageQuiz.ts:46-49 | the publish switch is sent once, as given |
| `QuizCreatePayload.CreateThemeField` | src/api/image-quiz/useCreateImageQuiz.ts:60 | the theme is sent once, `family100` when none is set |
| `QuizCreatePayload.CreateFilesField` | src/api/image-quiz/useCreateImageQuiz.ts:63-71 | every round image is uploaded once, in round order |
| `QuizCreatePayload.CreateRoundsField` | src/api/image-quiz/useCreateImageQuiz.ts:74-88 | the rounds are sent once, as one list |
| `QuizCreatePayload.CollectFiles` | src/api/image-quiz/useCreateImageQuiz.ts:63-68 | the push loop collects the round images in round order |
| `QuizCreatePayload.CreateImageQuiz` | src/api/image-quiz/useCreateImageQuiz.ts:34-88 | the appends build the form whose fields the lemmas above describe |
| `QuizCreatePage.SubmitMeaning` | src/pages/image-quiz/CreateImageQuiz.tsx:130-182 | a request is sent exactly when the quiz meets the schema, and then every round has an upload and the publish flag is the button's; without a thumbnail only a toast; a rejected quiz with a thumbnail shows at least one error |
| `QuizCreatePage.Submit` | src/pages/image-quiz/CreateImageQuiz.tsx:130-190 | the submit steps produce that outcome and error map |
| `QuizCreatePage.CreatePage.constructor` | src/pages/image-quiz/CreateImageQuiz.tsx:49-74 | empty texts, no thumbnail, one blank round, switches off, no errors |
| `QuizCreatePage.CreatePage.SetTitle` | src/pages/image-quiz/CreateImageQuiz.tsx:229-236 | the title changes and its error is cleared |
| `QuizCreatePage.CreatePage.SetDescription` | src/pages/image-quiz/CreateImageQuiz.tsx:250 | the description changes |
| `QuizCreatePage.CreatePage.SetThumbnail` | src/pages/image-quiz/CreateImageQuiz.tsx:258-265 | the thumbnail changes and its error is cleared |
| `QuizCreatePage.CreatePage.SetRandomQuestions` | src/pages/image-quiz/CreateImageQuiz.tsx:445-452 | the round-shuffle switch changes |
| `QuizCreatePage.CreatePage.SetRandomAnswers` | src/pages/image-quiz/CreateImageQuiz.tsx:463-470 | the answer-shuffle switch changes |
| `QuizCreatePage.CreatePage.AddRound` | src/pages/image-quiz/CreateImageQuiz.tsx:76-91 | exactly one blank round is appended and the earlier rounds are unchanged |
| `QuizCreatePage.CreatePage.RemoveRound` | src/pages/image-quiz/CreateImageQuiz.tsx:310-313 | the remove button: with more than one round left exactly the given round goes (the filter `QuizForm.DropRound`); with one round left nothing changes |
| `QuizCreatePage.CreatePage.HandleAnswerChange` | src/pages/image-quiz/CreateImageQuiz.tsx:97-105 | only that answer's text, in only that round, changes |
| `QuizCreatePage.CreatePage.HandleCorrectAnswer` | src/pages/image-quiz/CreateImageQuiz.tsx:107-116 | that round gets the chosen answer as its only correct one |
| `QuizCreatePage.CreatePage.HandleQuestionTextChange` | src/pages/image-quiz/CreateImageQuiz.tsx:118-128 | the round's category changes and its error is cleared |
| `QuizCreatePage.CreatePage.HandleQuestionImageChange` | src/pages/image-quiz/CreateImageQuiz.tsx:337-351 | the round's image becomes the chosen file and its error is cleared |
| `QuizCreatePage.CreatePage.HandleSubmit` | src/pages/image-quiz/CreateImageQuiz.tsx:130-190 | the page's submit has the outcome and error map described by the submit lemma |
| `QuizFetch.OrElse` | src/api/image-quiz/useFetchImageQuizDetail.ts:59-60 | a present non-empty string, otherwise the fallback |
| `QuizFetch.ImageOf` | src/api/image-quiz/useFetchImageQuizDetail.ts:61-65 | no image exactly for a missing or empty path; an `http…` address kept as it is; any other path placed under the base address after a slash |
| `QuizFetch.MappedAnswers` | src/api/image-quiz/useFetchImageQuizDetail.ts:68-72 | one mapped answer per stored answer |
| `QuizFetch.FetchedQuestions` | src/api/image-quiz/useFetchImageQuizDetail.ts:56-82 | as many rounds as stored, in the same order |
| `QuizFetch.FetchedRound` | src/api/image-quiz/useFetchImageQuizDetail.ts:56-82 | each loaded round: id and texts with their fallbacks, image under the base address unless `http…`, exactly three answers, the first three stored ones mapped in order, then blank ones |
| `QuizFetch.FetchedCorrectByIdentity` | src/api/image-quiz/useFetchImageQuizDetail.ts:71 | when the round has a correct id, every stored answer has an id and no padding id equals the correct id, an answer is marked correct exactly when its id is the correct id |
| `QuizFetch.MissingIdsMarkedCorrect` | src/api/image-quiz/useFetchImageQuizDetail.ts:66-71 | an answer without id in a round without correct id is marked correct, though it gets a fresh id and the correct id is empty |
| `QuizFetch.NormalizeRounds` | src/api/image-quiz/useFetchImageQuizDetail.ts:77-82 | the map with its padding loop normalises every round |
| `QuizFetch.FetchState.constructor` | src/api/image-quiz/useFetchImageQuizDetail.ts:36-38 | no data, loading, no error |
| `QuizFetch.FetchState.Effect` | src/api/image-quiz/useFetchImageQuizDetail.ts:40-48 | without a game id loading ends and nothing is fetched; with one loading starts and a fetch is made |
| `QuizFetch.FetchState.Resolve` | src/api/image-quiz/useFetchImageQuizDetail.ts:84-97 | a response is stored mapped and normalised, a failure records the load error; loading ends either way |
| `QuizUpdatePayload.PublishFlag` | src/api/image-quiz/useUpdateImageQuiz.ts:63-64 | an explicit publish flag wins, then the settings' flag; unknown only when neither is given |
| `QuizUpdatePayload.Relativize` | src/api/image-quiz/useUpdateImageQuiz.ts:104-109 | a path that does not start with the non-empty base is sent as it is |
| `QuizUpdatePayload.ImageRefs` | src/api/image-quiz/useUpdateImageQuiz.ts:92-115 | one entry per round |
| `QuizUpdatePayload.UpdateRounds` | src/api/image-quiz/useUpdateImageQuiz.ts:123-142 | one entry per round |
| `QuizUpdatePayload.UpdateNameField` | src/api/image-quiz/useUpdateImageQuiz.ts:54-56 | the name is sent only when the title is non-empty |
| `QuizUpdatePayload.UpdatePublishField` | src/api/image-quiz/useUpdateImageQuiz.ts:63-68 | the publish flag is sent once when known and not at all otherwise |
| `QuizUpdatePayload.UpdateThemeField` | src/api/image-quiz/useUpdateImageQuiz.ts:86-87 | the theme is always sent once, `family100` when none is set |
| `QuizUpdatePayload.UpdateFilesField` | src/api/image-quiz/useUpdateImageQuiz.ts:96-120 | new round images are uploaded in round order, and only when rounds are sent |
| `QuizUpdatePayload.UpdateRoundsField` | src/api/image-quiz/useUpdateImageQuiz.ts:90-145 | the rounds are sent once when given and not at all otherwise |
| `QuizUpdatePayload.RoundImageMeaning` | src/api/image-quiz/useUpdateImageQuiz.ts:96-139 | a new image names its own position among the uploads, counting from 0 in round order; a stored image names its path made relative; no image leaves the reference out |
| `QuizUpdatePayload.StoredImageRoundTrip` | src/api/image-quiz/useUpdateImageQuiz.ts:101-110 | a stored path the loader put under the base address is sent back as the same path |
| `QuizUpdatePayload.IndexImages` | src/api/image-quiz/useUpdateImageQuiz.ts:91-115 | the loop collects the uploads and the image references |
| `QuizUpdatePayload.AppendHead` | src/api/image-quiz/useUpdateImageQuiz.ts:50-87 | the appends before the rounds build the described fields |
| `QuizUpdatePayload.UpdateImageQuiz` | src/api/image-quiz/useUpdateImageQuiz.ts:46-145 | the appends build the form whose fields the lemmas above describe |
| `QuizEditPage.LoadedMapped` | src/pages/image-quiz/EditImageQuiz.tsx:117-142 | one mapped, normalised round per loaded round, in order |
| `QuizEditPage.PadRoundsShape` | src/pages/image-quiz/EditImageQuiz.tsx:144-158 | padding keeps the rounds there are, in order, and adds blank rounds up to two |
| `QuizEditPage.LoadedRoundsShape` | src/pages/image-quiz/EditImageQuiz.tsx:117-160 | after loading there are at least two rounds, each with three answers; loaded rounds keep text, image, correct id and non-empty id, and their first answers' texts and marks |
| `QuizEditPage.LoadedRoundsValid` | src/pages/image-quiz/EditImageQuiz.tsx:137-160 | the loaded page always has at least two rounds, each with exactly three answers |
| `QuizEditPage.LoadRounds` | src/pages/image-quiz/EditImageQuiz.tsx:117-160 | the map, the normalising loop and the padding loop compute the loaded rounds |
| `QuizEditPage.AnswerTextIssuesEmptyIff` | src/pages/image-quiz/EditImageQuiz.tsx:283-289 | no answer problem exactly when every answer text is non-blank |
| `QuizEditPage.RoundsIssuesEmptyIff` | src/pages/image-quiz/EditImageQuiz.tsx:265-290 | no round problem exactly when every round has an image, a non-blank category, a correct id and non-blank answers |
| `QuizEditPage.EditIssuesEmptyIff` | src/pages/image-quiz/EditImageQuiz.tsx:255-290 | the submit check finds nothing exactly when there is a thumbnail or a preview, the title is not blank and every round is ready |
| `QuizEditPage.CheckAnswers` | src/pages/image-quiz/EditImageQuiz.tsx:283-289 | the answer loop writes exactly the answer problems into the map and raises the flag when any was found |
| `QuizEditPage.CheckRoundHead` | src/pages/image-quiz/EditImageQuiz.tsx:266-281 | the image, category and correct-id checks write exactly their problems |
| `QuizEditPage.CheckPage` | src/pages/image-quiz/EditImageQuiz.tsx:255-263 | the thumbnail and title checks write exactly their problems |
| `QuizEditPage.CheckRound` | src/pages/image-quiz/EditImageQuiz.tsx:265-290 | one round's checks write exactly that round's problems |
| `QuizEditPage.CheckRounds` | src/pages/image-quiz/EditImageQuiz.tsx:265-290 | the round loop writes exactly every round's problems |
| `QuizEditPage.CheckEdit` | src/pages/image-quiz/EditImageQuiz.tsx:251-290 | the new error map holds every problem found and the flag is raised exactly when one was |
| `QuizEditPage.EditRequestMeaning` | src/pages/image-quiz/EditImageQuiz.tsx:308-325 | the update publishes when either the button or the switch says so, sends the rounds and the `family100` theme |
| `QuizEditPage.EditPage.constructor` | src/pages/image-quiz/EditImageQuiz.tsx:51-85 | two blank rounds, empty texts, no thumbnail or preview, switches off, loading |
| `QuizEditPage.EditPage.LoadEffect` | src/pages/image-quiz/EditImageQuiz.tsx:93-167 | while fetching only loading; after an error or without data nothing else; otherwise title and description with fallbacks, thumbnail cleared, preview under the base, the loaded rounds, and the switches from the stored flags |
| `QuizEditPage.EditPage.Fill` | src/pages/image-quiz/EditImageQuiz.tsx:107-166 | a loaded quiz sets the title and description with empty fallbacks, clears the thumbnail, previews the stored one under the base address, installs the loaded rounds (at least two, three options each) and takes the switches from the stored flags |
| `QuizEditPage.EditPage.AddRound` | src/pages/image-quiz/EditImageQuiz.tsx:169-184 | exactly one blank round, carrying the given ids, is appended and the earlier rounds are unchanged; the ids are a parameter, and the page as written is the case of one id shared by all three options (see `QuizForm.SharedIdsAreAsWritten` and Findings) |
| `QuizEditPage.EditPage.RemoveRound` | src/pages/image-quiz/EditImageQuiz.tsx:186-189 | nothing while two rounds or fewer are left; otherwise exactly the given round goes |
| `QuizEditPage.EditPage.SetTitle` | src/pages/image-quiz/EditImageQuiz.tsx:504-507 | the title changes and its error is cleared |
| `QuizEditPage.EditPage.SetDescription` | src/pages/image-quiz/EditImageQuiz.tsx:523 | the description changes |
| `QuizEditPage.EditPage.HandleThumbnailChange` | src/pages/image-quiz/EditImageQuiz.tsx:240-244 | the thumbnail changes, a chosen file also becomes the preview, and the thumbnail error is cleared |
| `QuizEditPage.EditPage.SetRandomQuestions` | src/pages/image-quiz/EditImageQuiz.tsx:748-754 | only the round-shuffle switch changes |
| `QuizEditPage.EditPage.SetRandomAnswers` | src/pages/image-quiz/EditImageQuiz.tsx:770-776 | only the answer-shuffle switch changes |
| `QuizEditPage.EditPage.HandleAnswerChange` | src/pages/image-quiz/EditImageQuiz.tsx:207-216 | only that answer's text changes and its error is cleared |
| `QuizEditPage.EditPage.HandleCorrectAnswer` | src/pages/image-quiz/EditImageQuiz.tsx:218-233 | the chosen answer becomes the only correct one and both related error keys are deleted |
| `QuizEditPage.EditPage.HandleQuestionTextChange` | src/pages/image-quiz/EditImageQuiz.tsx:235-238 | the round's category changes and its error is cleared |
| `QuizEditPage.EditPage.HandleQuestionImageChange` | src/pages/image-quiz/EditImageQuiz.tsx:246-249 | the round's image becomes the chosen file and its error is cleared |
| `QuizEditPage.EditPage.HandleSubmit` | src/pages/image-quiz/EditImageQuiz.tsx:251-334 | any problem replaces the error map and blocks the update with a toast; otherwise the update is sent with the page's contents and the errors stay |
| `QuizEditPage.SharedIdReloadsAllCorrect` | src/pages/image-quiz/EditImageQuiz.tsx:169-184 | a new edit-page round saved with its first answer chosen reloads with all three answers marked correct |
| `QuizEditPage.DistinctIdsReloadChoice` | src/api/image-quiz/useFetchImageQuizDetail.ts:68-72 | with distinct answer ids the same save and reload marks exactly the chosen answer |
| `Text.Utf16Length` | src/validation/imageQuizSchema.ts:26 | a string's JavaScript length counts two units for each character outside the Basic Multilingual Plane, so it lies between the number of characters and twice that, and equals the number of characters exactly when no character needs a surrogate pair |
| `Text.TrimEmptyIffBlank` | src/pages/image-quiz/EditImageQuiz.tsx:260 | `!s.trim()` holds exactly for strings made only of white space |
| `Text.JoinInjective` | src/pages/unjumble/gameUnjumble.tsx:156-157 | joining separable words with one space loses nothing |
| `Text.ParseNatToString` | src/pages/crosswords/index.tsx:10-13 | reading back a decimal rendering gives the number |
| `Text.ParseNatPadded` | src/pages/crosswords/index.tsx:10-13 | zero padding keeps the value |
| `Text.IntToStringInjective` | src/pages/airplane/hooks/useGeneralGameEngine.ts:36 | different numbers render as different strings, so distinct wrong answers stay distinct as text |
| `Text.IntToStringSign` | src/pages/airplane/hooks/useGeneralGameEngine.ts:36 | the rendering starts with a minus sign exactly for negative numbers |
| `Text.ReplaceFirstOfPrefix` | src/api/image-quiz/useUpdateImageQuiz.ts:107 | replacing a prefix by nothing drops exactly that prefix |
| `Seqs.RemoveAt` | src/pages/image-quiz/PlayImageQuiz.tsx:379 | `splice(i, 1)` removes exactly element i and keeps the others in order |
| `Seqs.FirstIndexOf` | src/api/image-quiz/useCreateImageQuiz.ts:84 | `indexOf` gives the first position holding the element, or the length when there is none |

## Left out

- Rendering, styling, dialogs, toasts, sounds, console output and routing. They do not affect the modelled state. Navigation is a `left`/`exited` flag.
- Network calls: the game-list fetch, the quiz fetch, the create and update requests, answer submission, play-count reports and the user refresh. Requests are modelled as the payload or form they carry; responses are parameters (`GeneralLoaded`, `Resolve`, `ReceiveResult`).
- Timers and the clock. `setInterval`, `setTimeout`, `requestAnimationFrame` and `Date.now` become explicit tick and timeout methods and time parameters. Delays are kept only as recorded numbers.
- Randomness. `Math.random`, `uuidv4` and the random-comparator sort become parameters (draws, id functions, a roll function for the shuffle). `Unjumble.Shuffle` is one particular permutation per roll function; it does not model the browser's sort.
- Floating point: the plane's easing toward the mouse (the plane's new position is a parameter), the reveal interval, the random cloud height (a parameter), and the accuracy percentage of the play page. Answer time is whole milliseconds.
- The whack-a-mole board that the game page actually imports, and the airplane math page's own engine: neither is part of this model.
- Zod's own behaviour beyond the rules: `.uuid()` is the UUID text pattern, and the order of problems follows the schema's field order.
- `QuizSchema.IssuesEmptyIffValid`: the order in which Zod reports several problems of one object is taken to be field order. Only the set of keys and their messages matter to the pages.
- `QuizUpdatePayload.Relativize`: the contract states only the case where nothing is stripped. The stripping case is stated by `QuizUpdatePayload.StoredImageRoundTrip` for the paths the loader produces.
- `ImageQuizPlay.RoundController.AdvanceAfterFeedback`: submission on the last question only sets the submitting flag. The server's reply is `ReceiveResult`.
- `Airplane.Engine.UpdatePhysics`: the plane's eased position is taken as given, because the easing is floating point.
- The thumbnail preview address and the object URL of a chosen file are opaque strings.
- `QuizFetch.MapAnswer`: an option is marked correct when its raw id equals the round's raw correct id, and a missing id is one value, `None`. JavaScript's `===` tells `null` from `undefined`, so an option and a round whose ids are missing in these two different ways are not matched by the page. The model cannot tell the two apart, because a missing field is one `None`.
- `Airplane.Engine.SpawnCloud`: a wrong cloud for a question with no wrong answers gets the empty text. In the page, indexing an empty array gives `undefined`. The fallback questions and the generated math questions always have wrong answers (`Airplane.FallbackWrongAnswersDistinct`, `Airplane.MathQuestionSound`). Questions loaded from the server might not.
- `Unjumble.Game.constructor`: the page reads the module constant `QUESTIONS` directly. The model passes the question list in and requires every question to be well formed; `Unjumble.QuestionsWellFormed` proves that `QUESTIONS` meets this requirement.

## Findings

| source | as written | input that shows it | evidently intended | confidence | as-written member | corrected member |
|---|---|---|---|---|---|---|
| src/pages/whack-a-mole/components/GameBoard-Level.tsx:101-121 | the bonus effect lists `bonusActive` among its dependencies and its cleanup clears the bonus timeout, so the re-render caused by `setBonusActive(true)` cancels the five-second timeout it just armed | a level-1 game that reaches `timeLeft === 15`: the bonus turns on and never turns off, and level 2 never shows phishing robots or traps | the bonus ends five seconds after it started | not executed | `WhackLevel.BonusNeverEndsAsWritten` | `WhackLevel.BonusEndsAsIntended` |
| src/pages/image-quiz/EditImageQuiz.tsx:169-184 | `Array(3).fill({ answer_id: uuidv4(), … })` gives the three answers of a new round (and of a padding round, lines 146-158) one shared id | add a round on the edit page, choose its first answer and save: the reload marks all three answers correct, because each answer's id equals the correct id | three answers with three fresh ids, as on the create page | not executed | `QuizForm.SharedIdBreaksChoice` | `QuizForm.BlankRoundChoice` |
