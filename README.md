# Word-guessing game session, modelled in Dafny

The Android word-guessing game keeps its whole game state in five fields of
its main activity (`MainActivity` in `MainActivity2.kt`): the word to guess,
the score (starting at 100), the number of attempts, the level (starting at 1)
and the seconds counted by a timer. Click handlers change those fields: a
guess, three paid hints (letter count, word length, a rhyming tip) and a
new-word button. A timer adds one second per tick. A background fetch asks a
random-word service for a word of length 4 + level and stores it lower-cased.

The model has three modules:

- `Text` (`text.dfy`): lower-casing, the letter test, and counting a
  character in a word. The count is proved to equal the number of positions
  that hold the character.
- `Session` (`session.dfy`): the five fields as a `State` value, with one
  function per handler. Each returns the new state, an `Outcome` that stands
  for the texts and notifications shown, and the length of word it asks the
  service for, if any. The `Valid` invariant says: 0 <= attempts <= 9,
  0 < score <= 100, score a multiple of 5, level >= 1, timer >= 0, and the
  word lower-case. Every handler keeps it (`KeepsRules`). Lemmas state the
  costs, guards, reset rule and win rule. They also prove properties of
  whole runs of events: the invariant holds throughout, the level equals the
  start level plus the number of wins, and n ticks add n seconds.
- `Activity` (`activity.dfy`): the class `GameSession` with the same five
  fields, updated in place by one method per handler and per private helper
  (`checkGameOver`, `levelUp`, `resetGame`, `startTimer`). The handler
  methods and the `checkGameOver`, `levelUp` and `resetGame` methods are
  proved to leave the fields as the matching `Session` function computes
  from the old fields. `Start` and `StartTimer` have no such function; their
  contracts state their effect on the fields directly. `PlayExampleRound`
  plays a round through the class.

Behaviour of the code worth knowing:

- The activity keeps no round status, only the five fields. A
  reset does not clear the old word, so after a lost game that word (just
  revealed to the player) still wins until a new word arrives. See
  `Session.RevealedWordStillWins`.
- A win does not reset the time counter. The timer is only cancelled there.
  The counter goes back to 0 when the next word arrives and a new timer
  starts.
- Nothing ties a fetched word to the request that asked for it. Whatever
  arrives last is stored.
- The attempt is counted before the guess is compared. A win therefore
  passes through attempts + 1 before the reset.

## Model

| member | source | states |
|---|---|---|
| Text.IsLetter | app/src/main/java/com/example/mad_application/MainActivity2.kt:95 | `Char.isLetter` holds exactly for the 52 ASCII letters, listed independently in alphabet order |
| Text.LowerChar | app/src/main/java/com/example/mad_application/MainActivity2.kt:68 | the result is never upper-case, keeps letters letters, fixes non-upper-case characters and maps 'A'..'Z' onto 'a'..'z' |
| Text.Lower | app/src/main/java/com/example/mad_application/MainActivity2.kt:68 | `lowercase()` keeps the length, lower-cases each character in place, and yields a lower-case string |
| Text.LowerKeepsLowercase | app/src/main/java/com/example/mad_application/MainActivity2.kt:153 | a word that is already lower-case is unchanged by lower-casing |
| Text.LowerIdempotent | app/src/main/java/com/example/mad_application/MainActivity2.kt:68 | lower-casing twice equals lower-casing once |
| Text.Occurrences | app/src/main/java/com/example/mad_application/MainActivity2.kt:101 | the count is at most the word's length and is zero exactly when the letter does not occur |
| Text.OccurrencesCountsPositions | app/src/main/java/com/example/mad_application/MainActivity2.kt:101 | the count equals the number of positions of the word holding the letter |
| Session.Initial | app/src/main/java/com/example/mad_application/MainActivity2.kt:21-25 | the initial session (empty word, score 100, no attempts, level 1, time 0) satisfies the invariant |
| Session.RequestedLength | app/src/main/java/com/example/mad_application/MainActivity2.kt:148 | the requested length 4 + level is longer than four letters at every reachable level, and longer than the level |
| Session.ResetGame | app/src/main/java/com/example/mad_application/MainActivity2.kt:198-203 | sets score 100 and attempts 0, keeps level, word and time, restores the invariant, and requests a word of length 4 + level |
| Session.LevelUp | app/src/main/java/com/example/mad_application/MainActivity2.kt:192-196 | raises the level by exactly one, sets score 100 and attempts 0, keeps word and time, and requests a word one letter longer than for the old level |
| Session.CheckGameOver | app/src/main/java/com/example/mad_application/MainActivity2.kt:184-190 | resets exactly when score <= 0 or attempts >= 10, keeps the level and word, and brings any state one scoring action past the bounds back within the invariant |
| Session.SubmitGuess | app/src/main/java/com/example/mad_application/MainActivity2.kt:67-85 | keeps the invariant; refused exactly on an empty guess; wins exactly when the lower-cased guess equals the word; the level changes only on a win |
| Session.NewWord | app/src/main/java/com/example/mad_application/MainActivity2.kt:88-90 | keeps the invariant and level and the old word, and requests a word for the current level |
| Session.RequestLetterCount | app/src/main/java/com/example/mad_application/MainActivity2.kt:93-105 | refused with no change exactly when the input is not one letter; otherwise reports a count for the lower-cased letter; keeps the invariant and level |
| Session.RequestWordLength | app/src/main/java/com/example/mad_application/MainActivity2.kt:108-113 | reports the target's length and keeps the invariant and level |
| Session.RhymeFor | app/src/main/java/com/example/mad_application/MainActivity2.kt:205-211 | "hat" for "cat", "fog" for "dog", and "similar" exactly for every other word |
| Session.RequestTip | app/src/main/java/com/example/mad_application/MainActivity2.kt:116-125 | refused with no change exactly when attempts < 5; otherwise reports the rhyme of the target; keeps the invariant and level |
| Session.Tick | app/src/main/java/com/example/mad_application/MainActivity2.kt:172-174 | adds exactly one second and changes nothing else |
| Session.WordArrived | app/src/main/java/com/example/mad_application/MainActivity2.kt:153-158 | stores the lower-cased word, restarts the time at 0, and keeps score, attempts and level |
| Session.Handle | app/src/main/java/com/example/mad_application/MainActivity2.kt:67-125 | every event keeps the invariant; only a win changes the level, by +1; every word request carries score 100, attempts 0 and length 4 + level; only a fetched word changes the target |
| Session.EmptyGuessRejected | app/src/main/java/com/example/mad_application/MainActivity2.kt:68-72 | an empty guess is refused and leaves the session unchanged |
| Session.WrongGuessCosts | app/src/main/java/com/example/mad_application/MainActivity2.kt:73-82 | a wrong guess adds 1 attempt and subtracts 10 points, then resets at the same level exactly when score <= 0 or attempts >= 10 |
| Session.TenthWrongGuessEndsGame | app/src/main/java/com/example/mad_application/MainActivity2.kt:73-82 | the tenth attempt ends the game whatever the score |
| Session.WinningGuess | app/src/main/java/com/example/mad_application/MainActivity2.kt:73-77 | a correct guess reports the word and time, raises the level by 1, resets score and attempts, and requests a word of length 4 + new level |
| Session.GuessIsCaseInsensitive | app/src/main/java/com/example/mad_application/MainActivity2.kt:68 | a guess that matches the fetched word up to letter case wins |
| Session.LetterCountReportsPositions | app/src/main/java/com/example/mad_application/MainActivity2.kt:94-101 | the letter count is the number of positions of the target holding the lower-cased letter |
| Session.HintCostsFive | app/src/main/java/com/example/mad_application/MainActivity2.kt:99-124 | each accepted hint subtracts exactly 5 points and keeps attempts and level, then resets exactly when the score is used up |
| Session.TipUnlocksAtFive | app/src/main/java/com/example/mad_application/MainActivity2.kt:117-123 | the tip is locked exactly below five attempts and gives the rhyme at five |
| Session.RevealedWordStillWins | app/src/main/java/com/example/mad_application/MainActivity2.kt:184-203 | after a lost game the revealed word still wins, because a reset does not clear it |
| Session.Run | app/src/main/java/com/example/mad_application/MainActivity2.kt:67-203 | any run of events from a valid session ends valid and never lowers the level |
| Session.LevelCountsWins | app/src/main/java/com/example/mad_application/MainActivity2.kt:192-196 | after any run the level is the starting level plus the number of wins |
| Session.TicksAddUp | app/src/main/java/com/example/mad_application/MainActivity2.kt:172-173 | n ticks add exactly n seconds and change nothing else |
| Activity.GameSession.constructor | app/src/main/java/com/example/mad_application/MainActivity2.kt:21-25 | the fields start at the initial session |
| Activity.GameSession.Start | app/src/main/java/com/example/mad_application/MainActivity2.kt:63-64 | requests a word of length 4 + level and starts the time at 0 |
| Activity.GameSession.StartTimer | app/src/main/java/com/example/mad_application/MainActivity2.kt:169-170 | the time counter is set to 0, nothing else changes |
| Activity.GameSession.Tick | app/src/main/java/com/example/mad_application/MainActivity2.kt:172-174 | in-place tick as `Session.Tick` |
| Activity.GameSession.WordArrived | app/src/main/java/com/example/mad_application/MainActivity2.kt:153-158 | in-place word delivery as `Session.WordArrived` |
| Activity.GameSession.ResetGame | app/src/main/java/com/example/mad_application/MainActivity2.kt:198-203 | in-place reset as `Session.ResetGame` |
| Activity.GameSession.LevelUp | app/src/main/java/com/example/mad_application/MainActivity2.kt:192-196 | in-place level-up as `Session.LevelUp` |
| Activity.GameSession.CheckGameOver | app/src/main/java/com/example/mad_application/MainActivity2.kt:184-190 | in-place game-over check as `Session.CheckGameOver` |
| Activity.GameSession.Guess | app/src/main/java/com/example/mad_application/MainActivity2.kt:67-85 | keeps the invariant; fields and report as `Session.SubmitGuess` |
| Activity.GameSession.NewWord | app/src/main/java/com/example/mad_application/MainActivity2.kt:88-90 | keeps the invariant; fields and report as `Session.NewWord` |
| Activity.GameSession.LetterCount | app/src/main/java/com/example/mad_application/MainActivity2.kt:93-105 | keeps the invariant; fields and report as `Session.RequestLetterCount` |
| Activity.GameSession.WordLength | app/src/main/java/com/example/mad_application/MainActivity2.kt:108-113 | keeps the invariant; fields and report as `Session.RequestWordLength` |
| Activity.GameSession.Tip | app/src/main/java/com/example/mad_application/MainActivity2.kt:116-125 | keeps the invariant; fields and report as `Session.RequestTip` |
| Activity.PlayExampleRound | app/src/main/java/com/example/mad_application/MainActivity2.kt:67-105 | for the word "frog": two wrong guesses cost 20 points, the count of "o" is 1 and costs 5, and "FROG" wins, reaching level 2 with a request for 6 letters |

## Left out

- User interface: view binding, the texts shown, notifications and clearing the input fields. Handlers return an `Outcome` value instead.
- The player-name dialog and its stored preference are platform I/O.
- The network fetch: the HTTP request, JSON parsing and the coroutine hand-off between threads. A handler reports the requested word length. A fetch result arrives as `Session.WordArrived`, or as the `FetchFailed` event, which changes nothing.
- The race between the background write of the fetched word and the handlers on the UI thread. The model treats each event as atomic.
- Timer scheduling and lifetime: cancelling, the unbounded duration, the one-second period, and the second timer started without cancelling the first. Only the seconds counter is modelled, so a tick is accepted in every state.
- Text.Lower: models Kotlin's `lowercase()` for ASCII only. Unicode case mapping, including mappings that change a string's length, is not modelled.
- Text.LowerChar: ASCII only, for the same reason.
- Session.RequestLetterCount: `Char.isLetter` is modelled as the ASCII letters only.
- Session.LevelUp: the level is an unbounded integer. The 32-bit wrap-around after 2^31 - 1 wins is not modelled, and neither is the same wrap in the requested length 4 + level.
- Session.Tick: the time counter is an unbounded integer, not a 64-bit `Long`.
