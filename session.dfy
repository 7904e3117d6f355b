/** The game session of the word-guessing activity as values: the five
    session fields, one function per click handler, timer tick and word
    delivery, and the properties those handlers keep. The class in module
    Activity updates the same fields in place and is proved against these
    functions. */
module Session {
  import opened Text

  datatype Option<T> = None | Some(value: T)

  const InitialScore: int := 100
  const InitialLevel: int := 1
  const WrongGuessCost: int := 10
  const HintCost: int := 5
  const MaxAttempts: int := 10
  const TipUnlockAttempts: int := 5
  const BaseWordLength: int := 4

  /** The session fields `wordToGuess`, `score`, `attempts`, `level` and
      `timeTaken` (seconds counted by the timer). */
  datatype State = State(wordToGuess: string, score: int, attempts: int, level: int, timeTaken: int)

  /** Why a click was refused without touching the session. */
  datatype Rejection = EmptyGuess | NotSingleLetter | TipLocked

  /** What a paid hint tells the player. */
  datatype Hint = LetterCount(letter: char, count: nat) | WordLength(length: nat) | Rhyme(rhyme: string)

  /** What a handler reports, in place of the texts and notifications the
      activity shows. `gameOver` says that the game-over check fired after
      the action, revealed the word and started a new game. */
  datatype Outcome =
    | Rejected(why: Rejection)
    | Won(word: string, seconds: int)
    | Wrong(attempts: int, gameOver: bool)
    | Hinted(hint: Hint, gameOver: bool)
    | Restarted
    | Ticked(seconds: int)
    | RoundReady(level: int)
    | FetchError

  /** The session after a handler, what it reports, and the length of the
      word it asks the word service for, if it asks for one. */
  datatype Step = Step(next: State, outcome: Outcome, request: Option<int>)

  /** The events that drive the activity. */
  datatype Event =
    | GuessClicked(guess: string)
    | NewWordClicked
    | LetterCountClicked(letter: string)
    | WordLengthClicked
    | TipClicked
    | TimerTicked
    | WordFetched(word: string)
    | FetchFailed

  /** The invariant every handler keeps: fewer than ten attempts, a positive
      score of at most 100 in steps of five, a level of at least one, a
      non-negative timer and a lower-case target. */
  predicate Valid(s: State) {
    && 0 <= s.attempts < MaxAttempts
    && 0 < s.score <= InitialScore
    && s.score % HintCost == 0
    && InitialLevel <= s.level
    && 0 <= s.timeTaken
    && IsLowercase(s.wordToGuess)
  }

  /** A state one scoring action away from a valid one: at most one attempt
      and at most one wrong-guess cost beyond the bounds. */
  predicate AfterScoring(s: State) {
    && 0 <= s.attempts <= MaxAttempts
    && -WrongGuessCost < s.score <= InitialScore
    && s.score % HintCost == 0
    && InitialLevel <= s.level
    && 0 <= s.timeTaken
    && IsLowercase(s.wordToGuess)
  }

  /** The length of word requested for a level: longer than the four-letter
      base at every level the session can reach, and longer than the level. */
  function RequestedLength(level: int): (r: int)
    ensures InitialLevel <= level ==> BaseWordLength < r
    ensures level < r
  {
    BaseWordLength + level
  }

  /** The session at activity creation, before any word has arrived. */
  function Initial(): (s: State)
    ensures Valid(s) && s.wordToGuess == [] && s.level == InitialLevel
  {
    State([], InitialScore, 0, InitialLevel, 0)
  }

  /** What every handler promises: the invariant is kept, the level rises by
      one exactly on a win and never changes otherwise, a word is requested
      only together with a fresh score and no attempts and always for the
      level the session is then at, and a refused click changes nothing. */
  predicate KeepsRules(s: State, r: Step) {
    && (Valid(s) ==> Valid(r.next))
    && r.next.level == (if r.outcome.Won? then s.level + 1 else s.level)
    && (r.request.Some? ==>
          r.request.value == RequestedLength(r.next.level) && r.next.score == InitialScore && r.next.attempts == 0)
    && (r.outcome.Rejected? ==> r.next == s && r.request == None)
  }

  /** `resetGame`: full score, no attempts, and a fetch of a word for the
      current level. The old word is not cleared. */
  function ResetGame(s: State): (r: (State, int))
    ensures r.0.score == InitialScore && r.0.attempts == 0
    ensures r.0.level == s.level && r.0.wordToGuess == s.wordToGuess && r.0.timeTaken == s.timeTaken
    ensures (InitialLevel <= s.level && 0 <= s.timeTaken && IsLowercase(s.wordToGuess)) ==> Valid(r.0)
    ensures r.1 == RequestedLength(r.0.level)
  {
    (s.(score := InitialScore, attempts := 0), RequestedLength(s.level))
  }

  /** `levelUp`: one level up, then a reset, so the word requested is one
      letter longer than a word for the old level. */
  function LevelUp(s: State): (r: (State, int))
    ensures r.0.level == s.level + 1
    ensures r.0.score == InitialScore && r.0.attempts == 0
    ensures r.0.wordToGuess == s.wordToGuess && r.0.timeTaken == s.timeTaken
    ensures r.1 == RequestedLength(s.level) + 1
    ensures (InitialLevel <= s.level && 0 <= s.timeTaken && IsLowercase(s.wordToGuess)) ==> Valid(r.0)
  {
    ResetGame(s.(level := s.level + 1))
  }

  /** `checkGameOver`: when the score is used up or ten attempts are spent,
      the game resets at the same level; this brings a state one scoring
      action past the bounds back within them. */
  function CheckGameOver(s: State): (r: (State, Option<int>))
    ensures r.1.Some? <==> (s.score <= 0 || s.attempts >= MaxAttempts)
    ensures AfterScoring(s) ==> Valid(r.0)
    ensures r.0.level == s.level && r.0.wordToGuess == s.wordToGuess && r.0.timeTaken == s.timeTaken
    ensures r.1.Some? ==> r.0.score == InitialScore && r.0.attempts == 0 && r.1.value == RequestedLength(s.level)
    ensures r.1.None? ==> r.0 == s
  {
    if s.score <= 0 || s.attempts >= MaxAttempts then
      var (reset, length) := ResetGame(s);
      (reset, Some(length))
    else
      (s, None)
  }

  /** The guess button: a blank guess is refused; otherwise the attempt is
      counted and the lower-cased guess either wins the round or costs ten
      points. */
  function SubmitGuess(s: State, text: string): (r: Step)
    ensures KeepsRules(s, r)
    ensures r.outcome.Rejected? <==> text == []
    ensures r.outcome.Won? <==> text != [] && Lower(text) == s.wordToGuess
    ensures r.next.wordToGuess == s.wordToGuess && r.next.timeTaken == s.timeTaken
  {
    var guess := Lower(text);
    if guess == [] then
      Step(s, Rejected(EmptyGuess), None)
    else
      var counted := s.(attempts := s.attempts + 1);
      if guess == s.wordToGuess then
        var (next, length) := LevelUp(counted);
        Step(next, Won(s.wordToGuess, s.timeTaken), Some(length))
      else
        var charged := counted.(score := counted.score - WrongGuessCost);
        var (next, request) := CheckGameOver(charged);
        Step(next, Wrong(charged.attempts, request.Some?), request)
  }

  /** The new-word button: a reset at the current level. */
  function NewWord(s: State): (r: Step)
    ensures KeepsRules(s, r)
    ensures r.request == Some(RequestedLength(s.level))
    ensures r.next.wordToGuess == s.wordToGuess && r.next.timeTaken == s.timeTaken
  {
    var (next, length) := ResetGame(s);
    Step(next, Restarted, Some(length))
  }

  /** The letter-count button: anything but exactly one letter is refused;
      otherwise five points buy the number of occurrences of the
      lower-cased letter in the target. */
  function RequestLetterCount(s: State, text: string): (r: Step)
    ensures KeepsRules(s, r)
    ensures r.outcome.Rejected? <==> |text| != 1 || !IsLetter(text[0])
    ensures !r.outcome.Rejected? ==>
              && r.outcome.Hinted? && r.outcome.hint.LetterCount?
              && [r.outcome.hint.letter] == Lower(text)
              && r.outcome.hint.count <= |s.wordToGuess|
    ensures r.next.wordToGuess == s.wordToGuess && r.next.timeTaken == s.timeTaken
  {
    var letter := Lower(text);
    if |letter| != 1 || !IsLetter(letter[0]) then
      Step(s, Rejected(NotSingleLetter), None)
    else
      var charged := s.(score := s.score - HintCost);
      var count := Occurrences(s.wordToGuess, letter[0]);
      var (next, request) := CheckGameOver(charged);
      Step(next, Hinted(LetterCount(letter[0], count), request.Some?), request)
  }

  /** The word-length button: five points buy the length of the target. */
  function RequestWordLength(s: State): (r: Step)
    ensures KeepsRules(s, r)
    ensures r.outcome.Hinted? && r.outcome.hint == WordLength(|s.wordToGuess|)
    ensures r.next.wordToGuess == s.wordToGuess && r.next.timeTaken == s.timeTaken
  {
    var charged := s.(score := s.score - HintCost);
    var (next, request) := CheckGameOver(charged);
    Step(next, Hinted(WordLength(|s.wordToGuess|), request.Some?), request)
  }

  /** `getRhymingWord`: a fixed table with "hat" for "cat" and "fog" for
      "dog"; every other word gets "similar". */
  function RhymeFor(word: string): (r: string)
    ensures word == "cat" ==> r == "hat"
    ensures word == "dog" ==> r == "fog"
    ensures r == "similar" <==> word != "cat" && word != "dog"
  {
    if word == "cat" then "hat"
    else if word == "dog" then "fog"
    else "similar"
  }

  /** The tip button: locked below five attempts; otherwise five points buy a
      rhyme of the target. */
  function RequestTip(s: State): (r: Step)
    ensures KeepsRules(s, r)
    ensures r.outcome.Rejected? <==> s.attempts < TipUnlockAttempts
    ensures !r.outcome.Rejected? ==> r.outcome.Hinted? && r.outcome.hint == Rhyme(RhymeFor(s.wordToGuess))
    ensures r.next.wordToGuess == s.wordToGuess && r.next.timeTaken == s.timeTaken
  {
    if s.attempts < TipUnlockAttempts then
      Step(s, Rejected(TipLocked), None)
    else
      var charged := s.(score := s.score - HintCost);
      var (next, request) := CheckGameOver(charged);
      Step(next, Hinted(Rhyme(RhymeFor(s.wordToGuess)), request.Some?), request)
  }

  /** One timer tick: one more second, nothing else. */
  function Tick(s: State): (r: Step)
    ensures KeepsRules(s, r)
    ensures r.next.timeTaken == s.timeTaken + 1
    ensures r.next.(timeTaken := s.timeTaken) == s
  {
    var next := s.(timeTaken := s.timeTaken + 1);
    Step(next, Ticked(next.timeTaken), None)
  }

  /** A successful fetch: the word is stored lower-cased and a new timer
      starts from zero; score, attempts and level are left as they are. */
  function WordArrived(s: State, word: string): (r: Step)
    ensures KeepsRules(s, r)
    ensures r.next.wordToGuess == Lower(word) && r.next.timeTaken == 0
    ensures r.next.score == s.score && r.next.attempts == s.attempts
  {
    Step(s.(wordToGuess := Lower(word), timeTaken := 0), RoundReady(s.level), None)
  }

  /** Dispatches an event to its handler. A failed fetch changes nothing. */
  function Handle(s: State, e: Event): (r: Step)
    ensures KeepsRules(s, r)
    ensures r.next.wordToGuess != s.wordToGuess ==> e.WordFetched?
    ensures r.next.timeTaken != s.timeTaken ==> e.TimerTicked? || e.WordFetched?
  {
    match e
    case GuessClicked(text) => SubmitGuess(s, text)
    case NewWordClicked => NewWord(s)
    case LetterCountClicked(text) => RequestLetterCount(s, text)
    case WordLengthClicked => RequestWordLength(s)
    case TipClicked => RequestTip(s)
    case TimerTicked => Tick(s)
    case WordFetched(word) => WordArrived(s, word)
    case FetchFailed => Step(s, FetchError, None)
  }

  // ----- Properties of single handlers -----

  /** A guess that is empty after lower-casing is refused and changes nothing. */
  lemma EmptyGuessRejected(s: State, text: string)
    requires Lower(text) == []
    ensures SubmitGuess(s, text) == Step(s, Rejected(EmptyGuess), None)
  {
  }

  /** A wrong guess adds one attempt and costs ten points; the game resets at
      the same level exactly when the score is then used up or ten attempts
      are spent. */
  lemma WrongGuessCosts(s: State, text: string)
    requires text != [] && Lower(text) != s.wordToGuess
    ensures var r := SubmitGuess(s, text);
            var charged := s.(score := s.score - WrongGuessCost, attempts := s.attempts + 1);
            var over := charged.score <= 0 || charged.attempts >= MaxAttempts;
            && r.outcome == Wrong(charged.attempts, over)
            && (over ==> r.next == charged.(score := InitialScore, attempts := 0)
                         && r.request == Some(RequestedLength(s.level)))
            && (!over ==> r.next == charged && r.request == None)
  {
  }

  /** The tenth attempt ends the game whatever the score. */
  lemma TenthWrongGuessEndsGame(s: State, text: string)
    requires Valid(s) && s.attempts == MaxAttempts - 1
    requires text != [] && Lower(text) != s.wordToGuess
    ensures SubmitGuess(s, text).outcome == Wrong(MaxAttempts, true)
    ensures SubmitGuess(s, text).next.score == InitialScore
  {
    WrongGuessCosts(s, text);
  }

  /** A guess equal to the target after lower-casing wins: one level up, a
      fresh score and no attempts, a request for a word one letter longer,
      and the time taken reported. */
  lemma WinningGuess(s: State, text: string)
    requires text != [] && Lower(text) == s.wordToGuess
    ensures var r := SubmitGuess(s, text);
            && r.outcome == Won(s.wordToGuess, s.timeTaken)
            && r.next == s.(level := s.level + 1, score := InitialScore, attempts := 0)
            && r.request == Some(BaseWordLength + s.level + 1)
  {
  }

  /** The stored word is lower-cased, so a guess that differs from the
      delivered word only in letter case wins. */
  lemma GuessIsCaseInsensitive(s: State, word: string, guess: string)
    requires guess != [] && Lower(guess) == Lower(word)
    ensures SubmitGuess(WordArrived(s, word).next, guess).outcome.Won?
  {
  }

  /** Letter-count reports how many positions of the target hold the
      lower-cased letter. */
  lemma LetterCountReportsPositions(s: State, text: string)
    requires |text| == 1 && IsLetter(text[0])
    ensures var r := RequestLetterCount(s, text);
            r.outcome.Hinted? && r.outcome.hint == LetterCount(LowerChar(text[0]), |Positions(s.wordToGuess, LowerChar(text[0]))|)
  {
    OccurrencesCountsPositions(s.wordToGuess, LowerChar(text[0]));
  }

  /** Each accepted hint costs exactly five points and leaves attempts and
      level alone, before the game-over check decides whether to reset. */
  lemma HintCostsFive(s: State, e: Event)
    requires e.LetterCountClicked? || e.WordLengthClicked? || e.TipClicked?
    requires !Handle(s, e).outcome.Rejected?
    ensures var r := Handle(s, e);
            var charged := s.(score := s.score - HintCost);
            var over := charged.score <= 0 || charged.attempts >= MaxAttempts;
            && r.outcome.Hinted? && r.outcome.gameOver == over
            && (over ==> r.next == charged.(score := InitialScore, attempts := 0)
                         && r.request == Some(RequestedLength(s.level)))
            && (!over ==> r.next == charged && r.request == None)
  {
  }

  /** The tip is locked below five attempts and open from the fifth. */
  lemma TipUnlocksAtFive(s: State)
    ensures RequestTip(s).outcome.Rejected? <==> s.attempts < TipUnlockAttempts
    ensures s.attempts == TipUnlockAttempts ==>
              RequestTip(s).outcome.Hinted? && RequestTip(s).outcome.hint == Rhyme(RhymeFor(s.wordToGuess))
  {
  }

  /** A reset does not clear the target, so once a game is lost and its word
      revealed, that word still wins until a new word arrives. */
  lemma RevealedWordStillWins(s: State, text: string)
    requires Valid(s) && s.wordToGuess != []
    requires text != [] && Lower(text) != s.wordToGuess
    requires SubmitGuess(s, text).outcome.gameOver
    ensures SubmitGuess(SubmitGuess(s, text).next, s.wordToGuess).outcome.Won?
  {
    LowerKeepsLowercase(s.wordToGuess);
  }

  // ----- Runs of events -----

  /** The session after a sequence of events. */
  function Run(s: State, es: seq<Event>): (r: State)
    ensures Valid(s) ==> Valid(r)
    ensures s.level <= r.level
    decreases |es|
  {
    if es == [] then s else Run(Handle(s, es[0]).next, es[1..])
  }

  /** What each event of a run reported. */
  function Outcomes(s: State, es: seq<Event>): seq<Outcome>
    decreases |es|
  {
    if es == [] then [] else [Handle(s, es[0]).outcome] + Outcomes(Handle(s, es[0]).next, es[1..])
  }

  /** The number of wins among some outcomes. */
  function Wins(os: seq<Outcome>): nat {
    if os == [] then 0 else (if os[0].Won? then 1 else 0) + Wins(os[1..])
  }

  /** The level only ever moves by wins: after a run it is the starting
      level plus the number of wins reported. */
  lemma {:induction false} LevelCountsWins(s: State, es: seq<Event>)
    ensures Run(s, es).level == s.level + Wins(Outcomes(s, es))
    decreases |es|
  {
    if es != [] {
      LevelCountsWins(Handle(s, es[0]).next, es[1..]);
    }
  }

  /** `n` timer ticks in a row. */
  function Ticks(n: nat): (es: seq<Event>)
    ensures |es| == n && forall i :: 0 <= i < n ==> es[i] == TimerTicked
  {
    seq(n, _ => TimerTicked)
  }

  /** Each tick adds exactly one second: `n` ticks add `n`. */
  lemma {:induction false} TicksAddUp(s: State, n: nat)
    ensures Run(s, Ticks(n)) == s.(timeTaken := s.timeTaken + n)
    decreases n
  {
    if n > 0 {
      assert Ticks(n)[1..] == Ticks(n - 1);
      TicksAddUp(Tick(s).next, n - 1);
    }
  }
}
