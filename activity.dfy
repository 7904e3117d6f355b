/** The game session as the Android activity `MainActivity` keeps it: five fields that the
    click handlers, the timer and the word fetch update in place. Every
    handler is proved to leave the fields exactly as the matching function of
    module Session computes from the old fields, and to return what that
    function reports. */
module Activity {
  import opened Text
  import opened Session

  class GameSession {
    var wordToGuess: string
    var score: int
    var attempts: int
    var level: int
    var timeTaken: int

    /** The fields as a value of the session model. */
    function Snapshot(): State
      reads this
    {
      State(wordToGuess, score, attempts, level, timeTaken)
    }

    /** The session invariant, read off the fields. */
    predicate Valid()
      reads this
    {
      Session.Valid(Snapshot())
    }

    /** The field initialisers of the activity. */
    constructor ()
      ensures Snapshot() == Initial() && Valid()
    {
      wordToGuess := [];
      score := InitialScore;
      attempts := 0;
      level := InitialLevel;
      timeTaken := 0;
    }

    /** Activity creation after the fields are set: a word for the first
        level is requested and the timer starts. */
    method Start() returns (request: int)
      modifies this
      ensures Snapshot() == old(Snapshot()).(timeTaken := 0)
      ensures request == RequestedLength(level)
    {
      request := RequestedLength(level);
      StartTimer();
    }

    /** `startTimer`: the second counter starts again from zero. */
    method StartTimer()
      modifies this
      ensures Snapshot() == old(Snapshot()).(timeTaken := 0)
    {
      timeTaken := 0;
    }

    /** The timer's `onTick`. */
    method Tick() returns (o: Outcome)
      requires Valid()
      modifies this
      ensures Valid()
      ensures Step(Snapshot(), o, None) == Session.Tick(old(Snapshot()))
    {
      timeTaken := timeTaken + 1;
      o := Ticked(timeTaken);
    }

    /** The success path of the word fetch: the word is stored lower-cased
        and the timer restarts. A failed fetch changes no field. */
    method WordArrived(word: string) returns (o: Outcome)
      requires Valid()
      modifies this
      ensures Valid()
      ensures Step(Snapshot(), o, None) == Session.WordArrived(old(Snapshot()), word)
    {
      wordToGuess := Lower(word);
      o := RoundReady(level);
      StartTimer();
    }

    /** `resetGame`, also the new-word button: full score, no attempts, and
        the length of the word to fetch for the current level. */
    method ResetGame() returns (request: int)
      modifies this
      ensures (Snapshot(), request) == Session.ResetGame(old(Snapshot()))
    {
      score := InitialScore;
      attempts := 0;
      request := RequestedLength(level);
    }

    /** `levelUp`. */
    method LevelUp() returns (request: int)
      modifies this
      ensures (Snapshot(), request) == Session.LevelUp(old(Snapshot()))
    {
      level := level + 1;
      request := ResetGame();
    }

    /** `checkGameOver`. */
    method CheckGameOver() returns (request: Option<int>)
      modifies this
      ensures (Snapshot(), request) == Session.CheckGameOver(old(Snapshot()))
    {
      if score <= 0 || attempts >= MaxAttempts {
        var length := ResetGame();
        request := Some(length);
      } else {
        request := None;
      }
    }

    /** The guess button. */
    method Guess(text: string) returns (o: Outcome, request: Option<int>)
      requires Valid()
      modifies this
      ensures Valid()
      ensures Step(Snapshot(), o, request) == SubmitGuess(old(Snapshot()), text)
    {
      var guess := Lower(text);
      if guess == [] {
        return Rejected(EmptyGuess), None;
      }
      attempts := attempts + 1;
      if guess == wordToGuess {
        o := Won(wordToGuess, timeTaken);
        var length := LevelUp();
        request := Some(length);
      } else {
        score := score - WrongGuessCost;
        var shown := attempts;
        request := CheckGameOver();
        o := Wrong(shown, request.Some?);
      }
    }

    /** The new-word button. */
    method NewWord() returns (o: Outcome, request: Option<int>)
      requires Valid()
      modifies this
      ensures Valid()
      ensures Step(Snapshot(), o, request) == Session.NewWord(old(Snapshot()))
    {
      var length := ResetGame();
      o, request := Restarted, Some(length);
    }

    /** The letter-count button. */
    method LetterCount(text: string) returns (o: Outcome, request: Option<int>)
      requires Valid()
      modifies this
      ensures Valid()
      ensures Step(Snapshot(), o, request) == RequestLetterCount(old(Snapshot()), text)
    {
      var letter := Lower(text);
      if |letter| != 1 || !IsLetter(letter[0]) {
        return Rejected(NotSingleLetter), None;
      }
      score := score - HintCost;
      var count := Occurrences(wordToGuess, letter[0]);
      request := CheckGameOver();
      o := Hinted(Session.LetterCount(letter[0], count), request.Some?);
    }

    /** The word-length button. */
    method WordLength() returns (o: Outcome, request: Option<int>)
      requires Valid()
      modifies this
      ensures Valid()
      ensures Step(Snapshot(), o, request) == RequestWordLength(old(Snapshot()))
    {
      score := score - HintCost;
      var length := |wordToGuess|;
      request := CheckGameOver();
      o := Hinted(Session.WordLength(length), request.Some?);
    }

    /** The tip button. */
    method Tip() returns (o: Outcome, request: Option<int>)
      requires Valid()
      modifies this
      ensures Valid()
      ensures Step(Snapshot(), o, request) == RequestTip(old(Snapshot()))
    {
      if attempts < TipUnlockAttempts {
        return Rejected(TipLocked), None;
      }
      score := score - HintCost;
      var rhyme := RhymeFor(wordToGuess);
      request := CheckGameOver();
      o := Hinted(Rhyme(rhyme), request.Some?);
    }
  }

  /** A round played through the class: the word "frog" arrives, two wrong
      guesses cost twenty points, a letter count for "o" finds one, and
      "FROG" wins and moves to level two. */
  method PlayExampleRound() returns (won: Outcome, nextLength: Option<int>)
    ensures won == Won("frog", 0) && nextLength == Some(6)
  {
    var game := new GameSession();
    var first := game.Start();
    assert first == 5;
    var ready := game.WordArrived("frog");
    LowerKeepsLowercase("frog");
    assert game.wordToGuess == "frog";

    var o, request := game.Guess("cat");
    assert o == Wrong(1, false);
    o, request := game.Guess("dog");
    assert o == Wrong(2, false) && game.score == 80;

    LowerKeepsLowercase("o");
    o, request := game.LetterCount("o");
    OccurrencesCountsPositions("frog", 'o');
    assert Positions("frog", 'o') == {2};
    assert o == Hinted(Session.LetterCount('o', 1), false) && game.score == 75;

    var upper := "FROG";
    assert Lower(upper) == "frog";
    won, nextLength := game.Guess(upper);
    assert game.level == 2 && game.score == InitialScore && game.attempts == 0;
  }
}
