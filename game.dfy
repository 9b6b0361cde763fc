/** The round and game state machine of the Game component
    (draw-guess-game/src/components/Game.tsx, lines 7-148), without its rendering.
    React state and refs become fields of one object, and every handler becomes a
    guarded method. Timer firings and the random draws are explicit calls and
    parameters. */
module GameMachine {
  import opened WordBank
  import opened Guesser

  datatype GameState = Idle | Playing | Won | Lost

  /** A guess in the history (lines 9-14); the Date.now() timestamp is not modelled. */
  datatype GuessRecord = GuessRecord(guess: string, confidence: int, isCorrect: bool)

  /** Length of a round in seconds (line 45). */
  const RoundSeconds: int := 60
  /** Progress from which the guess timer is armed (line 108). */
  const GuessThreshold: int := 10
  /** Points a hint costs (line 147). */
  const HintCost: int := 50

  /** Drawing progress after a number of strokes: two points per stroke, capped at 100
      (line 60). */
  function Progress(strokes: nat): (p: nat)
    ensures p <= 100
    ensures strokes <= 50 ==> p == 2 * strokes
    ensures strokes >= 50 ==> p == 100
  {
    Min(100, strokes * 2)
  }

  /** More strokes never mean less progress. */
  lemma ProgressMonotone(a: nat, b: nat)
    requires a <= b
    ensures Progress(a) <= Progress(b)
  {
  }

  /** Points for a correct guess: ten per second left and fifty per round number
      (lines 78-80). */
  function WinBonus(timeLeft: int, round: int): (b: int)
    ensures timeLeft >= 0 && round >= 1 ==> b >= 50
  {
    timeLeft * 10 + round * 50
  }

  /** Score after buying a hint: fifty points less, floored at zero (line 147). */
  function AfterHint(score: int): (s: int)
    ensures s >= 0
    ensures s <= score || score < 0
    ensures score >= HintCost ==> s == score - HintCost
    ensures score < HintCost ==> s == 0
  {
    Max(0, score - HintCost)
  }

  /** The words of the wrong guesses in a history. */
  function WrongGuesses(gs: seq<GuessRecord>): set<string> {
    set i | 0 <= i < |gs| && !gs[i].isCorrect :: gs[i].guess
  }

  /** No word appears twice among the wrong guesses of a history. */
  ghost predicate NoRepeatedWrongGuess(gs: seq<GuessRecord>) {
    forall i, j :: 0 <= i < j < |gs| && !gs[i].isCorrect && !gs[j].isCorrect ==> gs[i].guess != gs[j].guess
  }

  /** Every guess of a history is wrong: the round is still open. */
  ghost predicate NoCorrectGuess(gs: seq<GuessRecord>) {
    forall i :: 0 <= i < |gs| ==> !gs[i].isCorrect
  }

  /** Appending a record to a history adds its word to the wrong guesses exactly when it
      is a wrong guess, keeps them free of repeats when that word is new, and keeps an
      all-wrong history all wrong when it is wrong. */
  lemma AppendRecord(gs: seq<GuessRecord>, g: GuessRecord)
    ensures WrongGuesses(gs + [g]) == if g.isCorrect then WrongGuesses(gs) else WrongGuesses(gs) + {g.guess}
    ensures NoRepeatedWrongGuess(gs) && (g.isCorrect || g.guess !in WrongGuesses(gs))
            ==> NoRepeatedWrongGuess(gs + [g])
    ensures NoCorrectGuess(gs) && !g.isCorrect ==> NoCorrectGuess(gs + [g])
  {
    var n := gs + [g];
    assert forall i :: 0 <= i < |gs| ==> n[i] == gs[i];
    assert n[|gs|] == g;
    if !g.isCorrect {
      assert n[|gs|] == g;
      assert g.guess in WrongGuesses(n);
    }
    if NoRepeatedWrongGuess(gs) && (g.isCorrect || g.guess !in WrongGuesses(gs)) {
      forall i, j | 0 <= i < j < |n| && !n[i].isCorrect && !n[j].isCorrect
        ensures n[i].guess != n[j].guess
      {
        if j == |gs| {
          assert n[i].guess in WrongGuesses(gs);
        }
      }
    }
  }

  class Game {
    var gameState: GameState
    var currentWord: Option<WordInfo>
    var timeLeft: int
    var score: int
    var round: int
    var guesses: seq<GuessRecord>
    var drawingProgress: int
    var showWord: bool
    /** aiRef.current: null until the first round starts. */
    var ai: SimulatedAI?
    /** strokeCountRef.current. */
    var strokeCount: nat

    /** What every handler keeps: score never negative, round at least 1, timer within
        the round, progress a function of the strokes, an AI (with its invariant) exactly
        when the game has left idle, a guess history in step with that AI and free of
        repeated wrong guesses, and outcomes that match the history and the timer. */
    ghost predicate Valid()
      reads this, ai
    {
      score >= 0 && round >= 1
      && 0 <= timeLeft <= RoundSeconds
      && drawingProgress == Progress(strokeCount)
      && (gameState == Idle <==> ai == null)
      && (ai != null ==>
            ai.Valid()
            && currentWord.Some? && ai.targetWord == currentWord.value.word
            && ai.guessCount == |guesses|
            && ai.guessedWords == WrongGuesses(guesses))
      && NoRepeatedWrongGuess(guesses)
      && (gameState == Playing ==> 1 <= timeLeft && NoCorrectGuess(guesses))
      && (gameState == Won ==> |guesses| > 0 && guesses[|guesses| - 1].isCorrect)
      && (gameState == Lost ==> timeLeft == 0)
    }

    /** The initial state of the component (lines 17-29). */
    constructor ()
      ensures Valid()
      ensures gameState == Idle && currentWord == None && ai == null
      ensures timeLeft == RoundSeconds && score == 0 && round == 1
      ensures guesses == [] && drawingProgress == 0 && !showWord && strokeCount == 0
    {
      gameState := Idle;
      currentWord := None;
      timeLeft := RoundSeconds;
      score := 0;
      round := 1;
      guesses := [];
      drawingProgress := 0;
      showWord := false;
      ai := null;
      strokeCount := 0;
    }

    /** Playing with an unanswered round, so the guess timer can be armed (line 108). */
    predicate GuessingEnabled(): (b: bool)
      reads this
      ensures drawingProgress == Progress(strokeCount) ==>
                (b <==> gameState == Playing && strokeCount >= GuessThreshold / 2)
    {
      gameState == Playing && drawingProgress >= GuessThreshold
    }

    /** startGame (lines 41-52), from any state: a new word from getRandomWord (its two
        draws are the parameters), a full timer, an empty history, no progress, and a
        fresh guesser for the word. Score and round are left as they are. */
    method StartGame(categoryDraw: real, wordDraw: real)
      requires Valid()
      requires 0.0 <= categoryDraw < 1.0 && 0.0 <= wordDraw < 1.0
      modifies this
      ensures Valid()
      ensures currentWord == Some(RandomWord(categoryDraw, wordDraw))
      ensures gameState == Playing && timeLeft == RoundSeconds
      ensures guesses == [] && drawingProgress == 0 && !showWord && strokeCount == 0
      ensures ai != null && fresh(ai)
      ensures ai.targetWord == currentWord.value.word && ai.guessedWords == {}
      ensures ai.guessCount == 0 && ai.hintLevel == 0
      ensures score == old(score) && round == old(round)
    {
      var wordInfo := RandomWord(categoryDraw, wordDraw);
      currentWord := Some(wordInfo);
      gameState := Playing;
      timeLeft := RoundSeconds;
      guesses := [];
      drawingProgress := 0;
      showWord := false;
      strokeCount := 0;
      ai := new SimulatedAI(wordInfo.word);
    }

    /** handleDraw (lines 55-62): outside a round nothing happens; in a round one more
        stroke, and progress follows the stroke count, never decreasing. */
    method HandleDraw()
      requires Valid()
      modifies this
      ensures Valid()
      ensures old(gameState) != Playing ==> strokeCount == old(strokeCount) && drawingProgress == old(drawingProgress)
      ensures old(gameState) == Playing ==> strokeCount == old(strokeCount) + 1
      ensures drawingProgress == Progress(strokeCount) && old(drawingProgress) <= drawingProgress <= 100
      ensures gameState == old(gameState) && timeLeft == old(timeLeft) && score == old(score)
      ensures round == old(round) && guesses == old(guesses) && ai == old(ai)
      ensures currentWord == old(currentWord) && showWord == old(showWord)
    {
      if gameState != Playing {
        return;
      }
      strokeCount := strokeCount + 1;
      drawingProgress := Progress(strokeCount);
    }

    /** makeAIGuess (lines 65-82): only with an AI and during a round; one guess at the
        current progress is appended to the history, and a correct one wins the round
        with the time and round bonus. The four draws go to SimulatedAI.MakeGuess. */
    method MakeAIGuess(coin: real, correctDraw: real, pickDraw: real, confidenceDraw: real)
      requires Valid()
      requires 0.0 <= correctDraw < 1.0 && 0.0 <= pickDraw < 1.0 && 0.0 <= confidenceDraw < 1.0
      modifies this, ai
      ensures Valid()
      ensures ai == old(ai)
      ensures old(ai) == null || old(gameState) != Playing ==>
                gameState == old(gameState) && guesses == old(guesses) && score == old(score)
      ensures old(ai) != null && old(gameState) == Playing ==>
                var r := GuessFor(old(ai.targetWord), old(ai.guessedWords), old(ai.guessCount) + 1,
                                  old(drawingProgress), coin, correctDraw, pickDraw, confidenceDraw);
                guesses == old(guesses) + [GuessRecord(r.guess, r.confidence, r.isCorrect)]
      ensures old(ai) != null ==> ai.hintLevel == old(ai.hintLevel) && ai.targetWord == old(ai.targetWord)
      ensures old(ai) != null && old(gameState) == Playing ==>
                |guesses| == |old(guesses)| + 1 && guesses[..|old(guesses)|] == old(guesses)
                && guesses[|old(guesses)|].guess !in WrongGuesses(old(guesses))
                && 30 <= guesses[|old(guesses)|].confidence <= 99
                && (guesses[|old(guesses)|].isCorrect <==> guesses[|old(guesses)|].guess == currentWord.value.word)
      ensures old(ai) != null && old(gameState) == Playing && guesses[|old(guesses)|].isCorrect ==>
                gameState == Won && score == old(score) + WinBonus(old(timeLeft), old(round))
      ensures old(ai) != null && old(gameState) == Playing && !guesses[|old(guesses)|].isCorrect ==>
                gameState == Playing && score == old(score)
      ensures timeLeft == old(timeLeft) && round == old(round) && currentWord == old(currentWord)
      ensures strokeCount == old(strokeCount) && drawingProgress == old(drawingProgress)
      ensures showWord == old(showWord)
    {
      if ai == null || gameState != Playing {
        return;
      }
      var before := guesses;
      var result := ai.MakeGuess(drawingProgress, coin, correctDraw, pickDraw, confidenceDraw);
      assert ai == old(ai) && timeLeft == old(timeLeft) && round == old(round) && score == old(score);
      assert currentWord == old(currentWord) && strokeCount == old(strokeCount);
      assert drawingProgress == old(drawingProgress) && showWord == old(showWord);
      var record := GuessRecord(result.guess, result.confidence, result.isCorrect);
      assert record.guess !in WrongGuesses(before);
      assert 30 <= record.confidence <= 99;
      AppendRecord(before, record);
      guesses := before + [record];
      assert guesses[..|before|] == before && guesses[|before|] == record;
      assert ai.guessedWords == WrongGuesses(guesses);

      if result.isCorrect {
        gameState := Won;
        score := score + WinBonus(timeLeft, round);
      }
    }

    /** The body of the one-second interval (lines 91-98), which runs only during a round:
        the last second ends the round as lost, with no score change; otherwise one
        second less. */
    method Tick()
      requires Valid()
      modifies this
      ensures Valid()
      ensures old(gameState) != Playing ==> gameState == old(gameState) && timeLeft == old(timeLeft)
      ensures old(gameState) == Playing && old(timeLeft) <= 1 ==> gameState == Lost && timeLeft == 0
      ensures old(gameState) == Playing && old(timeLeft) > 1 ==> gameState == Playing && timeLeft == old(timeLeft) - 1
      ensures score == old(score) && round == old(round) && guesses == old(guesses) && ai == old(ai)
      ensures drawingProgress == old(drawingProgress) && strokeCount == old(strokeCount)
      ensures currentWord == old(currentWord) && showWord == old(showWord)
    {
      if gameState != Playing {
        return;
      }
      if timeLeft <= 1 {
        gameState := Lost;
        timeLeft := 0;
      } else {
        timeLeft := timeLeft - 1;
      }
    }

    /** The guess timeout firing (lines 113-121). The effect arms a timeout only while
        GuessingEnabled() holds and cancels it otherwise, so a firing is a guess exactly
        when that guard holds. Whether a firing ever happens is left to the caller: the
        effect is re-run, and its pending timeout cancelled, whenever makeAIGuess changes,
        which happens with every change of timeLeft (lines 82, 125-128). */
    method GuessTimerFires(coin: real, correctDraw: real, pickDraw: real, confidenceDraw: real)
      requires Valid()
      requires 0.0 <= correctDraw < 1.0 && 0.0 <= pickDraw < 1.0 && 0.0 <= confidenceDraw < 1.0
      modifies this, ai
      ensures Valid()
      ensures !old(GuessingEnabled()) ==> guesses == old(guesses) && gameState == old(gameState) && score == old(score)
      ensures !old(GuessingEnabled()) && ai != null ==>
                ai.guessedWords == old(ai.guessedWords) && ai.guessCount == old(ai.guessCount)
      ensures old(GuessingEnabled()) ==>
                var r := GuessFor(old(ai.targetWord), old(ai.guessedWords), old(ai.guessCount) + 1,
                                  old(drawingProgress), coin, correctDraw, pickDraw, confidenceDraw);
                guesses == old(guesses) + [GuessRecord(r.guess, r.confidence, r.isCorrect)]
                && (r.isCorrect ==> gameState == Won && score == old(score) + WinBonus(old(timeLeft), old(round)))
                && (!r.isCorrect ==> gameState == Playing && score == old(score))
      ensures ai == old(ai) && (ai != null ==> ai.hintLevel == old(ai.hintLevel) && ai.targetWord == old(ai.targetWord))
      ensures timeLeft == old(timeLeft) && round == old(round) && drawingProgress == old(drawingProgress)
      ensures currentWord == old(currentWord) && showWord == old(showWord) && strokeCount == old(strokeCount)
    {
      if GuessingEnabled() {
        MakeAIGuess(coin, correctDraw, pickDraw, confidenceDraw);
      }
    }

    /** nextRound (lines 131-134): the round number goes up by one, then startGame. */
    method NextRound(categoryDraw: real, wordDraw: real)
      requires Valid()
      requires 0.0 <= categoryDraw < 1.0 && 0.0 <= wordDraw < 1.0
      modifies this
      ensures Valid()
      ensures round == old(round) + 1 && score == old(score)
      ensures gameState == Playing && timeLeft == RoundSeconds && guesses == [] && drawingProgress == 0
      ensures currentWord == Some(RandomWord(categoryDraw, wordDraw))
      ensures ai != null && fresh(ai) && ai.guessCount == 0 && ai.guessedWords == {}
      ensures ai.targetWord == currentWord.value.word && ai.hintLevel == 0
      ensures !showWord && strokeCount == 0
    {
      round := round + 1;
      StartGame(categoryDraw, wordDraw);
    }

    /** resetGame (lines 137-141): score 0 and round 1, then startGame. */
    method ResetGame(categoryDraw: real, wordDraw: real)
      requires Valid()
      requires 0.0 <= categoryDraw < 1.0 && 0.0 <= wordDraw < 1.0
      modifies this
      ensures Valid()
      ensures score == 0 && round == 1
      ensures gameState == Playing && timeLeft == RoundSeconds && guesses == [] && drawingProgress == 0
      ensures currentWord == Some(RandomWord(categoryDraw, wordDraw))
      ensures ai != null && fresh(ai) && ai.guessCount == 0 && ai.guessedWords == {}
      ensures ai.targetWord == currentWord.value.word && ai.hintLevel == 0
      ensures !showWord && strokeCount == 0
    {
      score := 0;
      round := 1;
      StartGame(categoryDraw, wordDraw);
    }

    /** getHint (lines 144-148): with no AI nothing happens; otherwise the hint costs
        fifty points, floored at zero. The state and the AI are not touched. */
    method GetHint()
      requires Valid()
      modifies this
      ensures Valid()
      ensures old(ai) == null ==> score == old(score)
      ensures old(ai) != null ==> score == AfterHint(old(score))
      ensures gameState == old(gameState) && timeLeft == old(timeLeft) && round == old(round)
      ensures guesses == old(guesses) && ai == old(ai) && drawingProgress == old(drawingProgress)
      ensures currentWord == old(currentWord) && showWord == old(showWord) && strokeCount == old(strokeCount)
    {
      if ai == null {
        return;
      }
      score := AfterHint(score);
    }
  }
}
