# draw-guess-game: word bank, simulated guesser and round state machine

A model of the core of a drawing game. The player draws a secret word and a
simulated "AI" tries to guess it. The model has three modules.

- `WordBank` (`word_bank.dfy`) holds the catalog: six categories of twenty
  Chinese words. It also models `getAllWords`, `getRandomWord` and
  `getWordsByCategory`. It proves the catalog's shape: 6 keys, 20 words each,
  120 words in all, no word listed twice. It also proves that each word
  belongs to exactly one category.
- `Guesser` (`guesser.dfy`) models class `SimulatedAI`:
  - the three candidate pools of `makeGuess`, one per phase;
  - its probability and confidence arithmetic;
  - the escalating hints of `getHint`;
  - the object itself, whose guessed-word set and counters change with every call.

  One guess is specified by the function `GuessFor`. Several lemmas state what
  the source promises about it:
  - the first two guesses are wrong;
  - a wrong guess is never the target and never repeated;
  - late guesses stay in the target's category;
  - once the pool is exhausted the target is given with confidence 95;
  - the available words shrink by one with every wrong guess.
- `GameMachine` (`game.dfy`) models the `Game` component's state and handlers
  as class `Game`: start, draw, AI guess, timer tick, guess-timer firing, next
  round, reset and hint. Its invariant `Valid` says:
  - the score is never negative;
  - the timer stays within 0..60;
  - the progress is a function of the stroke count;
  - a round in play contains no correct guess;
  - a won round ends with a correct guess;
  - the history matches the guesser's guessed words and never repeats a wrong guess.

Every `Math.random()` call becomes an explicit `real` parameter, and
`Math.floor` becomes `.Floor`. The draws that index a list or set a confidence
are required to lie in `[0, 1)`. The coin compared with the probability is left
unconstrained, so every guess property holds for any coin value, which covers
`[0, 1)`. Timer firings are explicit method calls.
Strings are `seq<char>`. Every catalog word lies in the Basic Multilingual
Plane, so JavaScript's UTF-16 `length`, index and `substring` agree with
character counts.

Two points about reachability in the component:
- The `startGame`, `nextRound` and `resetGame` handlers have no guard of their
  own. The component reaches them only from its buttons: `startGame` only when
  idle (Game.tsx lines 197-206), and `nextRound` and `resetGame` only when won or
  lost (lines 242-258). The model's methods are unguarded like the handlers, so
  they cover the states those buttons can be pressed in, and every other state too.
- The component's `getHint` only checks that an AI exists. It does not check
  that a round is in play, and it only deducts the 50 points. No code in the
  component calls `SimulatedAI.getHint`, so the hint text is modelled on the
  guesser alone.

## Model

| member | source | states |
|---|---|---|
| WordBank.CatalogShape | draw-guess-game/src/lib/gameLogic.ts:2-32 | the catalog has the six keys in order, each with twenty words, and getAllWords is their concatenation of 120 words |
| WordBank.AllWordsDistinct | draw-guess-game/src/lib/gameLogic.ts:2-32 | no word occurs twice in getAllWords, within a category or across two |
| WordBank.CategoriesDisjoint | draw-guess-game/src/lib/gameLogic.ts:2-27 | two different categories share no word |
| WordBank.OneCategoryPerWord | draw-guess-game/src/lib/gameLogic.ts:2-27 | a word listed under two categories is listed under one |
| WordBank.AllWords | draw-guess-game/src/lib/gameLogic.ts:30-32 | getAllWords returns 120 words; CatalogShape proves they are the flattened catalog |
| WordBank.Flatten | draw-guess-game/src/lib/gameLogic.ts:30-32 | flattening keeps every word's membership: a word is in the result iff some category lists it, and the length is the sum of the list lengths |
| WordBank.FindCategory | draw-guess-game/src/lib/gameLogic.ts:68-74 | the search returns the first category whose list contains the word, and returns None exactly when no list contains it |
| WordBank.FindCategoryUnique | draw-guess-game/src/lib/gameLogic.ts:68-74 | for a catalog word the search finds the one category that lists it |
| WordBank.Lookup | draw-guess-game/src/lib/gameLogic.ts:45-47 | the lookup returns the list of the first entry with the key, or [] when no entry has it |
| WordBank.WordsByCategory | draw-guess-game/src/lib/gameLogic.ts:45-47 | a catalog key gives its twenty-word list, and an unknown key gives [] |
| WordBank.ScaledIndex | draw-guess-game/src/lib/gameLogic.ts:37-39 | Math.floor(draw * n) for a draw in [0, 1) is a valid index below n |
| WordBank.RandomWord | draw-guess-game/src/lib/gameLogic.ts:35-42 | the category returned is one of the six keys (RandomWordInCatalog adds that the word is listed under it) |
| WordBank.RandomWordInCatalog | draw-guess-game/src/lib/gameLogic.ts:35-42 | the pair returned is a catalog key and a word listed under that key, so it is a word of getAllWords |
| WordBank.RandomWordReaches | draw-guess-game/src/lib/gameLogic.ts:35-42 | every (word, category) pair of the catalog is returned for some pair of draws |
| Guesser.Without | draw-guess-game/src/lib/gameLogic.ts:71 | filtering keeps exactly the words not banned and never lengthens the list |
| Guesser.SimilarWords | draw-guess-game/src/lib/gameLogic.ts:68-75 | the similar words are exactly the words other than the target that share a category with it |
| Guesser.SimilarInCatalog | draw-guess-game/src/lib/gameLogic.ts:68-75 | every similar word is a word of getAllWords |
| Guesser.CandidatePool | draw-guess-game/src/lib/gameLogic.ts:99-117 | in every phase the pool excludes the target and every guessed word, and draws only from the word list or the similar words |
| Guesser.EarlyPoolNonEmpty | draw-guess-game/src/lib/gameLogic.ts:101-103 | the phase-1 pool is never empty while at most one word has been guessed |
| Guesser.LatePoolStaysInCategory | draw-guess-game/src/lib/gameLogic.ts:109-116 | from the sixth guess on, while a similar word is unguessed, the pool is non-empty and holds only similar words |
| Guesser.ExhaustedPoolIsEmpty | draw-guess-game/src/lib/gameLogic.ts:99-119 | once every word but the target has been guessed, every phase's pool is empty |
| Guesser.EmptyPoolMeansExhausted | draw-guess-game/src/lib/gameLogic.ts:101-119 | in phases 1 and 3 the pool is empty only when every word but the target has been guessed |
| Guesser.CorrectProbability | draw-guess-game/src/lib/gameLogic.ts:83-85 | the probability of a correct guess never exceeds 0.95 and is non-negative for non-negative inputs |
| Guesser.CorrectProbabilityMonotone | draw-guess-game/src/lib/gameLogic.ts:82-85 | the probability never falls when drawing progress or the guess count rises; the 0.95 cap makes the rise non-strict |
| Guesser.ShouldBeCorrect | draw-guess-game/src/lib/gameLogic.ts:88 | a coin-decided correct guess needs at least three guesses; a coin of 0.95 or more never decides one; at full progress from the fifteenth guess any coin below 0.95 does |
| Guesser.CorrectConfidence | draw-guess-game/src/lib/gameLogic.ts:93 | a correct guess reports a confidence between 80 and 99 |
| Guesser.WrongConfidence | draw-guess-game/src/lib/gameLogic.ts:132-136 | a wrong guess reports a confidence of at most 75, and at least 30 for non-negative progress |
| Guesser.GuessFor | draw-guess-game/src/lib/gameLogic.ts:79-139 | a guess is marked correct iff it is the target; a wrong guess is never a word guessed before; the confidence lies in 30..99 |
| Guesser.GuessOutcome | draw-guess-game/src/lib/gameLogic.ts:88-129 | a guess is correct iff the coin decides so or the pool is empty; a wrong guess is a pool word, a catalog word that is neither the target nor guessed before |
| Guesser.GuessConfidence | draw-guess-game/src/lib/gameLogic.ts:93-136 | confidence is 80..99 for a coin-decided correct guess, exactly 95 for a forced one, and the progress-based value capped at 75 for a wrong one |
| Guesser.EarlyGuessIsWrong | draw-guess-game/src/lib/gameLogic.ts:88-103 | the first two guesses of a round are wrong whatever the draws |
| Guesser.LateGuessInCategory | draw-guess-game/src/lib/gameLogic.ts:109-116 | from the sixth guess on, a guess not decided correct by the coin is a wrong same-category word while one is unguessed |
| Guesser.ExhaustedGuessIsForced | draw-guess-game/src/lib/gameLogic.ts:119-126 | once every word but the target has been guessed, the guess is the target, with confidence 95 unless the coin already decided it |
| Guesser.WrongGuessStep | draw-guess-game/src/lib/gameLogic.ts:128-129 | adding a pool word keeps the guessed words inside the catalog minus the target and removes exactly one word from those still available |
| Guesser.GuessKeepsCatalog | draw-guess-game/src/lib/gameLogic.ts:79-139 | across any guess the guessed words stay catalog words other than the target, and a wrong guess reduces the available words by exactly one |
| Guesser.WrongGuessesBounded | draw-guess-game/src/lib/gameLogic.ts:53-60 | the guessed words, all catalog words other than the target, number at most 119 for a catalog target and at most 120 otherwise, so a round's wrong guesses are bounded |
| Guesser.RevealCount | draw-guess-game/src/lib/gameLogic.ts:173-174 | the default hint reveals min(level-2, length-1) characters, always fewer than the word has |
| Guesser.DecimalText | draw-guess-game/src/lib/gameLogic.ts:165 | the printed length is a non-empty string of decimal digits with no leading zero, the exact text `${n}` gives |
| Guesser.DecimalRoundTrip | draw-guess-game/src/lib/gameLogic.ts:165 | the printed length reads back as the length |
| Guesser.HintText | draw-guess-game/src/lib/gameLogic.ts:145-175 | at level 1 the hint says no hint is available exactly when the word is in no category; from level 4 on, the quoted text is a prefix of the word, and a proper one for a non-empty word |
| Guesser.CategoryHint | draw-guess-game/src/lib/gameLogic.ts:146-161 | the level-1 text is "提示不可用" exactly when no category lists the word |
| Guesser.LengthHint | draw-guess-game/src/lib/gameLogic.ts:163-165 | the level-2 text is the fixed sentence around a run of decimal digits, and those digits read back as the word's length |
| Guesser.FirstCharacterHint | draw-guess-game/src/lib/gameLogic.ts:167-169 | the level-3 text quotes the first character of a non-empty word |
| Guesser.PrefixHint | draw-guess-game/src/lib/gameLogic.ts:171-174 | the later text quotes a prefix of the word between fixed delimiters, never all of a non-empty word |
| Guesser.HintNamesCategory | draw-guess-game/src/lib/gameLogic.ts:146-159 | the first hint names the category of a catalog word by its Chinese label |
| Guesser.HintUnavailable | draw-guess-game/src/lib/gameLogic.ts:161 | the first hint for a word outside the catalog says that no hint is available |
| Guesser.HintGivesLength | draw-guess-game/src/lib/gameLogic.ts:163-165 | the second hint gives the word's length in decimal, and that decimal reads back as the length |
| Guesser.HintGivesFirstCharacter | draw-guess-game/src/lib/gameLogic.ts:167-169 | the third hint quotes the word's first character |
| Guesser.HintRevealsProperPrefix | draw-guess-game/src/lib/gameLogic.ts:171-174 | from the fourth hint on, the hint quotes a prefix of min(level-2, length-1) characters, never the whole word |
| Guesser.HintScenarioTwoCharacters | draw-guess-game/src/lib/gameLogic.ts:146-165 | for a two-character animal the first hint is the animal category sentence and the second gives the length 2 |
| Guesser.HintScenarioTwoCharactersCapped | draw-guess-game/src/lib/gameLogic.ts:167-174 | for a two-character animal the third hint is its first character, and levels 4 and 9 quote that same single character, since the prefix is capped at length - 1 |
| Guesser.SimulatedAI.constructor | draw-guess-game/src/lib/gameLogic.ts:58-65 | a new guesser has the target, no guessed words, zero counters and maxGuesses 15 |
| Guesser.SimulatedAI.MakeGuess | draw-guess-game/src/lib/gameLogic.ts:78-139 | the count goes up by one, the answer is GuessFor of the previous state, a wrong guess is added to the guessed words (a word of the list), the first two guesses are wrong, and the invariant holds |
| Guesser.SimulatedAI.GetHint | draw-guess-game/src/lib/gameLogic.ts:142-176 | the hint level goes up by one, that level's hint text is returned and nothing else changes |
| Guesser.SimulatedAI.Reset | draw-guess-game/src/lib/gameLogic.ts:178-183 | the guesser takes the new target with the guessed words and both counters cleared |
| GameMachine.Progress | draw-guess-game/src/components/Game.tsx:58-60 | progress is two points per stroke, capped at 100 from the fiftieth stroke |
| GameMachine.ProgressMonotone | draw-guess-game/src/components/Game.tsx:58-60 | more strokes never mean less progress |
| GameMachine.WinBonus | draw-guess-game/src/components/Game.tsx:78-80 | a win scores at least 50 points |
| GameMachine.AfterHint | draw-guess-game/src/components/Game.tsx:147 | a hint costs 50 points and leaves the score at zero rather than negative |
| GameMachine.AppendRecord | draw-guess-game/src/components/Game.tsx:70-73 | appending a record adds its word to the wrong guesses exactly when it is wrong and keeps the history free of repeated wrong guesses |
| GameMachine.Game.GuessingEnabled | draw-guess-game/src/components/Game.tsx:108 | with progress in step with the strokes, the guess timer is armed exactly in a round with at least five strokes drawn |
| GameMachine.Game.constructor | draw-guess-game/src/components/Game.tsx:17-29 | the game starts idle with no word and no AI, 60 seconds, score 0 and round 1 |
| GameMachine.Game.StartGame | draw-guess-game/src/components/Game.tsx:41-52 | from any state: a round in play on the drawn word with a full timer, empty history, no progress and a fresh guesser, with score and round unchanged |
| GameMachine.Game.HandleDraw | draw-guess-game/src/components/Game.tsx:55-62 | outside a round nothing changes; in a round one more stroke is counted and progress follows it without decreasing |
| GameMachine.Game.MakeAIGuess | draw-guess-game/src/components/Game.tsx:65-82 | during a round with an AI, the record appended is the guesser's answer (GuessFor of the AI's state before, at the current progress), never a repeated wrong word; a correct guess wins the round with the time and round bonus, a wrong one changes nothing else; the AI's target and hint level are kept; outside a round nothing changes |
| GameMachine.Game.Tick | draw-guess-game/src/components/Game.tsx:91-98 | during a round the timer drops by one second, and the last second loses the round at 0; otherwise nothing changes |
| GameMachine.Game.GuessTimerFires | draw-guess-game/src/components/Game.tsx:107-128 | a firing makes a guess exactly when the round is in play with progress of at least 10: the guesser's answer is appended, and a correct one wins with the bonus; otherwise the history, state, score and AI counters are unchanged; the timer, round, word, progress, strokes and reveal flag are never touched |
| GameMachine.Game.NextRound | draw-guess-game/src/components/Game.tsx:131-134 | the round number goes up by one, the score is kept and a new round starts on the drawn word, with a full timer, empty history, no progress, word hidden and a fresh guesser |
| GameMachine.Game.ResetGame | draw-guess-game/src/components/Game.tsx:137-141 | the score goes to 0, the round to 1, and a new round starts on the drawn word, with a full timer, empty history, no progress, word hidden and a fresh guesser |
| GameMachine.Game.GetHint | draw-guess-game/src/components/Game.tsx:144-148 | with an AI the hint costs 50 points, floored at 0; without one nothing changes; the round is never touched |

## Left out

- Timers and scheduling are not modelled as such:
  - `setInterval`, `setTimeout` and their cancellation are modelled only by calling `Tick` and `GuessTimerFires`;
  - the 2–4 second delay between guesses is not modelled;
  - whether a guess timeout ever fires is not modelled. `makeAIGuess` depends on `timeLeft` (Game.tsx line 82)
    and the guess effect depends on `makeAIGuess` (line 128). So each one-second tick re-runs the effect, and
    its cleanup (lines 125-127) cancels the pending timeout before the 2–4 s delay ends. Read this way, the AI
    would never guess during a round. This comes from reading the code; nothing was executed. The model treats
    each firing as an event the caller issues;
  - the cleanup functions of the two effects are left out, because time has no meaning in the model.
- The `Date.now()` timestamp of a guess record is dropped, because clocks are outside the model.
- React's closure staleness is not modelled: the handlers read the state as it currently is.
  The source's callbacks may read an older render's `gameState`, `timeLeft` or `drawingProgress`.
  Render scheduling is not part of this model.
- Floating point is left out: `Math.random()` values and the probability and confidence formulas are exact reals.
  Rounding in IEEE doubles is not modelled.
- The distribution of the random picks is not modelled; only the values each draw can produce are.
- The rendering is left out: JSX, the word reveal (`showWord` is kept as a field but only reset),
  the confidence colour bands, the category labels shown to the player, and the layout.
  The `DrawingCanvas` component is not part of this model.
- `getWordsByCategory` on a property name inherited from `Object.prototype` is not modelled.
  Only catalog keys and other plain strings are.
- Guesser.SimulatedAI.MakeGuess: its phase properties (early guesses wrong, late guesses in category,
  forced answer when exhausted, the step measure) are lemmas about `GuessFor` rather than `ensures` of the method.
  The method ties its result to `GuessFor`.
- The guesser's invariant has four parts: `maxGuesses` is 15, the target is not among the guessed words,
  the guessed words are list words, and there are no more of them than guesses made.
  How many there can be is bounded by the separate lemma `WrongGuessesBounded`.
- `maxGuesses` is 15 and is used only as the divisor of the probability.
  The source puts no cap on the number of guesses, and neither does the model.
