/** The simulated guesser (class SimulatedAI, draw-guess-game/src/lib/gameLogic.ts,
    lines 49-184): phase-dependent candidate pools, confidence values, escalating
    hints, and the object whose counters and guessed-word set change with every call.
    Each Math.random() the source draws is a parameter: the draws that pick a word or
    a confidence lie in [0, 1), and the coin of the correctness test is left free. */
module Guesser {
  import opened WordBank

  /** What makeGuess returns. */
  datatype GuessResult = GuessResult(guess: string, confidence: int, isCorrect: bool)

  /** maxGuesses, fixed at construction (line 63). */
  const MaxGuesses: nat := 15

  function Min(a: int, b: int): int { if a <= b then a else b }
  function Max(a: int, b: int): int { if a <= b then b else a }
  function MinReal(a: real, b: real): real { if a <= b then a else b }

  /** The set of words a list holds. */
  function Elements(s: seq<string>): set<string> {
    set w | w in s
  }

  /** s.filter(w => !banned.has(w)), keeping order and repetitions. */
  function Without(s: seq<string>, banned: set<string>): (r: seq<string>)
    ensures |r| <= |s|
    ensures forall w :: w in r <==> w in s && w !in banned
  {
    if s == [] then []
    else if s[0] in banned then Without(s[1..], banned)
    else [s[0]] + Without(s[1..], banned)
  }

  /** allWords.slice(0, n). */
  function Take(s: seq<string>, n: nat): (r: seq<string>)
    ensures |r| == Min(n, |s|) && r == s[..|r|]
  {
    if |s| <= n then s else s[..n]
  }

  /** Two words share a category of the catalog. */
  ghost predicate SameCategory(a: string, b: string) {
    exists i :: 0 <= i < |Catalog| && a in Catalog[i].words && b in Catalog[i].words
  }

  /** getSimilarWords (lines 68-75): the other words of the first category listing the
      target, in catalog order; [] when the target is in no category. */
  function SimilarWords(target: string): (r: seq<string>)
    ensures forall w :: w in r <==> w != target && SameCategory(target, w)
  {
    match FindCategory(Catalog, target)
    case None => []
    case Some(i) =>
      var r := Without(Catalog[i].words, {target});
      forall w | SameCategory(target, w) ensures w in Catalog[i].words {
        var j :| 0 <= j < |Catalog| && target in Catalog[j].words && w in Catalog[j].words;
        FindCategoryUnique(j, target);
      }
      r
  }

  /** Phase 1 pool, and the fallback of phase 3 (lines 103 and 115): every catalog word
      that is neither guessed already nor the target. */
  function ExplorationPool(all: seq<string>, target: string, guessed: set<string>): seq<string> {
    Without(all, guessed + {target})
  }

  /** Phase 2 pool (lines 106-108): same-category words followed by the first twenty
      catalog words, minus guessed words and the target. */
  function MixedPool(all: seq<string>, target: string, guessed: set<string>): seq<string> {
    Without(SimilarWords(target) + Take(all, 20), guessed + {target})
  }

  /** Phase 3 pool (lines 111-116): unguessed same-category words, or the exploration
      pool when none is left. */
  function LatePool(all: seq<string>, target: string, guessed: set<string>): seq<string> {
    var similar := Without(SimilarWords(target), guessed);
    if similar == [] then ExplorationPool(all, target, guessed) else similar
  }

  /** The candidate pool for the count-th guess of a round (lines 99-117). Whatever the
      phase, it never offers the target or a word guessed before. */
  function CandidatePool(all: seq<string>, target: string, guessed: set<string>, count: int): (r: seq<string>)
    ensures forall w :: w in r ==> w != target && w !in guessed
    ensures forall w :: w in r ==> w in all || w in SimilarWords(target)
  {
    if count <= 2 then ExplorationPool(all, target, guessed)
    else if count <= 5 then MixedPool(all, target, guessed)
    else LatePool(all, target, guessed)
  }

  /** correctProbability (lines 83-85): min(0.95, progress/100 * 0.3 + count/15 * 0.7). */
  function CorrectProbability(progress: int, count: int): (p: real)
    ensures p <= 0.95
    ensures 0 <= progress && 0 <= count ==> 0.0 <= p
  {
    MinReal(0.95, (progress as real / 100.0) * 0.3 + (count as real / MaxGuesses as real) * 0.7)
  }

  /** The probability rises with drawing progress and with the guess count (the comment
      at line 82); the 0.95 cap makes the rise non-strict. */
  lemma CorrectProbabilityMonotone(p1: int, p2: int, c1: int, c2: int)
    requires p1 <= p2 && c1 <= c2
    ensures CorrectProbability(p1, c1) <= CorrectProbability(p2, c2)
  {
  }

  /** shouldBeCorrect (line 88): the coin falls under the probability and at least three
      guesses have been made, counting this one. */
  function ShouldBeCorrect(coin: real, progress: int, count: int): (b: bool)
    ensures b ==> count >= 3
    ensures coin >= 0.95 ==> !b
    ensures count >= MaxGuesses && progress >= 100 && coin < 0.95 ==> b
  {
    coin < CorrectProbability(progress, count) && count >= 3
  }

  /** Math.floor(80 + Math.random() * 20) (line 93). */
  function CorrectConfidence(draw: real): (c: int)
    requires 0.0 <= draw < 1.0
    ensures 80 <= c <= 99
  {
    (80.0 + draw * 20.0).Floor
  }

  /** Math.min(75, Math.floor(30 + progress/100 * 40 + Math.random() * 20)) (lines 132, 136). */
  function WrongConfidence(progress: int, draw: real): (c: int)
    requires 0.0 <= draw < 1.0
    ensures c <= 75
    ensures progress >= 0 ==> 30 <= c
  {
    Min(75, (30.0 + (progress as real / 100.0) * 40.0 + draw * 20.0).Floor)
  }

  /** Confidence reported with a guess forced by an empty pool (line 123). */
  const ForcedConfidence: int := 95

  // ---- Hints (getHint, lines 142-176) ----

  /** The categoryNames table of getHint (lines 150-157). */
  const CategoryLabels: map<string, string> := map[
    "animals" := "动物", "food" := "食物", "objects" := "物品",
    "nature" := "自然", "people" := "人物", "activities" := "活动"]

  /** The character of a decimal digit. */
  function DigitChar(d: nat): (c: char)
    requires d < 10
    ensures c as int - '0' as int == d
  {
    ('0' as int + d) as char
  }

  /** The decimal text of a length, as a template literal ${n} prints it. */
  function DecimalText(n: nat): (s: string)
    ensures |s| >= 1
    ensures forall k :: 0 <= k < |s| ==> '0' <= s[k] <= '9'
    ensures s[0] != '0' || s == "0"
  {
    if n < 10 then [DigitChar(n)] else DecimalText(n / 10) + [DigitChar(n % 10)]
  }

  function DecimalValue(s: string): nat
    requires forall k :: 0 <= k < |s| ==> '0' <= s[k] <= '9'
  {
    if s == [] then 0 else 10 * DecimalValue(s[..|s| - 1]) + (s[|s| - 1] as int - '0' as int)
  }

  /** The printed length reads back as the length. */
  lemma {:induction false} DecimalRoundTrip(n: nat)
    ensures DecimalValue(DecimalText(n)) == n
  {
    var s := DecimalText(n);
    if n >= 10 {
      DecimalRoundTrip(n / 10);
      assert s[..|s| - 1] == DecimalText(n / 10);
    }
  }

  /** The number of characters the default hint reveals: substring(0, min(level-2, len-1)),
      where substring treats a negative end as 0. */
  function RevealCount(level: int, len: nat): (k: nat)
    ensures k <= len
    ensures len > 0 ==> k < len
    ensures len > 0 && level >= 2 ==> k == Min(level - 2, len - 1)
  {
    Max(0, Min(level - 2, len - 1))
  }

  /** The text getHint returns once hintLevel has reached level. */
  function HintText(target: string, level: int): (r: string)
    ensures level == 1 ==> (r == "提示不可用" <==> FindCategory(Catalog, target).None?)
    ensures level >= 4 ==> |r| >= 5 && (|target| > 0 ==> r[4..|r| - 1] < target)
  {
    if level == 1 then CategoryHint(target)
    else if level == 2 then LengthHint(target)
    else if level == 3 then FirstCharacterHint(target)
    else PrefixHint(target, level)
  }

  /** Case 1: the category sentence, or "hint unavailable" for a word in no category. */
  function CategoryHint(target: string): (r: string)
    ensures r == "提示不可用" <==> FindCategory(Catalog, target).None?
  {
    match FindCategory(Catalog, target)
    case Some(i) =>
      var name := CategoryLabel(Catalog[i].key);
      assert ("这是一个" + name)[0] == '这';
      "这是一个" + name
    case None => "提示不可用"
  }

  /** Case 2: the length of the word. */
  function LengthHint(target: string): (r: string)
    ensures |r| > 8 && r[..5] == "这个词有 " && r[|r| - 3..] == " 个字"
    ensures forall k :: 5 <= k < |r| - 3 ==> '0' <= r[k] <= '9'
    ensures DecimalValue(r[5..|r| - 3]) == |target|
  {
    var n := DecimalText(|target|);
    DecimalRoundTrip(|target|);
    var r := "这个词有 " + n + " 个字";
    assert r[5..|r| - 3] == n;
    r
  }

  /** Case 3: the first character; targetWord[0] of an empty string is undefined,
      which the template prints as such. */
  function FirstCharacterHint(target: string): (r: string)
    ensures |target| > 0 ==> r == "第一个字是\"" + target[..1] + "\""
  {
    "第一个字是\"" + (if |target| > 0 then [target[0]] else "undefined") + "\""
  }

  /** Default case: a prefix of RevealCount(level, |target|) characters. */
  function PrefixHint(target: string, level: int): (r: string)
    ensures |r| >= 5 && r[..4] == "开头是\"" && r[|r| - 1] == '"'
    ensures r[4..|r| - 1] <= target
    ensures |target| > 0 ==> r[4..|r| - 1] < target
  {
    var k := RevealCount(level, |target|);
    var r := "开头是\"" + target[..k] + "\"";
    assert r[4..|r| - 1] == target[..k];
    r
  }

  function CategoryLabel(key: string): string {
    if key in CategoryLabels then CategoryLabels[key] else "undefined"
  }

  /** Level 1 names the category of a catalog word. */
  lemma HintNamesCategory(i: nat, w: string)
    requires i < |Catalog| && w in Catalog[i].words
    ensures HintText(w, 1) == "这是一个" + CategoryLabels[Catalog[i].key]
  {
    FindCategoryUnique(i, w);
    CatalogShape();
  }

  /** Level 1 for a word outside the catalog. */
  lemma HintUnavailable(w: string)
    requires w !in AllWords()
    ensures HintText(w, 1) == "提示不可用"
  {
  }

  /** Level 2 gives the length of the word, in decimal. */
  lemma HintGivesLength(w: string)
    ensures HintText(w, 2) == "这个词有 " + DecimalText(|w|) + " 个字"
    ensures DecimalValue(DecimalText(|w|)) == |w|
  {
    DecimalRoundTrip(|w|);
  }

  /** Level 3 quotes the first character. */
  lemma HintGivesFirstCharacter(w: string)
    requires |w| > 0
    ensures HintText(w, 3) == "第一个字是\"" + w[..1] + "\""
  {
    assert [w[0]] == w[..1];
  }

  /** From level 4 on, the hint quotes a prefix of min(level-2, |w|-1) characters:
      it grows by one per level and never reaches the whole word. */
  lemma HintRevealsProperPrefix(w: string, level: int)
    requires |w| > 0 && level >= 4
    ensures var k := Min(level - 2, |w| - 1);
            k < |w| && HintText(w, level) == "开头是\"" + w[..k] + "\""
  {
  }

  /** The first two hints for a two-character animal: its category, then its length. */
  lemma HintScenarioTwoCharacters()
    ensures HintText("兔子", 1) == "这是一个动物"
    ensures HintText("兔子", 2) == "这个词有 2 个字"
  {
    assert HintText("兔子", 1) == "这是一个动物" by { HintNamesCategory(0, "兔子"); }
    assert HintText("兔子", 2) == "这个词有 2 个字" by { HintGivesLength("兔子"); }
  }

  /** The later hints for a two-character animal: the first character, and from then on
      that same one character, since a prefix of length - 1 is all the hint reveals. */
  lemma HintScenarioTwoCharactersCapped()
    ensures HintText("兔子", 3) == "第一个字是\"兔\""
    ensures HintText("兔子", 4) == "开头是\"兔\""
    ensures HintText("兔子", 9) == "开头是\"兔\""
  {
    assert HintText("兔子", 3) == "第一个字是\"兔\"" by { HintGivesFirstCharacter("兔子"); }
    assert HintText("兔子", 4) == "开头是\"兔\"" by { HintRevealsProperPrefix("兔子", 4); }
    assert HintText("兔子", 9) == "开头是\"兔\"" by { HintRevealsProperPrefix("兔子", 9); }
  }

  // ---- Pool lemmas ----

  lemma SimilarInCatalog(target: string)
    ensures forall w :: w in SimilarWords(target) ==> w in AllWords()
  {
    CatalogShape();
    forall w | w in SimilarWords(target) ensures w in AllWords() {
      var i :| 0 <= i < |Catalog| && target in Catalog[i].words && w in Catalog[i].words;
    }
  }

  /** In the first two guesses the pool is never empty while at most one word is guessed,
      so neither of them can be correct. */
  lemma EarlyPoolNonEmpty(target: string, guessed: set<string>, count: int)
    requires count <= 2 && |guessed| <= 1
    ensures CandidatePool(AllWords(), target, guessed, count) != []
  {
    CatalogShape();
    var all := AllWords();
    var three := {all[0], all[1], all[2]};
    assert |three| == 3;
    var bad := guessed + {target};
    assert |bad| <= 2;
    var left := three - bad;
    assert |left| >= 1 by {
      assert |three| <= |left| + |bad| by { CardSplit(three, bad); }
    }
    var w :| w in left;
    assert w in ExplorationPool(all, target, guessed);
  }

  lemma CardSplit(a: set<string>, b: set<string>)
    ensures |a| <= |a - b| + |b|
  {
    assert a <= (a - b) + b;
    SubsetCard(a, (a - b) + b);
  }

  lemma SubsetCard(a: set<string>, b: set<string>)
    requires a <= b
    ensures |a| <= |b|
  {
    assert b == a + (b - a);
  }

  /** From the sixth guess on, while some same-category word is unguessed, the pool holds
      only same-category words. */
  lemma LatePoolStaysInCategory(all: seq<string>, target: string, guessed: set<string>, count: int)
    requires count >= 6
    requires exists w :: w in SimilarWords(target) && w !in guessed
    ensures CandidatePool(all, target, guessed, count) != []
    ensures forall w :: w in CandidatePool(all, target, guessed, count) ==> w in SimilarWords(target)
  {
    var w :| w in SimilarWords(target) && w !in guessed;
    assert w in Without(SimilarWords(target), guessed);
  }

  /** Once every catalog word but the target has been guessed, every phase's pool is empty. */
  lemma ExhaustedPoolIsEmpty(target: string, guessed: set<string>, count: int)
    requires Elements(AllWords()) - {target} <= guessed
    ensures CandidatePool(AllWords(), target, guessed, count) == []
  {
    var all := AllWords();
    SimilarInCatalog(target);
    WithoutAllBanned(all, guessed + {target});
    WithoutAllBanned(SimilarWords(target), guessed);
    WithoutAllBanned(SimilarWords(target) + Take(all, 20), guessed + {target});
  }

  /** Filtering out a superset of the list's words leaves nothing. */
  lemma {:induction false} WithoutAllBanned(s: seq<string>, banned: set<string>)
    requires forall w :: w in s ==> w in banned
    ensures Without(s, banned) == []
  {
    if s != [] {
      WithoutAllBanned(s[1..], banned);
    }
  }

  /** In phases 1 and 3 the pool is empty only when every catalog word but the target has
      been guessed. */
  lemma EmptyPoolMeansExhausted(target: string, guessed: set<string>, count: int)
    requires count <= 2 || count >= 6
    requires CandidatePool(AllWords(), target, guessed, count) == []
    ensures Elements(AllWords()) - {target} <= guessed
  {
  }

  /** A set of words drawn from a list has at most as many members as the list. */
  lemma {:induction false} ElementsCard(s: seq<string>)
    ensures |Elements(s)| <= |s|
  {
    if s != [] {
      ElementsCard(s[1..]);
      assert Elements(s) == {s[0]} + Elements(s[1..]);
    }
  }

  /** Termination of a round's guessing: the wrong guesses, all distinct catalog words
      other than the target, number at most 119 when the target is a catalog word and
      at most 120 otherwise. */
  lemma WrongGuessesBounded(target: string, guessed: set<string>)
    requires target !in guessed && forall w :: w in guessed ==> w in AllWords()
    ensures |guessed| <= |AllWords()| - (if target in AllWords() then 1 else 0)
    ensures |AllWords()| == 120
  {
    CatalogShape();
    ElementsCard(AllWords());
    SubsetCard(guessed, Elements(AllWords()) - {target});
    if target in AllWords() {
      assert Elements(AllWords()) == (Elements(AllWords()) - {target}) + {target};
    }
  }

  /** Recording a wrong guess taken from the pool keeps the guessed words inside the
      catalog minus the target, and takes exactly one word off what remains. */
  lemma WrongGuessStep(target: string, guessed: set<string>, count: int, guess: string)
    requires guessed <= Elements(AllWords()) - {target}
    requires guess in CandidatePool(AllWords(), target, guessed, count)
    ensures guess != target && guess !in guessed
    ensures guessed + {guess} <= Elements(AllWords()) - {target}
    ensures |guessed + {guess}| == |guessed| + 1
    ensures |Elements(AllWords()) - {target} - (guessed + {guess})| + 1
            == |Elements(AllWords()) - {target} - guessed|
  {
    SimilarInCatalog(target);
    var before := Elements(AllWords()) - {target} - guessed;
    assert guess in before;
    assert Elements(AllWords()) - {target} - (guessed + {guess}) == before - {guess};
  }

  // ---- One guess ----

  /** What makeGuess answers (lines 79-139) for a target, the words guessed before and
      count, the guess count including this guess: the target when the coin says so or
      when the phase's pool is empty, otherwise a pool word with a wrong-guess confidence. */
  function GuessFor(target: string, guessed: set<string>, count: int, progress: int,
                    coin: real, correctDraw: real, pickDraw: real, confidenceDraw: real): (r: GuessResult)
    requires 0.0 <= correctDraw < 1.0 && 0.0 <= pickDraw < 1.0 && 0.0 <= confidenceDraw < 1.0
    ensures r.isCorrect <==> r.guess == target
    ensures !r.isCorrect ==> r.guess !in guessed
    ensures progress >= 0 ==> 30 <= r.confidence <= 99
  {
    if ShouldBeCorrect(coin, progress, count) then
      GuessResult(target, CorrectConfidence(correctDraw), true)
    else
      var pool := CandidatePool(AllWords(), target, guessed, count);
      if pool == [] then GuessResult(target, ForcedConfidence, true)
      else GuessResult(pool[ScaledIndex(pickDraw, |pool|)], WrongConfidence(progress, confidenceDraw), false)
  }

  /** A guess is correct exactly when the coin falls under the probability or the pool is
      empty; a wrong guess is a pool word, a catalog word other than the target that was
      not guessed before. */
  lemma GuessOutcome(target: string, guessed: set<string>, count: int, progress: int,
                     coin: real, correctDraw: real, pickDraw: real, confidenceDraw: real)
    requires 0.0 <= correctDraw < 1.0 && 0.0 <= pickDraw < 1.0 && 0.0 <= confidenceDraw < 1.0
    ensures var r := GuessFor(target, guessed, count, progress, coin, correctDraw, pickDraw, confidenceDraw);
            (r.isCorrect <==> ShouldBeCorrect(coin, progress, count)
                              || CandidatePool(AllWords(), target, guessed, count) == [])
            && (!r.isCorrect ==> r.guess in CandidatePool(AllWords(), target, guessed, count)
                                 && r.guess in Elements(AllWords()) - {target} - guessed)
  {
    var r := GuessFor(target, guessed, count, progress, coin, correctDraw, pickDraw, confidenceDraw);
    SimilarInCatalog(target);
    if !r.isCorrect {
      assert r.guess in CandidatePool(AllWords(), target, guessed, count);
    }
  }

  /** The confidence of each kind of answer: 80-99 for a coin-decided correct guess, 95 for
      a forced one, and the progress-based value capped at 75 for a wrong one. */
  lemma GuessConfidence(target: string, guessed: set<string>, count: int, progress: int,
                        coin: real, correctDraw: real, pickDraw: real, confidenceDraw: real)
    requires 0.0 <= correctDraw < 1.0 && 0.0 <= pickDraw < 1.0 && 0.0 <= confidenceDraw < 1.0
    ensures var r := GuessFor(target, guessed, count, progress, coin, correctDraw, pickDraw, confidenceDraw);
            (ShouldBeCorrect(coin, progress, count) ==> 80 <= r.confidence <= 99)
            && (r.isCorrect && !ShouldBeCorrect(coin, progress, count) ==> r.confidence == ForcedConfidence)
            && (!r.isCorrect ==> r.confidence == WrongConfidence(progress, confidenceDraw) <= 75)
  {
  }

  /** The first two guesses of a round, with at most one word guessed before, are wrong:
      the coin is ignored and the exploration pool is never empty. */
  lemma EarlyGuessIsWrong(target: string, guessed: set<string>, count: int, progress: int,
                          coin: real, correctDraw: real, pickDraw: real, confidenceDraw: real)
    requires 0.0 <= correctDraw < 1.0 && 0.0 <= pickDraw < 1.0 && 0.0 <= confidenceDraw < 1.0
    requires count <= 2 && |guessed| <= 1
    ensures !GuessFor(target, guessed, count, progress, coin, correctDraw, pickDraw, confidenceDraw).isCorrect
  {
    EarlyPoolNonEmpty(target, guessed, count);
  }

  /** From the sixth guess on, a guess the coin does not make correct stays in the
      target's category while an unguessed word of it is left. */
  lemma LateGuessInCategory(target: string, guessed: set<string>, count: int, progress: int,
                            coin: real, correctDraw: real, pickDraw: real, confidenceDraw: real)
    requires 0.0 <= correctDraw < 1.0 && 0.0 <= pickDraw < 1.0 && 0.0 <= confidenceDraw < 1.0
    requires count >= 6 && !ShouldBeCorrect(coin, progress, count)
    requires exists w :: w in SimilarWords(target) && w !in guessed
    ensures var r := GuessFor(target, guessed, count, progress, coin, correctDraw, pickDraw, confidenceDraw);
            !r.isCorrect && r.guess in SimilarWords(target)
  {
    LatePoolStaysInCategory(AllWords(), target, guessed, count);
  }

  /** Once every catalog word but the target has been guessed, the guesser gives the
      answer with confidence 95 whatever the coin says. */
  lemma ExhaustedGuessIsForced(target: string, guessed: set<string>, count: int, progress: int,
                               coin: real, correctDraw: real, pickDraw: real, confidenceDraw: real)
    requires 0.0 <= correctDraw < 1.0 && 0.0 <= pickDraw < 1.0 && 0.0 <= confidenceDraw < 1.0
    requires Elements(AllWords()) - {target} <= guessed
    ensures var r := GuessFor(target, guessed, count, progress, coin, correctDraw, pickDraw, confidenceDraw);
            r.isCorrect && r.guess == target
            && r.confidence == if ShouldBeCorrect(coin, progress, count) then CorrectConfidence(correctDraw) else ForcedConfidence
  {
    ExhaustedPoolIsEmpty(target, guessed, count);
  }

  /** The guessed words stay catalog words other than the target across a guess, and a
      wrong guess takes exactly one word off those still available: with at most 119 of
      them (WrongGuessesBounded), a round cannot go on making new wrong guesses forever. */
  lemma GuessKeepsCatalog(target: string, guessed: set<string>, count: int, progress: int,
                          coin: real, correctDraw: real, pickDraw: real, confidenceDraw: real)
    requires 0.0 <= correctDraw < 1.0 && 0.0 <= pickDraw < 1.0 && 0.0 <= confidenceDraw < 1.0
    requires guessed <= Elements(AllWords()) - {target}
    ensures var r := GuessFor(target, guessed, count, progress, coin, correctDraw, pickDraw, confidenceDraw);
            var next := if r.isCorrect then guessed else guessed + {r.guess};
            next <= Elements(AllWords()) - {target}
            && |Elements(AllWords()) - {target} - next| + (if r.isCorrect then 0 else 1)
               == |Elements(AllWords()) - {target} - guessed|
  {
    var r := GuessFor(target, guessed, count, progress, coin, correctDraw, pickDraw, confidenceDraw);
    if !r.isCorrect {
      GuessOutcome(target, guessed, count, progress, coin, correctDraw, pickDraw, confidenceDraw);
      WrongGuessStep(target, guessed, count, r.guess);
    }
  }

  /** SimulatedAI: one guesser per round. */
  class SimulatedAI {
    var targetWord: string
    /** Set to getAllWords() at construction (line 60) and never changed. */
    const allWords: seq<string> := AllWords()
    var guessedWords: set<string>
    var guessCount: nat
    const maxGuesses: nat
    var hintLevel: nat

    /** What every method keeps: the guessed words are words of the list other than the
        target, each guess added at most one of them, and maxGuesses is 15. */
    ghost predicate Valid()
      reads this
    {
      maxGuesses == MaxGuesses
      && targetWord !in guessedWords
      && (forall w :: w in guessedWords ==> w in allWords)
      && |guessedWords| <= guessCount
    }

    constructor (targetWord: string)
      ensures Valid()
      ensures this.targetWord == targetWord && guessedWords == {}
      ensures guessCount == 0 && hintLevel == 0
    {
      this.targetWord := targetWord;
      guessedWords := {};
      guessCount := 0;
      maxGuesses := MaxGuesses;
      hintLevel := 0;
    }

    /** makeGuess (lines 78-139): the count goes up by one, the answer is GuessFor of the
        state before, and a wrong guess joins the guessed words. coin, correctDraw,
        pickDraw and confidenceDraw are the Math.random() values of lines 88, 93, 128
        and 132. */
    method MakeGuess(progress: int, coin: real, correctDraw: real, pickDraw: real, confidenceDraw: real)
      returns (r: GuessResult)
      requires Valid()
      requires 0.0 <= correctDraw < 1.0 && 0.0 <= pickDraw < 1.0 && 0.0 <= confidenceDraw < 1.0
      modifies this
      ensures Valid()
      ensures guessCount == old(guessCount) + 1
      ensures targetWord == old(targetWord) && hintLevel == old(hintLevel)
      ensures r == GuessFor(targetWord, old(guessedWords), guessCount, progress,
                            coin, correctDraw, pickDraw, confidenceDraw)
      ensures guessedWords == if r.isCorrect then old(guessedWords) else old(guessedWords) + {r.guess}
      ensures old(guessCount) < 2 ==> !r.isCorrect
      ensures !r.isCorrect ==> r.guess in allWords
    {
      guessCount := guessCount + 1;
      r := GuessFor(targetWord, guessedWords, guessCount, progress, coin, correctDraw, pickDraw, confidenceDraw);
      GuessOutcome(targetWord, guessedWords, guessCount, progress, coin, correctDraw, pickDraw, confidenceDraw);
      if old(guessCount) < 2 {
        EarlyGuessIsWrong(targetWord, guessedWords, guessCount, progress, coin, correctDraw, pickDraw, confidenceDraw);
      }
      if !r.isCorrect {
        guessedWords := guessedWords + {r.guess};
      }
    }

    /** getHint (lines 142-176): one level more, and that level's text. */
    method GetHint() returns (hint: string)
      requires Valid()
      modifies this
      ensures Valid()
      ensures hintLevel == old(hintLevel) + 1
      ensures hint == HintText(targetWord, hintLevel)
      ensures targetWord == old(targetWord) && guessedWords == old(guessedWords)
      ensures guessCount == old(guessCount)
    {
      hintLevel := hintLevel + 1;
      hint := HintText(targetWord, hintLevel);
    }

    /** reset (lines 178-183): a new target and fresh counters. */
    method Reset(newWord: string)
      requires Valid()
      modifies this
      ensures Valid()
      ensures targetWord == newWord && guessedWords == {}
      ensures guessCount == 0 && hintLevel == 0
    {
      targetWord := newWord;
      guessedWords := {};
      guessCount := 0;
      hintLevel := 0;
    }
  }
}
