/** The pure rules of the session controller: how long a level's sequence is,
    which symbols a level may draw from, how a sequence is drawn, how much a
    correct pick scores, and how a finished session is folded into the
    statistics. */
module GameRules {
  import opened GameTypes

  /** Size of the symbol pool on level 1. */
  const BasePoolSize := 4

  function Min(a: int, b: int): int { if a < b then a else b }

  function Max(a: int, b: int): int { if a < b then b else a }

  /** Length of the sequence shown on `level`: the tier's starting count plus
      one symbol per level after the first, capped at the tier's maximum.
      (`floor((level - 1) * symbolsPerLevel)` is exact, every tier gaining one
      symbol per level.) */
  function SymbolCountForLevel(level: int, d: Difficulty): (n: int)
    ensures n <= Config(d).maxSymbols
    ensures n <= Config(d).startingSymbols + level - 1
    ensures level >= 1 ==> Config(d).startingSymbols <= n
    ensures n == Config(d).maxSymbols || n == Config(d).startingSymbols + level - 1
  {
    var c := Config(d);
    Min(c.startingSymbols + (level - 1) * c.symbolsPerLevel, c.maxSymbols)
  }

  /** Later levels never show shorter sequences. */
  lemma SymbolCountMonotone(l1: int, l2: int, d: Difficulty)
    requires l1 <= l2
    ensures SymbolCountForLevel(l1, d) <= SymbolCountForLevel(l2, d)
  {
  }

  /** Number of catalog symbols in play on `level`: four, plus one more every
      two levels, capped at the catalog size. */
  function PoolSize(level: int): (n: int)
    requires level >= 1
    ensures BasePoolSize <= n <= |DemonSymbols|
    ensures n <= BasePoolSize + (level - 1) / 2
    ensures n == |DemonSymbols| || n == BasePoolSize + (level - 1) / 2
  {
    Min(BasePoolSize + (level - 1) / 2, |DemonSymbols|)
  }

  /** The symbols a level draws from: a prefix of the catalog. */
  function AvailableSymbols(level: int): (pool: seq<DemonSymbol>)
    requires level >= 1
    ensures |pool| == PoolSize(level)
    ensures BasePoolSize <= |pool| <= |DemonSymbols|
    ensures forall i :: 0 <= i < |pool| ==> pool[i] == DemonSymbols[i]
  {
    DemonSymbols[..PoolSize(level)]
  }

  /** The pool only grows: each level's pool is a prefix of every later one. */
  lemma AvailableSymbolsGrow(l1: int, l2: int)
    requires 1 <= l1 <= l2
    ensures AvailableSymbols(l1) <= AvailableSymbols(l2)
    ensures forall x :: x in AvailableSymbols(l1) ==> x in AvailableSymbols(l2)
  {
  }

  /** `draws` are the outcomes of the random source: exactly one index per
      symbol to draw, each a valid position in a pool of `poolSize`. */
  predicate ValidDraws(draws: seq<nat>, length: int, poolSize: int)
  {
    |draws| == length && forall k :: 0 <= k < |draws| ==> draws[k] < poolSize
  }

  /** Builds a sequence of `length` symbols from `pool`, one draw per position;
      repeats are allowed. */
  method GenerateSequence(length: nat, pool: seq<DemonSymbol>, draws: seq<nat>)
    returns (sequence: seq<DemonSymbol>)
    requires ValidDraws(draws, length, |pool|)
    ensures |sequence| == length
    ensures forall k :: 0 <= k < length ==> sequence[k] == pool[draws[k]]
    ensures forall x :: x in sequence ==> x in pool
  {
    sequence := [];
    var i := 0;
    while i < length
      invariant 0 <= i <= length
      invariant |sequence| == i
      invariant forall k :: 0 <= k < i ==> sequence[k] == pool[draws[k]]
    {
      sequence := sequence + [pool[draws[i]]];
      i := i + 1;
    }
  }

  /** Points for a correct pick that brings the combo to `newCombo`: a base of
      100 plus 10 per combo step, both scaled by the tier's multiplier. The
      game floors the combo bonus; with integer combo and multiplier the floor
      is exact, so it is left out. */
  function ScoreGain(d: Difficulty, newCombo: int): (gain: int)
    ensures newCombo >= 0 ==> gain >= 100 * Config(d).scoreMultiplier
    ensures newCombo >= 1 ==> gain >= 110
  {
    var m := Config(d).scoreMultiplier;
    100 * m + newCombo * 10 * m
  }

  /** A longer combo earns strictly more for the next pick. */
  lemma ScoreGainIncreasing(d: Difficulty, c1: int, c2: int)
    requires c1 < c2
    ensures ScoreGain(d, c1) < ScoreGain(d, c2)
  {
  }

  /** Total points of `k` consecutive correct picks starting from `combo`. */
  function RunScore(d: Difficulty, combo: int, k: nat): int
  {
    if k == 0 then 0 else RunScore(d, combo, k - 1) + ScoreGain(d, combo + k)
  }

  /** Unscaled points of `k` correct picks from `combo`: `k` base awards of
      100 plus the combo bonuses 10 * (combo + 1) .. 10 * (combo + k). */
  function Series(combo: int, k: int): int
  {
    100 * k + 10 * combo * k + 5 * k * (k + 1)
  }

  /** The gain of one pick is the multiplier times its unscaled award. */
  lemma GainFactored(d: Difficulty, newCombo: int)
    ensures ScoreGain(d, newCombo) == Config(d).scoreMultiplier * (100 + 10 * newCombo)
  {
  }

  /** Scaling distributes over the series step. */
  lemma ScaledStep(m: int, run: int, gain: int, combo: int, k: int)
    requires run == m * Series(combo, k - 1)
    requires gain == m * (100 + 10 * (combo + k))
    ensures run + gain == m * Series(combo, k)
  {
  }

  /** Closed form of a run of correct picks: the series scaled by the
      multiplier. */
  lemma {:induction false} RunScoreClosedForm(d: Difficulty, combo: int, k: nat)
    ensures RunScore(d, combo, k) == Config(d).scoreMultiplier * Series(combo, k)
  {
    if k > 0 {
      RunScoreClosedForm(d, combo, k - 1);
      GainFactored(d, combo + k);
      ScaledStep(Config(d).scoreMultiplier, RunScore(d, combo, k - 1), ScoreGain(d, combo + k), combo, k);
    }
  }

  /** Three correct picks from a fresh combo on the demon tier earn 220, 240
      and 260 points, 720 in all. */
  lemma DemonThreePicks()
    ensures ScoreGain(Demon, 1) == 220 && ScoreGain(Demon, 2) == 240 && ScoreGain(Demon, 3) == 260
    ensures RunScore(Demon, 0, 3) == 720
  {
  }

  /** Folds a finished session into the statistics: best score, level and
      combo are kept as maxima, correct picks are summed, and the number of
      games played (counted at game start) is left alone. */
  function MergeSessionStats(prev: GameStats, g: GameState): (r: GameStats)
    ensures r.highScore >= prev.highScore && r.highScore >= g.score
    ensures r.highScore == prev.highScore || r.highScore == g.score
    ensures r.maxLevel >= prev.maxLevel && r.maxLevel >= g.level
    ensures r.maxLevel == prev.maxLevel || r.maxLevel == g.level
    ensures r.bestCombo >= prev.bestCombo && r.bestCombo >= g.maxCombo
    ensures r.bestCombo == prev.bestCombo || r.bestCombo == g.maxCombo
    ensures r.totalChainsBreak == prev.totalChainsBreak + g.totalChainsBreak
    ensures r.totalGamesPlayed == prev.totalGamesPlayed
  {
    prev.(highScore := Max(prev.highScore, g.score),
          maxLevel := Max(prev.maxLevel, g.level),
          totalChainsBreak := prev.totalChainsBreak + g.totalChainsBreak,
          bestCombo := Max(prev.bestCombo, g.maxCombo))
  }

  /** The statistics do not depend on the order in which sessions end. */
  lemma MergeOrderIrrelevant(prev: GameStats, a: GameState, b: GameState)
    ensures MergeSessionStats(MergeSessionStats(prev, a), b)
         == MergeSessionStats(MergeSessionStats(prev, b), a)
  {
  }

  /** `player` agrees with the start of `target`, symbol by symbol, by id. */
  predicate IdsPrefix(player: seq<DemonSymbol>, target: seq<DemonSymbol>)
  {
    |player| <= |target| && forall i :: 0 <= i < |player| ==> player[i].id == target[i].id
  }

  /** When both sequences hold catalog symbols, agreeing by id is being a
      true prefix. */
  lemma IdsPrefixIsPrefix(player: seq<DemonSymbol>, target: seq<DemonSymbol>)
    requires IdsPrefix(player, target)
    requires forall x :: x in player ==> x in DemonSymbols
    requires forall x :: x in target ==> x in DemonSymbols
    ensures player == target[..|player|]
  {
    forall i | 0 <= i < |player|
      ensures player[i] == target[i]
    {
      SameIdSameSymbol(player[i], target[i]);
    }
  }
}
