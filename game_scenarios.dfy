/** Whole plays driven through the session controller, the way the screens
    drive it: what a memorize phase, a flawless level, a run of mistakes and a
    flawless game do to the session. */
module GameScenarios {
  import opened GameTypes
  import opened GameRules
  import opened GameSession

  /** Random draws that always pick the first symbol of the pool. */
  function ZeroDraws(n: nat): (draws: seq<nat>)
    ensures |draws| == n && forall k :: 0 <= k < n ==> draws[k] == 0
  {
    seq(n, _ => 0)
  }

  /** Points of a run of correct picks split at any point: the second part
      starts from the combo the first part reached. */
  lemma {:induction false} RunScoreSplit(d: Difficulty, combo: int, a: nat, b: nat)
    ensures RunScore(d, combo, a + b) == RunScore(d, combo, a) + RunScore(d, combo + a, b)
  {
    if b > 0 {
      RunScoreSplit(d, combo, a, b - 1);
      assert combo + (a + b) == (combo + a) + b;
    }
  }

  /** Symbols shown on levels 1 through `level`. */
  function SymbolsThroughLevel(level: nat, d: Difficulty): int
  {
    if level == 0 then 0 else SymbolsThroughLevel(level - 1, d) + SymbolCountForLevel(level, d)
  }

  /** Adding the symbols of the level after the first `done` levels. */
  lemma SymbolsThroughStep(done: nat, d: Difficulty, before: int, after: int)
    requires before == SymbolsThroughLevel(done, d)
    requires after == before + SymbolCountForLevel(done + 1, d)
    ensures after == SymbolsThroughLevel(done + 1, d)
  {
  }

  /** A whole memorize phase: the reveal starts at the first symbol, one tick
      per symbol walks through the sequence (one tick when it is empty), and
      the tick after the last symbol starts the play phase. */
  method RunMemorizePhase(s: Session) returns (ticks: nat)
    requires s.Valid() && s.state.phase == Memorize
    modifies s
    ensures s.Valid()
    ensures ticks == Max(|old(s.state.sequence)|, 1)
    ensures s.state == old(s.state).(phase := Play, currentSymbolIndex := 0, showingSymbol := false,
                                     timeRemaining := Config(old(s.state.difficulty)).playTime)
    ensures s.stats == old(s.stats) && s.pendingIntros == old(s.pendingIntros)
    ensures old(s.Driven()) ==> s.Driven()
  {
    s.RevealStart();
    var n := Max(|s.state.sequence|, 1);
    ticks := 0;
    while s.state.phase == Memorize
      invariant s.Valid()
      invariant 0 <= ticks <= n
      invariant s.state.phase == Memorize ==>
        ticks < n && s.state == old(s.state).(currentSymbolIndex := ticks, showingSymbol := true)
      invariant s.state.phase != Memorize ==>
        ticks == n &&
        s.state == old(s.state).(phase := Play, currentSymbolIndex := 0, showingSymbol := false,
                                 timeRemaining := Config(old(s.state.difficulty)).playTime)
      invariant s.stats == old(s.stats) && s.pendingIntros == old(s.pendingIntros)
      invariant old(s.Driven()) ==> s.Driven()
      decreases n - ticks
    {
      s.RevealTick();
      ticks := ticks + 1;
    }
  }

  /** The session record after the first `i` picks of a flawless attempt
      at the level recorded in `g`. */
  function AfterCorrectPicks(g: GameState, i: nat): GameState
    requires i <= |g.sequence|
  {
    g.(phase := if i == |g.sequence| then LevelComplete else Play,
       playerSequence := g.sequence[..i],
       score := g.score + RunScore(g.difficulty, g.combo, i),
       combo := g.combo + i,
       maxCombo := Max(g.maxCombo, g.combo + i),
       totalChainsBreak := g.totalChainsBreak + i)
  }

  /** One more correct pick of a flawless attempt moves the record from the
      `i`-th to the `i + 1`-th state of the attempt. */
  lemma CorrectPickStep(g: GameState, i: nat, before: GameState, after: GameState, pick: DemonSymbol)
    requires i < |g.sequence| && before == AfterCorrectPicks(g, i) && pick == g.sequence[i]
    requires after == before.(phase := if i + 1 == |g.sequence| then LevelComplete else Play,
                              playerSequence := before.playerSequence + [pick],
                              score := before.score + ScoreGain(before.difficulty, before.combo + 1),
                              combo := before.combo + 1,
                              maxCombo := Max(before.maxCombo, before.combo + 1),
                              totalChainsBreak := before.totalChainsBreak + 1)
    ensures after == AfterCorrectPicks(g, i + 1)
  {
  }

  /** The player picks the expected symbol, the `i + 1`-th of a flawless
      attempt. */
  method PickNextCorrect(s: Session, ghost g0: GameState, i: nat)
    requires s.Valid() && i < |g0.sequence| && s.state == AfterCorrectPicks(g0, i)
    modifies s
    ensures s.Valid()
    ensures s.state == AfterCorrectPicks(g0, i + 1)
    ensures s.stats == old(s.stats) && s.pendingIntros == old(s.pendingIntros)
    ensures old(s.Driven()) ==> s.Driven()
  {
    ghost var before := s.state;
    var outcome := s.SelectSymbol(s.state.sequence[i]);
    CorrectPickStep(g0, i, before, s.state, before.sequence[i]);
  }

  /** Picking every symbol of the sequence in order completes the level: the
      entered sequence is the target, the combo grows by its length and the
      score by the run's points. */
  method PlayLevelPerfectly(s: Session)
    requires s.Valid() && s.state.phase == Play
    requires s.state.playerSequence == [] && s.state.sequence != []
    modifies s
    ensures s.Valid()
    ensures s.state == AfterCorrectPicks(old(s.state), |old(s.state.sequence)|)
    ensures s.state.playerSequence == s.state.sequence && s.state.phase == LevelComplete
    ensures s.stats == old(s.stats) && s.pendingIntros == old(s.pendingIntros)
    ensures old(s.Driven()) ==> s.Driven()
  {
    ghost var g0 := s.state;
    var target := s.state.sequence;
    var n := |target|;
    var i := 0;
    assert g0.sequence[..0] == [];
    while i < n
      invariant s.Valid()
      invariant 0 <= i <= n
      invariant s.state == AfterCorrectPicks(g0, i)
      invariant s.stats == old(s.stats) && s.pendingIntros == old(s.pendingIntros)
      invariant old(s.Driven()) ==> s.Driven()
    {
      PickNextCorrect(s, g0, i);
      i := i + 1;
    }
    assert target[..n] == target;
  }

  /** On the mortal tier, five wrong picks in a row fail the level four times,
      one life each, and end the game on the fifth, with the last life kept. */
  method MortalFiveWrongPicks() returns (phases: seq<GamePhase>, livesLeft: int)
    ensures phases == [Failure, Failure, Failure, Failure, GameOver]
    ensures livesLeft == 1
  {
    var s := new Session(GameStats(0, 0, 0, 0, 0));
    s.StartGame(Mortal, ZeroDraws(3));
    s.IntroElapsed();
    var skull := DemonSymbols[0];
    var wrong := DemonSymbols[1];
    phases := [];
    while |phases| < 5
      invariant s.Valid()
      invariant |phases| <= 5
      invariant |phases| < 5 ==> s.state.phase == Memorize
      invariant s.state.difficulty == Mortal
      invariant s.state.sequence == [skull, skull, skull]
      invariant s.state.playerSequence == []
      invariant s.state.lives == Max(5 - |phases|, 1)
      invariant forall k :: 0 <= k < |phases| ==> phases[k] == (if k < 4 then Failure else GameOver)
    {
      var _ := RunMemorizePhase(s);
      assert wrong.id != s.state.sequence[0].id;
      var outcome := s.SelectSymbol(wrong);
      assert outcome == Wrong;
      phases := phases + [s.state.phase];
      if s.state.phase == Failure {
        s.RetryLevel();
      }
    }
    livesLeft := s.state.lives;
  }

  /** On the demon tier, the first three picks of a level, all correct, earn
      220, 240 and 260 points. */
  method DemonThreeCorrectPicks() returns (gains: seq<int>, score: int)
    ensures gains == [220, 240, 260] && score == 720
  {
    var s := new Session(GameStats(0, 0, 0, 0, 0));
    s.StartGame(Demon, ZeroDraws(4));
    s.IntroElapsed();
    var _ := RunMemorizePhase(s);
    gains := [];
    var target := s.state.sequence;
    var i := 0;
    while i < 3
      invariant s.Valid()
      invariant 0 <= i <= 3
      invariant s.state.phase == Play && s.state.difficulty == Demon
      invariant s.state.sequence == target && |target| == 4 && s.state.playerSequence == target[..i]
      invariant s.state.combo == i && s.state.score == RunScore(Demon, 0, i)
      invariant |gains| == i && forall k :: 0 <= k < i ==> gains[k] == ScoreGain(Demon, k + 1)
    {
      var before := s.state.score;
      var outcome := s.SelectSymbol(target[i]);
      assert outcome == Correct;
      assert target[..i] + [target[i]] == target[..i + 1];
      var gain := s.state.score - before;
      assert gain == ScoreGain(Demon, i + 1);
      gains := gains + [gain];
      i := i + 1;
    }
    DemonThreePicks();
    score := s.state.score;
  }

  /** One level played from its memorize phase without a mistake. */
  method FlawlessLevel(s: Session) returns (n: nat)
    requires s.Valid() && s.Driven() && s.state.phase == Memorize
    modifies s
    ensures s.Valid() && s.Driven()
    ensures n == |old(s.state.sequence)| && n > 0
    ensures s.state.phase == LevelComplete
    ensures s.state.level == old(s.state.level) && s.state.difficulty == old(s.state.difficulty)
    ensures s.state.lives == old(s.state.lives)
    ensures s.state.totalChainsBreak == old(s.state.totalChainsBreak) + n
    ensures s.state.combo == old(s.state.combo) + n
    ensures s.state.maxCombo == Max(old(s.state.maxCombo), old(s.state.combo) + n)
    ensures s.state.score == old(s.state.score) + RunScore(old(s.state.difficulty), old(s.state.combo), n)
    ensures s.pendingIntros == old(s.pendingIntros)
  {
    var _ := RunMemorizePhase(s);
    n := |s.state.sequence|;
    PlayLevelPerfectly(s);
  }

  /** A flawless level followed by the advance past it, keeping track of
      the correct picks of the whole game so far. */
  method AdvanceFlawlessly(s: Session, ghost total: nat) returns (ghost total': nat)
    requires s.Valid() && s.Driven() && s.state.phase == Memorize
    requires total == s.state.totalChainsBreak == s.state.combo == s.state.maxCombo
    requires s.state.score == RunScore(s.state.difficulty, 0, total)
    modifies s
    ensures s.Valid() && s.Driven()
    ensures total' == s.state.totalChainsBreak == s.state.combo == s.state.maxCombo
    ensures total' == total + SymbolCountForLevel(old(s.state.level), old(s.state.difficulty))
    ensures s.state.score == RunScore(s.state.difficulty, 0, total')
    ensures s.state.difficulty == old(s.state.difficulty) && s.state.lives == old(s.state.lives)
    ensures old(s.state.level) < VictoryLevel ==>
      s.state.phase == Memorize && s.state.level == old(s.state.level) + 1
    ensures old(s.state.level) == VictoryLevel ==>
      s.state.phase == Victory && s.state.level == VictoryLevel
  {
    var d := s.state.difficulty;
    var level := s.state.level;
    var n := FlawlessLevel(s);
    RunScoreSplit(d, 0, total, n);
    total' := total + n;
    assert s.state.score == RunScore(d, 0, total');
    s.NextLevel(ZeroDraws(SymbolCountForLevel(level + 1, d)));
  }

  /** A flawless game: every level played without a mistake. The combo never
      breaks, even across levels, so the final score is one run of correct
      picks over every symbol of levels 1 to 10; the advance past level 10
      wins with the level left at 10 and no life lost. */
  method FlawlessGame(d: Difficulty) returns (final: GameState)
    ensures final.phase == Victory && final.level == VictoryLevel
    ensures final.lives == Config(d).lives
    ensures final.totalChainsBreak == SymbolsThroughLevel(VictoryLevel, d)
    ensures final.combo == final.maxCombo == final.totalChainsBreak
    ensures final.score == RunScore(d, 0, final.totalChainsBreak)
  {
    var s := new Session(GameStats(0, 0, 0, 0, 0));
    s.StartGame(d, ZeroDraws(Config(d).startingSymbols));
    s.IntroElapsed();
    var level := 1;
    ghost var done: nat := 0;
    ghost var total: nat := 0;
    while level < VictoryLevel
      invariant s.Valid() && s.Driven()
      invariant 1 <= level <= VictoryLevel && done == level - 1
      invariant s.state.phase == Memorize && s.state.level == level && s.state.difficulty == d
      invariant s.state.lives == Config(d).lives
      invariant total == s.state.totalChainsBreak == SymbolsThroughLevel(done, d)
      invariant s.state.combo == s.state.maxCombo == total
      invariant s.state.score == RunScore(d, 0, total)
    {
      ghost var before := total;
      total := AdvanceFlawlessly(s, total);
      SymbolsThroughStep(done, d, before, total);
      done := level;
      level := level + 1;
    }
    ghost var before := total;
    total := AdvanceFlawlessly(s, total);
    SymbolsThroughStep(done, d, before, total);
    final := s.state;
  }
}
