/** The session controller: the game's single mutable object. It holds the
    session record and the statistics record, and replaces them in response to
    the five player actions and to the firing of its timers (the intro delay,
    the reveal interval of the memorize phase, the play countdown and the
    shake reset), each timer firing being an explicit event here. */
module GameSession {
  import opened GameTypes
  import opened GameRules

  /** Completing this level wins the game. */
  const VictoryLevel := 10
  /** Lives shown on the menu, before a tier is chosen. */
  const MenuLives := 3
  /** Period of the play countdown, in milliseconds. */
  const PlayTickMs := 100

  /** What a symbol pick did. `NoExpectedSymbol` is a pick made in the play
      phase when the whole sequence has already been entered: there is no
      expected symbol whose id could be compared, the game fails on the
      missing symbol and nothing changes. */
  datatype PickOutcome = Ignored | NoExpectedSymbol | Correct | Wrong

  /** The menu record: level 1, no score, three lives, no sequence, the tier
      of the last game kept. */
  function MenuState(d: Difficulty): GameState
  {
    GameState(Menu, 1, 0, MenuLives, d, [], [], 0, false, 0, 0, 0, 0, false)
  }

  /** What holds of the session record whatever order the actions and timer
      events come in. */
  ghost predicate Consistent(g: GameState)
  {
    && g.phase != Success
    && 1 <= g.level <= VictoryLevel
    && g.lives >= 1
    && IdsPrefix(g.playerSequence, g.sequence)
    && (g.sequence == [] || |g.sequence| == SymbolCountForLevel(g.level, g.difficulty))
    && (forall x :: x in g.sequence ==> x in AvailableSymbols(g.level))
    && 0 <= g.currentSymbolIndex
    && (g.currentSymbolIndex == 0 || g.currentSymbolIndex < |g.sequence|)
    && (g.phase == Play ==> 0 < g.timeRemaining <= Config(g.difficulty).playTime)
    && 0 <= g.combo <= g.maxCombo <= g.totalChainsBreak
    && g.score >= 110 * g.totalChainsBreak
  }

  /** What also holds when the actions come only from the screens that offer
      them (start on the menu and end screens, next level on the level-complete
      screen, retry on the failure screen, menu on the failure and end screens)
      and the intro delay has fired once per start. */
  ghost predicate ScreenDriven(g: GameState, pendingIntros: nat)
  {
    && pendingIntros <= 1
    && (pendingIntros == 1 <==> g.phase == Intro)
    && (g.phase in {Intro, Memorize, Play, LevelComplete, Failure} ==> g.sequence != [])
    && (g.phase in {Intro, Memorize} ==> g.playerSequence == [])
    && (g.phase == Play ==> |g.playerSequence| < |g.sequence|)
  }

  lemma MenuStateConsistent(d: Difficulty)
    ensures Consistent(MenuState(d)) && ScreenDriven(MenuState(d), 0)
  {
  }

  /** A correct pick keeps both invariants: the entered symbol agrees by id
      with the expected one, and the score gains at least 110 for the new
      correct pick. */
  lemma CorrectPickKeeps(g: GameState, symbol: DemonSymbol, pendingIntros: nat, g': GameState)
    requires Consistent(g) && g.phase == Play && |g.playerSequence| < |g.sequence|
    requires symbol.id == g.sequence[|g.playerSequence|].id
    requires g' == g.(phase := if |g.playerSequence| + 1 == |g.sequence| then LevelComplete else Play,
                      playerSequence := g.playerSequence + [symbol],
                      score := g.score + ScoreGain(g.difficulty, g.combo + 1),
                      combo := g.combo + 1,
                      maxCombo := Max(g.maxCombo, g.combo + 1),
                      totalChainsBreak := g.totalChainsBreak + 1)
    ensures Consistent(g')
    ensures ScreenDriven(g, pendingIntros) ==> ScreenDriven(g', pendingIntros)
  {
  }

  /** A wrong pick keeps both invariants, whether it ends the game or fails
      the level. */
  lemma WrongPickKeeps(g: GameState, pendingIntros: nat, g': GameState)
    requires Consistent(g) && g.phase == Play && |g.playerSequence| < |g.sequence|
    requires g.lives <= 1 ==> g' == g.(phase := GameOver, combo := 0, isShaking := true)
    requires g.lives > 1 ==>
      g' == g.(phase := Failure, lives := g.lives - 1, combo := 0, isShaking := true,
               playerSequence := [])
    ensures Consistent(g')
    ensures ScreenDriven(g, pendingIntros) ==> ScreenDriven(g', pendingIntros)
  {
  }

  class Session {
    /** The session record. */
    var state: GameState
    /** The statistics, as loaded when the game opened. */
    var stats: GameStats
    /** Intro delays scheduled by a start and not yet fired; nothing cancels
        them. */
    var pendingIntros: nat

    ghost predicate Valid()
      reads this
    {
      Consistent(state)
    }

    ghost predicate Driven()
      reads this
    {
      ScreenDriven(state, pendingIntros)
    }

    /** The symbols offered for picking on the current level. Every symbol of
        the sequence is among them, so the expected symbol can always be
        picked. */
    function OfferedSymbols(): (pool: seq<DemonSymbol>)
      reads this
      requires Valid()
      ensures BasePoolSize <= |pool| <= |DemonSymbols|
      ensures |pool| == PoolSize(state.level)
      ensures forall x :: x in state.sequence ==> x in pool
      ensures forall i :: 0 <= i < |pool| ==> pool[i] == DemonSymbols[i]
    {
      AvailableSymbols(state.level)
    }

    /** Opens the game on the menu, on the demon tier, with the statistics
        read from storage. */
    constructor (saved: GameStats)
      ensures Valid() && Driven()
      ensures state == MenuState(Demon) && stats == saved && pendingIntros == 0
    {
      state := MenuState(Demon);
      stats := saved;
      pendingIntros := 0;
      MenuStateConsistent(Demon);
    }

    /** Starts a game on tier `d`: a fresh record in the intro phase with a
        level-1 sequence, one more game counted in the statistics, and the
        intro delay scheduled. */
    method StartGame(d: Difficulty, draws: seq<nat>)
      requires Valid()
      requires ValidDraws(draws, Config(d).startingSymbols, PoolSize(1))
      modifies this
      ensures Valid()
      ensures state.phase == Intro && state.level == 1 && state.score == 0
      ensures state.lives == Config(d).lives && state.difficulty == d
      ensures |state.sequence| == Config(d).startingSymbols
      ensures forall k :: 0 <= k < |draws| ==> state.sequence[k] == DemonSymbols[draws[k]]
      ensures state.playerSequence == [] && state.currentSymbolIndex == 0 && !state.showingSymbol
      ensures state.timeRemaining == Config(d).memorizeTime
      ensures state.combo == 0 && state.maxCombo == 0 && state.totalChainsBreak == 0
      ensures !state.isShaking
      ensures stats == old(stats).(totalGamesPlayed := old(stats).totalGamesPlayed + 1)
      ensures pendingIntros == old(pendingIntros) + 1
      ensures old(Driven()) && old(state.phase) in {Menu, GameOver, Victory} ==> Driven()
    {
      var c := Config(d);
      var pool := AvailableSymbols(1);
      var sequence := GenerateSequence(c.startingSymbols, pool, draws);
      stats := stats.(totalGamesPlayed := stats.totalGamesPlayed + 1);
      state := GameState(Intro, 1, 0, c.lives, d, sequence, [], 0, false,
                         c.memorizeTime, 0, 0, 0, false);
      pendingIntros := pendingIntros + 1;
    }

    /** The intro delay fires: the phase becomes memorize, whatever it was. */
    method IntroElapsed()
      requires Valid() && pendingIntros > 0
      modifies this
      ensures Valid()
      ensures state == old(state).(phase := Memorize)
      ensures stats == old(stats) && pendingIntros == old(pendingIntros) - 1
      ensures old(Driven()) ==> Driven()
    {
      state := state.(phase := Memorize);
      pendingIntros := pendingIntros - 1;
    }

    /** The memorize phase begins its reveal at the first symbol. */
    method RevealStart()
      requires Valid() && state.phase == Memorize
      modifies this
      ensures Valid()
      ensures state == old(state).(currentSymbolIndex := 0, showingSymbol := true)
      ensures stats == old(stats) && pendingIntros == old(pendingIntros)
      ensures old(Driven()) ==> Driven()
    {
      state := state.(currentSymbolIndex := 0, showingSymbol := true);
    }

    /** The reveal interval fires: show the next symbol, or, after the last
        one, start the play phase with the full play time on the clock. */
    method RevealTick()
      requires Valid() && state.phase == Memorize
      modifies this
      ensures Valid()
      ensures old(state.currentSymbolIndex) + 1 < |old(state.sequence)| ==>
        state == old(state).(currentSymbolIndex := old(state.currentSymbolIndex) + 1,
                             showingSymbol := true)
      ensures old(state.currentSymbolIndex) + 1 >= |old(state.sequence)| ==>
        state == old(state).(phase := Play, currentSymbolIndex := 0, showingSymbol := false,
                             timeRemaining := Config(old(state.difficulty)).playTime)
      ensures stats == old(stats) && pendingIntros == old(pendingIntros)
      ensures old(Driven()) ==> Driven()
    {
      var next := state.currentSymbolIndex + 1;
      if next < |state.sequence| {
        state := state.(currentSymbolIndex := next, showingSymbol := true);
      } else {
        state := state.(phase := Play, currentSymbolIndex := 0, showingSymbol := false,
                        timeRemaining := Config(state.difficulty).playTime);
      }
    }

    /** The play countdown fires: 100 ms less on the clock; when time runs out
        the last life ends the game, any other life is lost and the level is
        failed, keeping the symbols entered so far. */
    method PlayTick()
      requires Valid() && state.phase == Play
      modifies this
      ensures Valid()
      ensures old(state.timeRemaining) - PlayTickMs > 0 ==>
        state == old(state).(timeRemaining := old(state.timeRemaining) - PlayTickMs)
      ensures old(state.timeRemaining) - PlayTickMs <= 0 && old(state.lives) <= 1 ==>
        state == old(state).(phase := GameOver, timeRemaining := 0)
      ensures old(state.timeRemaining) - PlayTickMs <= 0 && old(state.lives) > 1 ==>
        state == old(state).(phase := Failure, lives := old(state.lives) - 1,
                             timeRemaining := 0, combo := 0, isShaking := true)
      ensures state.lives >= 1 && state.playerSequence == old(state.playerSequence)
      ensures stats == old(stats) && pendingIntros == old(pendingIntros)
      ensures old(Driven()) ==> Driven()
    {
      var newTime := state.timeRemaining - PlayTickMs;
      if newTime <= 0 {
        if state.lives <= 1 {
          state := state.(phase := GameOver, timeRemaining := 0);
        } else {
          state := state.(phase := Failure, lives := state.lives - 1, timeRemaining := 0,
                          combo := 0, isShaking := true);
        }
      } else {
        state := state.(timeRemaining := newTime);
      }
    }

    /** The player picks `symbol`. Outside the play phase nothing happens. A
        pick whose id matches the next expected symbol extends the entered
        sequence, the combo and the score, and completes the level when the
        whole sequence is entered; a wrong pick costs a life and restarts the
        attempt in the failure phase, or ends the game on the last life. */
    method SelectSymbol(symbol: DemonSymbol) returns (outcome: PickOutcome)
      requires Valid()
      modifies this
      ensures Valid()
      ensures outcome == Ignored <==> old(state.phase) != Play
      ensures outcome == NoExpectedSymbol <==>
        old(state.phase) == Play && |old(state.playerSequence)| >= |old(state.sequence)|
      ensures outcome == Correct <==>
        old(state.phase) == Play && |old(state.playerSequence)| < |old(state.sequence)| &&
        symbol.id == old(state.sequence)[|old(state.playerSequence)|].id
      ensures outcome == Wrong <==>
        old(state.phase) == Play && |old(state.playerSequence)| < |old(state.sequence)| &&
        symbol.id != old(state.sequence)[|old(state.playerSequence)|].id
      ensures outcome in {Ignored, NoExpectedSymbol} ==> state == old(state)
      ensures outcome == Correct ==>
        var newCombo := old(state.combo) + 1;
        var entered := old(state.playerSequence) + [symbol];
        state == old(state).(phase := if |entered| == |old(state.sequence)| then LevelComplete else Play,
                             playerSequence := entered,
                             score := old(state.score) + ScoreGain(old(state.difficulty), newCombo),
                             combo := newCombo,
                             maxCombo := Max(old(state.maxCombo), newCombo),
                             totalChainsBreak := old(state.totalChainsBreak) + 1)
      ensures outcome == Correct ==> state.score > old(state.score)
      ensures outcome == Wrong && old(state.lives) <= 1 ==>
        state == old(state).(phase := GameOver, combo := 0, isShaking := true)
      ensures outcome == Wrong && old(state.lives) > 1 ==>
        state == old(state).(phase := Failure, lives := old(state.lives) - 1, combo := 0,
                             isShaking := true, playerSequence := [])
      ensures stats == old(stats) && pendingIntros == old(pendingIntros)
      ensures old(Driven()) ==> Driven() && outcome != NoExpectedSymbol
    {
      if state.phase != Play {
        return Ignored;
      }
      if |state.playerSequence| >= |state.sequence| {
        return NoExpectedSymbol;
      }
      var expected := state.sequence[|state.playerSequence|];
      if symbol.id == expected.id {
        PickCorrect(symbol);
        outcome := Correct;
      } else {
        PickWrong();
        outcome := Wrong;
      }
    }

    /** A pick matching the expected symbol: it is entered, the combo and the
        correct picks grow by one, the score by the pick's gain, and the level
        is complete once the whole sequence is entered. */
    method PickCorrect(symbol: DemonSymbol)
      requires Valid() && state.phase == Play && |state.playerSequence| < |state.sequence|
      requires symbol.id == state.sequence[|state.playerSequence|].id
      modifies this
      ensures Valid()
      ensures
        var newCombo := old(state.combo) + 1;
        var entered := old(state.playerSequence) + [symbol];
        state == old(state).(phase := if |entered| == |old(state.sequence)| then LevelComplete else Play,
                             playerSequence := entered,
                             score := old(state.score) + ScoreGain(old(state.difficulty), newCombo),
                             combo := newCombo,
                             maxCombo := Max(old(state.maxCombo), newCombo),
                             totalChainsBreak := old(state.totalChainsBreak) + 1)
      ensures stats == old(stats) && pendingIntros == old(pendingIntros)
      ensures old(Driven()) ==> Driven()
    {
      ghost var g := state;
      var entered := state.playerSequence + [symbol];
      var newCombo := state.combo + 1;
      var gain := ScoreGain(state.difficulty, newCombo);
      state := state.(playerSequence := entered, score := state.score + gain, combo := newCombo,
                      maxCombo := Max(state.maxCombo, newCombo),
                      totalChainsBreak := state.totalChainsBreak + 1);
      if |entered| == |state.sequence| {
        state := state.(phase := LevelComplete);
      }
      CorrectPickKeeps(g, symbol, pendingIntros, state);
    }

    /** A pick not matching the expected symbol: the combo breaks and the
        screen shakes; the last life ends the game, any other life is lost and
        the attempt fails with nothing entered. */
    method PickWrong()
      requires Valid() && state.phase == Play && |state.playerSequence| < |state.sequence|
      modifies this
      ensures Valid()
      ensures old(state.lives) <= 1 ==>
        state == old(state).(phase := GameOver, combo := 0, isShaking := true)
      ensures old(state.lives) > 1 ==>
        state == old(state).(phase := Failure, lives := old(state.lives) - 1, combo := 0,
                             isShaking := true, playerSequence := [])
      ensures stats == old(stats) && pendingIntros == old(pendingIntros)
      ensures old(Driven()) ==> Driven()
    {
      ghost var g := state;
      if state.lives <= 1 {
        state := state.(phase := GameOver, combo := 0, isShaking := true);
      } else {
        state := state.(lives := state.lives - 1, combo := 0, isShaking := true,
                        playerSequence := [], phase := Failure);
      }
      WrongPickKeeps(g, pendingIntros, state);
    }

    /** The shake reset fires half a second after a shake began. */
    method ShakeElapsed()
      requires Valid() && state.isShaking
      modifies this
      ensures Valid()
      ensures state == old(state).(isShaking := false)
      ensures stats == old(stats) && pendingIntros == old(pendingIntros)
      ensures old(Driven()) ==> Driven()
    {
      state := state.(isShaking := false);
    }

    /** Advances past a completed level: beyond level 10 the game is won and
        the level stays 10; otherwise the next level's sequence is drawn from
        its pool and memorized afresh. */
    method NextLevel(draws: seq<nat>)
      requires Valid()
      requires ValidDraws(draws, SymbolCountForLevel(state.level + 1, state.difficulty),
                          PoolSize(state.level + 1))
      modifies this
      ensures Valid()
      ensures old(state.level) >= VictoryLevel ==> state == old(state).(phase := Victory)
      ensures old(state.level) < VictoryLevel ==>
        && |state.sequence| == SymbolCountForLevel(old(state.level) + 1, old(state.difficulty))
        && (forall k :: 0 <= k < |draws| ==>
              state.sequence[k] == AvailableSymbols(old(state.level) + 1)[draws[k]])
        && state == old(state).(phase := Memorize, level := old(state.level) + 1,
                                sequence := state.sequence, playerSequence := [],
                                currentSymbolIndex := 0, showingSymbol := false,
                                timeRemaining := Config(old(state.difficulty)).memorizeTime)
      ensures stats == old(stats) && pendingIntros == old(pendingIntros)
      ensures old(Driven()) && old(state.phase) == LevelComplete ==> Driven()
    {
      var newLevel := state.level + 1;
      var c := Config(state.difficulty);
      var count := SymbolCountForLevel(newLevel, state.difficulty);
      var pool := AvailableSymbols(newLevel);
      var sequence := GenerateSequence(count, pool, draws);
      if newLevel > VictoryLevel {
        state := state.(phase := Victory);
        return;
      }
      state := state.(phase := Memorize, level := newLevel, sequence := sequence,
                      playerSequence := [], currentSymbolIndex := 0, showingSymbol := false,
                      timeRemaining := c.memorizeTime);
    }

    /** Retries the current level after a failure: same level and sequence,
        nothing entered yet, no shake, back to memorizing. */
    method RetryLevel()
      requires Valid()
      modifies this
      ensures Valid()
      ensures state == old(state).(phase := Memorize, playerSequence := [],
                                   currentSymbolIndex := 0, showingSymbol := false,
                                   timeRemaining := Config(old(state.difficulty)).memorizeTime,
                                   isShaking := false)
      ensures stats == old(stats) && pendingIntros == old(pendingIntros)
      ensures old(Driven()) && old(state.phase) == Failure ==> Driven()
    {
      state := state.(phase := Memorize, playerSequence := [], currentSymbolIndex := 0,
                      showingSymbol := false, timeRemaining := Config(state.difficulty).memorizeTime,
                      isShaking := false);
    }

    /** Leaves the session: its score, level, best combo and correct picks are
        folded into the statistics, and the menu record replaces it, keeping
        the tier. */
    method ReturnToMenu()
      requires Valid()
      modifies this
      ensures Valid()
      ensures stats == MergeSessionStats(old(stats), old(state))
      ensures state == MenuState(old(state.difficulty))
      ensures pendingIntros == old(pendingIntros)
      ensures old(Driven()) && old(state.phase) in {Failure, GameOver, Victory} ==> Driven()
    {
      stats := MergeSessionStats(stats, state);
      state := MenuState(state.difficulty);
      MenuStateConsistent(state.difficulty);
    }
  }
}
