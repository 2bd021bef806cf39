# Chain Breaker session controller, in Dafny

Chain Breaker is a browser memory game. The game shows a sequence of demon
symbols. The player must pick them back in order before a countdown runs out.
There are ten levels and three difficulty tiers (mortal, demon, infernal).

This project models the game's session controller, the `useGame` hook, and
the static tables it reads:

- `game_types.dfy` (module `GameTypes`): the symbol catalog (`DemonSymbols`),
  the phases, the tiers and their tuning table (`Config`), and the session
  and statistics records (`GameState`, `GameStats`).
- `game_rules.dfy` (module `GameRules`): the pure helpers. These are the
  sequence length per level, the symbol pool per level, sequence generation,
  the points of a correct pick and the statistics merge at the end of a
  session.
- `game_session.dfy` (module `GameSession`): class `Session`. It holds the
  hook's two state cells, `state` and `stats`. It has one method per player
  action (`StartGame`, `SelectSymbol`, `NextLevel`, `RetryLevel`,
  `ReturnToMenu`) and one method per timer firing:
  - `IntroElapsed`: the 2-second intro delay;
  - `RevealStart` and `RevealTick`: the start and the ticks of the memorize
    reveal;
  - `PlayTick`: the 100 ms play countdown;
  - `ShakeElapsed`: the shake reset.

  Each method replaces the record the way the hook's `setState(prev => ...)`
  calls do. Each states the whole new record in terms of the old one.
- `game_scenarios.dfy` (module `GameScenarios`): whole plays driven through a
  `Session`. They cover a memorize phase, a flawless level, five wrong picks
  on the mortal tier, three correct picks on the demon tier and a flawless
  game up to victory.

Two invariants are kept:

- `Consistent` holds whatever order the actions and timer events come in:
  - the level stays in 1..10 and at least one life remains;
  - the entered sequence matches the start of the target sequence by `id`;
  - the target is empty (as on the menu) or has the length the level and tier
    call for, and is drawn from the level's pool;
  - in the play phase the countdown is positive;
  - combo <= best combo <= correct picks, and the score is at least 110 per
    correct pick.
- `ScreenDriven` also holds when each action comes only from the screen that
  offers it. Those screens are listed in
  `src/components/game/ChainBreakerGame.tsx:33-133`. Under this invariant the
  play phase always has an expected symbol to compare against.

The hook itself checks the phase only in `selectSymbol`. So the model lets
every other action run in any phase, as the code does. A pick made in the
play phase after the whole sequence is entered reads the `id` of a missing
symbol and fails. The model returns `NoExpectedSymbol` for it and changes
nothing. `SelectSymbol` proves this cannot happen under `ScreenDriven`.

Four behaviours of the code are easy to misread; the model follows the code:

- Entering the play phase does not clear the entered sequence
  (`src/hooks/useGame.ts:151-157`).
- The combo is not reset between levels (`src/hooks/useGame.ts:275-284`), so
  a flawless game is one unbroken combo. `GameScenarios.FlawlessGame` proves
  this.
- Winning leaves the level at 10; it never becomes 11
  (`src/hooks/useGame.ts:270-272`).
- The intro delay is never cancelled (`src/hooks/useGame.ts:131-133`). It
  sets the phase to memorize whatever the phase is then. `pendingIntros`
  counts the delays not yet fired.

## Model

| member | source | states |
|---|---|---|
| `GameTypes.Config` | src/types/game.ts:63-97 | every tier shows between 1 and 12 symbols, starting no higher than its maximum; every tier gains exactly one symbol per level, has at least two lives and a multiplier of at least 1, and the mortal, demon and infernal tiers have 5, 3 and 2 lives and multipliers 1, 2 and 3 |
| `GameTypes.CatalogIdsDistinct` | src/types/game.ts:48-61 | the catalog has 12 symbols and no two share an id |
| `GameTypes.SameIdSameSymbol` | src/hooks/useGame.ts:207-208 | between catalog symbols, comparing ids is comparing the symbols |
| `GameRules.SymbolCountForLevel` | src/hooks/useGame.ts:52-56 | the sequence length is the smaller of the tier's maximum and the starting count plus one per level after the first: it exceeds neither, and equals one of them; from level 1 on it is at least the starting count |
| `GameRules.SymbolCountMonotone` | src/hooks/useGame.ts:52-56 | a later level never has a shorter sequence |
| `GameRules.PoolSize` | src/hooks/useGame.ts:58-64 | the pool size is the smaller of 4 plus one per two levels and the catalog size 12: it exceeds neither, and equals one of them, so it lies between 4 and 12 |
| `GameRules.AvailableSymbols` | src/hooks/useGame.ts:58-64 | the pool is the catalog's prefix of length `PoolSize(level)`, so it has at least 4 symbols |
| `GameRules.AvailableSymbolsGrow` | src/hooks/useGame.ts:58-64 | a level's pool is a prefix of every later level's pool, so symbols are never withdrawn |
| `GameRules.GenerateSequence` | src/hooks/useGame.ts:43-50 | the result has exactly `length` symbols; the k-th is the pool symbol at the k-th draw, so each is a pool element and repeats are allowed |
| `GameRules.ScoreGain` | src/hooks/useGame.ts:212-216 | a correct pick earns at least 100 times the multiplier, and at least 110 once the combo is at least 1 |
| `GameRules.ScoreGainIncreasing` | src/hooks/useGame.ts:212-216 | a longer combo earns strictly more for the next pick |
| `GameRules.RunScoreClosedForm` | src/hooks/useGame.ts:210-225 | k correct picks from combo c earn the multiplier times (100k + 10ck + 5k(k+1)) |
| `GameRules.DemonThreePicks` | src/hooks/useGame.ts:212-216 | on the demon tier the first three correct picks earn 220, 240 and 260, 720 in all |
| `GameRules.MergeSessionStats` | src/hooks/useGame.ts:307-318 | the high score, best level and best combo become the larger of the old and the session value; the correct picks are summed; the games-played count is unchanged |
| `GameRules.MergeOrderIrrelevant` | src/hooks/useGame.ts:307-318 | folding two sessions into the statistics gives the same result in either order |
| `GameRules.IdsPrefixIsPrefix` | src/hooks/useGame.ts:207-211 | an entered sequence that matches the target by id is, for catalog symbols, a true prefix of it |
| `GameSession.MenuStateConsistent` | src/hooks/useGame.ts:320-335 | the menu record satisfies both invariants |
| `GameSession.Session.OfferedSymbols` | src/hooks/useGame.ts:338-339 | the offered pool is the catalog prefix of the current level's size (4 to 12 symbols), the same pool the level's sequences are drawn from, and contains every symbol of the current sequence |
| `GameSession.Session.constructor` | src/hooks/useGame.ts:67-83 | the game opens on the menu record (demon tier, level 1, 3 lives) with the stored statistics and no pending intro |
| `GameSession.Session.StartGame` | src/hooks/useGame.ts:101-133 | intro phase, level 1, score 0, the tier's lives, a fresh sequence of the tier's starting length drawn from the level-1 pool, nothing entered, combo, best combo and correct picks at 0; the statistics change only by one more game played; one more intro delay pending |
| `GameSession.Session.IntroElapsed` | src/hooks/useGame.ts:130-133 | the phase becomes memorize and nothing else in the record changes |
| `GameSession.Session.RevealStart` | src/hooks/useGame.ts:137-143 | the reveal starts at index 0, showing a symbol |
| `GameSession.Session.RevealTick` | src/hooks/useGame.ts:145-161 | the index advances by one while it stays below the sequence length; the tick after the last symbol starts the play phase with index 0 and the tier's full play time |
| `GameSession.Session.PlayTick` | src/hooks/useGame.ts:172-193 | the clock loses 100 ms; when it reaches 0 the game is over on the last life (lives unchanged), otherwise one life is lost, the combo resets, a shake begins and the phase is failure; the entered sequence is kept either way |
| `GameSession.Session.SelectSymbol` | src/hooks/useGame.ts:204-248 | ignored outside play; a pick whose id matches the next expected symbol appends it, raises combo by 1, best combo to the max, correct picks by 1 and the score by `ScoreGain`, completing the level exactly when the whole sequence is entered; a wrong pick resets the combo and shakes, and ends the game on the last life or costs exactly one life, clears the entered sequence and fails the level; the statistics are untouched; under `ScreenDriven` an expected symbol always exists |
| `GameSession.Session.PickCorrect` | src/hooks/useGame.ts:210-231 | a matching pick is appended; combo and correct picks rise by one, best combo to the max, the score by `ScoreGain`; the phase becomes level complete exactly when the whole sequence is entered; both invariants are kept |
| `GameSession.Session.PickWrong` | src/hooks/useGame.ts:232-246 | a wrong pick breaks the combo and shakes; on the last life the game is over with the entered symbols kept, otherwise exactly one life is lost, nothing stays entered and the level fails; both invariants are kept |
| `GameSession.CorrectPickKeeps` | src/hooks/useGame.ts:210-231 | the record after a correct pick is still consistent (the entered symbols still agree with the target by id, the score still covers 110 per correct pick), and still screen-driven when the record before it was |
| `GameSession.WrongPickKeeps` | src/hooks/useGame.ts:232-246 | the record after a wrong pick, game over or failure, is still consistent, and still screen-driven when the record before it was |
| `GameSession.Session.ShakeElapsed` | src/hooks/useGame.ts:251-258 | the shake ends and nothing else changes |
| `GameSession.Session.NextLevel` | src/hooks/useGame.ts:261-285 | from level 10 the phase becomes victory and nothing else changes; otherwise the level rises by one, and a new sequence of that level's length is drawn from that level's pool and memorized, with nothing entered |
| `GameSession.Session.RetryLevel` | src/hooks/useGame.ts:288-301 | same level and sequence, nothing entered, no shake, the memorize phase with the tier's memorize time |
| `GameSession.Session.ReturnToMenu` | src/hooks/useGame.ts:304-336 | the statistics absorb the session by `MergeSessionStats`, and the record becomes the menu record with the tier kept |
| `GameScenarios.RunScoreSplit` | src/hooks/useGame.ts:212-224 | a run of correct picks split in two scores as the first part plus the second part started from the combo the first reached |
| `GameScenarios.RunMemorizePhase` | src/hooks/useGame.ts:137-169 | a whole memorize phase takes one tick per symbol (one for an empty sequence) and ends in play with full play time, nothing else changed |
| `GameScenarios.PlayLevelPerfectly` | src/hooks/useGame.ts:204-231 | picking the sequence in order completes the level with the entered sequence equal to the target, the combo and correct picks raised by its length and the score by the run's points |
| `GameScenarios.MortalFiveWrongPicks` | src/hooks/useGame.ts:233-246 | on the mortal tier five wrong picks in a row give failure four times and then game over, with one life left |
| `GameScenarios.DemonThreeCorrectPicks` | src/hooks/useGame.ts:210-225 | driven through a demon session, three correct picks earn 220, 240 and 260, 720 in all |
| `GameScenarios.FlawlessGame` | src/hooks/useGame.ts:261-285 | a game with no mistake ends in victory at level 10 with no life lost; its combo equals its correct picks (every symbol of levels 1 to 10) and its score is one run of correct picks over all of them |

## Left out

- Loading and saving the statistics (`src/hooks/useGame.ts:15-41`) read and write the browser's local storage as JSON. This is I/O. The constructor takes the loaded record as a parameter. The code does not guard against a malformed stored record, so the round trip of saving and then loading is not modelled.
- Real time. The timers are not modelled as clocks. Each timer firing is an event method, callable only while its timer exists:
  - the reveal interval exists in the memorize phase;
  - the countdown exists in the play phase;
  - the shake timeout exists while the shake flag is set;
  - an intro delay exists while one is pending.

  `clearTimers` and the effect cleanups therefore have no state of their own. That at most one phase timer runs at a time follows from the phase alone.
- The reveal pacing `memorizeTime / sequence.length` is floating point. Only the order of the ticks is modelled.
- The reveal effect keeps its own counter beside the record's `currentSymbolIndex`. The model uses the record's index as that counter. The two always move together, except when an action resets the index in the middle of a reveal, which no screen allows.
- The `Math.floor` on the combo bonus (`src/hooks/useGame.ts:215`) is not written out. The combo and the multiplier are integers, so the floor never rounds.
- `Math.random` is replaced by a caller-supplied sequence of draws. Each draw is an index into the pool.
- React's batching and stale closures are not modelled. Each action and each timer event applies in one step to the current record.
- Scores and counters are JavaScript numbers. The model uses unbounded integers; every value the game produces is a small integer.
- The presentational components under `src/components/game/` are not part of this model. Neither are the quote list `LYRICS_QUOTES` (`src/types/game.ts:99-113`) and the video dialog's URL parsing. They only render the state and call the actions.
