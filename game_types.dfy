/** The static data of Chain Breaker: the symbol catalog, the phases of a
    session, the difficulty tiers with their tuning table, and the two records
    the session controller keeps (the session state and the persisted
    statistics). Everything here is an immutable value. */
module GameTypes {

  /** One symbol of the catalog; the game compares symbols by `id` only. */
  datatype DemonSymbol = DemonSymbol(id: string, icon: string, name: string, color: string)

  /** The stages of a session. `Success` is declared by the game but no
      transition ever enters it. */
  datatype GamePhase =
    | Menu
    | Intro
    | Memorize
    | Play
    | Success
    | Failure
    | LevelComplete
    | GameOver
    | Victory

  datatype Difficulty = Mortal | Demon | Infernal

  /** The tuning of one difficulty tier; times are in milliseconds. */
  datatype DifficultyConfig = DifficultyConfig(
    name: string,
    description: string,
    startingSymbols: int,
    maxSymbols: int,
    symbolsPerLevel: int,
    memorizeTime: int,
    playTime: int,
    lives: int,
    scoreMultiplier: int)

  /** The session record the controller replaces on every change. */
  datatype GameState = GameState(
    phase: GamePhase,
    level: int,
    score: int,
    lives: int,
    difficulty: Difficulty,
    sequence: seq<DemonSymbol>,
    playerSequence: seq<DemonSymbol>,
    currentSymbolIndex: int,
    showingSymbol: bool,
    timeRemaining: int,
    combo: int,
    maxCombo: int,
    totalChainsBreak: int,
    isShaking: bool)

  /** The aggregate statistics that survive across sessions. */
  datatype GameStats = GameStats(
    highScore: int,
    maxLevel: int,
    totalGamesPlayed: int,
    totalChainsBreak: int,
    bestCombo: int)

  /** The twelve symbols, in catalog order; a level's pool is a prefix. */
  const DemonSymbols: seq<DemonSymbol> := [
    DemonSymbol("skull", "\U{1F480}", "Skull", "#ff4444"),
    DemonSymbol("fire", "\U{1F525}", "Hellfire", "#ff6600"),
    DemonSymbol("chain", "\U{26D3}\U{FE0F}", "Chain", "#888888"),
    DemonSymbol("eye", "\U{1F441}\U{FE0F}", "Obsidian Gaze", "#aa44ff"),
    DemonSymbol("crown", "\U{1F451}", "Crown", "#ffcc00"),
    DemonSymbol("moon", "\U{1F319}", "Dark Moon", "#6644ff"),
    DemonSymbol("star", "\U{2B50}", "Fallen Star", "#ffaa00"),
    DemonSymbol("bolt", "\U{26A1}", "Lightning", "#ffff00"),
    DemonSymbol("spider", "\U{1F577}\U{FE0F}", "Spider", "#ff0066"),
    DemonSymbol("bat", "\U{1F987}", "Bat", "#9933ff"),
    DemonSymbol("snake", "\U{1F40D}", "Serpent", "#00ff66"),
    DemonSymbol("diamond", "\U{1F48E}", "Blood Diamond", "#ff0044")
  ]

  /** The difficulty table. Every tier shows at least one symbol, never more
      than the catalog holds, gains exactly one symbol per level, starts with
      at least two lives and multiplies scores by at least one. */
  function Config(d: Difficulty): (c: DifficultyConfig)
    ensures 1 <= c.startingSymbols <= c.maxSymbols <= |DemonSymbols|
    ensures c.symbolsPerLevel == 1
    ensures c.lives >= 2 && c.scoreMultiplier >= 1
    ensures c.memorizeTime > 0 && c.playTime > 0
    ensures d == Mortal ==> c.lives == 5 && c.scoreMultiplier == 1
    ensures d == Demon ==> c.lives == 3 && c.scoreMultiplier == 2
    ensures d == Infernal ==> c.lives == 2 && c.scoreMultiplier == 3
  {
    match d
    case Mortal =>
      DifficultyConfig("Mortal", "For those who still fear the dark",
        3, 6, 1, 3000, 10000, 5, 1)
    case Demon =>
      DifficultyConfig("Demon", "Embrace the hellfire within",
        4, 9, 1, 2500, 8000, 3, 2)
    case Infernal =>
      DifficultyConfig("Infernal", "True darkness awaits",
        5, 12, 1, 2000, 6000, 2, 3)
  }

  /** No two catalog entries share an id. */
  lemma CatalogIdsDistinct()
    ensures |DemonSymbols| == 12
    ensures forall i, j :: 0 <= i < j < |DemonSymbols| ==> DemonSymbols[i].id != DemonSymbols[j].id
  {
  }

  /** Hence, among catalog symbols, comparing by id is comparing the symbols. */
  lemma SameIdSameSymbol(a: DemonSymbol, b: DemonSymbol)
    requires a in DemonSymbols && b in DemonSymbols
    ensures a.id == b.id <==> a == b
  {
    CatalogIdsDistinct();
    var i :| 0 <= i < |DemonSymbols| && DemonSymbols[i] == a;
    var j :| 0 <= j < |DemonSymbols| && DemonSymbols[j] == b;
    if i < j {
      assert a.id != b.id;
    } else if j < i {
      assert b.id != a.id;
    }
  }
}
