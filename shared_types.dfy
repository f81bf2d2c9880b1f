/**
 * The types and constant tables that the client and the server share:
 * the game constants, the title table, the game settings with their
 * partial-update merge, and the records the client keeps of a user, a
 * question and a game session.
 */
module SharedTypes {
  import opened Base

  // GAME_CONSTANTS
  const INITIAL_LIVES: int := 3
  const BONUS_LIFE_THRESHOLD: int := 50
  const NORMAL_TIME_LIMIT: int := 10
  const FAST_TIME_LIMIT: int := 5
  const QUESTIONS_PER_GAME: int := 100

  /** One row of the title table: the least high score that earns the title. */
  datatype Title = Title(minScore: int, title: string)

  const TITLES: seq<Title> := [
    Title(0, "מתחיל"),
    Title(10, "חניך"),
    Title(25, "תלמיד"),
    Title(50, "בחור"),
    Title(100, "אברך"),
    Title(200, "חכם"),
    Title(500, "רב"),
    Title(1000, "גאון")
  ]

  /** A title table is usable for a threshold lookup when its thresholds strictly ascend. */
  predicate Ascending(t: seq<Title>) {
    forall i, j :: 0 <= i < j < |t| ==> t[i].minScore < t[j].minScore
  }

  lemma TitlesWellFormed()
    ensures |TITLES| == 8 && TITLES[0].minScore == 0
    ensures Ascending(TITLES)
    ensures forall i :: 0 <= i < |TITLES| ==> TITLES[i].title != ""
    ensures forall i, j :: 0 <= i < j < |TITLES| ==> TITLES[i].title != TITLES[j].title
  {
  }

  /** `GameSettings.difficulty`: two values. */
  datatype Difficulty = Normal | Fast

  /** `GameSettings.pronunciation`: two values. */
  datatype Pronunciation = Ashkenazi | Sephardic

  datatype GameSettings = GameSettings(
    difficulty: Difficulty,
    pronunciation: Pronunciation,
    soundEnabled: bool,
    animationsEnabled: bool)

  /** `Partial<GameSettings>`: each key may be absent. */
  datatype PartialSettings = PartialSettings(
    difficulty: Option<Difficulty>,
    pronunciation: Option<Pronunciation>,
    soundEnabled: Option<bool>,
    animationsEnabled: Option<bool>)

  const NoChanges: PartialSettings := PartialSettings(None, None, None, None)

  function Pick<T>(patch: Option<T>, current: T): T {
    if patch.Some? then patch.value else current
  }

  /** `{ ...base, ...patch }`: keys present in the patch overwrite, the others are kept. */
  function MergeSettings(base: GameSettings, patch: PartialSettings): GameSettings {
    GameSettings(
      Pick(patch.difficulty, base.difficulty),
      Pick(patch.pronunciation, base.pronunciation),
      Pick(patch.soundEnabled, base.soundEnabled),
      Pick(patch.animationsEnabled, base.animationsEnabled))
  }

  /** The patch that applies `second` after `first`. */
  function ThenPatch(first: PartialSettings, second: PartialSettings): PartialSettings {
    PartialSettings(
      if second.difficulty.Some? then second.difficulty else first.difficulty,
      if second.pronunciation.Some? then second.pronunciation else first.pronunciation,
      if second.soundEnabled.Some? then second.soundEnabled else first.soundEnabled,
      if second.animationsEnabled.Some? then second.animationsEnabled else first.animationsEnabled)
  }

  /** A patch fixes the keys it holds, whatever the settings were, and keeps every other key. */
  lemma MergeOverwritesOnlyGivenKeys(base: GameSettings, patch: PartialSettings)
    ensures patch.difficulty.Some? ==> MergeSettings(base, patch).difficulty == patch.difficulty.value
    ensures patch.difficulty.None? ==> MergeSettings(base, patch).difficulty == base.difficulty
    ensures patch.pronunciation.Some? ==> MergeSettings(base, patch).pronunciation == patch.pronunciation.value
    ensures patch.pronunciation.None? ==> MergeSettings(base, patch).pronunciation == base.pronunciation
    ensures patch.soundEnabled.Some? ==> MergeSettings(base, patch).soundEnabled == patch.soundEnabled.value
    ensures patch.soundEnabled.None? ==> MergeSettings(base, patch).soundEnabled == base.soundEnabled
    ensures patch.animationsEnabled.Some? ==> MergeSettings(base, patch).animationsEnabled == patch.animationsEnabled.value
    ensures patch.animationsEnabled.None? ==> MergeSettings(base, patch).animationsEnabled == base.animationsEnabled
  {
  }

  /** Merging an empty patch is the identity; merging the same patch twice is merging it once;
      two merges in a row are one merge of the combined patch. */
  lemma MergeLaws(base: GameSettings, p: PartialSettings, q: PartialSettings)
    ensures MergeSettings(base, NoChanges) == base
    ensures MergeSettings(MergeSettings(base, p), p) == MergeSettings(base, p)
    ensures MergeSettings(MergeSettings(base, p), q) == MergeSettings(base, ThenPatch(p, q))
  {
  }

  /** `Question['difficulty']`: the three question difficulties. */
  datatype QuestionDifficulty = Easy | Medium | Hard

  /** The client-side records (dates are kept as opaque times). */
  datatype User = User(
    id: UserId,
    username: string,
    email: Option<string>,
    score: int,
    highScore: int,
    gamesPlayed: int,
    correctAnswers: int,
    createdAt: Time,
    isAdmin: Option<bool>)

  datatype Question = Question(
    id: QuestionId,
    aramaic: string,
    hebrew: string,
    options: seq<string>,
    correctAnswer: int,
    audioFile: Option<string>,
    category: Option<string>,
    difficulty: Option<QuestionDifficulty>)

  datatype GameSession = GameSession(
    id: SessionId,
    userId: UserId,
    score: int,
    lives: int,
    currentQuestion: int,
    startTime: Time,
    endTime: Option<Time>,
    isActive: bool)

  datatype LeaderboardEntry = LeaderboardEntry(username: string, score: int, rank: int, title: string)
}
