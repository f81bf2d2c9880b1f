/**
 * The client's main game store: the signed-in user and token, the running
 * game as the screens see it, the player's settings and the loading/error
 * flags. Each action replaces a few fields; only the user, the token and
 * the settings are written to storage.
 */
module ClientGameStore {
  import opened Base
  import opened SharedTypes
  import opened SharedUtils

  const InitialSettings: GameSettings := GameSettings(Normal, Ashkenazi, true, true)

  /** All fields of the store at one moment. */
  datatype Snapshot = Snapshot(
    user: Option<User>,
    token: Option<string>,
    currentSession: Option<GameSession>,
    currentQuestion: Option<Question>,
    score: int,
    lives: int,
    timeLeft: int,
    isGameActive: bool,
    gameSettings: GameSettings,
    isLoading: bool,
    error: Option<string>)

  /** The part `partialize` hands to storage. */
  datatype Persisted = Persisted(user: Option<User>, token: Option<string>, gameSettings: GameSettings)

  class GameStore {
    var user: Option<User>
    var token: Option<string>
    var currentSession: Option<GameSession>
    var currentQuestion: Option<Question>
    var score: int
    var lives: int
    var timeLeft: int
    var isGameActive: bool
    var gameSettings: GameSettings
    var isLoading: bool
    var error: Option<string>

    function State(): Snapshot
      reads this
    {
      Snapshot(user, token, currentSession, currentQuestion, score, lives, timeLeft, isGameActive,
               gameSettings, isLoading, error)
    }

    /** `partialize`: only the user, the token and the settings survive a restart. */
    function Stored(): (p: Persisted)
      reads this
      ensures p.user == user && p.token == token && p.gameSettings == gameSettings
    {
      Persisted(user, token, gameSettings)
    }

    /** The initial state: nobody signed in, no game, three lives, ten seconds, default settings. */
    constructor ()
      ensures State() == Snapshot(None, None, None, None, 0, 3, 10, false, InitialSettings, false, None)
    {
      user, token, currentSession, currentQuestion := None, None, None, None;
      score, lives, timeLeft, isGameActive := 0, 3, 10, false;
      gameSettings, isLoading, error := InitialSettings, false, None;
    }

    method SetUser(u: Option<User>)
      modifies this`user
      ensures user == u
    {
      user := u;
    }

    method SetToken(t: Option<string>)
      modifies this`token
      ensures token == t
    {
      token := t;
    }

    method SetCurrentSession(s: Option<GameSession>)
      modifies this`currentSession
      ensures currentSession == s
    {
      currentSession := s;
    }

    method SetCurrentQuestion(q: Option<Question>)
      modifies this`currentQuestion
      ensures currentQuestion == q
    {
      currentQuestion := q;
    }

    method SetScore(s: int)
      modifies this`score
      ensures score == s
    {
      score := s;
    }

    method SetLives(n: int)
      modifies this`lives
      ensures lives == n
    {
      lives := n;
    }

    method SetTimeLeft(t: int)
      modifies this`timeLeft
      ensures timeLeft == t
    {
      timeLeft := t;
    }

    method SetIsGameActive(active: bool)
      modifies this`isGameActive
      ensures isGameActive == active
    {
      isGameActive := active;
    }

    /** `{ ...gameSettings, ...settings }`: the keys given overwrite, the others stay. */
    method SetGameSettings(patch: PartialSettings)
      modifies this`gameSettings
      ensures gameSettings == MergeSettings(old(gameSettings), patch)
      ensures patch == NoChanges ==> gameSettings == old(gameSettings)
    {
      gameSettings := MergeSettings(gameSettings, patch);
      MergeLaws(old(gameSettings), patch, patch);
    }

    method SetLoading(loading: bool)
      modifies this`isLoading
      ensures isLoading == loading
    {
      isLoading := loading;
    }

    method SetError(e: Option<string>)
      modifies this`error
      ensures error == e
    {
      error := e;
    }

    /** Clears the game and starts the clock at the chosen difficulty's limit;
        user, token, settings and the loading flag stay. */
    method ResetGame()
      modifies this
      ensures State() == old(State()).(currentSession := None, currentQuestion := None, score := 0, lives := 3,
                                       timeLeft := GetTimeLimit(old(gameSettings).difficulty),
                                       isGameActive := false, error := None)
      ensures timeLeft == if gameSettings.difficulty == Fast then FAST_TIME_LIMIT else NORMAL_TIME_LIMIT
      ensures lives == INITIAL_LIVES
      ensures Stored() == old(Stored())
    {
      var limit := if gameSettings.difficulty == Fast then 5 else 10;
      currentSession, currentQuestion := None, None;
      score, lives, timeLeft := 0, 3, limit;
      isGameActive, error := false, None;
    }

    /** Signs out and clears the game, but keeps the settings; the clock goes back to ten seconds. */
    method Logout()
      modifies this
      ensures State() == old(State()).(user := None, token := None, currentSession := None, currentQuestion := None,
                                       score := 0, lives := 3, timeLeft := 10, isGameActive := false, error := None)
      ensures Stored() == Persisted(None, None, old(gameSettings))
    {
      user, token := None, None;
      currentSession, currentQuestion := None, None;
      score, lives, timeLeft := 0, 3, 10;
      isGameActive, error := false, None;
    }
  }

  /** A reset right after a logout finds the same cleared game, now timed by the settings. */
  method LogoutThenReset(store: GameStore)
    modifies store
    ensures store.user.None? && store.token.None? && !store.isGameActive
    ensures store.gameSettings == old(store.gameSettings)
    ensures store.timeLeft == GetTimeLimit(store.gameSettings.difficulty)
  {
    store.Logout();
    store.ResetGame();
  }
}
