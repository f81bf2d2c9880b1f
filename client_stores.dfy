/**
 * The two smaller client stores: the authentication store (user, token
 * and the signed-in flag) and a game store holding the settings, the
 * running score and lives, the session id and the list of answered
 * question ids.
 */
module ClientStores {
  import opened Base
  import opened SharedTypes

  class AuthStore {
    var user: Option<User>
    var token: Option<string>
    var isAuthenticated: bool

    constructor ()
      ensures user.None? && token.None? && !isAuthenticated
    {
      user, token, isAuthenticated := None, None, false;
    }

    /** Storing a user counts as signing in. */
    method SetUser(u: User)
      modifies this`user, this`isAuthenticated
      ensures user == Some(u) && isAuthenticated
    {
      user, isAuthenticated := Some(u), true;
    }

    /** Storing a token leaves the signed-in flag alone. */
    method SetToken(t: string)
      modifies this`token
      ensures token == Some(t)
    {
      token := Some(t);
    }

    method Logout()
      modifies this
      ensures user.None? && token.None? && !isAuthenticated
    {
      user, token, isAuthenticated := None, None, false;
    }
  }

  const DefaultSettings: GameSettings := GameSettings(Normal, Ashkenazi, true, true)

  class GameStore {
    var settings: GameSettings
    var currentScore: int
    var lives: int
    var sessionId: Option<SessionId>
    var questionsAnswered: seq<QuestionId>
    var isGameActive: bool

    constructor ()
      ensures settings == DefaultSettings
      ensures currentScore == 0 && lives == 3 && sessionId.None? && questionsAnswered == [] && !isGameActive
    {
      settings := DefaultSettings;
      currentScore, lives, sessionId, questionsAnswered, isGameActive := 0, 3, None, [], false;
    }

    /** `{ ...state.settings, ...newSettings }`. */
    method SetSettings(patch: PartialSettings)
      modifies this`settings
      ensures settings == MergeSettings(old(settings), patch)
    {
      settings := MergeSettings(settings, patch);
    }

    method SetCurrentScore(score: int)
      modifies this`currentScore
      ensures currentScore == score
    {
      currentScore := score;
    }

    method SetLives(n: int)
      modifies this`lives
      ensures lives == n
    {
      lives := n;
    }

    method SetSessionId(id: Option<SessionId>)
      modifies this`sessionId
      ensures sessionId == id
    {
      sessionId := id;
    }

    /** Appends the id at the end: one entry more, the earlier ones unchanged. */
    method AddAnsweredQuestion(questionId: QuestionId)
      modifies this`questionsAnswered
      ensures questionsAnswered == old(questionsAnswered) + [questionId]
      ensures |questionsAnswered| == |old(questionsAnswered)| + 1
      ensures questionsAnswered[..|old(questionsAnswered)|] == old(questionsAnswered)
    {
      questionsAnswered := questionsAnswered + [questionId];
    }

    method SetGameActive(active: bool)
      modifies this`isGameActive
      ensures isGameActive == active
    {
      isGameActive := active;
    }

    /** Clears the game; the settings are not part of it. */
    method ResetGame()
      modifies this`currentScore, this`lives, this`sessionId, this`questionsAnswered, this`isGameActive
      ensures currentScore == 0 && lives == INITIAL_LIVES && sessionId.None? && questionsAnswered == [] && !isGameActive
    {
      currentScore, lives, sessionId, questionsAnswered, isGameActive := 0, 3, None, [], false;
    }
  }
}
