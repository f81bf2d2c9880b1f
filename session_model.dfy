/**
 * The GameSession schema as a record, the validity predicate that `save()`
 * enforces, and the value a freshly constructed document takes from the
 * schema defaults and setters.
 */
module SessionModel {
  import opened Base

  /** One game, as stored. */
  datatype Session = Session(
    userId: UserId,
    username: string,
    score: int,
    lives: int,
    currentQuestion: int,
    questionsAnswered: seq<QuestionId>,
    correctAnswers: int,
    startTime: Time,
    endTime: Option<Time>,
    isActive: bool,
    finalScore: Option<int>)

  const MaxLives: int := 10
  const DefaultLives: int := 3

  /** What the schema's validators accept on `save()`. */
  predicate ValidSession(s: Session) {
    && s.username != ""
    && s.score >= 0
    && 0 <= s.lives <= MaxLives
    && s.currentQuestion >= 0
    && s.correctAnswers >= 0
    && (s.finalScore.Some? ==> s.finalScore.value >= 0)
  }

  /** `new GameSession({ userId, username })`: every other field from its default. */
  function WithDefaults(userId: UserId, username: string, now: Time): Session {
    Session(userId, username, 0, DefaultLives, 0, [], 0, now, None, true, None)
  }

  lemma DefaultsAreValid(userId: UserId, username: string, now: Time)
    requires username != ""
    ensures var s := WithDefaults(userId, username, now);
      && ValidSession(s)
      && s.score == 0 && s.currentQuestion == 0 && s.correctAnswers == 0 && s.lives == 3
      && s.isActive && s.finalScore.None? && s.endTime.None?
  {
  }

  /** Both required fields are checked: an empty username is refused. */
  lemma UsernameRequired(s: Session)
    requires s.username == ""
    ensures !ValidSession(s)
  {
  }
}
