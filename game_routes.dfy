/**
 * The game-session state machine behind `/start`, `/current`, `/answer`
 * and `/end`. The field updates a handler makes to one session or one user
 * record are pure functions here (with their properties proved as lemmas);
 * the handlers are methods that read the loaded records, update them step
 * by step as the routes do, and write them back into the database.
 */
module GameRoutes {
  import opened Base
  import SharedTypes
  import opened SessionModel
  import opened UserModel
  import opened QuestionModel
  import opened Database

  datatype GameError = UserNotFound | NoActiveGame | SessionNotFound | QuestionNotFound | ServerError

  datatype StartData = StartData(sessionId: SessionId, lives: int, score: int, currentQuestion: int)

  datatype CurrentData = CurrentData(
    sessionId: SessionId,
    lives: int,
    score: int,
    currentQuestion: int,
    correctAnswers: int,
    questionsAnswered: seq<QuestionId>)

  datatype AnswerData = AnswerData(
    isCorrect: bool,
    correctAnswer: int,
    lives: int,
    score: int,
    gameOver: bool,
    finalScore: Option<int>,
    bonusLife: bool)

  datatype EndData = EndData(finalScore: int, correctAnswers: int, totalQuestions: int)

  // ---------------------------------------------------------------- session and user updates

  /** The session `/start` creates. */
  function FreshSession(userId: UserId, username: string, now: Time): Session {
    Session(userId, username, 0, 3, 0, [], 0, now, None, true, None)
  }

  /** The new session is the schema's default one, with the shared initial lives. */
  lemma FreshSessionIsDefault(userId: UserId, username: string, now: Time)
    requires username != ""
    ensures FreshSession(userId, username, now) == SessionModel.WithDefaults(userId, username, now)
    ensures FreshSession(userId, username, now).lives == SharedTypes.INITIAL_LIVES
    ensures SessionConsistent(FreshSession(userId, username, now))
  {
  }

  /** What `updateMany({ userId, isActive: true }, { isActive: false, endTime })` writes. */
  function Closed(s: Session, now: Time): Session {
    s.(isActive := false, endTime := Some(now))
  }

  /** `/start`'s first step: every active session of the player is closed; nothing else changes. */
  function CloseActive(sessions: map<SessionId, Session>, userId: UserId, now: Time): (r: map<SessionId, Session>)
    ensures r.Keys == sessions.Keys
    ensures ActiveSessionsOf(r, userId) == {}
    ensures forall id :: id in sessions && id in ActiveSessionsOf(sessions, userId) ==>
      r[id] == Closed(sessions[id], now) && r[id].finalScore == sessions[id].finalScore
    ensures forall id :: id in sessions && id !in ActiveSessionsOf(sessions, userId) ==> r[id] == sessions[id]
  {
    map id | id in sessions ::
      if sessions[id].userId == userId && sessions[id].isActive then Closed(sessions[id], now) else sessions[id]
  }

  /** `selectedAnswer === question.correctAnswer`. */
  function IsCorrect(selected: int, q: Question): bool {
    selected == q.correctAnswer
  }

  /** The time-out sentinel -1 can never be right, because a stored answer index lies in 0..3. */
  lemma TimeUpIsWrong(q: Question)
    requires ValidQuestion(q)
    ensures !IsCorrect(-1, q)
  {
  }

  /** One processed answer: the question is recorded, the counter advances, and a correct
      answer scores (with a bonus life on every 50th) while a wrong one costs a life. */
  function Answered(s: Session, questionId: QuestionId, correct: bool): (r: Session)
    ensures r.questionsAnswered == s.questionsAnswered + [questionId]
    ensures r.currentQuestion == s.currentQuestion + 1
    ensures r.score - s.score == r.correctAnswers - s.correctAnswers == (if correct then 1 else 0)
    ensures correct ==> r.lives == s.lives + (if r.correctAnswers % SharedTypes.BONUS_LIFE_THRESHOLD == 0 then 1 else 0)
    ensures !correct ==> r.lives == s.lives - 1
    ensures r.userId == s.userId && r.username == s.username && r.startTime == s.startTime
    ensures r.isActive == s.isActive && r.endTime == s.endTime && r.finalScore == s.finalScore
  {
    var s1 := s.(questionsAnswered := s.questionsAnswered + [questionId], currentQuestion := s.currentQuestion + 1);
    if correct then
      var s2 := s1.(score := s1.score + 1, correctAnswers := s1.correctAnswers + 1);
      if s2.correctAnswers % 50 == 0 then s2.(lives := s2.lives + 1) else s2
    else
      s1.(lives := s1.lives - 1)
  }

  /** The finalisation `/answer` (on game over) and `/end` perform on the session. */
  function Finalised(s: Session, now: Time): (r: Session)
    ensures !r.isActive && r.endTime == Some(now) && r.finalScore == Some(s.score)
    ensures r.(isActive := s.isActive, endTime := s.endTime, finalScore := s.finalScore) == s
  {
    s.(isActive := false, endTime := Some(now), finalScore := Some(s.score))
  }

  /** The session `/answer` saves: the answer applied, then finalised if no life is left. */
  function AfterAnswer(s: Session, questionId: QuestionId, correct: bool, now: Time): (r: Session)
    ensures s.isActive ==> (r.isActive <==> Answered(s, questionId, correct).lives > 0)
    ensures !r.isActive && s.isActive ==> r.finalScore == Some(r.score)
  {
    var a := Answered(s, questionId, correct);
    if a.lives <= 0 then Finalised(a, now) else a
  }

  /** The roll-up of a finished session into the player's totals. */
  function RolledUp(u: User, s: Session): (r: User)
    ensures r.gamesPlayed == u.gamesPlayed + 1
    ensures r.correctAnswers == u.correctAnswers + s.correctAnswers
    ensures r.highScore >= u.highScore && r.highScore >= s.score
    ensures r.highScore == u.highScore || r.highScore == s.score
    ensures r.score == s.score
    ensures r.username == u.username && r.email == u.email && r.isAdmin == u.isAdmin
  {
    var v := u.(gamesPlayed := u.gamesPlayed + 1, correctAnswers := u.correctAnswers + s.correctAnswers);
    var w := if s.score > v.highScore then v.(highScore := s.score) else v;
    w.(score := s.score)
  }

  /** After an answer to an active game, no life left and finished coincide. */
  lemma GameOverIffNoLives(s: Session, questionId: QuestionId, correct: bool, now: Time)
    requires SessionConsistent(s) && s.isActive
    ensures var r := AfterAnswer(s, questionId, correct, now);
      (!r.isActive <==> r.lives <= 0) && (!r.isActive ==> r.lives == 0 && r.finalScore == Some(r.score))
  {
  }

  /** The answered session passes the schema, except in one case: a bonus life that would take
      a full ten lives to eleven. Whenever it passes, the consistency of the session is kept. */
  lemma AnswerKeepsConsistency(s: Session, questionId: QuestionId, correct: bool, now: Time)
    requires SessionConsistent(s) && s.isActive
    ensures var r := AfterAnswer(s, questionId, correct, now);
      && (!ValidSession(r) <==> correct && (s.correctAnswers + 1) % 50 == 0 && s.lives == MaxLives)
      && (ValidSession(r) ==> SessionConsistent(r))
  {
  }

  /** The `bonusLife` flag of the reply is set exactly when the answer gained a life. */
  lemma BonusFlagIffExtraLife(s: Session, questionId: QuestionId, correct: bool, now: Time, q: Question)
    requires SessionConsistent(s) && s.isActive
    ensures var saved := AfterAnswer(s, questionId, correct, now);
      AnswerReply(correct, q, saved).bonusLife <==> saved.lives == s.lives + 1
  {
  }

  /** Rolling a consistent finished session into a valid user keeps the user valid. */
  lemma RollUpKeepsUserValid(u: User, s: Session)
    requires ValidUser(u) && SessionConsistent(s)
    ensures ValidUser(RolledUp(u, s))
  {
  }

  // ---------------------------------------------------------------- a run of answers

  /** The answers of a run, each a question and whether it was answered correctly. */
  function Replay(s: Session, answers: seq<(QuestionId, bool)>): Session
    decreases |answers|
  {
    if answers == [] then s else Replay(Answered(s, answers[0].0, answers[0].1), answers[1..])
  }

  function CountCorrect(answers: seq<(QuestionId, bool)>): (k: nat)
    ensures k <= |answers|
  {
    if answers == [] then 0 else (if answers[0].1 then 1 else 0) + CountCorrect(answers[1..])
  }

  function QuestionIds(answers: seq<(QuestionId, bool)>): (ids: seq<QuestionId>)
    ensures |ids| == |answers|
  {
    if answers == [] then [] else [answers[0].0] + QuestionIds(answers[1..])
  }

  /** The bonus of one correct answer is the step of the count of completed fifties. */
  lemma BonusStep(c: int)
    requires c >= 0
    ensures (c + 1) / 50 - c / 50 == if (c + 1) % 50 == 0 then 1 else 0
  {
  }

  /** After N answers of which K are correct: the score and correct count grew by K, the
      questions were recorded in order, and the lives lost one per wrong answer and gained
      one per multiple of 50 that the correct count passed. */
  lemma ReplayTotals(s: Session, answers: seq<(QuestionId, bool)>)
    requires s.correctAnswers >= 0
    ensures var r := Replay(s, answers); var k := CountCorrect(answers);
      && r.score == s.score + k
      && r.correctAnswers == s.correctAnswers + k
      && r.questionsAnswered == s.questionsAnswered + QuestionIds(answers)
      && r.currentQuestion == s.currentQuestion + |answers|
      && r.lives == s.lives - (|answers| - k) + ((s.correctAnswers + k) / 50 - s.correctAnswers / 50)
  {
    ReplayCounts(s, answers);
    ReplayLives(s, answers);
  }

  lemma {:induction false} ReplayCounts(s: Session, answers: seq<(QuestionId, bool)>)
    decreases |answers|
    ensures var r := Replay(s, answers); var k := CountCorrect(answers);
      && r.score == s.score + k
      && r.correctAnswers == s.correctAnswers + k
      && r.questionsAnswered == s.questionsAnswered + QuestionIds(answers)
      && r.currentQuestion == s.currentQuestion + |answers|
  {
    if answers != [] {
      var rest := answers[1..];
      ReplayCounts(Answered(s, answers[0].0, answers[0].1), rest);
      assert s.questionsAnswered + QuestionIds(answers)
          == (s.questionsAnswered + [answers[0].0]) + QuestionIds(rest);
    }
  }

  lemma {:induction false} ReplayLives(s: Session, answers: seq<(QuestionId, bool)>)
    requires s.correctAnswers >= 0
    decreases |answers|
    ensures var k := CountCorrect(answers);
      Replay(s, answers).lives == s.lives - (|answers| - k) + ((s.correctAnswers + k) / 50 - s.correctAnswers / 50)
  {
    if answers != [] {
      var a := Answered(s, answers[0].0, answers[0].1);
      var rest := answers[1..];
      ReplayLives(a, rest);
      var c := s.correctAnswers;
      var k := CountCorrect(rest);
      if answers[0].1 {
        BonusStep(c);
        assert a.lives == s.lives + ((c + 1) / 50 - c / 50);
        assert a.correctAnswers == c + 1;
        assert CountCorrect(answers) == k + 1;
      } else {
        assert a.lives == s.lives - 1;
        assert a.correctAnswers == c;
        assert CountCorrect(answers) == k;
      }
    }
  }

  /** Fifty correct answers in a row from a new game: score 50 and four lives. */
  lemma FiftyCorrectEarnAFourthLife(userId: UserId, username: string, now: Time, ids: seq<QuestionId>)
    requires |ids| == 50
    ensures var answers := seq(50, i requires 0 <= i < 50 => (ids[i], true));
      var r := Replay(FreshSession(userId, username, now), answers);
      r.lives == 4 && r.score == 50 && r.questionsAnswered == ids
  {
    var answers := seq(50, i requires 0 <= i < 50 => (ids[i], true));
    assert CountCorrect(answers) == 50 by { AllCorrect(answers); }
    assert QuestionIds(answers) == ids by { IdsOf(answers, ids); }
    ReplayTotals(FreshSession(userId, username, now), answers);
  }

  lemma {:induction false} AllCorrect(answers: seq<(QuestionId, bool)>)
    requires forall i :: 0 <= i < |answers| ==> answers[i].1
    ensures CountCorrect(answers) == |answers|
  {
    if answers != [] {
      AllCorrect(answers[1..]);
    }
  }

  lemma {:induction false} IdsOf(answers: seq<(QuestionId, bool)>, ids: seq<QuestionId>)
    requires |answers| == |ids| && forall i :: 0 <= i < |ids| ==> answers[i].0 == ids[i]
    ensures QuestionIds(answers) == ids
  {
    if answers != [] {
      IdsOf(answers[1..], ids[1..]);
    }
  }

  /** Three wrong answers from a new game: lives 3, 2, 1, then the third ends it with final score 0. */
  lemma ThreeWrongEndTheGame(userId: UserId, username: string, now: Time, q1: QuestionId, q2: QuestionId, q3: QuestionId)
    ensures var s1 := AfterAnswer(FreshSession(userId, username, now), q1, false, now);
      var s2 := AfterAnswer(s1, q2, false, now);
      var s3 := AfterAnswer(s2, q3, false, now);
      && s1.isActive && s1.lives == 2
      && s2.isActive && s2.lives == 1
      && !s3.isActive && s3.lives == 0 && s3.finalScore == Some(0)
  {
  }

  // ---------------------------------------------------------------- handlers

  /** The `findOne({ _id, userId, isActive: true })` filter of `/answer` and `/end`. */
  predicate Owned(sessions: map<SessionId, Session>, sessionId: SessionId, userId: UserId) {
    sessionId in sessions && sessions[sessionId].userId == userId && sessions[sessionId].isActive
  }

  /** Closing sessions keeps every collection consistent. */
  lemma CloseActiveKeepsConsistency(users: map<UserId, User>, sessions: map<SessionId, Session>, userId: UserId, now: Time)
    requires SessionsConsistent(users, sessions)
    ensures SessionsConsistent(users, CloseActive(sessions, userId, now))
  {
    var after := CloseActive(sessions, userId, now);
    forall id | id in after ensures SessionConsistent(after[id]) && after[id].userId in users {
      assert id in sessions;
    }
    forall a, b | a in after && b in after && after[a].isActive && after[b].isActive && after[a].userId == after[b].userId
      ensures a == b
    {
      assert after[a] == sessions[a] && after[b] == sessions[b];
    }
  }

  /** Adding a new active session for a player without one. */
  lemma AddSessionKeepsConsistency(users: map<UserId, User>, sessions: map<SessionId, Session>, id: SessionId, s: Session)
    requires SessionsConsistent(users, sessions) && id !in sessions
    requires SessionConsistent(s) && s.userId in users && s.isActive
    requires ActiveSessionsOf(sessions, s.userId) == {}
    ensures SessionsConsistent(users, sessions[id := s])
    ensures ActiveSessionsOf(sessions[id := s], s.userId) == {id}
  {
    PutSessionKeepsConsistency(users, sessions, id, s);
    var after := sessions[id := s];
    forall a | a in ActiveSessionsOf(after, s.userId) ensures a == id {
      assert a != id ==> a in ActiveSessionsOf(sessions, s.userId);
    }
  }

  /** POST /start. */
  method Start(db: Db, userId: UserId, now: Time) returns (r: Result<StartData, GameError>)
    requires db.Valid()
    modifies db
    ensures db.Valid()
    ensures db.users == old(db.users) && db.questions == old(db.questions)
    ensures r.Err? <==> userId !in db.users
    ensures r.Err? ==> r.error == UserNotFound && db.sessions == CloseActive(old(db.sessions), userId, now)
    ensures r.Ok? ==>
      && r.value == StartData(r.value.sessionId, 3, 0, 0)
      && r.value.sessionId !in old(db.sessions)
      && db.sessions == CloseActive(old(db.sessions), userId, now)
                          [r.value.sessionId := FreshSession(userId, db.users[userId].username, now)]
    ensures ActiveSessionsOf(db.sessions, userId) == if r.Ok? then {r.value.sessionId} else {}
  {
    CloseActiveKeepsConsistency(db.users, db.sessions, userId, now);
    db.sessions := CloseActive(db.sessions, userId, now);
    if userId !in db.users {
      r := Err(UserNotFound);
      return;
    }
    var user := db.users[userId];
    FreshIdExists(db.sessions.Keys);
    var id :| id !in db.sessions;
    var gameSession := FreshSession(userId, user.username, now);
    AddSessionKeepsConsistency(db.users, db.sessions, id, gameSession);
    db.sessions := db.sessions[id := gameSession];
    r := Ok(StartData(id, gameSession.lives, gameSession.score, gameSession.currentQuestion));
  }

  /** The fields of a session that `/current` reports. */
  function View(id: SessionId, s: Session): CurrentData {
    CurrentData(id, s.lives, s.score, s.currentQuestion, s.correctAnswers, s.questionsAnswered)
  }

  /** GET /current: the player's active session, if any. */
  method Current(db: Db, userId: UserId) returns (r: Result<CurrentData, GameError>)
    requires db.Valid()
    ensures r.Err? <==> ActiveSessionsOf(db.sessions, userId) == {}
    ensures r.Err? ==> r.error == NoActiveGame
    ensures r.Ok? ==>
      && ActiveSessionsOf(db.sessions, userId) == {r.value.sessionId}
      && r.value == View(r.value.sessionId, db.sessions[r.value.sessionId])
  {
    if exists id :: id in db.sessions && db.sessions[id].userId == userId && db.sessions[id].isActive {
      var id :| id in db.sessions && db.sessions[id].userId == userId && db.sessions[id].isActive;
      ActiveSessionUnique(db.sessions, userId, id);
      r := Ok(View(id, db.sessions[id]));
    } else {
      assert ActiveSessionsOf(db.sessions, userId) == {};
      r := Err(NoActiveGame);
    }
  }

  /** The updates `/answer` makes to the loaded session: record the question, count it, score a
      correct answer (with a bonus life on every fiftieth) or take a life, and finish the game
      when no life is left. */
  method RecordAnswer(loaded: Session, questionId: QuestionId, isCorrect: bool, now: Time) returns (gameSession: Session)
    ensures gameSession == AfterAnswer(loaded, questionId, isCorrect, now)
  {
    gameSession := loaded.(questionsAnswered := loaded.questionsAnswered + [questionId]);
    gameSession := gameSession.(currentQuestion := gameSession.currentQuestion + 1);
    if isCorrect {
      gameSession := gameSession.(score := gameSession.score + 1);
      gameSession := gameSession.(correctAnswers := gameSession.correctAnswers + 1);
      if gameSession.correctAnswers % 50 == 0 {
        gameSession := gameSession.(lives := gameSession.lives + 1);
      }
    } else {
      gameSession := gameSession.(lives := gameSession.lives - 1);
    }
    assert gameSession == Answered(loaded, questionId, isCorrect);
    if gameSession.lives <= 0 {
      gameSession := gameSession.(isActive := false);
      gameSession := gameSession.(endTime := Some(now));
      gameSession := gameSession.(finalScore := Some(gameSession.score));
    }
  }

  /** The updates to the player's document when a game finishes. */
  method RollUp(loaded: User, gameSession: Session) returns (user: User)
    ensures user == RolledUp(loaded, gameSession)
  {
    user := loaded.(gamesPlayed := loaded.gamesPlayed + 1);
    user := user.(correctAnswers := user.correctAnswers + gameSession.correctAnswers);
    if gameSession.score > user.highScore {
      user := user.(highScore := gameSession.score);
    }
    user := user.(score := gameSession.score);
  }

  /** The response `/answer` sends for the saved session. */
  function AnswerReply(correct: bool, q: Question, s: Session): AnswerData {
    AnswerData(correct, q.correctAnswer, s.lives, s.score, !s.isActive, s.finalScore,
               correct && s.correctAnswers % 50 == 0)
  }

  /** POST /answer. */
  method Answer(db: Db, userId: UserId, sessionId: SessionId, questionId: QuestionId, selectedAnswer: int, now: Time)
    returns (r: Result<AnswerData, GameError>)
    requires db.Valid()
    modifies db
    ensures db.Valid()
    ensures db.questions == old(db.questions)
    ensures !Owned(old(db.sessions), sessionId, userId) ==> r == Err(SessionNotFound) && unchanged(db)
    ensures Owned(old(db.sessions), sessionId, userId) && questionId !in db.questions ==>
      r == Err(QuestionNotFound) && unchanged(db)
    ensures Owned(old(db.sessions), sessionId, userId) && questionId in db.questions ==>
      var q := db.questions[questionId];
      var correct := IsCorrect(selectedAnswer, q);
      var saved := AfterAnswer(old(db.sessions)[sessionId], questionId, correct, now);
      if !ValidSession(saved) then
        r == Err(ServerError) && unchanged(db)
      else
        && r == Ok(AnswerReply(correct, q, saved))
        && db.sessions == old(db.sessions)[sessionId := saved]
        && db.users == if saved.isActive then old(db.users)
                       else old(db.users)[userId := RolledUp(old(db.users)[userId], saved)]
  {
    if !(sessionId in db.sessions && db.sessions[sessionId].userId == userId && db.sessions[sessionId].isActive) {
      r := Err(SessionNotFound);
      return;
    }
    var gameSession := db.sessions[sessionId];
    if questionId !in db.questions {
      r := Err(QuestionNotFound);
      return;
    }
    var question := db.questions[questionId];
    var isCorrect := selectedAnswer == question.correctAnswer;
    ghost var loaded := gameSession;
    ghost var users := db.users;
    assert loaded == old(db.sessions)[sessionId] && users == old(db.users) && question == old(db.questions)[questionId];
    AnswerKeepsConsistency(loaded, questionId, isCorrect, now);
    gameSession := RecordAnswer(gameSession, questionId, isCorrect, now);
    if !gameSession.isActive {
      // `if (user)`: the owner of a stored session is always stored, so the lookup succeeds
      assert userId in db.users;
      var user := RollUp(db.users[userId], gameSession);
      RollUpKeepsUserValid(db.users[userId], gameSession);
      PutUserKeepsConsistency(db.users, db.sessions, userId, user);
      db.users := db.users[userId := user];
    }
    assert db.users == if gameSession.isActive then users else users[userId := RolledUp(users[userId], gameSession)];

    // save(): the schema validators run here
    if !ValidSession(gameSession) {
      r := Err(ServerError);
      return;
    }
    PutSessionKeepsConsistency(db.users, db.sessions, sessionId, gameSession);
    db.sessions := db.sessions[sessionId := gameSession];
    r := Ok(AnswerReply(isCorrect, question, gameSession));
  }

  /** POST /end. */
  method End(db: Db, userId: UserId, sessionId: SessionId, now: Time) returns (r: Result<EndData, GameError>)
    requires db.Valid()
    modifies db
    ensures db.Valid()
    ensures db.questions == old(db.questions)
    ensures !Owned(old(db.sessions), sessionId, userId) ==> r == Err(SessionNotFound) && unchanged(db)
    ensures Owned(old(db.sessions), sessionId, userId) ==>
      var s := old(db.sessions)[sessionId];
      var saved := Finalised(s, now);
      && r == Ok(EndData(s.score, s.correctAnswers, s.currentQuestion))
      && db.sessions == old(db.sessions)[sessionId := saved]
      && db.users == old(db.users)[userId := RolledUp(old(db.users)[userId], saved)]
  {
    if !(sessionId in db.sessions && db.sessions[sessionId].userId == userId && db.sessions[sessionId].isActive) {
      r := Err(SessionNotFound);
      return;
    }
    var gameSession := db.sessions[sessionId];
    gameSession := gameSession.(isActive := false);
    gameSession := gameSession.(endTime := Some(now));
    gameSession := gameSession.(finalScore := Some(gameSession.score));
    assert gameSession == Finalised(db.sessions[sessionId], now);
    assert SessionConsistent(gameSession);

    // `if (user)`: the owner of a stored session is always stored, so the lookup succeeds
    assert userId in db.users;
    var user := RollUp(db.users[userId], gameSession);
    RollUpKeepsUserValid(db.users[userId], gameSession);
    PutUserKeepsConsistency(db.users, db.sessions, userId, user);
    db.users := db.users[userId := user];

    PutSessionKeepsConsistency(db.users, db.sessions, sessionId, gameSession);
    db.sessions := db.sessions[sessionId := gameSession];
    r := Ok(EndData(gameSession.score, gameSession.correctAnswers, gameSession.currentQuestion));
  }

  /** A session is finalised once: ending it again, or answering in it, is refused, and the
      player's totals hold the one roll-up of the first `/end`. */
  method EndTwice(db: Db, userId: UserId, sessionId: SessionId, questionId: QuestionId, now: Time)
    returns (second: Result<EndData, GameError>, late: Result<AnswerData, GameError>)
    requires db.Valid() && Owned(db.sessions, sessionId, userId)
    modifies db
    ensures db.Valid()
    ensures second == Err(SessionNotFound) && late == Err(SessionNotFound)
    ensures !Owned(db.sessions, sessionId, userId)
    ensures db.users == old(db.users)[userId := RolledUp(old(db.users)[userId], Finalised(old(db.sessions)[sessionId], now))]
  {
    var first := End(db, userId, sessionId, now);
    second := End(db, userId, sessionId, now);
    late := Answer(db, userId, sessionId, questionId, 0, now);
  }
}
