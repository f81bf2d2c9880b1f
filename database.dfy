/**
 * The three MongoDB collections the server works on, held by one object,
 * and the consistency every handler keeps: each record passes its schema,
 * the unique indexes hold, and the game-session fields stay in the
 * relations the game handlers establish (one active game per player, a
 * finished game carries its final score, and so on).
 */
module Database {
  import opened Base
  import opened SessionModel
  import opened UserModel
  import opened QuestionModel

  /** What holds of every stored session besides its schema: the counters agree,
      an active game has a life left and no end, a final score is the score. */
  predicate SessionConsistent(s: Session) {
    && ValidSession(s)
    && |s.questionsAnswered| == s.currentQuestion
    && s.score == s.correctAnswers
    && (s.isActive ==> s.lives >= 1 && s.endTime.None? && s.finalScore.None?)
    && (s.finalScore.Some? ==> !s.isActive && s.finalScore.value == s.score)
  }

  /** The ids of the player's active sessions. */
  function ActiveSessionsOf(sessions: map<SessionId, Session>, userId: UserId): set<SessionId> {
    set id | id in sessions && sessions[id].userId == userId && sessions[id].isActive
  }

  predicate AtMostOneActive(sessions: map<SessionId, Session>) {
    forall a, b ::
      (a in sessions && b in sessions && sessions[a].isActive && sessions[b].isActive &&
       sessions[a].userId == sessions[b].userId) ==> a == b
  }

  predicate UsersConsistent(users: map<UserId, User>) {
    && (forall id :: id in users ==> ValidUser(users[id]))
    && UniqueUsernames(users)
    && UniqueEmails(users)
  }

  predicate SessionsConsistent(users: map<UserId, User>, sessions: map<SessionId, Session>) {
    && (forall id :: id in sessions ==> SessionConsistent(sessions[id]) && sessions[id].userId in users)
    && AtMostOneActive(sessions)
  }

  predicate QuestionsConsistent(questions: map<QuestionId, Question>) {
    forall id :: id in questions ==> ValidQuestion(questions[id])
  }

  predicate Consistent(users: map<UserId, User>, sessions: map<SessionId, Session>, questions: map<QuestionId, Question>) {
    UsersConsistent(users) && SessionsConsistent(users, sessions) && QuestionsConsistent(questions)
  }

  /** With at most one active session per player, a player has none or exactly one. */
  lemma ActiveSessionUnique(sessions: map<SessionId, Session>, userId: UserId, id: SessionId)
    requires AtMostOneActive(sessions)
    requires id in sessions && sessions[id].userId == userId && sessions[id].isActive
    ensures ActiveSessionsOf(sessions, userId) == {id}
  {
  }

  /** Storing a consistent session keeps the sessions consistent, provided an active one
      is the only active game of its player. */
  lemma PutSessionKeepsConsistency(users: map<UserId, User>, sessions: map<SessionId, Session>, id: SessionId, s: Session)
    requires SessionsConsistent(users, sessions)
    requires SessionConsistent(s) && s.userId in users
    requires s.isActive ==> ActiveSessionsOf(sessions, s.userId) <= {id}
    ensures SessionsConsistent(users, sessions[id := s])
  {
    var after := sessions[id := s];
    forall a, b | a in after && b in after && after[a].isActive && after[b].isActive && after[a].userId == after[b].userId
      ensures a == b
    {
      if a != id && b != id {
        assert sessions[a].isActive && sessions[b].isActive;
      }
      if b == id {
        assert a != id ==> a in ActiveSessionsOf(sessions, s.userId);
      }
      if a == id {
        assert b != id ==> b in ActiveSessionsOf(sessions, s.userId);
      }
    }
  }

  /** Replacing a user's counters (name and e-mail untouched) keeps both collections consistent. */
  lemma PutUserKeepsConsistency(users: map<UserId, User>, sessions: map<SessionId, Session>, id: UserId, u: User)
    requires UsersConsistent(users) && SessionsConsistent(users, sessions)
    requires id in users && ValidUser(u)
    requires u.username == users[id].username && u.email == users[id].email
    ensures UsersConsistent(users[id := u]) && SessionsConsistent(users[id := u], sessions)
  {
    var after := users[id := u];
    assert forall a :: a in after ==> ValidUser(after[a]);
    assert UniqueUsernames(after) by { SameNamesKeepUnique(users, id, u); }
    assert UniqueEmails(after) by { SameNamesKeepUnique(users, id, u); }
    assert SessionsConsistent(after, sessions) by {
      assert after.Keys == users.Keys;
    }
  }

  lemma SameNamesKeepUnique(users: map<UserId, User>, id: UserId, u: User)
    requires UniqueUsernames(users) && UniqueEmails(users)
    requires id in users && u.username == users[id].username && u.email == users[id].email
    ensures UniqueUsernames(users[id := u]) && UniqueEmails(users[id := u])
  {
    var after := users[id := u];
    forall a | a in after ensures after[a].username == users[a].username && after[a].email == users[a].email {
    }
  }

  /** Replacing a user's record keeps both collections consistent when the new record is
      valid and no other user holds its username or its e-mail. */
  lemma ReplaceUserKeepsConsistency(users: map<UserId, User>, sessions: map<SessionId, Session>, id: UserId, u: User)
    requires UsersConsistent(users) && SessionsConsistent(users, sessions)
    requires id in users && ValidUser(u)
    requires forall x :: x in users && x != id ==> users[x].username != u.username
    requires u.email.Some? ==> forall x :: x in users && x != id ==> users[x].email != u.email
    ensures UsersConsistent(users[id := u]) && SessionsConsistent(users[id := u], sessions)
  {
    var after := users[id := u];
    assert forall a :: a in after ==> ValidUser(after[a]);
    forall a, b | a in after && b in after && a != b ensures after[a].username != after[b].username {
      if a != id && b != id {
        assert after[a] == users[a] && after[b] == users[b];
      }
    }
    forall a, b | a in after && b in after && a != b && after[a].email.Some? ensures after[a].email != after[b].email {
      if a != id && b != id {
        assert after[a] == users[a] && after[b] == users[b];
      }
    }
    assert SessionsConsistent(after, sessions) by {
      assert after.Keys == users.Keys;
    }
  }

  /** Inserting a new valid user whose username and e-mail nobody holds keeps both collections consistent. */
  lemma AddUserKeepsConsistency(users: map<UserId, User>, sessions: map<SessionId, Session>, id: UserId, u: User)
    requires UsersConsistent(users) && SessionsConsistent(users, sessions)
    requires id !in users && ValidUser(u)
    requires forall x :: x in users ==> users[x].username != u.username
    requires u.email.Some? ==> forall x :: x in users ==> users[x].email != u.email
    ensures UsersConsistent(users[id := u]) && SessionsConsistent(users[id := u], sessions)
  {
    var after := users[id := u];
    assert forall a :: a in after ==> ValidUser(after[a]);
    forall a, b | a in after && b in after && a != b ensures after[a].username != after[b].username {
      if a != id && b != id {
        assert after[a] == users[a] && after[b] == users[b];
      }
    }
    forall a, b | a in after && b in after && a != b && after[a].email.Some? ensures after[a].email != after[b].email {
      if a != id && b != id {
        assert after[a] == users[a] && after[b] == users[b];
      }
    }
    forall i | i in sessions ensures sessions[i].userId in after {
    }
  }

  class Db {
    var users: map<UserId, User>
    var sessions: map<SessionId, Session>
    var questions: map<QuestionId, Question>

    ghost predicate Valid()
      reads this
    {
      Consistent(users, sessions, questions)
    }

    /** An empty database. */
    constructor ()
      ensures Valid()
      ensures users == map[] && sessions == map[] && questions == map[]
    {
      users, sessions, questions := map[], map[], map[];
    }
  }
}
