/**
 * The admin routes: the counts of `/stats`, the paged question and user
 * listings, adding a question (field checks, then the schema on `save()`),
 * the partial update of a question, deleting a question, deleting a user
 * with the admin guard, and the leaderboard reset. The caller has already
 * passed the token and admin middleware; the uploaded audio file arrives as
 * its stored file name.
 */
module AdminRoutes {
  import opened Base
  import opened UserModel
  import opened SessionModel
  import opened QuestionModel
  import opened Database
  import opened Pagination
  import QuestionRoutes
  import LeaderboardRoutes

  datatype AdminError =
    | MissingFields
    | InvalidOptionsFormat
    | OptionsNotFour
    | BadAnswerIndex
    | QuestionNotFound
    | UserNotFound
    | CannotDeleteAdmin
    | ServerError

  // ---------------------------------------------------------------- GET /stats

  /** The sessions of finished games. */
  function Finished(sessions: map<SessionId, Session>): set<SessionId> {
    set id | id in sessions && !sessions[id].isActive
  }

  datatype Stats = Stats(totalUsers: nat, totalQuestions: nat, totalGames: nat)

  /** The three counts of `/stats` (the average final score is left out). */
  function StatsOf(users: map<UserId, User>, questions: map<QuestionId, Question>, sessions: map<SessionId, Session>)
    : (r: Stats)
    ensures r.totalUsers == |users.Keys|
    ensures r.totalQuestions == |QuestionRoutes.Active(questions)| && r.totalQuestions <= |questions.Keys|
    ensures r.totalGames == |Finished(sessions)| && r.totalGames <= |sessions.Keys|
  {
    assert sessions.Keys == Finished(sessions) + (sessions.Keys - Finished(sessions));
    Stats(|users.Keys|, QuestionRoutes.ActiveCount(questions), |Finished(sessions)|)
  }

  // ---------------------------------------------------------------- GET /questions, GET /users

  datatype Listing<T> = Listing(items: seq<T>, pagination: PageInfo)

  /** One page of a collection already in `createdAt` descending order, with its pagination
      block; the `/users` listing runs the same code over the users. */
  function AdminPage<T>(docs: seq<T>, pageQ: Option<int>, limitQ: Option<int>): (r: Result<Listing<T>, AdminError>)
    ensures var w := WindowOf(pageQ, limitQ);
      && (r.Err? <==> w.skip < 0)
      && (r.Err? ==> r.error == ServerError)
      && (r.Ok? ==>
        && r.value.pagination == InfoOf(w, |docs|)
        && (r.value.pagination.hasNext <==> w.page * w.limit < |docs|)
        && (r.value.pagination.hasPrev <==> w.page > 1)
        && |r.value.items| <= Abs(w.limit)
        && (forall i :: 0 <= i < |r.value.items| ==> 0 <= w.skip + i < |docs| && r.value.items[i] == docs[w.skip + i]))
  {
    var w := WindowOf(pageQ, limitQ);
    var page := Slice(docs, w.skip, w.limit);
    if page.None? then Err(ServerError) else Ok(Listing(page.value, InfoOf(w, |docs|)))
  }

  /** Every document is listed: the one at position `k` is row `k % limit` of page `k / limit + 1`. */
  lemma EveryDocumentOnItsPage<T>(docs: seq<T>, limit: int, k: int)
    requires limit >= 1 && 0 <= k < |docs|
    ensures var r := AdminPage(docs, Some(k / limit + 1), Some(limit));
      && r.Ok? && k % limit < |r.value.items| && r.value.items[k % limit] == docs[k]
  {
    var w := WindowOf(Some(k / limit + 1), Some(limit));
    assert w.skip == (k / limit) * limit;
    assert k == (k / limit) * limit + k % limit;
    assert w.skip + k % limit == k;
  }

  // ---------------------------------------------------------------- the question form

  /** The `options` body field: missing or empty (falsy), a string `JSON.parse` rejects,
      a value that is not an array, or an array of strings. */
  datatype OptionsInput = NoOptions | Unparsable | NotAnArray | Items(items: seq<string>)

  /** The `correctAnswer` body field: undefined, or what `parseInt` makes of it. */
  datatype IndexInput = NoAnswer | NotANumber | Number(n: int)

  /** The body of an add or update request; `audioFile` is the stored name of an uploaded file. */
  datatype QuestionForm = QuestionForm(
    aramaic: Option<string>,
    hebrew: Option<string>,
    options: OptionsInput,
    correctAnswer: IndexInput,
    category: Option<string>,
    difficulty: Option<string>,
    isActive: Option<bool>,
    audioFile: Option<string>)

  /** The options check both routes share: parsable, an array, exactly four entries. */
  function ParseOptions(o: OptionsInput): (r: Result<seq<string>, AdminError>)
    requires !o.NoOptions?
    ensures r.Ok? <==> o.Items? && |o.items| == 4
    ensures r.Ok? ==> r.value == o.items
    ensures o.Unparsable? ==> r == Err(InvalidOptionsFormat)
    ensures !o.Unparsable? && r.Err? ==> r == Err(OptionsNotFour)
  {
    match o
    case Unparsable => Err(InvalidOptionsFormat)
    case NotAnArray => Err(OptionsNotFour)
    case Items(items) => if |items| != 4 then Err(OptionsNotFour) else Ok(items)
  }

  /** The answer check both routes share: a number from 0 to 3. */
  function ParseIndex(c: IndexInput): (r: Result<int, AdminError>)
    requires !c.NoAnswer?
    ensures r.Ok? <==> c.Number? && 0 <= c.n <= 3
    ensures r.Ok? ==> r.value == c.n
    ensures r.Err? ==> r.error == BadAnswerIndex
  {
    match c
    case NotANumber => Err(BadAnswerIndex)
    case Number(n) => if n < 0 || n > 3 then Err(BadAnswerIndex) else Ok(n)
  }

  /** The `trim` setter applied to an uploaded file name. */
  function AudioOf(file: Option<string>): Option<string> {
    if file.Some? then Some(Trim(file.value)) else None
  }

  /** A supplied, non-empty text through the `trim` setter, or the fallback. */
  function TextOr(given: Option<string>, fallback: string): string {
    if Truthy(given) then Trim(given.value) else fallback
  }

  /** `given || fallback` on a string field without a setter. */
  function ValueOr(given: Option<string>, fallback: string): string {
    if Truthy(given) then given.value else fallback
  }

  // ---------------------------------------------------------------- POST /questions

  /** The checks of POST /questions and the document it builds, before `save()` runs the schema. */
  function NewQuestion(f: QuestionForm): (r: Result<Question, AdminError>)
    ensures r == Err(MissingFields) <==>
      !Truthy(f.aramaic) || !Truthy(f.hebrew) || f.options.NoOptions? || f.correctAnswer.NoAnswer?
    ensures r.Err? && r.error != MissingFields ==>
      if ParseOptions(f.options).Err? then r.error == ParseOptions(f.options).error else r.error == BadAnswerIndex
    ensures r.Ok? <==>
      && Truthy(f.aramaic) && Truthy(f.hebrew)
      && f.options.Items? && |f.options.items| == 4
      && f.correctAnswer.Number? && 0 <= f.correctAnswer.n <= 3
  {
    if !Truthy(f.aramaic) || !Truthy(f.hebrew) || f.options.NoOptions? || f.correctAnswer.NoAnswer? then
      Err(MissingFields)
    else
      var options := ParseOptions(f.options);
      if options.Err? then Err(options.error)
      else
        var index := ParseIndex(f.correctAnswer);
        if index.Err? then Err(index.error)
        else
          Ok(Question(Trim(f.aramaic.value), Trim(f.hebrew.value), options.value, index.value,
                      AudioOf(f.audioFile), ValueOr(f.category, "general"), ValueOr(f.difficulty, "medium"),
                      true))
  }

  /** The document holds the trimmed texts, the four options, the parsed index, the uploaded
      file name, `category || 'general'`, `difficulty || 'medium'`, and is active. */
  lemma NewQuestionFields(f: QuestionForm)
    requires NewQuestion(f).Ok?
    ensures var q := NewQuestion(f).value;
      && q.aramaic == Trim(f.aramaic.value) && q.hebrew == Trim(f.hebrew.value)
      && q.options == f.options.items && q.correctAnswer == f.correctAnswer.n
      && q.category == (if Truthy(f.category) then f.category.value else "general")
      && q.difficulty == (if Truthy(f.difficulty) then f.difficulty.value else "medium")
      && q.audioFile == AudioOf(f.audioFile)
      && q.isActive
  {
  }

  /** A built question passes the schema exactly when both texts are more than blanks and a
      given difficulty is one of the enum's values. */
  lemma NewQuestionSavesIff(f: QuestionForm)
    requires NewQuestion(f).Ok?
    ensures ValidQuestion(NewQuestion(f).value) <==>
      && Trim(f.aramaic.value) != "" && Trim(f.hebrew.value) != ""
      && (Truthy(f.difficulty) ==> IsDifficulty(f.difficulty.value))
  {
    var q := NewQuestion(f).value;
    NewQuestionFields(f);
    TrimIsTrimmed(f.aramaic.value);
    TrimIsTrimmed(f.hebrew.value);
    assert RequiredText(q.aramaic) <==> Trim(f.aramaic.value) != "";
    assert RequiredText(q.hebrew) <==> Trim(f.hebrew.value) != "";
    assert q.audioFile.Some? ==> IsTrimmed(q.audioFile.value) by {
      if f.audioFile.Some? {
        TrimIsTrimmed(f.audioFile.value);
      }
    }
    assert q.category != "";
    assert IsDifficulty(q.difficulty) <==> (Truthy(f.difficulty) ==> IsDifficulty(f.difficulty.value));
    assert |q.options| == 4 && 0 <= q.correctAnswer <= 3;
  }

  /** An answer index of 0 is accepted, and the defaults fill category and difficulty. */
  lemma ZeroAnswerAccepted(aramaic: string, hebrew: string, options: seq<string>)
    requires aramaic != "" && hebrew != "" && |options| == 4
    ensures var r := NewQuestion(QuestionForm(Some(aramaic), Some(hebrew), Items(options), Number(0), None, None, None, None));
      && r.Ok? && r.value.correctAnswer == 0
      && r.value.category == "general" && r.value.difficulty == "medium"
  {
  }

  /** POST /questions: the checks, then `save()`, which stores the question under a new id. */
  method AddQuestion(db: Db, f: QuestionForm) returns (r: Result<(QuestionId, Question), AdminError>)
    requires db.Valid()
    modifies db
    ensures db.Valid()
    ensures db.users == old(db.users) && db.sessions == old(db.sessions)
    ensures NewQuestion(f).Err? ==> r == Err(NewQuestion(f).error) && unchanged(db)
    ensures NewQuestion(f).Ok? && !ValidQuestion(NewQuestion(f).value) ==> r == Err(ServerError) && unchanged(db)
    ensures NewQuestion(f).Ok? && ValidQuestion(NewQuestion(f).value) ==>
      && r.Ok? && r.value.1 == NewQuestion(f).value
      && r.value.0 !in old(db.questions)
      && db.questions == old(db.questions)[r.value.0 := r.value.1]
  {
    var built := NewQuestion(f);
    if built.Err? {
      r := Err(built.error);
      return;
    }
    var question := built.value;
    if !ValidQuestion(question) {
      r := Err(ServerError);
      return;
    }
    FreshIdExists(db.questions.Keys);
    var id :| id !in db.questions;
    db.questions := db.questions[id := question];
    r := Ok((id, question));
  }

  // ---------------------------------------------------------------- PUT /questions/:id

  /** The first check a PUT request fails, if any: the options when given, then the answer index when given. */
  function FormError(f: QuestionForm): (r: Option<AdminError>)
    ensures r.None? <==>
      && (f.options.NoOptions? || (f.options.Items? && |f.options.items| == 4))
      && (f.correctAnswer.NoAnswer? || (f.correctAnswer.Number? && 0 <= f.correctAnswer.n <= 3))
    ensures r.Some? ==> r.value == InvalidOptionsFormat || r.value == OptionsNotFour || r.value == BadAnswerIndex
    ensures f.options.Unparsable? ==> r == Some(InvalidOptionsFormat)
    ensures (f.options.NotAnArray? || (f.options.Items? && |f.options.items| != 4)) ==> r == Some(OptionsNotFour)
    ensures (f.options.NoOptions? || (f.options.Items? && |f.options.items| == 4)) && r.Some? ==> r == Some(BadAnswerIndex)
  {
    if !f.options.NoOptions? && ParseOptions(f.options).Err? then Some(ParseOptions(f.options).error)
    else if !f.correctAnswer.NoAnswer? && ParseIndex(f.correctAnswer).Err? then Some(ParseIndex(f.correctAnswer).error)
    else None
  }

  /** The question after the update's assignments: each supplied field replaced, every other one kept. */
  function Patched(q: Question, f: QuestionForm): (v: Question)
    ensures v.aramaic == if Truthy(f.aramaic) then Trim(f.aramaic.value) else q.aramaic
    ensures v.hebrew == if Truthy(f.hebrew) then Trim(f.hebrew.value) else q.hebrew
    ensures v.options == if f.options.Items? then f.options.items else q.options
    ensures v.correctAnswer == if f.correctAnswer.Number? then f.correctAnswer.n else q.correctAnswer
    ensures v.category == if Truthy(f.category) then f.category.value else q.category
    ensures v.difficulty == if Truthy(f.difficulty) then f.difficulty.value else q.difficulty
    ensures v.isActive == if f.isActive.Some? then f.isActive.value else q.isActive
    ensures v.audioFile == if f.audioFile.Some? then AudioOf(f.audioFile) else q.audioFile
  {
    Question(TextOr(f.aramaic, q.aramaic), TextOr(f.hebrew, q.hebrew),
             if f.options.Items? then f.options.items else q.options,
             if f.correctAnswer.Number? then f.correctAnswer.n else q.correctAnswer,
             if f.audioFile.Some? then AudioOf(f.audioFile) else q.audioFile,
             ValueOr(f.category, q.category), ValueOr(f.difficulty, q.difficulty),
             if f.isActive.Some? then f.isActive.value else q.isActive)
  }

  /** An empty form changes nothing, and sending the same form twice is the same as once. */
  lemma PatchLaws(q: Question, f: QuestionForm)
    ensures Patched(q, QuestionForm(None, None, NoOptions, NoAnswer, None, None, None, None)) == q
    ensures Patched(Patched(q, f), f) == Patched(q, f)
  {
  }

  /** A stored question stays valid under a form that passes the checks exactly when the given
      texts are more than blanks and a given difficulty is one of the enum's values. */
  lemma PatchSavesIff(q: Question, f: QuestionForm)
    requires ValidQuestion(q) && FormError(f).None?
    ensures ValidQuestion(Patched(q, f)) <==>
      && (Truthy(f.aramaic) ==> Trim(f.aramaic.value) != "")
      && (Truthy(f.hebrew) ==> Trim(f.hebrew.value) != "")
      && (Truthy(f.difficulty) ==> IsDifficulty(f.difficulty.value))
  {
    var v := Patched(q, f);
    TextAfterPatch(q.aramaic, f.aramaic);
    TextAfterPatch(q.hebrew, f.hebrew);
    assert v.audioFile.Some? ==> IsTrimmed(v.audioFile.value) by {
      if f.audioFile.Some? {
        TrimIsTrimmed(f.audioFile.value);
      }
    }
    assert |v.options| == 4 && 0 <= v.correctAnswer <= 3 && v.category != "";
  }

  /** A required text stays valid under its update exactly when a given value is more than blanks. */
  lemma TextAfterPatch(stored: string, given: Option<string>)
    requires RequiredText(stored)
    ensures RequiredText(if Truthy(given) then Trim(given.value) else stored) <==>
      (Truthy(given) ==> Trim(given.value) != "")
  {
    if Truthy(given) {
      TrimIsTrimmed(given.value);
    }
  }

  /** The assignments of PUT /questions/:id on the loaded document, one supplied field at a
      time, stopping at the first failed check. */
  method AssignFields(question: Question, f: QuestionForm) returns (r: Result<Question, AdminError>)
    ensures FormError(f).Some? ==> r == Err(FormError(f).value)
    ensures FormError(f).None? ==> r == Ok(Patched(question, f))
  {
    // each `if (field) question.field = field` step, the setters applied
    var q := question.(aramaic := TextOr(f.aramaic, question.aramaic));
    q := q.(hebrew := TextOr(f.hebrew, q.hebrew));
    if !f.options.NoOptions? {
      var options := ParseOptions(f.options);
      if options.Err? {
        assert FormError(f) == Some(options.error);
        r := Err(options.error);
        return;
      }
      q := q.(options := options.value);
    }
    if !f.correctAnswer.NoAnswer? {
      var index := ParseIndex(f.correctAnswer);
      if index.Err? {
        assert FormError(f) == Some(index.error);
        r := Err(index.error);
        return;
      }
      q := q.(correctAnswer := index.value);
    }
    assert FormError(f).None?;
    q := q.(category := ValueOr(f.category, q.category));
    q := q.(difficulty := ValueOr(f.difficulty, q.difficulty));
    q := q.(isActive := if f.isActive.Some? then f.isActive.value else q.isActive);
    q := q.(audioFile := if f.audioFile.Some? then AudioOf(f.audioFile) else q.audioFile);
    r := Ok(q);
  }

  /** PUT /questions/:id: the assignments, then `save()`; a failed check or a failed save
      leaves the stored question as it was. */
  method UpdateQuestion(db: Db, id: QuestionId, f: QuestionForm) returns (r: Result<Question, AdminError>)
    requires db.Valid()
    modifies db
    ensures db.Valid()
    ensures db.users == old(db.users) && db.sessions == old(db.sessions)
    ensures r.Err? ==> unchanged(db)
    ensures id !in old(db.questions) <==> r == Err(QuestionNotFound)
    ensures id in old(db.questions) && FormError(f).Some? ==> r == Err(FormError(f).value)
    ensures id in old(db.questions) && FormError(f).None? ==>
      var v := Patched(old(db.questions)[id], f);
      && (!ValidQuestion(v) ==> r == Err(ServerError))
      && (ValidQuestion(v) ==> r == Ok(v) && db.questions == old(db.questions)[id := v])
  {
    if id !in db.questions {
      r := Err(QuestionNotFound);
      return;
    }
    var edited := AssignFields(db.questions[id], f);
    if edited.Err? {
      r := edited;
      return;
    }
    var question := edited.value;
    // save(): schema validators
    if !ValidQuestion(question) {
      r := Err(ServerError);
      return;
    }
    db.questions := db.questions[id := question];
    r := Ok(question);
  }

  // ---------------------------------------------------------------- DELETE /questions/:id

  /** DELETE /questions/:id: removes the question; the other questions stay. */
  method DeleteQuestion(db: Db, id: QuestionId) returns (r: Result<(), AdminError>)
    requires db.Valid()
    modifies db
    ensures db.Valid()
    ensures db.users == old(db.users) && db.sessions == old(db.sessions)
    ensures r.Err? <==> id !in old(db.questions)
    ensures r.Err? ==> r.error == QuestionNotFound && unchanged(db)
    ensures r.Ok? ==> db.questions == old(db.questions) - {id}
  {
    if id !in db.questions {
      r := Err(QuestionNotFound);
      return;
    }
    db.questions := db.questions - {id};
    r := Ok(());
  }

  // ---------------------------------------------------------------- DELETE /users/:id

  /** `GameSession.deleteMany({ userId })`: the sessions of every other player. */
  function WithoutSessionsOf(sessions: map<SessionId, Session>, userId: UserId): (r: map<SessionId, Session>)
    ensures forall s :: s in r <==> s in sessions && sessions[s].userId != userId
    ensures forall s :: s in r ==> r[s] == sessions[s]
  {
    map s | s in sessions && sessions[s].userId != userId :: sessions[s]
  }

  /** The admin guard: an admin account can only be deleted by itself. */
  predicate MayDelete(callerId: UserId, id: UserId, target: User) {
    !target.isAdmin || id == callerId
  }

  /** Removing a user together with all of their sessions keeps the collections consistent. */
  lemma RemoveUserKeepsConsistency(users: map<UserId, User>, sessions: map<SessionId, Session>, id: UserId)
    requires UsersConsistent(users) && SessionsConsistent(users, sessions)
    ensures UsersConsistent(users - {id}) && SessionsConsistent(users - {id}, WithoutSessionsOf(sessions, id))
  {
    var kept := WithoutSessionsOf(sessions, id);
    forall s | s in kept ensures SessionConsistent(kept[s]) && kept[s].userId in users - {id} {
      assert kept[s] == sessions[s];
    }
    forall a, b | a in kept && b in kept && kept[a].isActive && kept[b].isActive && kept[a].userId == kept[b].userId
      ensures a == b
    {
      assert kept[a] == sessions[a] && kept[b] == sessions[b];
    }
  }

  /** DELETE /users/:id. */
  method DeleteUser(db: Db, callerId: UserId, id: UserId) returns (r: Result<(), AdminError>)
    requires db.Valid()
    modifies db
    ensures db.Valid()
    ensures db.questions == old(db.questions)
    ensures r.Err? ==> unchanged(db)
    ensures id !in old(db.users) <==> r == Err(UserNotFound)
    ensures id in old(db.users) && !MayDelete(callerId, id, old(db.users)[id]) ==> r == Err(CannotDeleteAdmin)
    ensures id in old(db.users) && MayDelete(callerId, id, old(db.users)[id]) ==>
      && r.Ok?
      && db.users == old(db.users) - {id}
      && db.sessions == WithoutSessionsOf(old(db.sessions), id)
  {
    if id !in db.users {
      r := Err(UserNotFound);
      return;
    }
    var user := db.users[id];
    if user.isAdmin && id != callerId {
      r := Err(CannotDeleteAdmin);
      return;
    }
    RemoveUserKeepsConsistency(db.users, db.sessions, id);
    db.sessions := WithoutSessionsOf(db.sessions, id);
    db.users := db.users - {id};
    r := Ok(());
  }

  /** After a deletion no session of the deleted player is left, and the other players'
      sessions are all still there. */
  lemma DeletionLeavesNoOrphans(sessions: map<SessionId, Session>, id: UserId, s: SessionId)
    requires s in sessions
    ensures s in WithoutSessionsOf(sessions, id) <==> sessions[s].userId != id
    ensures forall t :: t in WithoutSessionsOf(sessions, id) ==> WithoutSessionsOf(sessions, id)[t].userId != id
  {
  }

  // ---------------------------------------------------------------- POST /reset-leaderboard

  /** The fields `updateMany` clears; name, e-mail and admin flag stay. */
  function ResetStats(u: User): (v: User)
    ensures v.score == 0 && v.highScore == 0 && v.gamesPlayed == 0 && v.correctAnswers == 0
    ensures v.username == u.username && v.email == u.email && v.isAdmin == u.isAdmin
  {
    u.(score := 0, highScore := 0, gamesPlayed := 0, correctAnswers := 0)
  }

  function ResetAll(users: map<UserId, User>): (r: map<UserId, User>)
    ensures r.Keys == users.Keys
    ensures forall id :: id in r ==> r[id] == ResetStats(users[id])
  {
    map id | id in users :: ResetStats(users[id])
  }

  /** Clearing the counters keeps every record valid and the names and e-mails unique. */
  lemma ResetKeepsUsersConsistent(users: map<UserId, User>)
    requires UsersConsistent(users)
    ensures UsersConsistent(ResetAll(users))
  {
    var after := ResetAll(users);
    forall id | id in after ensures ValidUser(after[id]) {
      assert after[id] == ResetStats(users[id]);
    }
    forall a | a in after ensures after[a].username == users[a].username && after[a].email == users[a].email {
    }
  }

  /** POST /reset-leaderboard: every user's counters go to zero and every session is deleted. */
  method ResetLeaderboard(db: Db)
    requires db.Valid()
    modifies db
    ensures db.Valid()
    ensures db.users == ResetAll(old(db.users))
    ensures db.sessions == map[] && db.questions == old(db.questions)
  {
    ResetKeepsUsersConsistent(db.users);
    db.users := ResetAll(db.users);
    db.sessions := map[];
  }

  /** After a reset every player ties: each is ranked first. */
  lemma ResetTiesEveryone(users: map<UserId, User>, id: UserId)
    requires id in users
    ensures LeaderboardRoutes.RankOf(ResetAll(users), id).Ok?
    ensures LeaderboardRoutes.RankOf(ResetAll(users), id).value.rank == 1
  {
    var after := ResetAll(users);
    assert LeaderboardRoutes.Above(after, after[id]) == {} by {
      forall x | x in after ensures !LeaderboardRoutes.Outranks(after[x], after[id]) {
        assert after[x] == ResetStats(users[x]);
      }
    }
  }
}
