/**
 * The account routes: guest login (find the user by name or create one),
 * `/me`, and the profile update that checks the new username and e-mail
 * against the other users before assigning them. The authenticated user id
 * is an input; the token the login signs is left out.
 */
module AuthRoutes {
  import opened Base
  import opened UserModel
  import opened SharedUtils
  import opened Database

  datatype AuthError = BadUsernameLength | UserNotFound | UsernameTaken | EmailTaken | ServerError

  /** The account summary the login and profile routes send back. */
  datatype Summary = Summary(id: UserId, username: string, score: int, highScore: int, gamesPlayed: int, isAdmin: bool)

  function SummaryOf(id: UserId, u: User): Summary {
    Summary(id, u.username, u.score, u.highScore, u.gamesPlayed, u.isAdmin)
  }

  /** The reply of the profile update: the login summary with the e-mail added. */
  datatype ProfileSummary = ProfileSummary(
    id: UserId,
    username: string,
    email: Option<string>,
    score: int,
    highScore: int,
    gamesPlayed: int,
    isAdmin: bool)

  function ProfileSummaryOf(id: UserId, u: User): ProfileSummary {
    ProfileSummary(id, u.username, u.email, u.score, u.highScore, u.gamesPlayed, u.isAdmin)
  }

  /** The guard of `/guest-login`: a non-empty name of 2 to 20 characters, counted before trimming. */
  predicate GuestNameAccepted(username: Option<string>) {
    Truthy(username) && 2 <= JsLength(username.value) <= 20
  }

  /** The guard agrees with the shared `validateUsername` check. */
  lemma GuestNameIsValidUsername(username: string)
    ensures GuestNameAccepted(Some(username)) <==> ValidateUsername(username)
    ensures !GuestNameAccepted(None) && !GuestNameAccepted(Some(""))
  {
  }

  /** `User.findOne({ username })`: the query value goes through the same `trim` setter. */
  predicate NameHeld(users: map<UserId, User>, name: string) {
    exists id :: id in users && users[id].username == name
  }

  /** `User.findOne({ email })`: the query value is lower-cased and trimmed like the field. */
  predicate EmailHeld(users: map<UserId, User>, email: string) {
    exists id :: id in users && users[id].email == Some(email)
  }

  /** POST /guest-login. */
  method GuestLogin(db: Db, username: Option<string>) returns (r: Result<Summary, AuthError>)
    requires db.Valid()
    modifies db
    ensures db.Valid()
    ensures db.sessions == old(db.sessions) && db.questions == old(db.questions)
    ensures !GuestNameAccepted(username) ==> r == Err(BadUsernameLength) && unchanged(db)
    ensures GuestNameAccepted(username) && NameHeld(old(db.users), Trim(username.value)) ==>
      && unchanged(db)
      && r.Ok? && r.value.id in db.users
      && r.value == SummaryOf(r.value.id, db.users[r.value.id])
      && db.users[r.value.id].username == Trim(username.value)
    ensures GuestNameAccepted(username) && !NameHeld(old(db.users), Trim(username.value)) ==>
      if UsernameFits(Trim(username.value)) then
        && r.Ok? && r.value.id !in old(db.users)
        && db.users == old(db.users)[r.value.id := UserModel.WithDefaults(username.value)]
        && r.value == SummaryOf(r.value.id, UserModel.WithDefaults(username.value))
      else
        r == Err(ServerError) && unchanged(db)
  {
    if !(username.Some? && username.value != "" && 2 <= JsLength(username.value) <= 20) {
      r := Err(BadUsernameLength);
      return;
    }
    var name := Trim(username.value);
    if exists id :: id in db.users && db.users[id].username == name {
      var id :| id in db.users && db.users[id].username == name;
      r := Ok(SummaryOf(id, db.users[id]));
      return;
    }
    var user := UserModel.WithDefaults(username.value);
    // save(): the trimmed name must still be 2 to 20 characters long
    if !UsernameFits(user.username) {
      r := Err(ServerError);
      return;
    }
    UserModel.DefaultsAreValid(username.value);
    var id := InsertUser(db, user);
    r := Ok(SummaryOf(id, user));
  }

  /** `user.save()` of a new document: a fresh id, nothing else touched. */
  method InsertUser(db: Db, user: User) returns (id: UserId)
    requires db.Valid() && ValidUser(user) && user.email.None? && !NameHeld(db.users, user.username)
    modifies db
    ensures db.Valid()
    ensures id !in old(db.users) && db.users == old(db.users)[id := user]
    ensures db.sessions == old(db.sessions) && db.questions == old(db.questions)
  {
    FreshIdExists(db.users.Keys);
    id :| id !in db.users;
    AddUserKeepsConsistency(db.users, db.sessions, id, user);
    db.users := db.users[id := user];
  }

  /** Logging in twice with the same name yields the same account and adds no second one. */
  method LoginTwice(db: Db, username: string) returns (first: Result<Summary, AuthError>, second: Result<Summary, AuthError>)
    requires db.Valid()
    modifies db
    ensures first.Ok? ==> second == first
    ensures first.Ok? ==> |db.users.Keys| <= |old(db.users).Keys| + 1
  {
    first := GuestLogin(db, Some(username));
    if first.Ok? {
      assert NameHeld(db.users, Trim(username)) by {
        assert db.users[first.value.id].username == Trim(username);
      }
      second := GuestLogin(db, Some(username));
      var id := second.value.id;
      assert db.users[id].username == db.users[first.value.id].username;
      assert id == first.value.id;
      if first.value.id !in old(db.users) {
        assert db.users.Keys == old(db.users).Keys + {first.value.id};
      }
    } else {
      second := first;
    }
  }

  /** What `/me` reports. */
  datatype Profile = Profile(
    id: UserId,
    username: string,
    email: Option<string>,
    score: int,
    highScore: int,
    gamesPlayed: int,
    correctAnswers: int,
    isAdmin: bool)

  /** GET /me. */
  function Me(users: map<UserId, User>, userId: UserId): (r: Result<Profile, AuthError>)
    ensures r.Err? <==> userId !in users
    ensures r.Err? ==> r.error == UserNotFound
    ensures r.Ok? ==>
      var u := users[userId];
      r.value == Profile(userId, u.username, u.email, u.score, u.highScore, u.gamesPlayed, u.correctAnswers, u.isAdmin)
  {
    if userId !in users then Err(UserNotFound)
    else
      var u := users[userId];
      Ok(Profile(userId, u.username, u.email, u.score, u.highScore, u.gamesPlayed, u.correctAnswers, u.isAdmin))
  }

  /** The username step of a profile update: a truthy name other than the stored one. */
  predicate RenameRequested(u: User, username: Option<string>) {
    Truthy(username) && username.value != u.username
  }

  /** The e-mail step: a truthy e-mail other than the stored one (a user without e-mail differs from any). */
  predicate EmailChangeRequested(u: User, email: Option<string>) {
    Truthy(email) && Some(email.value) != u.email
  }

  /** The record a successful update stores: each requested field set through its setter, the rest kept. */
  function Updated(u: User, username: Option<string>, email: Option<string>): (v: User)
    ensures v.username == if RenameRequested(u, username) then Trim(username.value) else u.username
    ensures v.email == if EmailChangeRequested(u, email) then Some(NormalizeEmail(email.value)) else u.email
    ensures v.(username := u.username, email := u.email) == u
  {
    var v := if RenameRequested(u, username) then u.(username := Trim(username.value)) else u;
    if EmailChangeRequested(u, email) then v.(email := Some(NormalizeEmail(email.value))) else v
  }

  /** Nothing requested, or the current values sent back, leaves the record as it is. */
  lemma UnchangedFieldsAreNoOps(u: User)
    ensures Updated(u, None, None) == u
    ensures Updated(u, Some(u.username), if u.email.Some? then Some(u.email.value) else None) == u
    ensures Updated(u, Some(""), Some("")) == u
  {
  }

  /** The username and e-mail steps of PUT /profile on the loaded record: each requested change
      is looked up among the stored users first, and a clash ends the request. */
  method ApplyProfile(users: map<UserId, User>, u: User, username: Option<string>, email: Option<string>)
    returns (r: Result<User, AuthError>)
    ensures var nameClash := RenameRequested(u, username) && NameHeld(users, Trim(username.value));
      var emailClash := EmailChangeRequested(u, email) && EmailHeld(users, NormalizeEmail(email.value));
      && (nameClash ==> r == Err(UsernameTaken))
      && (!nameClash && emailClash ==> r == Err(EmailTaken))
      && (!nameClash && !emailClash ==> r == Ok(Updated(u, username, email)))
  {
    var user := u;
    if username.Some? && username.value != "" && username.value != user.username {
      var name := Trim(username.value);
      if exists id :: id in users && users[id].username == name {
        r := Err(UsernameTaken);
        return;
      }
      user := user.(username := name);
    }
    assert user == u.(username := Updated(u, username, email).username);
    if email.Some? && email.value != "" && Some(email.value) != user.email {
      var normal := NormalizeEmail(email.value);
      if exists id :: id in users && users[id].email == Some(normal) {
        r := Err(EmailTaken);
        return;
      }
      user := user.(email := Some(normal));
    }
    r := Ok(user);
  }

  /** PUT /profile. */
  method UpdateProfile(db: Db, userId: UserId, username: Option<string>, email: Option<string>)
    returns (r: Result<ProfileSummary, AuthError>)
    requires db.Valid()
    modifies db
    ensures db.Valid()
    ensures db.sessions == old(db.sessions) && db.questions == old(db.questions)
    ensures r.Err? ==> unchanged(db)
    ensures userId !in old(db.users) <==> r == Err(UserNotFound)
    ensures userId in old(db.users) ==>
      var u := old(db.users)[userId];
      var nameClash := RenameRequested(u, username) && NameHeld(old(db.users), Trim(username.value));
      var emailClash := EmailChangeRequested(u, email) && EmailHeld(old(db.users), NormalizeEmail(email.value));
      var v := Updated(u, username, email);
      && (nameClash ==> r == Err(UsernameTaken))
      && (!nameClash && emailClash ==> r == Err(EmailTaken))
      && (!nameClash && !emailClash && !ValidUser(v) ==> r == Err(ServerError))
      && (!nameClash && !emailClash && ValidUser(v) ==>
            r == Ok(ProfileSummaryOf(userId, v)) && db.users == old(db.users)[userId := v])
  {
    if userId !in db.users {
      r := Err(UserNotFound);
      return;
    }
    var edited := ApplyProfile(db.users, db.users[userId], username, email);
    if edited.Err? {
      r := Err(edited.error);
      return;
    }
    var user := edited.value;
    // save(): schema validators
    if !ValidUser(user) {
      r := Err(ServerError);
      return;
    }
    ReplaceUserKeepsConsistency(db.users, db.sessions, userId, user);
    db.users := db.users[userId := user];
    r := Ok(ProfileSummaryOf(userId, user));
  }
}
