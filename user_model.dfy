/**
 * The User schema as a record, the validity predicate that `save()`
 * enforces, and the value a freshly constructed document takes from the
 * schema defaults and setters.
 */
module UserModel {
  import opened Base

  /** One player, as stored (the unused password hash is left out). */
  datatype User = User(
    username: string,
    email: Option<string>,
    score: int,
    highScore: int,
    gamesPlayed: int,
    correctAnswers: int,
    isAdmin: bool)

  /** The username bounds, applied to the stored (already trimmed) value. */
  predicate UsernameFits(username: string) {
    2 <= JsLength(username) <= 20
  }

  /** What the schema accepts for one record: a trimmed username of 2 to 20 characters,
      an e-mail in normal form if there is one, and non-negative counters. */
  predicate ValidUser(u: User) {
    && IsTrimmed(u.username)
    && UsernameFits(u.username)
    && (u.email.Some? ==> IsNormalEmail(u.email.value))
    && u.score >= 0
    && u.highScore >= 0
    && u.gamesPlayed >= 0
    && u.correctAnswers >= 0
  }

  /** The unique index on `username`. */
  predicate UniqueUsernames(users: map<UserId, User>) {
    forall a, b :: a in users && b in users && a != b ==> users[a].username != users[b].username
  }

  /** The sparse unique index on `email`: only users that have one take part. */
  predicate UniqueEmails(users: map<UserId, User>) {
    forall a, b :: a in users && b in users && a != b && users[a].email.Some? ==> users[a].email != users[b].email
  }

  /** `new User({ username })`: the trim setter applied, every other field from its default. */
  function WithDefaults(username: string): User {
    User(Trim(username), None, 0, 0, 0, 0, false)
  }

  lemma DefaultsAreValid(username: string)
    requires UsernameFits(Trim(username))
    ensures var u := WithDefaults(username);
      && ValidUser(u)
      && u.score == 0 && u.highScore == 0 && u.gamesPlayed == 0 && u.correctAnswers == 0
      && !u.isAdmin && u.email.None?
  {
    TrimIsTrimmed(username);
  }

  /** A stored username and e-mail are what their setters would store for them. */
  lemma StoredFieldsAreNormalised(u: User)
    requires ValidUser(u)
    ensures Trim(u.username) == u.username
    ensures u.email.Some? ==> NormalizeEmail(u.email.value) == u.email.value
  {
    TrimmedIffFixed(u.username);
    if u.email.Some? {
      NormalIffFixed(u.email.value);
    }
  }
}
