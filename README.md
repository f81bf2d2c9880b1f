# Aramaic trivia game: a Dafny model of the server and client core

The game is a quiz on Aramaic words with a Hebrew meaning. A player logs in
as a guest with a username. Each game starts with three lives, and a
question comes with four options. A correct answer scores a point, and
every fiftieth correct answer earns a bonus life. A wrong answer, or a reply
that arrives after the time runs out, costs a life. A game ends when the
lives run out or when the player ends it. Either way the result is rolled
into the player's totals: games played, correct answers, high score and
last score.

The players are ranked on a leaderboard by high score, then by correct
answers, and each score earns a title from a fixed table. Administrators
add, edit and delete questions, delete users and reset the leaderboard.

This project models the core in Dafny and proves its properties:

- **Server state.** Every handler reads and writes the three MongoDB
  collections. They are held by one object, `Database.Db`, with maps from
  ids to user, session and question records.
- **Consistency.** Every handler that changes the collections is proved to
  keep `Database.Consistent`:
  - every record passes its schema;
  - the unique username and e-mail indexes hold;
  - a player has at most one active game;
  - in every game, the answered-question list has `currentQuestion`
    entries and `score == correctAnswers`;
  - an active game has a life left;
  - a finished game's final score is its score.
- **Handler results.** Each handler is proved to give exactly the result
  and the new state that the route code produces, error paths included.
- **Game arithmetic.** The game's scoring is proved over whole runs of
  answers.
- **Shared helpers.** The time limit, the title lookup, and the e-mail and
  username checks are modelled as they are written and proved against
  independent definitions.
- **Client stores.** The two client-side state containers are modelled as
  classes whose actions replace fields.

Modules follow the source files:

| module | source |
|---|---|
| `Base` | Mongoose's `trim`/`lowercase` setters, JavaScript truthiness and `length` |
| `SharedTypes`, `SharedUtils` | `shared/types.ts`, `shared/index.ts` |
| `SessionModel`, `UserModel`, `QuestionModel` | `server/src/models/*.ts` |
| `Database` | the three collections and their consistency |
| `GameRoutes` | `server/src/routes/game.ts` |
| `Pagination`, `LeaderboardRoutes` | `server/src/routes/leaderboard.ts` and the shared page arithmetic |
| `QuestionRoutes` | `server/src/routes/questions.ts` |
| `AuthRoutes` | `server/src/routes/auth.ts` |
| `AdminRoutes` | `server/src/routes/admin.ts` |
| `ClientGameStore` | `client/src/store/gameStore.ts` |
| `ClientStores` | `client/src/store/index.ts` |

### How the server's runtime is modelled

- **`save()`.** Mongoose runs the schema validators when a document is
  saved. In the model, a save that fails validation answers with a server
  error and stores nothing. This is how an over-full bonus life shows up:
  at ten lives, a bonus would make eleven, past the schema's maximum, so
  the answer is refused with a server error. `GameRoutes.AnswerKeepsConsistency`
  states exactly when that happens.
- **Setters.** The `trim` and `lowercase` setters apply to assigned values
  and also to query values. A username is stored trimmed and looked up
  trimmed. An e-mail is lower-cased and trimmed. The order of the two does
  not matter, because lower-casing commutes with each half of trimming
  (`Base.LowerTrimStart`, `Base.LowerTrimEnd`).
- **Query parameters.** `parseInt(x) || d` takes an already-parsed
  `Option<int>`: `None` stands for NaN. `skip(n)` with a negative `n`
  is refused by MongoDB, so the route answers with a server error. A
  negative `limit(n)` returns `|n|` documents.
- **Identifiers and time.** A new document's id is any id not yet in use.
  The current time is a parameter.

### Quirks of the code the model keeps

- **`/start`:** closes the player's active games without final scores and
  without updating the player's totals. It closes them before it checks
  that the player exists, so an unknown player's games are still closed.
- **`/answer`:** takes the correct answer from the stored question. The
  time-out reply `-1` is scored wrong only because a stored answer index
  lies in 0..3: `GameRoutes.TimeUpIsWrong`.
- **`/end`:** reports `currentQuestion` as the number of questions.
- **Concurrency:** no version check or transaction guards the
  read-modify-write of a session.
- **`/top/:count` with a negative count:** `Math.min` lets the count through
  and MongoDB reads a negative limit as its magnitude. So `/top/-500` lists
  up to 500 players, past the cap of 100: `LeaderboardRoutes.NegativeCountBypassesCap`.
- **Profile username clash:** the profile update compares the new username
  with the stored one before trimming. So a name that differs from the
  player's own only by surrounding spaces is looked up and found, and the
  request is refused as "username taken". The same holds for an e-mail
  that differs from the stored one only in case or spaces.

## Model

| member | source | states |
|---|---|---|
| Base.JsLength | shared/index.ts:37-39 | the length JavaScript reports lies between the character count and twice it |
| Base.JsLengthOfBmp | shared/index.ts:37-39 | on text without astral characters the JavaScript length is the character count |
| Base.TrimStart | server/src/models/User.ts:17-24 | the result is a suffix with no leading whitespace and only whitespace removed |
| Base.TrimEnd | server/src/models/User.ts:17-24 | the result is a prefix with no trailing whitespace and only whitespace removed |
| Base.TrimOfTrimmed | server/src/models/User.ts:17-24 | a string with non-blank ends is its own trim |
| Base.TrimIdempotent | server/src/models/User.ts:17-24 | trimming twice is trimming once |
| Base.TrimmedIffFixed | server/src/models/User.ts:17-24 | a string is trimmed exactly when trimming leaves it unchanged |
| Base.TrimIsTrimmed | server/src/models/User.ts:17-24 | the trim setter's result has non-blank ends |
| Base.LowerChar | server/src/models/User.ts:25-31 | a character changes exactly when it is an ASCII capital, and never yields one |
| Base.Lower | server/src/models/User.ts:25-31 | same length, each character lower-cased in place |
| Base.LowerIsLower | server/src/models/User.ts:25-31 | the result has no capitals; a lower-case string is unchanged |
| Base.LowerTrimStart | server/src/models/User.ts:25-31 | lower-casing commutes with dropping leading whitespace |
| Base.LowerTrimEnd | server/src/models/User.ts:25-31 | lower-casing commutes with dropping trailing whitespace |
| Base.NormalizeEmailIdempotent | server/src/models/User.ts:25-31 | the lowercase-then-trim setters are idempotent and give a lower-case, trimmed e-mail |
| Base.Trim | server/src/models/User.ts:21 | the `trim` setter: leading, then trailing JavaScript whitespace removed |
| Base.NormalizeEmail | server/src/models/User.ts:29-30 | the stored form of an e-mail: lower-cased and trimmed |
| Base.NormalIffFixed | server/src/models/User.ts:25-31 | an e-mail is in normal form exactly when the setters leave it unchanged |
| SharedTypes.TitlesWellFormed | shared/types.ts:71-80 | eight titles, thresholds from 0 strictly ascending, titles non-empty and distinct |
| SharedTypes.MergeOverwritesOnlyGivenKeys | client/src/store/gameStore.ts:113-114 | each key present in the patch is set to the patch's value, each absent key is kept |
| SharedTypes.MergeSettings | client/src/store/gameStore.ts:113-114 | `{ ...base, ...patch }`: each key from the patch when it is given, else from the base |
| SharedTypes.MergeLaws | client/src/store/index.ts:62-65 | an empty patch is the identity, a patch applied twice equals once, two patches compose |
| SharedUtils.GetTimeLimit | shared/index.ts:8-10 | fast gives FAST_TIME_LIMIT (5), normal gives NORMAL_TIME_LIMIT (10) |
| SharedUtils.TitleTableIsTitles | shared/index.ts:13-22 | the table `getUserTitle` keeps equals the shared TITLES table, and its fallback is the first title |
| SharedUtils.FindReached | shared/index.ts:24-29 | a found row is in the table and reached by the score; none found means no row is reached |
| SharedUtils.ReachedIsPrefix | shared/index.ts:24-29 | in an ascending table the reached thresholds form a prefix |
| SharedUtils.FindReachedReversed | shared/index.ts:24-29 | searching the reversed table finds the last reached threshold |
| SharedUtils.Tier | shared/index.ts:12-30 | the title position is a valid index of the table |
| SharedUtils.GetUserTitleIsLargestReached | shared/index.ts:12-30 | the title is that of the largest threshold not above the score; a negative score gets the first title |
| SharedUtils.ReachedMonotone | shared/index.ts:24-29 | a higher score reaches at least as many thresholds |
| SharedUtils.TitleMonotone | shared/index.ts:12-30 | a higher score never earns an earlier title |
| SharedUtils.TitleAt | shared/index.ts:12-30 | a score between thresholds i and i+1 earns title i |
| SharedUtils.GetUserTitle | shared/index.ts:12-30 | the title of the highest threshold the score reaches (first match in the reversed table), else the first title |
| SharedUtils.TitleBoundaries | shared/index.ts:12-30 | 9 earns the first title, 10 the second, 999 the seventh and 1000 the last |
| SharedUtils.ValidateEmail | shared/index.ts:32-35 | plain text before the first '@', then a plain domain of at least three characters with a '.' strictly inside it |
| SharedUtils.IndexOf | shared/index.ts:32-35 | the first position of a character, or none when it does not occur |
| SharedUtils.ValidateEmailOnlyMatches | shared/index.ts:32-35 | every accepted e-mail matches the regular expression |
| SharedUtils.MatchesAreValidated | shared/index.ts:32-35 | every string the regular expression matches is accepted |
| SharedUtils.ValidateEmailMatchesPattern | shared/index.ts:32-35 | the e-mail check accepts exactly the strings the regular expression matches |
| SharedUtils.ValidEmailShape | shared/index.ts:32-35 | an accepted e-mail has no whitespace, exactly one '@' with text before it, and a '.' after it with text on both sides |
| SharedUtils.ValidateUsernameBounds | shared/index.ts:37-39 | an accepted username has 1 to 20 characters; a longer or empty one is refused |
| SharedUtils.ValidateUsername | shared/index.ts:37-39 | the JavaScript length is between 2 and 20 |
| SharedUtils.ValidateUsernameOfBmp | shared/index.ts:37-39 | on text without astral characters a username is accepted exactly when it has 2 to 20 characters |
| SessionModel.ValidSession | server/src/models/GameSession.ts:18-66 | a username is given; score, currentQuestion and correctAnswers are at least 0; lives lie in 0..10; a final score is at least 0 |
| SessionModel.WithDefaults | server/src/models/GameSession.ts:27-62 | score 0, lives 3, question 0, no answers, 0 correct, started now, no end, active, no final score |
| SessionModel.DefaultsAreValid | server/src/models/GameSession.ts:17-69 | a new session with a username passes the schema: score, counters 0, lives 3, active, no final score |
| SessionModel.UsernameRequired | server/src/models/GameSession.ts:18-26 | a session without a username is refused |
| UserModel.ValidUser | server/src/models/User.ts:17-55 | a trimmed username of 2 to 20 characters, a lower-case trimmed e-mail if there is one, non-negative counters |
| UserModel.UniqueUsernames | server/src/models/User.ts:17-24 | no two users share a username |
| UserModel.UniqueEmails | server/src/models/User.ts:25-31 | no two users that have an e-mail share it |
| UserModel.WithDefaults | server/src/models/User.ts:17-59 | the trimmed username, no e-mail, all counters 0, not an admin |
| UserModel.DefaultsAreValid | server/src/models/User.ts:17-59 | a new user with a fitting trimmed name passes the schema with counters 0, not admin, no e-mail |
| UserModel.StoredFieldsAreNormalised | server/src/models/User.ts:17-31 | a stored username is its own trim and a stored e-mail is its own normal form |
| QuestionModel.ValidQuestion | server/src/models/Question.ts:16-60 | both texts non-empty and trimmed, four options, an answer index 0..3, a trimmed audio name if any, a category, a difficulty from the enum |
| QuestionModel.WithDefaults | server/src/models/Question.ts:16-60 | both texts trimmed, no audio, category general, difficulty medium, active |
| QuestionModel.DefaultsAreValid | server/src/models/Question.ts:16-63 | a question with both texts, four options and an index 0..3 passes, with category general, difficulty medium, active |
| QuestionModel.CorrectAnswerIndexesOptions | server/src/models/Question.ts:27-42 | a stored answer index is a valid index into the options |
| QuestionModel.OptionsMustBeFour | server/src/models/Question.ts:27-36 | a question with other than four options is refused |
| Database.SessionConsistent | server/src/routes/game.ts:121-141 | a session passes its schema, has one recorded question per step, a score equal to its correct count, a life left and no end while active, and a final score only once finished, equal to its score |
| Database.AtMostOneActive | server/src/routes/game.ts:13-37 | no player has two active sessions |
| Database.ActiveSessionUnique | server/src/routes/game.ts:58-90 | with one active game per player, a player's active game is the only one |
| Database.PutSessionKeepsConsistency | server/src/routes/game.ts:155 | saving a consistent session that is its player's only active game keeps the sessions consistent |
| Database.PutUserKeepsConsistency | server/src/routes/game.ts:142-150 | saving a valid user with unchanged name and e-mail keeps both collections consistent |
| Database.ReplaceUserKeepsConsistency | server/src/routes/auth.ts:132 | saving a valid user whose name and e-mail no other user holds keeps the collections consistent |
| Database.AddUserKeepsConsistency | server/src/routes/auth.ts:24-31 | inserting a valid new user whose name and e-mail nobody holds keeps the collections consistent |
| Database.Db.constructor | server/src/models/User.ts:16-68 | an empty database is consistent |
| GameRoutes.FreshSession | server/src/routes/game.ts:26-35 | the session `/start` builds: score 0, lives 3, question 0, no answers, 0 correct, active |
| GameRoutes.Closed | server/src/routes/game.ts:13-16 | inactive with end time now, every other field kept |
| GameRoutes.FreshSessionIsDefault | server/src/routes/game.ts:26-35 | the new session is the schema default with INITIAL_LIVES lives and is consistent |
| GameRoutes.CloseActive | server/src/routes/game.ts:13-16 | afterwards the player has no active game; each closed game gets an end time but keeps its final score; all other games are unchanged |
| GameRoutes.IsCorrect | server/src/routes/game.ts:118 | the selected index equals the stored answer |
| GameRoutes.TimeUpIsWrong | server/src/models/Question.ts:37-42 | the time-out reply -1 never matches a stored answer |
| GameRoutes.Answered | server/src/routes/game.ts:121-134 | the question is appended and counted; a correct answer adds one to score and correct count, and one life if the new count is a multiple of BONUS_LIFE_THRESHOLD and none otherwise; a wrong one takes a life |
| GameRoutes.Finalised | server/src/routes/game.ts:137-141 | the game is inactive, ended now, with the final score equal to the score; nothing else changes |
| GameRoutes.AfterAnswer | server/src/routes/game.ts:121-141 | an active game stays active exactly when a life is left; a finished one carries its score as final score |
| GameRoutes.RolledUp | server/src/routes/game.ts:143-150 | games played +1, correct answers added, high score the maximum of old and game score, score the game score; name, e-mail, admin kept |
| GameRoutes.GameOverIffNoLives | server/src/routes/game.ts:137-141 | after an answer, the game is over exactly when no life is left, and then lives are 0 and the final score is the score |
| GameRoutes.AnswerKeepsConsistency | server/src/models/GameSession.ts:32-37 | the answered session fails the schema exactly when a bonus life would take ten lives to eleven; otherwise it stays consistent |
| GameRoutes.BonusFlagIffExtraLife | server/src/routes/game.ts:166 | the reply's bonus-life flag is set exactly when the answer gained a life |
| GameRoutes.RollUpKeepsUserValid | server/src/models/User.ts:36-55 | rolling a consistent game into a valid user keeps the user valid |
| GameRoutes.ReplayTotals | server/src/routes/game.ts:121-134 | after N answers with K correct: score and correct count grow by K, the questions are recorded in order, lives change by one lost per wrong answer and one gained per multiple of 50 passed |
| GameRoutes.ReplayCounts | server/src/routes/game.ts:121-126 | the counter, score and recorded questions after a run of answers |
| GameRoutes.ReplayLives | server/src/routes/game.ts:127-134 | the lives after a run of answers |
| GameRoutes.FiftyCorrectEarnAFourthLife | server/src/routes/game.ts:127-131 | fifty correct answers from a new game give score 50 and four lives |
| GameRoutes.ThreeWrongEndTheGame | server/src/routes/game.ts:132-141 | three wrong answers from a new game leave 2, then 1, then end the game with final score 0 |
| GameRoutes.CloseActiveKeepsConsistency | server/src/routes/game.ts:13-16 | closing a player's games keeps the sessions consistent |
| GameRoutes.AddSessionKeepsConsistency | server/src/routes/game.ts:26-37 | adding a new active game for a player with none keeps consistency and makes it their only active game |
| GameRoutes.Start | server/src/routes/game.ts:10-55 | old games closed before the user check; unknown user gives not-found; otherwise a fresh session under a new id is the player's only active game and the reply is lives 3, score 0, question 0 |
| GameRoutes.View | server/src/routes/game.ts:72-82 | the fields `/current` reports of a session |
| GameRoutes.Current | server/src/routes/game.ts:58-90 | not-found exactly when the player has no active game; otherwise the view of their only active game |
| GameRoutes.RecordAnswer | server/src/routes/game.ts:121-141 | the step-by-step updates of the loaded session give the answered, possibly finalised session |
| GameRoutes.RollUp | server/src/routes/game.ts:143-150 | the step-by-step updates of the user record give the rolled-up record |
| GameRoutes.AnswerReply | server/src/routes/game.ts:157-168 | the reply fields: correctness, the answer, lives, score, game over when inactive, the final score, and the bonus flag |
| GameRoutes.Answer | server/src/routes/game.ts:93-176 | a game not owned and active or an unknown question gives not-found with nothing changed; a failed save gives a server error with nothing changed; otherwise the answered session is stored, the user rolled up exactly when the game ended, and the reply reports it |
| GameRoutes.End | server/src/routes/game.ts:179-229 | a game not owned and active gives not-found with nothing changed; otherwise the game is finalised, the user rolled up, and the reply is score, correct count and questions answered |
| GameRoutes.EndTwice | server/src/routes/game.ts:97-108 | after one end, a second end and a late answer are both refused, and the totals hold one roll-up |
| Pagination.OrDefault | server/src/routes/leaderboard.ts:10-11 | a parsed non-zero value is kept; a missing or zero one gives the default |
| Pagination.WindowOf | server/src/routes/leaderboard.ts:10-12 | page defaults to 1, limit to 50, neither is zero, and skip is (page - 1) * limit |
| Pagination.CeilDiv | server/src/routes/leaderboard.ts:38 | for a positive limit, the least q with t <= q * limit; the mirror bound for a negative limit |
| Pagination.Slice | server/src/routes/leaderboard.ts:15-17 | a negative skip is refused; otherwise at most abs(limit) rows, each the row at skip + i |
| Pagination.InfoOf | server/src/routes/leaderboard.ts:36-42 | hasNext iff page * limit < total, hasPrev iff page > 1, totalPages is the ceiling of total / limit |
| Pagination.HasNextIffBeforeLastPage | server/src/routes/leaderboard.ts:36-42 | for a positive page and limit, hasNext iff the page is before the last, iff rows exist past the window |
| LeaderboardRoutes.Outranks | server/src/routes/leaderboard.ts:15 | a higher high score, or the same one and more correct answers |
| LeaderboardRoutes.OutranksIsStrictOrder | server/src/routes/leaderboard.ts:15 | the leaderboard order is irreflexive, asymmetric and transitive |
| LeaderboardRoutes.Insert | server/src/routes/leaderboard.ts:15 | inserting adds exactly the one user |
| LeaderboardRoutes.InsertOrdered | server/src/routes/leaderboard.ts:15 | inserting into an ordered list keeps it ordered |
| LeaderboardRoutes.SortByRank | server/src/routes/leaderboard.ts:15 | the sort is a permutation of the collection |
| LeaderboardRoutes.SortByRankSorts | server/src/routes/leaderboard.ts:15 | the sorted list is ordered by high score then correct answers, and is a permutation |
| LeaderboardRoutes.RowOf | server/src/routes/leaderboard.ts:22-30 | a row shows the rank, name, high score as score, counts and the title of the high score |
| LeaderboardRoutes.RowsFrom | server/src/routes/leaderboard.ts:22-23 | row i has rank skip + i + 1 |
| LeaderboardRoutes.Leaderboard | server/src/routes/leaderboard.ts:8-52 | a negative skip gives a server error; otherwise at most abs(limit) rows, row i the sorted user at skip + i ranked skip + i + 1, with the pagination block |
| LeaderboardRoutes.LeaderboardPageIsFull | server/src/routes/leaderboard.ts:15-23 | a page holds `limit` rows, or the rest of the users on the last page, and none past the end |
| LeaderboardRoutes.LeaderboardRanksContiguous | server/src/routes/leaderboard.ts:15-23 | page ranks run skip + 1 on without gaps, and no row ranks above a row after it |
| LeaderboardRoutes.DefaultPageIsFirstFifty | server/src/routes/leaderboard.ts:10-12 | with no query the first min(50, n) users are listed on page 1, with no previous page and a next page iff n > 50 |
| LeaderboardRoutes.Above | server/src/routes/leaderboard.ts:67-75 | the users the `$or` count matches: those placed strictly before the given one |
| LeaderboardRoutes.RankOf | server/src/routes/leaderboard.ts:55-93 | unknown user gives not-found; otherwise rank is 1 + the number of users placed strictly before, with name, high score and title |
| LeaderboardRoutes.TiesShareRank | server/src/routes/leaderboard.ts:67-75 | users with the same high score and correct count share a rank |
| LeaderboardRoutes.OutrankingMeansBetterRank | server/src/routes/leaderboard.ts:67-75 | a user who outranks another has a strictly smaller rank |
| LeaderboardRoutes.UnbeatenIsFirst | server/src/routes/leaderboard.ts:67-75 | a user nobody outranks has rank 1 |
| LeaderboardRoutes.TopCount | server/src/routes/leaderboard.ts:98 | the count defaults to 10 when missing or zero, and is capped at 100 |
| LeaderboardRoutes.Top | server/src/routes/leaderboard.ts:96-124 | the first min(count, n) users in leaderboard order, ranked 1 on, with high score and title |
| LeaderboardRoutes.NegativeCountBypassesCap | server/src/routes/leaderboard.ts:98-102 | a count of -n lists min(n, users) players, so more than 100 when n and the users exceed 100 |
| LeaderboardRoutes.TopIsCapped | server/src/routes/leaderboard.ts:98 | a non-negative count never lists more than 100 players |
| QuestionRoutes.ExcludeList | server/src/routes/questions.ts:10-11 | a repeated parameter is the list, a single value a one-element list, an absent or empty one no exclusions |
| QuestionRoutes.Eligible | server/src/routes/questions.ts:13-21 | the intended `$match`: the stored questions that are active and not excluded |
| QuestionRoutes.RandomQuestion | server/src/routes/questions.ts:8-41 | the intended route: not-found exactly when no active question lies outside the exclusions; otherwise a stored, active, non-excluded question |
| QuestionRoutes.EligibleAsWritten | server/src/routes/questions.ts:10-21 | the `$match` as it runs: uncast string ids never equal an ObjectId, so only `isActive` filters |
| QuestionRoutes.RandomQuestionAsWritten | server/src/routes/questions.ts:8-41 | the route as it runs: not-found exactly when no question is active; otherwise a stored, active question, excluded or not |
| QuestionRoutes.ExclusionIgnoredAsWritten | server/src/routes/questions.ts:10-21 | an excluded active question remains a possible reply as written, and is removed by the intended exclusion |
| QuestionRoutes.AnsweredQuestionComesBack | server/src/routes/questions.ts:10-28 | with one question, already answered, the intended route answers not-found while the route as written offers it again |
| QuestionRoutes.GetById | server/src/routes/questions.ts:44-66 | found exactly when the question exists and is active |
| QuestionRoutes.ActiveCount | server/src/routes/questions.ts:69-84 | the number of active questions, never more than the number stored |
| QuestionRoutes.CountIsEligibleWithoutExclusions | server/src/routes/questions.ts:13-28 | without exclusions the eligible questions are the counted ones, so `/random` fails exactly when the count is 0 |
| QuestionRoutes.ExclusionShrinksEligible | server/src/routes/questions.ts:13-21 | more exclusions never make more questions eligible; excluding every active one leaves none |
| QuestionRoutes.RandomIsFetchable | server/src/routes/questions.ts:46-53 | every question `/random` can return is found by id |
| AuthRoutes.GuestNameAccepted | server/src/routes/auth.ts:14-19 | a truthy username whose JavaScript length is 2 to 20 |
| AuthRoutes.SummaryOf | server/src/routes/auth.ts:43-50 | the login reply: id, username, score, high score, games played, admin flag |
| AuthRoutes.ProfileSummaryOf | server/src/routes/auth.ts:136-144 | the profile reply: the login fields and the e-mail |
| AuthRoutes.GuestNameIsValidUsername | server/src/routes/auth.ts:14-19 | the login guard is the shared username check, and refuses a missing or empty name |
| AuthRoutes.GuestLogin | server/src/routes/auth.ts:10-60 | a refused name gives an error with nothing changed; a held trimmed name returns that user with nothing changed; otherwise exactly one new default user is inserted, or a server error when the trimmed name no longer fits |
| AuthRoutes.InsertUser | server/src/routes/auth.ts:30 | a valid user with a name nobody holds is stored under a new id, keeping consistency |
| AuthRoutes.LoginTwice | server/src/routes/auth.ts:22-31 | logging in twice with one name returns the same account and adds at most one user |
| AuthRoutes.Me | server/src/routes/auth.ts:63-94 | unknown user gives not-found; otherwise the stored profile |
| AuthRoutes.Updated | server/src/routes/auth.ts:109-130 | a requested name is stored trimmed and a requested e-mail normalised; all other fields kept |
| AuthRoutes.UnchangedFieldsAreNoOps | server/src/routes/auth.ts:109-130 | sending nothing, empty strings or the current values changes nothing |
| AuthRoutes.ApplyProfile | server/src/routes/auth.ts:109-130 | a requested name held by anyone gives username-taken; else a requested e-mail held by anyone gives email-taken; else the updated record |
| AuthRoutes.UpdateProfile | server/src/routes/auth.ts:97-153 | unknown user gives not-found; a clash gives its error; a record the schema refuses gives a server error; every refusal changes nothing; otherwise the updated record is stored and the reply is its summary with the e-mail |
| AdminRoutes.Finished | server/src/routes/admin.ts:50 | the sessions that are no longer active |
| AdminRoutes.StatsOf | server/src/routes/admin.ts:47-50 | the user count, the active question count and the finished game count, each bounded by its collection |
| AdminRoutes.AdminPage | server/src/routes/admin.ts:78-111 | a negative skip gives a server error; else at most abs(limit) items, item i the document at skip + i, with hasNext iff page * limit < total and hasPrev iff page > 1 |
| AdminRoutes.EveryDocumentOnItsPage | server/src/routes/admin.ts:80-87 | document k is item k % limit of page k / limit + 1 |
| AdminRoutes.ParseOptions | server/src/routes/admin.ts:127-143 | accepted exactly when the options are an array of four; an unparsable value gives the format error, anything else the count error |
| AdminRoutes.ParseIndex | server/src/routes/admin.ts:146-152 | accepted exactly when the index is a number from 0 to 3 |
| AdminRoutes.NewQuestion | server/src/routes/admin.ts:119-162 | missing-fields exactly when a text is falsy or options or answer missing; otherwise the options error first, then the index error; a question built exactly when all checks pass |
| AdminRoutes.NewQuestionFields | server/src/routes/admin.ts:154-162 | the built question holds the trimmed texts, the options, the index, the file, `category` or general, `difficulty` or medium, and is active |
| AdminRoutes.NewQuestionSavesIff | server/src/routes/admin.ts:164 | a built question passes the schema exactly when both texts are more than blanks and a given difficulty is in the enum |
| AdminRoutes.ZeroAnswerAccepted | server/src/routes/admin.ts:119-124 | answer index 0 is accepted and the defaults fill category and difficulty |
| AdminRoutes.AddQuestion | server/src/routes/admin.ts:114-177 | a failed check returns its error, a failed save a server error, both with nothing changed; otherwise the question is stored under a new id |
| AdminRoutes.FormError | server/src/routes/admin.ts:195-224 | no error exactly when given options are four and a given index is 0..3; unparsable options give the format error, a non-array or wrong count the count error, and the index is checked only once the options pass |
| AdminRoutes.Patched | server/src/routes/admin.ts:193-238 | each supplied field is replaced (texts trimmed), each other field kept |
| AdminRoutes.PatchLaws | server/src/routes/admin.ts:193-238 | an empty form changes nothing, and the same form twice equals once |
| AdminRoutes.PatchSavesIff | server/src/routes/admin.ts:241 | a patched valid question passes the schema exactly when given texts are more than blanks and a given difficulty is in the enum |
| AdminRoutes.AssignFields | server/src/routes/admin.ts:193-239 | the field-by-field assignments stop at the first failed check, else give the patched question |
| AdminRoutes.UpdateQuestion | server/src/routes/admin.ts:180-254 | unknown id gives not-found, a failed check its error, a failed save a server error, each with nothing changed; otherwise the patched question is stored |
| AdminRoutes.DeleteQuestion | server/src/routes/admin.ts:257-288 | unknown id gives not-found; otherwise only that question is removed |
| AdminRoutes.WithoutSessionsOf | server/src/routes/admin.ts:346 | exactly the other players' sessions are kept, unchanged |
| AdminRoutes.RemoveUserKeepsConsistency | server/src/routes/admin.ts:346-349 | removing a user with all their sessions keeps the collections consistent |
| AdminRoutes.MayDelete | server/src/routes/admin.ts:338-343 | the target is not an admin, or is the caller |
| AdminRoutes.DeleteUser | server/src/routes/admin.ts:327-362 | unknown id gives not-found; an admin other than the caller is refused; otherwise the user and all their sessions are removed |
| AdminRoutes.DeletionLeavesNoOrphans | server/src/routes/admin.ts:346 | a session survives exactly when it belongs to another player |
| AdminRoutes.ResetStats | server/src/routes/admin.ts:367-372 | the four counters are 0; name, e-mail and admin flag kept |
| AdminRoutes.ResetAll | server/src/routes/admin.ts:367-372 | every user is kept with their counters cleared |
| AdminRoutes.ResetKeepsUsersConsistent | server/src/routes/admin.ts:367-372 | clearing the counters keeps every user valid and the indexes unique |
| AdminRoutes.ResetLeaderboard | server/src/routes/admin.ts:365-387 | all counters cleared, all sessions deleted, questions kept, consistency kept |
| AdminRoutes.ResetTiesEveryone | server/src/routes/admin.ts:367-372 | after a reset every player is ranked 1 |
| ClientGameStore.GameStore.Stored | client/src/store/gameStore.ts:143-147 | only the user, the token and the settings are persisted |
| ClientGameStore.GameStore.constructor | client/src/store/gameStore.ts:81-102 | nobody signed in, no game, score 0, lives 3, ten seconds, default settings |
| ClientGameStore.GameStore.SetUser | client/src/store/gameStore.ts:105 | sets the user and only the user |
| ClientGameStore.GameStore.SetToken | client/src/store/gameStore.ts:106 | sets the token and only the token |
| ClientGameStore.GameStore.SetCurrentSession | client/src/store/gameStore.ts:107 | sets the session and only the session |
| ClientGameStore.GameStore.SetCurrentQuestion | client/src/store/gameStore.ts:108 | sets the question and only the question |
| ClientGameStore.GameStore.SetScore | client/src/store/gameStore.ts:109 | sets the score and only the score |
| ClientGameStore.GameStore.SetLives | client/src/store/gameStore.ts:110 | sets the lives and only the lives |
| ClientGameStore.GameStore.SetTimeLeft | client/src/store/gameStore.ts:111 | sets the clock and only the clock |
| ClientGameStore.GameStore.SetIsGameActive | client/src/store/gameStore.ts:112 | sets the active flag and only it |
| ClientGameStore.GameStore.SetGameSettings | client/src/store/gameStore.ts:113-114 | the settings become the merge of the old ones with the patch; an empty patch changes nothing |
| ClientGameStore.GameStore.SetLoading | client/src/store/gameStore.ts:115 | sets the loading flag and only it |
| ClientGameStore.GameStore.SetError | client/src/store/gameStore.ts:116 | sets the error and only the error |
| ClientGameStore.GameStore.ResetGame | client/src/store/gameStore.ts:118-126 | game cleared, lives 3, clock 5 for fast and 10 otherwise; user, token, settings and the stored part unchanged |
| ClientGameStore.GameStore.Logout | client/src/store/gameStore.ts:128-138 | user, token and game cleared, clock 10, settings kept; the stored part is only the settings |
| ClientGameStore.LogoutThenReset | client/src/store/gameStore.ts:118-138 | after a logout and a reset nobody is signed in, the settings are kept and the clock follows them |
| ClientStores.AuthStore.constructor | client/src/store/index.ts:31-36 | no user, no token, not signed in |
| ClientStores.AuthStore.SetUser | client/src/store/index.ts:37 | stores the user and marks the store signed in |
| ClientStores.AuthStore.SetToken | client/src/store/index.ts:38 | stores the token and leaves the signed-in flag alone |
| ClientStores.AuthStore.Logout | client/src/store/index.ts:39 | clears user and token and the signed-in flag |
| ClientStores.GameStore.constructor | client/src/store/index.ts:51-61 | default settings, score 0, lives 3, no session, no answers, inactive |
| ClientStores.GameStore.SetSettings | client/src/store/index.ts:62-65 | the settings become the merge of the old ones with the patch |
| ClientStores.GameStore.SetCurrentScore | client/src/store/index.ts:66 | sets the score and only the score |
| ClientStores.GameStore.SetLives | client/src/store/index.ts:67 | sets the lives and only the lives |
| ClientStores.GameStore.SetSessionId | client/src/store/index.ts:68 | sets the session id and only it |
| ClientStores.GameStore.AddAnsweredQuestion | client/src/store/index.ts:69-72 | appends the id: one entry more, the earlier entries unchanged |
| ClientStores.GameStore.SetGameActive | client/src/store/index.ts:73 | sets the active flag and only it |
| ClientStores.GameStore.ResetGame | client/src/store/index.ts:74-81 | score 0, INITIAL_LIVES lives, no session, no answers, inactive; settings untouched |

## Left out

- Authentication: the token middleware, the admin middleware and the token signing at login (server/src/routes/auth.ts:33-37) are library calls. The authenticated user id, and the caller id of the admin routes, are inputs.
- File uploads: the multer set-up (server/src/routes/admin.ts:13-38) and deleting audio files from disk (server/src/routes/admin.ts:230-237, 268-273) are file-system work. An uploaded file arrives as its stored file name.
- The average final score of `/stats` (server/src/routes/admin.ts:51-65) is floating-point arithmetic.
- `parseInt` and `JSON.parse`: their results are inputs (`Option<int>`, `OptionsInput`, `IndexInput`). Only the `|| default` fallbacks and the checks on the parsed values are modelled. Mongoose's casting of option entries and of `isActive` is not modelled.
- Timestamps: `createdAt`, `updatedAt` and the join date in the leaderboard rows are not modelled. The `createdAt` order of the admin listings is the order of the input sequence. `startTime` and `endTime` are opaque times passed in.
- `$sample` is a nondeterministic choice among the eligible questions.
- The relative order of users who tie on both high score and correct answers is left open by MongoDB. `LeaderboardRoutes.SortByRank` fixes one order. Only the rank order and the permutation are proved.
- QuestionRoutes.RandomQuestion: the `$nin` exclusion it promises is the intended one, not what the code does. `excludeIds` arrives as query strings and `aggregate` does not cast them to ObjectIds, so the code excludes nothing and may return a question the player has already answered. That behaviour is modelled separately by `QuestionRoutes.RandomQuestionAsWritten` (see "## Findings").
- QuestionRoutes.GetById: ids are modelled as numbers, so a malformed id string cannot be expressed. In the code, an `:id` or `sessionId` that is not a valid ObjectId makes `findOne`/`findById` throw a CastError, and the route's `catch` answers 500. The model answers not-found. This applies to server/src/routes/questions.ts:46, the admin `:id` routes (server/src/routes/admin.ts:184, 259, 329) and the game session lookups (server/src/routes/game.ts:97, 183) alike.
- Concurrent or retried requests: every request is one sequential, atomic step.
- The unused `timeLeft` field of the answer body, and the unused `passwordHash` field of users.
- Lower-casing covers ASCII letters only; other scripts keep their case.
- The `if (user)` tests of `/answer` and `/end` are not modelled as branches. The consistency invariant proves that the owner of a stored session is always a stored user, so the test always passes.
- Client persistence: writing to and reading from AsyncStorage. Only the persisted subset, `ClientGameStore.GameStore.Stored`, is modelled.
- The client's record types in shared/types.ts (User, Question, GameSession, LeaderboardEntry) are declared as data only. The server-side records are the ones the model works on.
- Screens, components, timers, audio playback and the HTTP client are UI and I/O.

## Findings

| source | as written | input that shows it | evidently intended | confidence | as-written member | corrected member |
|---|---|---|---|---|---|---|
| server/src/routes/questions.ts:10-21 | the excluded ids are query strings, passed uncast to `aggregate`, so `$nin` never matches an ObjectId `_id` | one active question whose id is in `excludeIds` (`QuestionRoutes.AnsweredQuestionComesBack`) | already answered questions are not offered again; with none left the route answers 404 | not executed; rests on `aggregate` not casting its pipeline | QuestionRoutes.RandomQuestionAsWritten | QuestionRoutes.RandomQuestion |
