/**
 * The Question schema as a record, the validity predicate that `save()`
 * enforces, and the value a freshly constructed document takes from the
 * schema defaults and setters.
 */
module QuestionModel {
  import opened Base

  /** One quiz item, as stored. */
  datatype Question = Question(
    aramaic: string,
    hebrew: string,
    options: seq<string>,
    correctAnswer: int,
    audioFile: Option<string>,
    category: string,
    difficulty: string,
    isActive: bool)

  /** The values of the `difficulty` enum. */
  predicate IsDifficulty(d: string) {
    d == "easy" || d == "medium" || d == "hard"
  }

  /** A required, trimmed text field: stored trimmed, refused when empty. */
  predicate RequiredText(s: string) {
    s != "" && IsTrimmed(s)
  }

  /** What the schema accepts: both texts, exactly four options, an answer index 0..3,
      a category and a difficulty from the enum. */
  predicate ValidQuestion(q: Question) {
    && RequiredText(q.aramaic)
    && RequiredText(q.hebrew)
    && |q.options| == 4
    && 0 <= q.correctAnswer <= 3
    && (q.audioFile.Some? ==> IsTrimmed(q.audioFile.value))
    && q.category != ""
    && IsDifficulty(q.difficulty)
  }

  /** `new Question({...})` with category, difficulty and isActive left to their defaults. */
  function WithDefaults(aramaic: string, hebrew: string, options: seq<string>, correctAnswer: int): Question {
    Question(Trim(aramaic), Trim(hebrew), options, correctAnswer, None, "general", "medium", true)
  }

  lemma DefaultsAreValid(aramaic: string, hebrew: string, options: seq<string>, correctAnswer: int)
    requires Trim(aramaic) != "" && Trim(hebrew) != ""
    requires |options| == 4 && 0 <= correctAnswer <= 3
    ensures var q := WithDefaults(aramaic, hebrew, options, correctAnswer);
      && ValidQuestion(q)
      && q.category == "general" && q.difficulty == "medium" && q.isActive
  {
    TrimIsTrimmed(aramaic);
    TrimIsTrimmed(hebrew);
  }

  /** The stored answer always names one of the options. */
  lemma CorrectAnswerIndexesOptions(q: Question)
    requires ValidQuestion(q)
    ensures 0 <= q.correctAnswer < |q.options|
  {
  }

  /** A question with other than four options is refused. */
  lemma OptionsMustBeFour(q: Question)
    requires |q.options| != 4
    ensures !ValidQuestion(q)
  {
  }
}
