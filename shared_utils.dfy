/**
 * The helper functions shared by client and server: the per-difficulty
 * time limit, the title earned by a score, and the e-mail and username
 * checks.
 */
module SharedUtils {
  import opened Base
  import opened SharedTypes

  /** Seconds allowed per question. */
  function GetTimeLimit(difficulty: Difficulty): (seconds: int)
    ensures difficulty == Fast ==> seconds == FAST_TIME_LIMIT
    ensures difficulty == Normal ==> seconds == NORMAL_TIME_LIMIT
  {
    if difficulty == Fast then 5 else 10
  }

  // ---------------------------------------------------------------- titles

  /** The table `getUserTitle` keeps locally. */
  const TitleTable: seq<Title> := [
    Title(0, "מתחיל"),
    Title(10, "חניך"),
    Title(25, "תלמיד"),
    Title(50, "בחור"),
    Title(100, "אברך"),
    Title(200, "חכם"),
    Title(500, "רב"),
    Title(1000, "גאון")
  ]

  const FallbackTitle: string := "מתחיל"

  /** The local table is the shared `TITLES` table. */
  lemma TitleTableIsTitles()
    ensures TitleTable == TITLES
    ensures FallbackTitle == TITLES[0].title
  {
  }

  function Reverse<T>(s: seq<T>): (r: seq<T>)
    ensures |r| == |s|
  {
    if s == [] then [] else [s[|s| - 1]] + Reverse(s[..|s| - 1])
  }

  /** `Array.prototype.find` with the predicate `score >= title.minScore`. */
  function FindReached(rows: seq<Title>, score: int): (r: Option<Title>)
    ensures r.Some? ==> r.value in rows && score >= r.value.minScore
    ensures r.None? ==> forall i :: 0 <= i < |rows| ==> score < rows[i].minScore
  {
    if rows == [] then None
    else if score >= rows[0].minScore then Some(rows[0])
    else FindReached(rows[1..], score)
  }

  /** `titles.slice().reverse().find(t => score >= t.minScore)?.title || 'מתחיל'`. */
  function GetUserTitle(score: int): string {
    match FindReached(Reverse(TitleTable), score)
    case Some(row) => if row.title != "" then row.title else FallbackTitle
    case None => FallbackTitle
  }

  /** How many thresholds of the table the score reaches. */
  function Reached(t: seq<Title>, score: int): (n: nat)
    ensures n <= |t|
  {
    if t == [] then 0
    else Reached(t[..|t| - 1], score) + (if t[|t| - 1].minScore <= score then 1 else 0)
  }

  /** In an ascending table the reached thresholds are exactly a prefix. */
  lemma {:induction false} ReachedIsPrefix(t: seq<Title>, score: int)
    requires Ascending(t)
    ensures forall i :: 0 <= i < Reached(t, score) ==> t[i].minScore <= score
    ensures forall i :: Reached(t, score) <= i < |t| ==> score < t[i].minScore
  {
    if t != [] {
      var init := t[..|t| - 1];
      assert Ascending(init);
      ReachedIsPrefix(init, score);
      if t[|t| - 1].minScore <= score {
        assert Reached(t, score) == |t| by {
          assert forall i :: 0 <= i < |init| ==> t[i].minScore <= score;
        }
      }
    }
  }

  /** Searching the reversed table finds the last reached threshold, if any. */
  lemma {:induction false} FindReachedReversed(t: seq<Title>, score: int)
    requires Ascending(t)
    ensures Reached(t, score) == 0 ==> FindReached(Reverse(t), score).None?
    ensures Reached(t, score) > 0 ==> FindReached(Reverse(t), score) == Some(t[Reached(t, score) - 1])
  {
    if t != [] {
      var init := t[..|t| - 1];
      assert Ascending(init);
      assert Reverse(t)[1..] == Reverse(init);
      if t[|t| - 1].minScore <= score {
        ReachedIsPrefix(t, score);
      } else {
        FindReachedReversed(init, score);
      }
    }
  }

  /** The position of a score's title in the table: the last threshold it reaches, or the first row. */
  function Tier(score: int): (i: nat)
    ensures i < |TITLES|
  {
    var n := Reached(TITLES, score);
    if n == 0 then 0 else n - 1
  }

  /** `getUserTitle(s)` is the title of the largest threshold not above `s`;
      a score below every threshold (a negative one) gets the first title. */
  lemma GetUserTitleIsLargestReached(score: int)
    ensures GetUserTitle(score) == TITLES[Tier(score)].title
    ensures score >= 0 ==> TITLES[Tier(score)].minScore <= score
    ensures Tier(score) + 1 < |TITLES| ==> score < TITLES[Tier(score) + 1].minScore
    ensures score < 0 ==> GetUserTitle(score) == "מתחיל"
  {
    TitlesWellFormed();
    TitleTableIsTitles();
    ReachedIsPrefix(TITLES, score);
    FindReachedReversed(TITLES, score);
    var n := Reached(TITLES, score);
    if n > 0 {
      assert FindReached(Reverse(TitleTable), score) == Some(TITLES[n - 1]);
      assert TITLES[n - 1].title != "";
    }
  }

  lemma {:induction false} ReachedMonotone(t: seq<Title>, a: int, b: int)
    requires a <= b
    ensures Reached(t, a) <= Reached(t, b)
  {
    if t != [] {
      ReachedMonotone(t[..|t| - 1], a, b);
    }
  }

  /** A higher score never earns an earlier title. */
  lemma TitleMonotone(a: int, b: int)
    requires a <= b
    ensures Tier(a) <= Tier(b)
  {
    ReachedMonotone(TITLES, a, b);
  }

  lemma TitleBoundaries()
    ensures GetUserTitle(9) == "מתחיל" && GetUserTitle(10) == "חניך"
    ensures GetUserTitle(999) == "רב" && GetUserTitle(1000) == "גאון"
  {
    TitleAt(9, 0);
    TitleAt(10, 1);
    TitleAt(999, 6);
    TitleAt(1000, 7);
  }

  /** A score between the thresholds of rows `i` and `i + 1` gets the title of row `i`. */
  lemma TitleAt(score: int, i: nat)
    requires i < |TITLES| && TITLES[i].minScore <= score
    requires i + 1 < |TITLES| ==> score < TITLES[i + 1].minScore
    ensures GetUserTitle(score) == TITLES[i].title
  {
    TitlesWellFormed();
    GetUserTitleIsLargestReached(score);
  }

  // ---------------------------------------------------------------- e-mail and username

  /** `[^\s@]+` without the `+`: no whitespace and no '@'. */
  predicate Plain(s: string) {
    forall j :: 0 <= j < |s| ==> !IsJsWhitespace(s[j]) && s[j] != '@'
  }

  /** What `/^[^\s@]+@[^\s@]+\.[^\s@]+$/` accepts: three non-empty plain runs around an '@' and a '.'. */
  ghost predicate MatchesEmailPattern(e: string) {
    exists i, k ::
      0 < i && i + 1 < k && k + 1 < |e| && e[i] == '@' && e[k] == '.' &&
      Plain(e[..i]) && Plain(e[i + 1..k]) && Plain(e[k + 1..])
  }

  /** The first position of `c` in `s`. */
  function IndexOf(s: string, c: char): (r: Option<nat>)
    ensures r.Some? ==> r.value < |s| && s[r.value] == c && c !in s[..r.value]
    ensures r.None? ==> c !in s
  {
    if s == [] then None
    else if s[0] == c then Some(0)
    else match IndexOf(s[1..], c)
      case None => None
      case Some(i) => Some(i + 1)
  }

  /** `validateEmail`: a local part, one '@', and a domain with a '.' strictly inside it. */
  function ValidateEmail(e: string): bool {
    match IndexOf(e, '@')
    case None => false
    case Some(i) =>
      var domain := e[i + 1..];
      i >= 1 && Plain(e[..i]) && Plain(domain) && |domain| >= 3 && '.' in domain[1..|domain| - 1]
  }

  lemma PlainSlice(s: string, a: int, b: int)
    requires Plain(s) && 0 <= a <= b <= |s|
    ensures Plain(s[a..b])
  {
  }

  lemma {:induction false} IndexOfFirst(s: string, c: char, i: nat)
    requires i < |s| && s[i] == c && c !in s[..i]
    ensures IndexOf(s, c) == Some(i)
  {
    if i > 0 {
      assert s[0] == s[..i][0];
      assert s[1..][..i - 1] == s[1..i];
      assert c !in s[1..i] by {
        forall j | 0 <= j < i - 1 ensures s[1..i][j] != c { assert s[1..i][j] == s[..i][j + 1]; }
      }
      IndexOfFirst(s[1..], c, i - 1);
    }
  }

  lemma ValidateEmailOnlyMatches(e: string)
    requires ValidateEmail(e)
    ensures MatchesEmailPattern(e)
  {
    var i := IndexOf(e, '@').value;
    var d := e[i + 1..];
    var inner := d[1..|d| - 1];
    var j :| 0 <= j < |inner| && inner[j] == '.';
    var k := i + 2 + j;
    assert e[k] == '.';
    PlainSlice(d, 0, j + 1);
    assert e[i + 1..k] == d[..j + 1];
    PlainSlice(d, j + 2, |d|);
    assert e[k + 1..] == d[j + 2..];
    assert 0 < i && i + 1 < k && k + 1 < |e| && e[i] == '@' && e[k] == '.';
    assert Plain(e[..i]) && Plain(e[i + 1..k]) && Plain(e[k + 1..]);
  }

  lemma MatchesAreValidated(e: string, i: int, k: int)
    requires 0 < i && i + 1 < k && k + 1 < |e| && e[i] == '@' && e[k] == '.'
    requires Plain(e[..i]) && Plain(e[i + 1..k]) && Plain(e[k + 1..])
    ensures ValidateEmail(e)
  {
    assert '@' !in e[..i] by {
      forall j | 0 <= j < i ensures e[..i][j] != '@' { }
    }
    IndexOfFirst(e, '@', i);
    var d := e[i + 1..];
    assert Plain(d) by {
      forall j | 0 <= j < |d| ensures !IsJsWhitespace(d[j]) && d[j] != '@' {
        if j < k - i - 1 { assert d[j] == e[i + 1..k][j]; }
        else if j > k - i - 1 { assert d[j] == e[k + 1..][j - (k - i)]; }
      }
    }
    assert d[1..|d| - 1][k - i - 2] == '.';
  }

  /** `validateEmail` accepts exactly the strings the regular expression matches. */
  lemma ValidateEmailMatchesPattern(e: string)
    ensures ValidateEmail(e) <==> MatchesEmailPattern(e)
  {
    if ValidateEmail(e) {
      ValidateEmailOnlyMatches(e);
    }
    if MatchesEmailPattern(e) {
      var i, k :| 0 < i && i + 1 < k && k + 1 < |e| && e[i] == '@' && e[k] == '.' &&
        Plain(e[..i]) && Plain(e[i + 1..k]) && Plain(e[k + 1..]);
      MatchesAreValidated(e, i, k);
    }
  }

  /** The shape every accepted e-mail has: no whitespace, exactly one '@' with text before it,
      and a '.' after the '@' with text on both of its sides. */
  lemma ValidEmailShape(e: string)
    requires ValidateEmail(e)
    ensures forall j :: 0 <= j < |e| ==> !IsJsWhitespace(e[j])
    ensures exists i ::
      && 0 < i < |e| && e[i] == '@'
      && (forall j :: 0 <= j < |e| && j != i ==> e[j] != '@')
      && (exists k :: i + 1 < k < |e| - 1 && e[k] == '.')
  {
    ValidateEmailMatchesPattern(e);
    var i, k :| 0 < i && i + 1 < k && k + 1 < |e| && e[i] == '@' && e[k] == '.' &&
      Plain(e[..i]) && Plain(e[i + 1..k]) && Plain(e[k + 1..]);
    forall j | 0 <= j < |e| ensures !IsJsWhitespace(e[j]) && (j != i ==> e[j] != '@') {
      if j < i { assert e[..i][j] == e[j]; }
      else if i < j < k { assert e[i + 1..k][j - i - 1] == e[j]; }
      else if j > k { assert e[k + 1..][j - k - 1] == e[j]; }
    }
  }

  /** `validateUsername`: 2 to 20 characters, counted as JavaScript counts them. */
  function ValidateUsername(username: string): bool {
    JsLength(username) >= 2 && JsLength(username) <= 20
  }

  lemma ValidateUsernameBounds(username: string)
    ensures ValidateUsername(username) ==> 1 <= |username| <= 20
    ensures |username| < 1 || |username| > 20 ==> !ValidateUsername(username)
  {
  }

  /** On text without astral characters the check is exactly 2 <= |username| <= 20. */
  lemma ValidateUsernameOfBmp(username: string)
    requires forall i :: 0 <= i < |username| ==> username[i] as int <= 0xFFFF
    ensures ValidateUsername(username) <==> 2 <= |username| <= 20
  {
    JsLengthOfBmp(username);
  }
}
