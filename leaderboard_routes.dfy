/**
 * The leaderboard routes: the order MongoDB's
 * `sort({ highScore: -1, correctAnswers: -1 })` gives, the paged board with
 * its contiguous ranks, the rank count of `/rank/:userId`, and the capped
 * `/top/:count` list. Everything is a function of the user collection.
 */
module LeaderboardRoutes {
  import opened Base
  import opened UserModel
  import opened SharedUtils
  import opened Pagination

  datatype LeaderboardError = UserNotFound | ServerError

  /** `a` comes strictly before `b`: a higher best score, or the same one and more correct answers. */
  predicate Outranks(a: User, b: User) {
    a.highScore > b.highScore || (a.highScore == b.highScore && a.correctAnswers > b.correctAnswers)
  }

  /** Nobody is placed after someone they outrank. */
  predicate RankOrdered(s: seq<User>) {
    forall i, j :: 0 <= i < j < |s| ==> !Outranks(s[j], s[i])
  }

  /** Outranking is a strict order, so sorting by it is well defined. */
  lemma OutranksIsStrictOrder(a: User, b: User, c: User)
    ensures !Outranks(a, a)
    ensures Outranks(a, b) ==> !Outranks(b, a)
    ensures Outranks(a, b) && Outranks(b, c) ==> Outranks(a, c)
  {
  }

  // ---------------------------------------------------------------- the sort

  /** Puts `u` in front of the first user it outranks. */
  function Insert(u: User, s: seq<User>): (r: seq<User>)
    ensures |r| == |s| + 1
    ensures multiset(r) == multiset(s) + multiset{u}
  {
    if s == [] then [u]
    else if Outranks(u, s[0]) then [u] + s
    else
      assert s == [s[0]] + s[1..];
      [s[0]] + Insert(u, s[1..])
  }

  lemma {:induction false} InsertOrdered(u: User, s: seq<User>)
    requires RankOrdered(s)
    ensures RankOrdered(Insert(u, s))
  {
    if s != [] && !Outranks(u, s[0]) {
      var rest := s[1..];
      assert RankOrdered(rest) by {
        forall i, j | 0 <= i < j < |rest| ensures !Outranks(rest[j], rest[i]) {
          assert rest[i] == s[i + 1] && rest[j] == s[j + 1];
        }
      }
      InsertOrdered(u, rest);
      forall k | 0 <= k < |rest| ensures !Outranks(rest[k], s[0]) {
        assert rest[k] == s[k + 1];
      }
      InsertKeepsBound(u, rest, s[0]);
    }
  }

  /** Nobody in `Insert(u, s)` outranks `b` when neither `u` nor anyone in `s` does. */
  lemma {:induction false} InsertKeepsBound(u: User, s: seq<User>, b: User)
    requires !Outranks(u, b)
    requires forall k :: 0 <= k < |s| ==> !Outranks(s[k], b)
    ensures forall k :: 0 <= k < |Insert(u, s)| ==> !Outranks(Insert(u, s)[k], b)
  {
    if s != [] && !Outranks(u, s[0]) {
      var rest := s[1..];
      forall k | 0 <= k < |rest| ensures !Outranks(rest[k], b) {
        assert rest[k] == s[k + 1];
      }
      InsertKeepsBound(u, rest, b);
    }
  }

  /** The collection in the leaderboard order (the relative order of exact ties is left open
      by MongoDB; this one keeps the later document first). */
  function SortByRank(docs: seq<User>): (r: seq<User>)
    ensures |r| == |docs|
    ensures multiset(r) == multiset(docs)
  {
    if docs == [] then []
    else
      assert docs == [docs[0]] + docs[1..];
      Insert(docs[0], SortByRank(docs[1..]))
  }

  /** The sort puts the collection in leaderboard order and keeps every user exactly once. */
  lemma {:induction false} SortByRankSorts(docs: seq<User>)
    ensures RankOrdered(SortByRank(docs))
    ensures multiset(SortByRank(docs)) == multiset(docs)
  {
    if docs != [] {
      SortByRankSorts(docs[1..]);
      InsertOrdered(docs[0], SortByRank(docs[1..]));
    }
  }

  // ---------------------------------------------------------------- GET /

  /** One row of the board (the join date is left out with the timestamps). */
  datatype Row = Row(rank: int, username: string, score: int, correctAnswers: int, gamesPlayed: int, title: string)

  function RowOf(rank: int, u: User): (r: Row)
    ensures r.rank == rank && r.username == u.username && r.score == u.highScore
    ensures r.correctAnswers == u.correctAnswers && r.gamesPlayed == u.gamesPlayed
    ensures r.title == GetUserTitle(u.highScore)
  {
    Row(rank, u.username, u.highScore, u.correctAnswers, u.gamesPlayed, GetUserTitle(u.highScore))
  }

  datatype Board = Board(leaderboard: seq<Row>, pagination: PageInfo)

  /** `users.map((user, index) => ...)` with ranks counted on from `skip + 1`. */
  function RowsFrom(users: seq<User>, skip: int): (r: seq<Row>)
    ensures |r| == |users|
    ensures forall i :: 0 <= i < |r| ==> r[i] == RowOf(skip + i + 1, users[i])
  {
    seq(|users|, i requires 0 <= i < |users| => RowOf(skip + i + 1, users[i]))
  }

  /** GET /: one page of the ordered users, ranked by position from `skip + 1` on. */
  function Leaderboard(docs: seq<User>, pageQ: Option<int>, limitQ: Option<int>): (r: Result<Board, LeaderboardError>)
    ensures var w := WindowOf(pageQ, limitQ);
      && (r.Err? <==> w.skip < 0)
      && (r.Err? ==> r.error == ServerError)
      && (r.Ok? ==>
        && r.value.pagination == InfoOf(w, |docs|)
        && |r.value.leaderboard| <= Abs(w.limit)
        && (forall i :: 0 <= i < |r.value.leaderboard| ==>
              && 0 <= w.skip + i < |docs|
              && r.value.leaderboard[i] == RowOf(w.skip + i + 1, SortByRank(docs)[w.skip + i])))
  {
    var w := WindowOf(pageQ, limitQ);
    var sorted := SortByRank(docs);
    var page := Slice(sorted, w.skip, w.limit);
    if page.None? then Err(ServerError)
    else
      Ok(Board(RowsFrom(page.value, w.skip), InfoOf(w, |docs|)))
  }

  /** On a page the ranks run on without a gap, and a row never ranks above a row after it. */
  lemma LeaderboardRanksContiguous(docs: seq<User>, pageQ: Option<int>, limitQ: Option<int>)
    requires Leaderboard(docs, pageQ, limitQ).Ok?
    ensures var rows := Leaderboard(docs, pageQ, limitQ).value.leaderboard;
      var skip := WindowOf(pageQ, limitQ).skip;
      && (forall i :: 0 <= i < |rows| ==> rows[i].rank == skip + 1 + i)
      && (forall i, j :: 0 <= i < j < |rows| ==>
            rows[i].score > rows[j].score ||
            (rows[i].score == rows[j].score && rows[i].correctAnswers >= rows[j].correctAnswers))
  {
    var rows := Leaderboard(docs, pageQ, limitQ).value.leaderboard;
    var w := WindowOf(pageQ, limitQ);
    SortByRankSorts(docs);
    var sorted := SortByRank(docs);
    forall i, j | 0 <= i < j < |rows|
      ensures rows[i].score > rows[j].score ||
              (rows[i].score == rows[j].score && rows[i].correctAnswers >= rows[j].correctAnswers)
    {
      assert !Outranks(sorted[w.skip + j], sorted[w.skip + i]);
    }
  }

  /** A page is as full as the collection allows: `limit` rows, or the rest of the ordered
      users on the last page, and none past the end. */
  lemma LeaderboardPageIsFull(docs: seq<User>, pageQ: Option<int>, limitQ: Option<int>)
    requires Leaderboard(docs, pageQ, limitQ).Ok?
    ensures var w := WindowOf(pageQ, limitQ);
      |Leaderboard(docs, pageQ, limitQ).value.leaderboard| ==
        if w.skip >= |docs| then 0 else Min(Abs(w.limit), |docs| - w.skip)
  {
    var w := WindowOf(pageQ, limitQ);
    var page := Slice(SortByRank(docs), w.skip, w.limit);
    assert |RowsFrom(page.value, w.skip)| == |page.value|;
  }

  /** With no query, the first fifty users in order are listed, ranked 1 to 50 at most. */
  lemma DefaultPageIsFirstFifty(docs: seq<User>)
    ensures var r := Leaderboard(docs, None, None);
      && r.Ok?
      && |r.value.leaderboard| == Min(50, |docs|)
      && r.value.pagination.currentPage == 1
      && !r.value.pagination.hasPrev
      && (r.value.pagination.hasNext <==> |docs| > 50)
  {
  }

  // ---------------------------------------------------------------- GET /rank/:userId

  /** The users that place strictly before `u`. */
  function Above(users: map<UserId, User>, u: User): set<UserId> {
    set id | id in users && Outranks(users[id], u)
  }

  datatype RankInfo = RankInfo(rank: int, username: string, score: int, title: string)

  /** GET /rank/:userId: one more than the number of users placed strictly before. */
  function RankOf(users: map<UserId, User>, userId: UserId): (r: Result<RankInfo, LeaderboardError>)
    ensures r.Err? <==> userId !in users
    ensures r.Err? ==> r.error == UserNotFound
    ensures r.Ok? ==>
      var u := users[userId];
      && r.value.rank == |Above(users, u)| + 1
      && r.value.rank >= 1
      && r.value.username == u.username && r.value.score == u.highScore
      && r.value.title == GetUserTitle(u.highScore)
  {
    if userId !in users then Err(UserNotFound)
    else
      var u := users[userId];
      Ok(RankInfo(|Above(users, u)| + 1, u.username, u.highScore, GetUserTitle(u.highScore)))
  }

  /** Users with the same best score and correct count share a rank. */
  lemma TiesShareRank(users: map<UserId, User>, a: UserId, b: UserId)
    requires a in users && b in users
    requires users[a].highScore == users[b].highScore && users[a].correctAnswers == users[b].correctAnswers
    ensures RankOf(users, a).value.rank == RankOf(users, b).value.rank
  {
    assert Above(users, users[a]) == Above(users, users[b]);
  }

  /** A user who outranks another has a strictly better (smaller) rank; the best user is first. */
  lemma OutrankingMeansBetterRank(users: map<UserId, User>, a: UserId, b: UserId)
    requires a in users && b in users && Outranks(users[a], users[b])
    ensures RankOf(users, a).value.rank < RankOf(users, b).value.rank
  {
    var above := Above(users, users[a]);
    var belowB := Above(users, users[b]);
    forall x | x in above ensures x in belowB {
      OutranksIsStrictOrder(users[x], users[a], users[b]);
    }
    OutranksIsStrictOrder(users[a], users[a], users[b]);
    assert a in belowB - above;
    assert belowB == above + (belowB - above);
    assert |belowB| == |above| + |belowB - above|;
  }

  /** A user nobody outranks is ranked first. */
  lemma UnbeatenIsFirst(users: map<UserId, User>, a: UserId)
    requires a in users && forall x :: x in users ==> !Outranks(users[x], users[a])
    ensures RankOf(users, a).value.rank == 1
  {
    assert Above(users, users[a]) == {};
  }

  // ---------------------------------------------------------------- GET /top/:count

  datatype TopRow = TopRow(rank: int, username: string, score: int, correctAnswers: int, title: string)

  /** `Math.min(parseInt(count) || 10, 100)`. */
  function TopCount(countQ: Option<int>): (n: int)
    ensures n != 0 && n <= 100
    ensures countQ.None? || countQ == Some(0) ==> n == 10
    ensures countQ.Some? && 0 < countQ.value ==> n == Min(countQ.value, 100)
  {
    Min(OrDefault(countQ, 10), 100)
  }

  /** GET /top/:count: the first users in leaderboard order, ranked from 1. */
  function Top(docs: seq<User>, countQ: Option<int>): (r: seq<TopRow>)
    ensures |r| == Min(Abs(TopCount(countQ)), |docs|)
    ensures countQ.None? ==> |r| == Min(10, |docs|)
    ensures forall i :: 0 <= i < |r| ==>
      var u := SortByRank(docs)[i];
      r[i] == TopRow(i + 1, u.username, u.highScore, u.correctAnswers, GetUserTitle(u.highScore))
  {
    var sorted := SortByRank(docs);
    var users := Slice(sorted, 0, TopCount(countQ)).value;
    assert |users| == Min(Abs(TopCount(countQ)), |docs|);
    assert forall i :: 0 <= i < |users| ==> users[i] == sorted[i];
    seq(|users|, i requires 0 <= i < |users| =>
      TopRow(i + 1, users[i].username, users[i].highScore, users[i].correctAnswers, GetUserTitle(users[i].highScore)))
  }

  /** A non-negative count above the cap is cut to one hundred players. */
  lemma TopIsCapped(docs: seq<User>, countQ: Option<int>)
    requires countQ.Some? && countQ.value >= 0
    ensures |Top(docs, countQ)| <= 100
  {
  }

  /** A negative count passes `Math.min` unchanged and MongoDB reads a negative limit as its
      magnitude, so `/top/-n` lists up to `n` players, past the cap of one hundred. */
  lemma NegativeCountBypassesCap(docs: seq<User>, n: int)
    requires n > 0
    ensures |Top(docs, Some(-n))| == Min(n, |docs|)
    ensures |docs| > 100 && n > 100 ==> |Top(docs, Some(-n))| > 100
  {
  }
}
