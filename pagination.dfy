/**
 * The page arithmetic shared by the leaderboard and the admin listings:
 * `page` and `limit` read from the query string with their `|| default`
 * fallbacks, `skip = (page - 1) * limit`, MongoDB's `skip`/`limit` on an
 * ordered result, and the pagination block of the response.
 */
module Pagination {
  import opened Base

  /** `parseInt(q) || d`: a value that does not parse (NaN) and 0 are both falsy. */
  function OrDefault(q: Option<int>, d: int): (r: int)
    ensures q.Some? && q.value != 0 ==> r == q.value
    ensures q.None? || q.value == 0 ==> r == d
  {
    match q
    case Some(v) => if v != 0 then v else d
    case None => d
  }

  function Abs(n: int): nat {
    if n < 0 then -n else n
  }

  function Min(a: int, b: int): int {
    if a < b then a else b
  }

  /** The page, the limit and the number of rows to skip, as a route computes them. */
  datatype Window = Window(page: int, limit: int, skip: int)

  function WindowOf(pageQ: Option<int>, limitQ: Option<int>): (w: Window)
    ensures w.page == OrDefault(pageQ, 1) && w.limit == OrDefault(limitQ, 50)
    ensures w.page != 0 && w.limit != 0
    ensures w.skip == (w.page - 1) * w.limit
    ensures pageQ.None? && limitQ.None? ==> w == Window(1, 50, 0)
  {
    var page := OrDefault(pageQ, 1);
    var limit := OrDefault(limitQ, 50);
    Window(page, limit, (page - 1) * limit)
  }

  /** `Math.ceil(t / l)`: the least integer not below the quotient. */
  function CeilDiv(t: nat, l: int): (q: int)
    requires l != 0
    ensures l > 0 ==> (q - 1) * l < t <= q * l
    ensures l < 0 ==> q * l <= t < (q - 1) * l
  {
    if l > 0 then
      CeilDivPositive(t, l);
      (t + l - 1) / l
    else
      CeilDivNegative(t, -l);
      -(t / -l)
  }

  lemma CeilDivPositive(t: nat, l: int)
    requires l > 0
    ensures ((t + l - 1) / l - 1) * l < t <= ((t + l - 1) / l) * l
  {
    var q := (t + l - 1) / l;
    var m := (t + l - 1) % l;
    assert t + l - 1 == q * l + m;
    assert (q - 1) * l == q * l - l;
  }

  lemma CeilDivNegative(t: nat, m: int)
    requires m > 0
    ensures -(t / m) * -m <= t < (-(t / m) - 1) * -m
  {
    var d := t / m;
    assert t == d * m + t % m;
    assert -d * -m == d * m;
    assert (-d - 1) * -m == d * m + m;
  }

  /** `skip(s).limit(l)` on the ordered rows. MongoDB refuses a negative skip (the route
      answers with a server error) and reads a negative limit as its magnitude. */
  function Slice<T>(rows: seq<T>, skip: int, limit: int): (r: Option<seq<T>>)
    requires limit != 0
    ensures r.None? <==> skip < 0
    ensures r.Some? ==> |r.value| == if skip >= |rows| then 0 else Min(Abs(limit), |rows| - skip)
    ensures r.Some? ==> forall i :: 0 <= i < |r.value| ==> r.value[i] == rows[skip + i]
  {
    if skip < 0 then None
    else if skip >= |rows| then Some([])
    else Some(rows[skip..skip + Min(Abs(limit), |rows| - skip)])
  }

  /** The `pagination` block of a listing response. */
  datatype PageInfo = PageInfo(currentPage: int, totalPages: int, total: nat, hasNext: bool, hasPrev: bool)

  function InfoOf(w: Window, total: nat): (p: PageInfo)
    requires w.limit != 0
    ensures p.currentPage == w.page && p.total == total
    ensures p.hasNext <==> w.page * w.limit < total
    ensures p.hasPrev <==> w.page > 1
    ensures p.totalPages == CeilDiv(total, w.limit)
  {
    PageInfo(w.page, CeilDiv(total, w.limit), total, w.page * w.limit < total, w.page > 1)
  }

  lemma MulLeft(a: int, b: int, l: int)
    requires l > 0 && a <= b
    ensures a * l <= b * l
  {
  }

  /** For an ordinary page (page and limit positive) there is a next page exactly when the
      current page is before the last one, and rows exist past the window exactly then. */
  lemma HasNextIffBeforeLastPage(w: Window, total: nat)
    requires w.page >= 1 && w.limit >= 1 && w.skip == (w.page - 1) * w.limit
    ensures InfoOf(w, total).hasNext <==> w.page < InfoOf(w, total).totalPages
    ensures InfoOf(w, total).hasNext <==> w.skip + w.limit < total
  {
    var q := CeilDiv(total, w.limit);
    if w.page * w.limit < total {
      if q <= w.page {
        MulLeft(q, w.page, w.limit);
      }
    }
    if w.page < q {
      MulLeft(w.page, q - 1, w.limit);
    }
    assert w.skip + w.limit == w.page * w.limit;
  }
}
