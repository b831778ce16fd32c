/** The pagination arithmetic that every list endpoint repeats: `offset = (page - 1) * limit`,
    `totalPages = Math.ceil(count / limit)`, `hasNextPage = page < totalPages`, `hasPrevPage = page > 1`,
    together with the `LIMIT`/`OFFSET` window the query returns. */
module Pagination {

  /** A JavaScript number as this arithmetic can produce it: `count / 0` is `Infinity`, `0 / 0` is `NaN`. */
  datatype Number = Finite(n: int) | Infinity | NaN

  /** `page < x` on a JavaScript number: true against `Infinity`, false against `NaN`. */
  predicate LessThan(page: int, x: Number) {
    match x
    case Finite(n) => page < n
    case Infinity => true
    case NaN => false
  }

  /** `(parseInt(page) - 1) * parseInt(limit)`. */
  function Offset(page: int, limit: int): int {
    (page - 1) * limit
  }

  /** `Math.ceil(count / limit)`: for a positive limit, the least number of pages of `limit` items covering `count`. */
  function TotalPages(count: nat, limit: int): (r: Number)
    ensures limit > 0 ==> r.Finite? && r.n >= 0 && r.n * limit >= count && (r.n - 1) * limit < count
    ensures limit == 0 ==> r == (if count == 0 then NaN else Infinity)
    ensures limit < 0 ==> r.Finite? && r.n <= 0
  {
    if limit > 0 then
      var q := (count + limit - 1) / limit;
      CeilBounds(count, limit, q);
      Finite(q)
    else if limit == 0 then
      if count == 0 then NaN else Infinity
    else
      Finite(-(count / -limit))
  }

  lemma CeilBounds(count: nat, limit: int, q: int)
    requires limit > 0 && q == (count + limit - 1) / limit
    ensures q >= 0 && q * limit >= count && (q - 1) * limit < count
  {
    var rem := (count + limit - 1) % limit;
    assert count + limit - 1 == q * limit + rem;
    assert 0 <= rem < limit;
  }

  /** The `pagination` object of a list response. */
  datatype Meta = Meta(currentPage: int, totalPages: Number, totalItems: nat, itemsPerPage: int,
                       hasNextPage: bool, hasPrevPage: bool)

  function Paginate(page: int, limit: int, count: nat): (m: Meta)
    ensures m.currentPage == page && m.totalItems == count && m.itemsPerPage == limit
    ensures m.totalPages == TotalPages(count, limit)
    ensures m.hasPrevPage <==> page > 1
    ensures limit == 0 ==> (m.hasNextPage <==> count > 0)
  {
    var total := TotalPages(count, limit);
    Meta(page, total, count, limit, LessThan(page, total), page > 1)
  }

  /** With a positive limit, a next page is announced exactly when items remain after this page's window. */
  lemma {:induction false} HasNextPageIffItemsRemain(page: int, limit: int, count: nat)
    requires limit > 0
    ensures Paginate(page, limit, count).hasNextPage <==> Offset(page, limit) + limit < count
  {
    var t := TotalPages(count, limit).n;
    assert Offset(page, limit) + limit == page * limit;
    if page < t {
      MulMonotone(page, t - 1, limit);
    } else {
      MulMonotone(t, page, limit);
    }
  }

  lemma MulMonotone(a: int, b: int, c: int)
    requires a <= b && c >= 0
    ensures a * c <= b * c
  {
    assert b * c - a * c == (b - a) * c;
  }

  /** The rows a `LIMIT limit OFFSET offset` query returns from the filtered, ordered result. */
  function Window<T>(items: seq<T>, offset: nat, limit: nat): (r: seq<T>)
    ensures |r| <= limit
    ensures offset >= |items| ==> r == []
    ensures forall i :: 0 <= i < |r| ==> offset + i < |items| && r[i] == items[offset + i]
  {
    var lo := if offset < |items| then offset else |items|;
    var hi := if offset + limit < |items| then offset + limit else |items|;
    items[lo..hi]
  }

  /** The rows of page `page` (counted from 1) for a positive limit. */
  function PageRows<T>(items: seq<T>, page: nat, limit: nat): seq<T>
    requires page >= 1
  {
    Window(items, (page - 1) * limit, limit)
  }

  /** The concatenation of pages 1..k. */
  function FirstPages<T>(items: seq<T>, limit: nat, k: nat): seq<T> {
    if k == 0 then [] else FirstPages(items, limit, k - 1) + PageRows(items, k, limit)
  }

  lemma {:induction false} FirstPagesArePrefix<T>(items: seq<T>, limit: nat, k: nat)
    ensures var n := if k * limit < |items| then k * limit else |items|;
      FirstPages(items, limit, k) == items[..n]
  {
    if k > 0 {
      FirstPagesArePrefix(items, limit, k - 1);
      assert (k - 1) * limit + limit == k * limit;
      MulMonotone(k - 1, k, limit);
    }
  }

  /** Pages 1..totalPages together list every item exactly once and in order. */
  lemma PagesCoverItems<T>(items: seq<T>, limit: nat)
    requires limit > 0
    ensures FirstPages(items, limit, TotalPages(|items|, limit).n) == items
  {
    FirstPagesArePrefix(items, limit, TotalPages(|items|, limit).n);
  }

  /** Every page after the last announced one is empty. */
  lemma PagesBeyondTotalAreEmpty<T>(items: seq<T>, limit: nat, page: nat)
    requires limit > 0 && page > TotalPages(|items|, limit).n
    ensures PageRows(items, page, limit) == []
  {
    MulMonotone(TotalPages(|items|, limit).n, page - 1, limit);
  }
}
