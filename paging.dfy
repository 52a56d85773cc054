/**
 * The paging rules both repositories share: the argument check, `Skip((page - 1) * pageSize)
 * .Take(pageSize)`, and `PagesNumberAsync`'s arithmetic with C#'s truncating `/` and `%`.
 */
module Paging {
  import opened Wrappers

  const MaxPageSize := 100
  const DefaultPageSize := 20
  /** Seconds a cache entry lives (`Constants.CachingExpiration`); expiry is an explicit step of the cache model. */
  const CachingExpiration := 1800

  /** The guard of the paged queries: `page < 1 || pageSize < 1 || pageSize > MaxPageSize` throws. */
  predicate ValidPaging(page: int, pageSize: int)
  {
    page >= 1 && 1 <= pageSize <= MaxPageSize
  }

  function Min(a: int, b: int): int
  {
    if a <= b then a else b
  }

  /** The number of rows the paged queries skip: `(page - 1) * pageSize`. */
  function Offset(page: int, pageSize: int): (r: nat)
    requires ValidPaging(page, pageSize)
  {
    (page - 1) * pageSize
  }

  /** `s.Skip((page - 1) * pageSize).Take(pageSize)`. */
  function Page<T>(s: seq<T>, page: int, pageSize: int): (r: seq<T>)
    requires ValidPaging(page, pageSize)
    ensures |r| <= pageSize
    ensures |r| == if Offset(page, pageSize) >= |s| then 0 else Min(pageSize, |s| - Offset(page, pageSize))
    ensures forall i :: 0 <= i < |r| ==> Offset(page, pageSize) + i < |s| && r[i] == s[Offset(page, pageSize) + i]
  {
    var start := Offset(page, pageSize);
    if start >= |s| then [] else s[start..Min(start + pageSize, |s|)]
  }

  /** The element at index `j` sits on page `j / pageSize + 1`, at position `j % pageSize`. */
  lemma {:induction false} PageCoversIndex<T>(s: seq<T>, pageSize: int, j: int)
    requires 1 <= pageSize <= MaxPageSize && 0 <= j < |s|
    ensures ValidPaging(j / pageSize + 1, pageSize)
    ensures var p := Page(s, j / pageSize + 1, pageSize);
            j % pageSize < |p| && p[j % pageSize] == s[j]
  {
    var q, m := j / pageSize, j % pageSize;
    var o := PageStart(j, pageSize);
    var p := Page(s, q + 1, pageSize);
    assert |p| == Min(pageSize, |s| - o);
    assert p[m] == s[o + m];
  }

  /** Index `j` splits into the offset of its page and its position there. */
  lemma PageStart(j: nat, pageSize: int) returns (o: nat)
    requires 1 <= pageSize <= MaxPageSize
    ensures j / pageSize >= 0 && 0 <= j % pageSize < pageSize
    ensures o == Offset(j / pageSize + 1, pageSize) && o + j % pageSize == j
  {
    var q, m := j / pageSize, j % pageSize;
    assert q + 1 - 1 == q;
    o := Offset(q + 1, pageSize);
    assert o == q * pageSize;
    assert j == pageSize * q + m;
  }

  /** C#'s integer `/`, which truncates toward zero. */
  function CsDiv(a: int, b: int): (r: int)
    requires b != 0
    ensures a >= 0 && b > 0 ==> r == a / b
    ensures a >= 0 && b < 0 ==> r == -(a / -b)
    ensures a < 0 && b > 0 ==> r == -((-a) / b)
    ensures a < 0 && b < 0 ==> r == (-a) / (-b)
  {
    if (a >= 0) == (b > 0) then
      (if a >= 0 then a / b else (-a) / (-b))
    else
      -((if a >= 0 then a else -a) / (if b > 0 then b else -b))
  }

  /** C#'s integer `%`: `a - b * (a / b)`, with the sign of the dividend and below `|b|` in size. */
  function CsRem(a: int, b: int): (r: int)
    requires b != 0
    ensures a == b * CsDiv(a, b) + r
    ensures a >= 0 && b > 0 ==> r == a % b
    ensures a >= 0 ==> 0 <= r < Abs(b)
    ensures a < 0 ==> -Abs(b) < r <= 0
  {
    CsRemMagnitude(a, b);
    a - b * CsDiv(a, b)
  }

  /** `a - b * CsDiv(a, b)` is `Abs(a) % Abs(b)` carrying the sign of `a`. */
  lemma CsRemMagnitude(a: int, b: int)
    requires b != 0
    ensures a - b * CsDiv(a, b) == if a >= 0 then Abs(a) % Abs(b) else -(Abs(a) % Abs(b))
  {
    var q, m := Abs(a) / Abs(b), Abs(a) % Abs(b);
    var p := Abs(b) * q;
    assert Abs(a) == p + m;
    if a >= 0 && b > 0 {
      assert b * CsDiv(a, b) == p;
    } else if a >= 0 {
      assert CsDiv(a, b) == -q;
      assert b * CsDiv(a, b) == (-Abs(b)) * (-q) == p;
    } else if b > 0 {
      assert CsDiv(a, b) == -q;
      assert b * CsDiv(a, b) == Abs(b) * (-q) == -p;
    } else {
      assert CsDiv(a, b) == q;
      assert b * CsDiv(a, b) == (-Abs(b)) * q == -p;
    }
  }

  function Abs(n: int): int
  {
    if n < 0 then -n else n
  }

  /**
   * `PagesNumberAsync(pageSize)` on a count of `count` rows: only `pageSize > MaxPageSize` is
   * rejected; a zero page size divides by zero and a negative one yields a count that is not a
   * number of pages.
   */
  function PagesNumber(count: int, pageSize: int): (r: Result<int>)
    ensures pageSize > MaxPageSize <==> r == Fail(ArgumentOutOfRange)
    ensures pageSize == 0 <==> r == Fail(DivideByZero)
    ensures pageSize != 0 && pageSize <= MaxPageSize <==> r.Ok?
  {
    if pageSize > MaxPageSize then Fail(ArgumentOutOfRange)
    else if pageSize == 0 then Fail(DivideByZero)
    else Ok(CsDiv(count, pageSize) + (if CsRem(count, pageSize) > 0 then 1 else 0))
  }

  /** `n` is the least number of pages of `pageSize` rows that hold `count` rows. */
  predicate IsPageCount(n: int, count: nat, pageSize: int)
  {
    n >= 0 && n * pageSize >= count && (n == 0 || (n - 1) * pageSize < count)
  }

  /** For a page size the paged queries accept, `PagesNumber` is the ceiling of `count / pageSize`. */
  lemma {:induction false} PagesNumberIsCeiling(count: nat, pageSize: int)
    requires 1 <= pageSize <= MaxPageSize
    ensures PagesNumber(count, pageSize).Ok?
    ensures IsPageCount(PagesNumber(count, pageSize).value, count, pageSize)
  {
    var q, m := count / pageSize, count % pageSize;
    assert count == q * pageSize + m && 0 <= m < pageSize;
    var n := PagesNumber(count, pageSize).value;
    if m > 0 {
      assert n == q + 1;
      assert n * pageSize == q * pageSize + pageSize;
    } else {
      assert n == q;
      if q > 0 {
        assert (q - 1) * pageSize == q * pageSize - pageSize;
      }
    }
  }

  /** The pages `PagesNumber` counts are exactly the non-empty ones: its last page has rows, the next has none. */
  lemma {:induction false} LastPage<T>(s: seq<T>, pageSize: int)
    requires 1 <= pageSize <= MaxPageSize && |s| > 0
    ensures PagesNumber(|s|, pageSize).Ok? && PagesNumber(|s|, pageSize).value >= 1
    ensures var n := PagesNumber(|s|, pageSize).value;
            Page(s, n, pageSize) != [] && Page(s, n + 1, pageSize) == []
  {
    PagesNumberIsCeiling(|s|, pageSize);
    var n := PagesNumber(|s|, pageSize).value;
    assert n * pageSize >= |s| > 0;
    assert n >= 1;
    assert Offset(n, pageSize) == (n - 1) * pageSize;
    assert Offset(n + 1, pageSize) == n * pageSize;
  }

  /**
   * A negative page size passes the guard, and the result is then no ceiling of anything: it is
   * at most 1 whatever the count, so 5 rows in pages of "-2" make -1 pages and 1 row makes 1.
   */
  lemma PagesNumberAcceptsNegativeSize(count: nat, pageSize: int)
    requires pageSize < 0
    ensures PagesNumber(count, pageSize).Ok? && PagesNumber(count, pageSize).value <= 1
    ensures PagesNumber(5, -2) == Ok(-1) && PagesNumber(1, -2) == Ok(1)
  {
    var q := CsDiv(count, pageSize);
    assert q <= 0;
    assert CsDiv(5, -2) == -2 && CsRem(5, -2) == 1;
    assert CsDiv(1, -2) == 0 && CsRem(1, -2) == 1;
  }

  /**
   * `PagesNumberAsync` as its own message ("Page and pageSize must be greater than 0") and the
   * paged queries' guard intend it: every page size outside `1..MaxPageSize` is rejected.
   */
  function PagesNumberChecked(count: nat, pageSize: int): (r: Result<int>)
    ensures r.Fail? <==> !(1 <= pageSize <= MaxPageSize)
    ensures r.Fail? ==> r.error == ArgumentOutOfRange
    ensures r.Ok? ==> IsPageCount(r.value, count, pageSize)
  {
    if pageSize < 1 || pageSize > MaxPageSize then Fail(ArgumentOutOfRange)
    else
      PagesNumberIsCeiling(count, pageSize);
      PagesNumber(count, pageSize)
  }
}
