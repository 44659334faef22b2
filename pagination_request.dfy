/** `PaginationRequest`: the page the caller asks for, its validation
    ranges, and the number of rows a query skips to reach it. */
module PaginationRequests {
  import opened Nullable
  import Int32
  import opened ApiResponses

  datatype PaginationRequest = PaginationRequest(
    page: int,
    pageSize: int,
    sortBy: Option<string>,
    sortDirection: string)

  /** The request a caller gets when it sets nothing: page 1 of 20, ascending. */
  const DefaultRequest := PaginationRequest(1, 20, None, "asc")

  /** The `[Range]` annotations: a page from 1 to `int.MaxValue` and a page
      size from 1 to 100. */
  predicate Valid(r: PaginationRequest)
  {
    1 <= r.page <= Int32.MaxValue && 1 <= r.pageSize <= 100
  }

  /** `Skip` as written: `(Page - 1) * PageSize` in 32-bit arithmetic, both
      the subtraction and the multiplication unchecked. */
  function SkipAsWritten(r: PaginationRequest): (s: int)
    requires Int32.InRange(r.page) && Int32.InRange(r.pageSize)
    ensures Int32.InRange(s)
    ensures r.page > Int32.MinValue ==>
              (Int32.InRange((r.page - 1) * r.pageSize) <==> s == (r.page - 1) * r.pageSize)
    ensures r.page == Int32.MinValue ==> s == Int32.Mul(Int32.MaxValue, r.pageSize)
  {
    Int32.Mul(Int32.Wrap(r.page - 1), r.pageSize)
  }

  /** Outside the validated range, page `int.MinValue` wraps to
      `int.MaxValue` pages before it. */
  lemma SkipAsWrittenAtMinValue()
    ensures var r := PaginationRequest(Int32.MinValue, 1, None, "asc");
            !Valid(r) && SkipAsWritten(r) == Int32.MaxValue
  {
  }

  /** A valid request past page 21474837 of 100-item pages skips a negative
      number of rows. */
  lemma SkipAsWrittenOverflows()
    ensures var r := PaginationRequest(21474838, 100, None, "asc");
            Valid(r) && SkipAsWritten(r) == -2147483596 && SkipAsWritten(r) < 0
  {
  }

  /** `Skip` computed without overflow: the rows on the pages before this one. */
  function Skip(r: PaginationRequest): (s: int)
    ensures Valid(r) ==> 0 <= s
  {
    (r.page - 1) * r.pageSize
  }

  /** On a valid request `Skip` is a whole number of pages: the pages before
      the requested one. */
  lemma SkipIsWholePages(r: PaginationRequest)
    requires Valid(r)
    ensures Skip(r) % r.pageSize == 0 && Skip(r) / r.pageSize == r.page - 1
  {
    WholeMultiple(r.page - 1, r.pageSize);
  }

  lemma WholeMultiple(k: int, d: int)
    requires d > 0
    ensures (k * d) % d == 0 && (k * d) / d == k
  {
    var a := k * d;
    var x := a / d - k;
    assert d * x == -(a % d);
    if x >= 1 {
      MulMonotone(1, x, d);
    } else if x <= -1 {
      MulMonotone(x, -1, d);
    }
  }

  /** Both readings agree exactly up to the page where the product leaves the
      32-bit range. */
  lemma SkipAgreesInRange(r: PaginationRequest)
    requires Valid(r) && r.page <= 21474837
    ensures SkipAsWritten(r) == Skip(r)
  {
    MulBounded(r.page - 1, 21474836, r.pageSize, 100);
  }

  lemma MulBounded(a: int, amax: int, b: int, bmax: int)
    requires 0 <= a <= amax && 0 <= b <= bmax
    ensures 0 <= a * b <= amax * bmax
  {
  }

  /** The first page skips nothing. */
  lemma FirstPageSkipsNothing(r: PaginationRequest)
    requires r.page == 1
    ensures Skip(r) == 0
  {
  }

  /** The default request asks for the first page. */
  lemma DefaultRequestStartsAtTheTop()
    ensures Valid(DefaultRequest) && Skip(DefaultRequest) == 0 && DefaultRequest.sortDirection == "asc"
  {
  }

  /** Each page starts where the previous one ends. */
  lemma ConsecutivePagesAdjoin(r: PaginationRequest)
    ensures Skip(r.(page := r.page + 1)) == Skip(r) + r.pageSize
  {
  }

  /** The page a valid request asks for starts inside the result exactly
      when it is one of the result's pages. */
  lemma SkipWithinTotalPages<T>(r: PaginationRequest, items: seq<T>, totalCount: int)
    requires Valid(r) && totalCount >= 0
    ensures Skip(r) < totalCount <==> r.page <= Create(items, totalCount, r.page, r.pageSize).TotalPages()
  {
    var p := Create(items, totalCount, r.page, r.pageSize);
    var n := p.TotalPages();
    if r.page <= n {
      MulMonotone(r.page - 1, n - 1, r.pageSize);
    } else {
      MulMonotone(n, r.page - 1, r.pageSize);
    }
  }
}
