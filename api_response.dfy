/** The response envelopes: `ApiResponse<T>` with its three factories, the
    paginated wrapper with its derived page properties, and the search
    response's "more results" flag. `FoodService.DTOs.Common` and
    `FoodService.ResponseHelpers.Common` each declare a `PaginatedResponse<T>`;
    the two differ only in naming the list `Items` or `Data`, so one
    definition stands for both. */
module ApiResponses {
  import opened Nullable
  import Int32

  /** `ApiResponse<T>` without its `Timestamp` and `RequestId`, which read the
      clock and a fresh GUID. */
  datatype ApiResponse<T> = ApiResponse(
    success: bool,
    message: string,
    data: Option<T>,
    errors: seq<string>,
    validationErrors: map<string, Option<seq<string>>>)

  /** The message `SuccessResponse` uses when the caller gives none. */
  const DefaultSuccessMessage: string := "Call API successfully."

  /** The fixed message of a validation failure. */
  const ValidationFailedMessage: string := "Dữ liệu không hợp lệ"

  /** `SuccessResponse(data, message)`. */
  function SuccessResponse<T>(data: T, message: string): (r: ApiResponse<T>)
    ensures r.success && r.data == Some(data) && r.message == message
    ensures r.errors == [] && r.validationErrors == map[]
  {
    ApiResponse(true, message, Some(data), [], map[])
  }

  /** `ErrorResponse(message, errors)`: the given errors, or none when the
      list is null; never any data. */
  function ErrorResponse<T>(message: string, errors: Option<seq<string>>): (r: ApiResponse<T>)
    ensures !r.success && r.data.None? && r.message == message
    ensures errors.Some? ==> r.errors == errors.value
    ensures errors.None? ==> r.errors == []
    ensures r.validationErrors == map[]
  {
    ApiResponse(false, message, None, errors.OrElse([]), map[])
  }

  /** `ValidationErrorResponse(validationErrors)`. */
  function ValidationErrorResponse<T>(validationErrors: map<string, Option<seq<string>>>): (r: ApiResponse<T>)
    ensures !r.success && r.data.None? && r.message == ValidationFailedMessage
    ensures r.errors == [] && r.validationErrors == validationErrors
  {
    ApiResponse(false, ValidationFailedMessage, None, [], validationErrors)
  }

  /** The success flag tells the factories apart: only a success response
      carries data, and a failure never does. */
  lemma SuccessFlagSeparatesFactories<T>(data: T, message: string, errors: Option<seq<string>>,
                                         v: map<string, Option<seq<string>>>)
    ensures SuccessResponse(data, message) != ErrorResponse(message, errors)
    ensures SuccessResponse(data, message) != ValidationErrorResponse(v)
    ensures var e: ApiResponse<T> := ErrorResponse(message, errors);
            e.success || e.data.None?
  {
  }

  /** `Math.Ceiling` of a real, as an integer. */
  function Ceiling(x: real): (n: int)
    ensures x <= n as real < x + 1.0
  {
    -((-x).Floor)
  }

  /** `PaginatedResponse<T>`; `Timestamp` is left out. */
  datatype PaginatedResponse<T> = PaginatedResponse(items: seq<T>, totalCount: int, pageNumber: int, pageSize: int)
  {
    /** `(int)Math.Ceiling((double)TotalCount / PageSize)`. */
    function TotalPages(): (n: int)
      requires pageSize != 0
      ensures pageSize > 0 ==> n * pageSize >= totalCount && (n - 1) * pageSize < totalCount
    {
      var n := Ceiling(totalCount as real / pageSize as real);
      CeilingBounds(totalCount, pageSize, n);
      n
    }

    predicate HasPreviousPage()
    {
      pageNumber > 1
    }

    predicate HasNextPage()
      requires pageSize != 0
    {
      pageNumber < TotalPages()
    }

    function PreviousPageNumber(): (r: Option<int>)
      ensures r.Some? <==> HasPreviousPage()
      ensures r.Some? ==> r.value == pageNumber - 1 && r.value >= 1
    {
      if HasPreviousPage() then Some(pageNumber - 1) else None
    }

    function NextPageNumber(): (r: Option<int>)
      requires pageSize != 0
      ensures r.Some? <==> HasNextPage()
      ensures r.Some? ==> r.value == pageNumber + 1 && r.value <= TotalPages()
    {
      if HasNextPage() then Some(pageNumber + 1) else None
    }
  }

  /** `n` is the least integer at or above `tc / ps`, stated on integers. */
  lemma CeilingBounds(tc: int, ps: int, n: int)
    requires ps > 0 ==> n == Ceiling(tc as real / ps as real)
    ensures ps > 0 ==> n * ps >= tc && (n - 1) * ps < tc
  {
    if ps > 0 {
      var x := tc as real / ps as real;
      assert x * ps as real == tc as real;
      assert n as real * ps as real >= x * ps as real;
      assert (n - 1) as real * ps as real < x * ps as real;
    }
  }

  /** `PaginatedResponse<T>.Create`: the list and the three numbers stored
      as given. */
  function Create<T>(items: seq<T>, totalCount: int, pageNumber: int, pageSize: int): (r: PaginatedResponse<T>)
    ensures r.items == items && r.totalCount == totalCount
    ensures r.pageNumber == pageNumber && r.pageSize == pageSize
  {
    PaginatedResponse(items, totalCount, pageNumber, pageSize)
  }

  /** With a positive page size the pages are just enough: the total count
      fits into `TotalPages()` pages but not into one fewer. A non-negative
      count never needs a negative number of pages, and zero items need no
      page at all. */
  lemma TotalPagesJustEnough<T>(p: PaginatedResponse<T>)
    requires p.pageSize > 0 && p.totalCount >= 0
    ensures p.TotalPages() >= 0
    ensures p.totalCount == 0 <==> p.TotalPages() == 0
    ensures p.totalCount <= p.TotalPages() * p.pageSize < p.totalCount + p.pageSize
  {
  }

  /** An empty result has no next page from any page number at or after 0. */
  lemma EmptyHasNoNextPage<T>(p: PaginatedResponse<T>)
    requires p.pageSize > 0 && p.totalCount == 0 && p.pageNumber >= 0
    ensures !p.HasNextPage() && p.NextPageNumber().None?
  {
    TotalPagesJustEnough(p);
  }

  /** Moving to the next page and then back returns to the same page. */
  lemma NextThenPrevious<T>(p: PaginatedResponse<T>)
    requires p.pageSize != 0 && p.pageNumber >= 1 && p.HasNextPage()
    ensures var q := p.(pageNumber := p.NextPageNumber().value);
            q.HasPreviousPage() && q.PreviousPageNumber() == Some(p.pageNumber)
  {
  }

  /** The last page has no next page, and every earlier page has one. */
  lemma NextPageExactlyBeforeLast<T>(p: PaginatedResponse<T>)
    requires p.pageSize != 0
    ensures p.HasNextPage() <==> p.pageNumber <= p.TotalPages() - 1
    ensures p.pageNumber == p.TotalPages() ==> p.NextPageNumber().None?
  {
  }

  /** `SearchResponse<T>.HasMoreResults` as written:
      `TotalCount > (PageNumber * PageSize)` with the product in 32-bit
      arithmetic. */
  predicate HasMoreResultsAsWritten(totalCount: int, pageNumber: int, pageSize: int)
  {
    totalCount > Int32.Mul(pageNumber, pageSize)
  }

  /** The product that needs more than 32 bits wraps to a negative number,
      so page 21474837 of 100-item pages, far past the one item there is,
      still claims more results. */
  lemma HasMoreResultsWraps()
    ensures Int32.Mul(21474837, 100) == -2147483596
    ensures HasMoreResultsAsWritten(1, 21474837, 100)
  {
  }

  /** `HasMoreResults` with the product computed without overflow. */
  predicate HasMoreResults(totalCount: int, pageNumber: int, pageSize: int)
  {
    totalCount > pageNumber * pageSize
  }

  /** Where the product fits in 32 bits the two readings agree. */
  lemma HasMoreResultsAgreesInRange(totalCount: int, pageNumber: int, pageSize: int)
    requires Int32.InRange(pageNumber * pageSize)
    ensures HasMoreResultsAsWritten(totalCount, pageNumber, pageSize) <==> HasMoreResults(totalCount, pageNumber, pageSize)
  {
  }

  /** "More results" after this page means exactly that a next page exists,
      for any positive page size. */
  lemma HasMoreResultsIsHasNextPage<T>(p: PaginatedResponse<T>)
    requires p.pageSize > 0
    ensures HasMoreResults(p.totalCount, p.pageNumber, p.pageSize) <==> p.HasNextPage()
  {
    var n := p.TotalPages();
    if p.pageNumber < n {
      assert p.pageNumber <= n - 1;
      MulMonotone(p.pageNumber, n - 1, p.pageSize);
    } else {
      MulMonotone(n, p.pageNumber, p.pageSize);
    }
  }

  lemma MulMonotone(a: int, b: int, k: int)
    requires a <= b && k > 0
    ensures a * k <= b * k
  {
  }
}
