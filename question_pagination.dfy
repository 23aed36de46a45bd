/** The arithmetic of `handleGetPaginatedQuestions`: which query parameters
    are accepted, where a page starts, how many pages there are and whether
    there is a next one. */
module QuestionPagination {
  import opened Wrappers

  /** An accepted page request: both numbers parsed and positive. */
  datatype PageRequest = PageRequest(page: int, limit: int)

  /** The `pagination` part of a successful response. */
  datatype PageResponse = PageResponse(currentPage: int, totalItems: nat, totalPages: nat, nextPage: Option<int>)

  const InvalidPagination := "INVALID_PAGINATION"

  /** The guard on the parsed query parameters (`None` stands for `NaN`). */
  function ValidatePagination(page: Option<int>, limit: Option<int>): (r: Option<PageRequest>)
    ensures r.Some? <==> page.Some? && limit.Some? && page.value > 0 && limit.value > 0
    ensures r.Some? ==> r.value.page == page.value && r.value.limit == limit.value
  {
    if page.None? || limit.None? || page.value <= 0 || limit.value <= 0 then None
    else Some(PageRequest(page.value, limit.value))
  }

  /** The offset of the first question of a page. */
  function PageStart(page: int, limit: int): (start: int)
    requires page > 0 && limit > 0
    ensures start >= 0
    ensures start + limit == page * limit
  {
    (page - 1) * limit
  }

  lemma MulMonotone(a: int, b: int, c: int)
    requires a <= b && c >= 0
    ensures a * c <= b * c
  {
    assert b * c - a * c == (b - a) * c;
  }

  /** `Math.ceil(count / limit)` on integers: the least number of pages of
      `limit` questions that hold `count` questions. */
  function TotalPages(count: nat, limit: int): (pages: nat)
    requires limit > 0
    ensures pages * limit >= count
    ensures pages == 0 || (pages - 1) * limit < count
    ensures pages == 0 <==> count == 0
  {
    var q := (count + limit - 1) / limit;
    var rem := (count + limit - 1) % limit;
    assert count + limit - 1 == q * limit + rem;
    assert (q - 1) * limit == q * limit - limit;
    q
  }

  /** Any page count with the two ceiling properties is `TotalPages`. */
  lemma {:induction false} TotalPagesUnique(count: nat, limit: int, n: nat)
    requires limit > 0
    requires n * limit >= count && (n == 0 || (n - 1) * limit < count)
    ensures n == TotalPages(count, limit)
  {
    var t := TotalPages(count, limit);
    if n < t {
      MulMonotone(n, t - 1, limit);
    } else if n > t {
      MulMonotone(t, n - 1, limit);
    }
  }

  /** `nextPage`: the following page number when questions remain after this page. */
  function NextPage(page: int, limit: int, count: nat): Option<int>
    requires page > 0 && limit > 0
  {
    if PageStart(page, limit) + limit < count then Some(page + 1) else None
  }

  /** There is a next page exactly when this page comes before the last one. */
  lemma {:induction false} NextPageIffBeforeLastPage(page: int, limit: int, count: nat)
    requires page > 0 && limit > 0
    ensures NextPage(page, limit, count).Some? <==> page < TotalPages(count, limit)
    ensures NextPage(page, limit, count).Some? ==> NextPage(page, limit, count).value == page + 1
  {
    var t := TotalPages(count, limit);
    if page < t {
      MulMonotone(page, t - 1, limit);
    } else {
      MulMonotone(t, page, limit);
    }
  }

  /** The pagination object of the 200 response. */
  function Paginate(page: int, limit: int, count: nat): (r: PageResponse)
    requires page > 0 && limit > 0
    ensures r.currentPage == page && r.totalItems == count
    ensures r.totalPages * limit >= count && (r.totalPages == 0 || (r.totalPages - 1) * limit < count)
    ensures r.nextPage.Some? <==> page < r.totalPages
    ensures r.nextPage.Some? ==> r.nextPage.value == page + 1
  {
    NextPageIffBeforeLastPage(page, limit, count);
    PageResponse(page, count, TotalPages(count, limit), NextPage(page, limit, count))
  }
}
