/** The questions page's page clamp played against the question controller:
    when every page request is answered by `handleGetPaginatedQuestions`,
    `load` re-requests at most once, and the re-request lands on the last page. */
module PageClamp {
  import opened Wrappers
  import opened QuestionPagination
  import opened QuestionsPage

  /** A page request the controller accepts. */
  predicate Accepted(body: QueryBody) {
    body.page > 0 && body.limit > 0
  }

  /** The pagination the page receives for an accepted request when the
      store holds `count` questions; the client keeps the limit it asked for. */
  function Served(body: QueryBody, count: nat): Pagination
    requires Accepted(body)
  {
    var r := Paginate(body.page, body.limit, count);
    Pagination(r.totalPages, r.currentPage, r.totalItems, body.limit)
  }

  /** `load` re-requests exactly when the requested page is past the last
      page of a non-empty store; an empty store never causes a retry. */
  lemma RetryIffPastLastPage(body: QueryBody, count: nat)
    requires Accepted(body)
    ensures ClampRetry(body, Served(body, count)).Some? <==> count > 0 && body.page > TotalPages(count, body.limit)
    ensures count == 0 ==> ClampRetry(body, Served(body, count)).None?
  {
  }

  /** The re-request asks for the last page, which the controller echoes as
      the current page, so it causes no further retry. */
  lemma ClampSettlesAfterOneRetry(body: QueryBody, count: nat)
    requires Accepted(body)
    ensures var retry := ClampRetry(body, Served(body, count));
      retry.Some? ==>
        && Accepted(retry.value)
        && Served(retry.value, count).currentPage == Served(retry.value, count).totalPages
        && ClampRetry(retry.value, Served(retry.value, count)).None?
  {
    var retry := ClampRetry(body, Served(body, count));
    if retry.Some? {
      var b := retry.value;
      assert b.limit == body.limit;
      assert Served(b, count).totalPages == TotalPages(count, body.limit) == b.page;
    }
  }

  /** `load` and the calls it makes on itself, when every request is answered
      by the controller with the questions `rows` gives for it. At most two
      requests are made; the page shows the last response, whose pagination
      is never past the last page of a non-empty store. */
  method LoadFromController(page: QuestionsPageState, body: QueryBody, count: nat, rows: QueryBody -> seq<QuestionForm>)
    returns (retried: Option<QueryBody>)
    requires Accepted(body)
    modifies page
    decreases if body.page > TotalPages(count, body.limit) then 1 else 0
    ensures retried == ClampRetry(body, Served(body, count))
    ensures retried.None? ==> page.requests == old(page.requests) + [GetQuestions(body)]
    ensures retried.Some? ==> page.requests == old(page.requests) + [GetQuestions(body), GetQuestions(retried.value)]
    ensures !(page.pagination.currentPage > page.pagination.totalPages && page.pagination.totalPages > 0)
    ensures var last := if retried.Some? then retried.value else body;
      page.pagination == Served(last, count) && page.data == rows(last)
    ensures page.sortBy == old(page.sortBy) && page.modificationType == old(page.modificationType)
    ensures page.toasts == old(page.toasts) && page.questionData == old(page.questionData)
    ensures page.dialogData == old(page.dialogData) && page.modalData == old(page.modalData)
  {
    var response := QuestionsResponse(rows(body), Served(body, count));
    retried := page.Load(body, Resolved(Some(response)));
    if retried.Some? {
      ClampSettlesAfterOneRetry(body, count);
      RetryIffPastLastPage(body, count);
      RetryIffPastLastPage(retried.value, count);
      var again := LoadFromController(page, retried.value, count, rows);
      assert again.None?;
    }
  }
}
