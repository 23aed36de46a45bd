/** The state and handlers of the questions page: loading a page of questions
    (re-requesting the last page when the server reports a page past the
    end), resetting the form, and the guard logic of the row actions and the
    confirm dialog. Each state setter is an immediate field assignment; what
    an awaited request returns is a parameter. */
module QuestionsPage {
  import opened Wrappers
  import opened QuestionFormFields

  datatype Complexity = Easy | Medium | Hard
  datatype QuestionStatus = Completed | Failed | NotAttempted

  /** `IQuestion` as the form holds it; an empty `id` is a falsy one. */
  datatype QuestionForm = QuestionForm(
    id: string, title: string, description: string, categories: seq<string>,
    complexity: Complexity, status: QuestionStatus, link: string, testCases: seq<TestCase>)

  /** `IPagination`. */
  datatype Pagination = Pagination(totalPages: int, currentPage: int, totalItems: int, limit: int)

  datatype SortDirection = NoDirection | Direction(name: string)
  datatype SortBy = SortBy(sortKey: string, direction: SortDirection)

  /** `IGetQuestions`, the body of a page request. */
  datatype QueryBody = QueryBody(page: int, limit: int, sortBy: SortBy)

  /** What `getQuestionsRequest` resolves to. */
  datatype QuestionsResponse = QuestionsResponse(questions: seq<QuestionForm>, pagination: Pagination)

  /** A modal or a confirm dialog. */
  datatype Dialog = Dialog(title: string, content: string, isOpen: bool)

  datatype Modification = Create | Update | Delete

  /** A thrown error: its `message`, and the text `'...' + error` produces. */
  datatype Thrown = Thrown(message: string, text: string)

  /** How an awaited request ended: it threw, it resolved to a falsy value,
      or it resolved to a value. */
  datatype Outcome<+T> = Threw(error: Thrown) | Resolved(value: Option<T>)

  /** A request issued to the question service. */
  datatype ApiRequest =
    | GetQuestions(body: QueryBody)
    | GetQuestionById(id: string)
    | CreateQuestion(question: QuestionForm)
    | UpdateQuestion(question: QuestionForm)
    | DeleteQuestion(id: string)

  datatype Toast = SuccessToast(text: string) | ErrorToast(text: string)

  const EmptyTestCase := TestCase(Some(""), Some(""))

  /** The form `clearFormData` leaves: every field reset except `id`. */
  function ClearedForm(q: QuestionForm): (r: QuestionForm)
    ensures r.id == q.id
    ensures r.title == "" && r.description == "" && r.link == ""
    ensures r.categories == [] && r.complexity == Easy && r.status == NotAttempted
    ensures r.testCases == [EmptyTestCase]
  {
    q.(title := "", description := "", categories := [], complexity := Easy,
       status := NotAttempted, link := "", testCases := [EmptyTestCase])
  }

  /** Clearing depends only on the id, so clearing twice is clearing once. */
  lemma ClearedFormDependsOnlyOnId(p: QuestionForm, q: QuestionForm)
    ensures p.id == q.id <==> ClearedForm(p) == ClearedForm(q)
    ensures ClearedForm(ClearedForm(q)) == ClearedForm(q)
  {
    if ClearedForm(p) == ClearedForm(q) {
      assert ClearedForm(p).id == ClearedForm(q).id;
    }
  }

  /** The page request `load` makes next, if any: the last page when the
      server reports a current page past a non-zero page count. */
  function ClampRetry(body: QueryBody, p: Pagination): (retry: Option<QueryBody>)
    ensures retry.Some? <==> p.currentPage > p.totalPages && p.totalPages > 0
    ensures retry.Some? ==> retry.value.page == p.totalPages && retry.value.page > 0
    ensures retry.Some? ==> retry.value.limit == body.limit && retry.value.sortBy == body.sortBy
  {
    if p.currentPage > p.totalPages && p.totalPages > 0 then Some(body.(page := p.totalPages)) else None
  }

  /** A falsy row id: missing or empty. */
  predicate FalsyId(id: Option<string>) {
    id.None? || id.value == ""
  }

  const DeleteDialog := Dialog("Delete question", "Are you sure you want to delete this question?", true)

  class QuestionsPageState {
    var data: seq<QuestionForm>
    var pagination: Pagination
    var sortBy: SortBy
    var modalData: Dialog
    var dialogData: Dialog
    var modificationType: Modification
    var questionData: QuestionForm
    /** Requests issued, in order. */
    var requests: seq<ApiRequest>
    /** Notifications shown, in order. */
    var toasts: seq<Toast>

    /** The initial state of the page's hooks. */
    constructor ()
      ensures data == [] && pagination == Pagination(1, 1, 0, 5)
      ensures sortBy == SortBy("complexity", NoDirection)
      ensures modalData == Dialog("", "", false) && dialogData == Dialog("", "", false)
      ensures modificationType == Create
      ensures questionData == QuestionForm("", "", "", [], Easy, NotAttempted, "", [EmptyTestCase])
      ensures requests == [] && toasts == []
    {
      data := [];
      pagination := Pagination(1, 1, 0, 5);
      sortBy := SortBy("complexity", NoDirection);
      modalData := Dialog("", "", false);
      dialogData := Dialog("", "", false);
      modificationType := Create;
      questionData := QuestionForm("", "", "", [], Easy, NotAttempted, "", [EmptyTestCase]);
      requests := [];
      toasts := [];
    }

    /** The request `load(body)` issues. */
    method RequestQuestions(body: QueryBody)
      modifies this`requests
      ensures requests == old(requests) + [GetQuestions(body)]
    {
      requests := requests + [GetQuestions(body)];
    }

    /** What `load(body)` does once its request has ended. On a response it
        shows the questions and the pagination; when the reported page is past
        the end it returns the body, now set to the last page, with which
        `load` calls itself again. */
    method ReceiveQuestions(body: QueryBody, outcome: Outcome<QuestionsResponse>) returns (retry: Option<QueryBody>)
      modifies this`data, this`pagination, this`toasts
      ensures outcome.Threw? ==>
        && retry == None && data == old(data) && pagination == old(pagination)
        && toasts == old(toasts) + [ErrorToast("Failed to fetch questions" + outcome.error.text)]
      ensures outcome.Resolved? && outcome.value.None? ==>
        retry == None && data == old(data) && pagination == old(pagination) && toasts == old(toasts)
      ensures outcome.Resolved? && outcome.value.Some? ==>
        var res := outcome.value.value;
        && data == res.questions && pagination == res.pagination && toasts == old(toasts)
        && retry == ClampRetry(body, res.pagination)
    {
      retry := None;
      match outcome
      case Threw(error) =>
        toasts := toasts + [ErrorToast("Failed to fetch questions" + error.text)];
      case Resolved(res) =>
        if res.Some? {
          data := res.value.questions;
          retry := ClampRetry(body, res.value.pagination);
          pagination := res.value.pagination;
        }
    }

    /** `load(body)`, given how its request ended: the request, then the
        handling of its outcome. */
    method Load(body: QueryBody, outcome: Outcome<QuestionsResponse>) returns (retry: Option<QueryBody>)
      modifies this
      ensures requests == old(requests) + [GetQuestions(body)]
      ensures sortBy == old(sortBy) && modalData == old(modalData) && dialogData == old(dialogData)
      ensures modificationType == old(modificationType) && questionData == old(questionData)
      ensures outcome.Threw? ==>
        && retry == None && data == old(data) && pagination == old(pagination)
        && toasts == old(toasts) + [ErrorToast("Failed to fetch questions" + outcome.error.text)]
      ensures outcome.Resolved? && outcome.value.None? ==>
        retry == None && data == old(data) && pagination == old(pagination) && toasts == old(toasts)
      ensures outcome.Resolved? && outcome.value.Some? ==>
        var res := outcome.value.value;
        && data == res.questions && pagination == res.pagination && toasts == old(toasts)
        && retry == ClampRetry(body, res.pagination)
    {
      RequestQuestions(body);
      retry := ReceiveQuestions(body, outcome);
    }

    /** `refreshTable`, which calls `loadData` without awaiting it: the request
        for the current page is issued now; its outcome is handled later by
        `ReceiveQuestions(body)` with the body returned here. */
    method RefreshTable() returns (body: QueryBody)
      modifies this`requests
      ensures body == QueryBody(pagination.currentPage, pagination.limit, sortBy)
      ensures requests == old(requests) + [GetQuestions(body)]
    {
      body := QueryBody(pagination.currentPage, pagination.limit, sortBy);
      RequestQuestions(body);
    }

    /** `clearFormData`. */
    method ClearFormData()
      modifies this`questionData
      ensures questionData == ClearedForm(old(questionData))
    {
      questionData := ClearedForm(questionData);
    }

    /** `handleCloseModal`: clear the form and close the modal. */
    method HandleCloseModal()
      modifies this`questionData, this`modalData
      ensures questionData == ClearedForm(old(questionData))
      ensures modalData == old(modalData).(isOpen := false)
    {
      ClearFormData();
      modalData := modalData.(isOpen := false);
    }

    /** `actionsHandler(modificationType, elemId)`; `fetched` is how the
        by-id request of an update ended (unused otherwise). */
    method ActionsHandler(modification: Modification, elemId: Option<string>, fetched: Outcome<QuestionForm>)
      modifies this
      ensures FalsyId(elemId) ==>
        && modificationType == old(modificationType) && questionData == old(questionData)
        && modalData == old(modalData) && dialogData == old(dialogData)
        && requests == old(requests) && toasts == old(toasts)
      ensures data == old(data) && pagination == old(pagination) && sortBy == old(sortBy)
      ensures !FalsyId(elemId) ==> modificationType == modification
      ensures !FalsyId(elemId) && modification == Create ==>
        && questionData == old(questionData) && modalData == old(modalData) && dialogData == old(dialogData)
        && requests == old(requests) && toasts == old(toasts)
      ensures !FalsyId(elemId) && modification == Delete ==>
        && questionData == old(questionData).(id := elemId.value) && dialogData == DeleteDialog
        && modalData == old(modalData) && requests == old(requests) && toasts == old(toasts)
      ensures !FalsyId(elemId) && modification == Update ==>
        && requests == old(requests) + [GetQuestionById(elemId.value)] && dialogData == old(dialogData)
        && (fetched.Threw? ==>
              questionData == old(questionData) && modalData == old(modalData)
              && toasts == old(toasts) + [ErrorToast("Failed to fetch question" + fetched.error.text)])
        && (fetched.Resolved? && fetched.value.None? ==>
              questionData == old(questionData) && modalData == old(modalData) && toasts == old(toasts))
        && (fetched.Resolved? && fetched.value.Some? ==>
              questionData == fetched.value.value && toasts == old(toasts)
              && modalData == old(modalData).(isOpen := true, title := "Update question"))
    {
      if FalsyId(elemId) {
        return;
      }
      var id := elemId.value;
      modificationType := modification;
      if modification == Update {
        requests := requests + [GetQuestionById(id)];
        match fetched
        case Threw(error) =>
          toasts := toasts + [ErrorToast("Failed to fetch question" + error.text)];
          return;
        case Resolved(res) =>
          if res.Some? {
            questionData := res.value;
            modalData := modalData.(isOpen := true, title := "Update question");
          }
      } else if modification == Delete {
        questionData := questionData.(id := id);
        dialogData := DeleteDialog;
      }
    }

    /** `handleConfirmDialog`, given how its create, update or delete request
        ended. A thrown error returns before the refresh and the dialog close;
        a delete with an empty id returns before doing anything. */
    method HandleConfirmDialog(outcome: Outcome<()>)
      modifies this
      ensures data == old(data) && pagination == old(pagination) && sortBy == old(sortBy)
      ensures modificationType == old(modificationType)
      // a delete without an id does nothing at all
      ensures old(modificationType) == Delete && old(questionData).id == "" ==>
        && questionData == old(questionData) && modalData == old(modalData) && dialogData == old(dialogData)
        && requests == old(requests) && toasts == old(toasts)
      // otherwise exactly one request of the modification's kind is issued first
      ensures !(old(modificationType) == Delete && old(questionData).id == "") ==>
        && |requests| > |old(requests)|
        && requests[|old(requests)|] == RequestFor(old(modificationType), old(questionData))
        && requests[..|old(requests)| + 1] == old(requests) + [RequestFor(old(modificationType), old(questionData))]
      // a failed request: one error toast, no refresh, the dialog stays as it was
      ensures !(old(modificationType) == Delete && old(questionData).id == "") && outcome.Threw? ==>
        && requests == old(requests) + [RequestFor(old(modificationType), old(questionData))]
        && toasts == old(toasts) + [ErrorToast(FailureText(old(modificationType), outcome.error))]
        && dialogData == old(dialogData) && questionData == old(questionData) && modalData == old(modalData)
      // a request that did not throw: refresh the table and close the dialog
      ensures !(old(modificationType) == Delete && old(questionData).id == "") && outcome.Resolved? ==>
        && requests == old(requests)
             + [RequestFor(old(modificationType), old(questionData)),
                GetQuestions(QueryBody(pagination.currentPage, pagination.limit, sortBy))]
        && dialogData == old(dialogData).(isOpen := false)
      // create and update close the modal and clear the form only on a truthy response
      ensures old(modificationType) != Delete && outcome.Resolved? && outcome.value.Some? ==>
        && questionData == ClearedForm(old(questionData)) && modalData == old(modalData).(isOpen := false)
        && toasts == old(toasts) + [SuccessToast(SuccessText(old(modificationType)))]
      ensures old(modificationType) != Delete && outcome.Resolved? && outcome.value.None? ==>
        questionData == old(questionData) && modalData == old(modalData) && toasts == old(toasts)
      // a delete that did not throw reports success whatever it resolved to
      ensures old(modificationType) == Delete && old(questionData).id != "" && outcome.Resolved? ==>
        && questionData == old(questionData) && modalData == old(modalData)
        && toasts == old(toasts) + [SuccessToast(SuccessText(Delete))]
    {
      if modificationType == Delete && questionData.id == "" {
        return;
      }
      requests := requests + [RequestFor(modificationType, questionData)];
      match outcome
      case Threw(error) =>
        toasts := toasts + [ErrorToast(FailureText(modificationType, error))];
        return;
      case Resolved(res) =>
        if modificationType == Delete {
          toasts := toasts + [SuccessToast(SuccessText(Delete))];
        } else if res.Some? {
          toasts := toasts + [SuccessToast(SuccessText(modificationType))];
          HandleCloseModal();
        }
      var refresh := RefreshTable();
      dialogData := dialogData.(isOpen := false);
    }
  }

  /** The request the confirm dialog sends for a modification. */
  function RequestFor(m: Modification, q: QuestionForm): ApiRequest {
    match m
    case Create => CreateQuestion(q)
    case Update => UpdateQuestion(q)
    case Delete => DeleteQuestion(q.id)
  }

  function SuccessText(m: Modification): string {
    match m
    case Create => "Question created successfully"
    case Update => "Question updated successfully"
    case Delete => "Question deleted successfully"
  }

  /** Create and update show the error's message; delete prefixes its text. */
  function FailureText(m: Modification, e: Thrown): string {
    if m == Delete then "Failed to delete question" + e.text else e.message
  }
}
