/** The question service's HTTP handlers for creating a question, reading a
    page of questions and reading one question by id, over an abstract
    repository that records every call made to it. */
module QuestionController {
  import opened Wrappers
  import opened QuestionPagination

  /** The fields of a create request other than the title are carried, not read. */
  datatype CreateQuestionDto = CreateQuestionDto(title: string, details: string)

  datatype Question = Question(id: string, title: string, details: string)

  /** A call made to the question repository. */
  datatype RepositoryCall =
    | CountQuery
    | PageQuery(start: int, limit: int)
    | TitleQuery(title: string)
    | Insert(dto: CreateQuestionDto)
    | IdQuery(id: string)

  datatype ResponseBody =
    | Code(code: string)
    | Codes(codes: seq<string>)
    | One(question: Question)
    | Page(pagination: PageResponse, questions: seq<Question>)

  datatype Response = Response(status: int, body: ResponseBody)

  const DuplicateTitle := "DUPLICATE_TITLE"
  const NotFound := "NOT_FOUND"
  const InvalidPrefix := "INVALID_"

  predicate IsLowerAscii(c: char) {
    'a' <= c <= 'z'
  }

  /** `toUpperCase` on one character, for the ASCII letters. */
  function UpperChar(c: char): (u: char)
    ensures !IsLowerAscii(u)
    ensures IsLowerAscii(c) ==> u as int == c as int - 32
    ensures !IsLowerAscii(c) ==> u == c
  {
    if IsLowerAscii(c) then (c as int - 32) as char else c
  }

  /** `toUpperCase` on a property name. */
  function ToUpper(s: string): (u: string)
    ensures |u| == |s|
    ensures forall i :: 0 <= i < |s| ==> u[i] == UpperChar(s[i])
    ensures forall c :: c in u ==> !IsLowerAscii(c)
  {
    if s == [] then [] else [UpperChar(s[0])] + ToUpper(s[1..])
  }

  lemma {:induction false} ToUpperIdempotent(s: string)
    ensures ToUpper(ToUpper(s)) == ToUpper(s)
  {
    var u := ToUpper(s);
    var uu := ToUpper(u);
    assert |uu| == |u|;
    forall i | 0 <= i < |u| ensures uu[i] == u[i] {
      assert !IsLowerAscii(u[i]);
    }
  }

  /** The 400 body: one `INVALID_<PROPERTY>` per failed property, in order. */
  function ErrorCodes(properties: seq<string>): (codes: seq<string>)
    ensures |codes| == |properties|
    ensures forall i :: 0 <= i < |properties| ==> codes[i] == InvalidPrefix + ToUpper(properties[i])
  {
    if properties == [] then []
    else [InvalidPrefix + ToUpper(properties[0])] + ErrorCodes(properties[1..])
  }

  /** Some stored question has this title. */
  predicate TitleTaken(questions: seq<Question>, title: string) {
    exists i :: 0 <= i < |questions| && questions[i].title == title
  }

  /** The first stored question with this id. */
  function FindById(questions: seq<Question>, id: string): (r: Option<Question>)
    ensures r.None? <==> forall i :: 0 <= i < |questions| ==> questions[i].id != id
    ensures r.Some? ==> r.value in questions && r.value.id == id
  {
    if questions == [] then None
    else if questions[0].id == id then Some(questions[0])
    else FindById(questions[1..], id)
  }

  /** The first stored question with this title. */
  function FindByTitle(questions: seq<Question>, title: string): (r: Option<Question>)
    ensures r.Some? <==> TitleTaken(questions, title)
    ensures r.Some? ==> r.value in questions && r.value.title == title
  {
    if questions == [] then None
    else if questions[0].title == title then Some(questions[0])
    else
      var rest := FindByTitle(questions[1..], title);
      assert TitleTaken(questions[1..], title) ==> TitleTaken(questions, title) by {
        if TitleTaken(questions[1..], title) {
          var i :| 0 <= i < |questions| - 1 && questions[1..][i].title == title;
          assert questions[i + 1].title == title;
        }
      }
      assert TitleTaken(questions, title) && questions[0].title != title ==> TitleTaken(questions[1..], title) by {
        if TitleTaken(questions, title) && questions[0].title != title {
          var i :| 0 <= i < |questions| && questions[i].title == title;
          assert questions[1..][i - 1].title == title;
        }
      }
      rest
  }

  /** The questions from offset `start`, at most `limit` of them. */
  function Window(questions: seq<Question>, start: int, limit: int): (w: seq<Question>)
    requires start >= 0 && limit > 0
    ensures |w| <= limit
    ensures start + |w| <= |questions| || w == []
    ensures forall i :: 0 <= i < |w| ==> w[i] == questions[start + i]
    ensures start + limit <= |questions| ==> |w| == limit
    ensures |w| == if start >= |questions| then 0
                   else if start + limit <= |questions| then limit
                   else |questions| - start
  {
    var n := |questions|;
    var from := if start < n then start else n;
    var to := if start + limit < n then start + limit else n;
    questions[from..to]
  }

  /** The question repository, as a store of questions and the calls made to it. */
  class QuestionRepository {
    var questions: seq<Question>
    var calls: seq<RepositoryCall>

    constructor (initial: seq<Question>)
      ensures questions == initial && calls == []
    {
      questions, calls := initial, [];
    }

    /** `findQuestionCount`. */
    method FindQuestionCount() returns (n: nat)
      modifies this`calls
      ensures n == |questions|
      ensures calls == old(calls) + [CountQuery]
    {
      n := |questions|;
      calls := calls + [CountQuery];
    }

    /** `findPaginatedQuestions`. */
    method FindPaginatedQuestions(start: int, limit: int) returns (page: seq<Question>)
      requires start >= 0 && limit > 0
      modifies this`calls
      ensures page == Window(questions, start, limit)
      ensures calls == old(calls) + [PageQuery(start, limit)]
    {
      page := Window(questions, start, limit);
      calls := calls + [PageQuery(start, limit)];
    }

    /** `findOneQuestionByTitle`. */
    method FindOneQuestionByTitle(title: string) returns (found: Option<Question>)
      modifies this`calls
      ensures found == FindByTitle(questions, title)
      ensures calls == old(calls) + [TitleQuery(title)]
    {
      found := FindByTitle(questions, title);
      calls := calls + [TitleQuery(title)];
    }

    /** `findOneQuestionById`. */
    method FindOneQuestionById(id: string) returns (found: Option<Question>)
      modifies this`calls
      ensures found == FindById(questions, id)
      ensures calls == old(calls) + [IdQuery(id)]
    {
      found := FindById(questions, id);
      calls := calls + [IdQuery(id)];
    }

    /** `createQuestion`; the id the store assigns is a parameter. */
    method CreateQuestion(dto: CreateQuestionDto, newId: string) returns (q: Question)
      modifies this
      ensures q == Question(newId, dto.title, dto.details)
      ensures questions == old(questions) + [q]
      ensures calls == old(calls) + [Insert(dto)]
    {
      q := Question(newId, dto.title, dto.details);
      questions := questions + [q];
      calls := calls + [Insert(dto)];
    }
  }

  /** `handleCreateQuestion`. The property names that failed validation are a
      parameter, and so is the id the store will assign. */
  method HandleCreateQuestion(repo: QuestionRepository, dto: CreateQuestionDto, invalid: seq<string>, newId: string)
    returns (response: Response)
    modifies repo
    ensures invalid != [] ==>
      && response == Response(400, Codes(ErrorCodes(invalid)))
      && repo.questions == old(repo.questions) && repo.calls == old(repo.calls)
    ensures invalid == [] && TitleTaken(old(repo.questions), dto.title) ==>
      && response == Response(409, Code(DuplicateTitle))
      && repo.questions == old(repo.questions)
      && repo.calls == old(repo.calls) + [TitleQuery(dto.title)]
    ensures invalid == [] && !TitleTaken(old(repo.questions), dto.title) ==>
      && response == Response(201, One(Question(newId, dto.title, dto.details)))
      && repo.questions == old(repo.questions) + [Question(newId, dto.title, dto.details)]
      && repo.calls == old(repo.calls) + [TitleQuery(dto.title), Insert(dto)]
  {
    if invalid != [] {
      return Response(400, Codes(ErrorCodes(invalid)));
    }
    var duplicate := repo.FindOneQuestionByTitle(dto.title);
    if duplicate.Some? {
      return Response(409, Code(DuplicateTitle));
    }
    var question := repo.CreateQuestion(dto, newId);
    response := Response(201, One(question));
  }

  /** `handleGetPaginatedQuestions`; `None` is an unparsable parameter. */
  method HandleGetPaginatedQuestions(repo: QuestionRepository, page: Option<int>, limit: Option<int>)
    returns (response: Response)
    modifies repo`calls
    ensures ValidatePagination(page, limit).None? ==>
      response == Response(400, Code(InvalidPagination)) && repo.calls == old(repo.calls)
    ensures ValidatePagination(page, limit).Some? ==>
      var p, l := page.value, limit.value;
      && repo.calls == old(repo.calls) + [CountQuery, PageQuery(PageStart(p, l), l)]
      && response == Response(200, Page(Paginate(p, l, |repo.questions|), Window(repo.questions, PageStart(p, l), l)))
  {
    var request := ValidatePagination(page, limit);
    if request.None? {
      return Response(400, Code(InvalidPagination));
    }
    var p, l := request.value.page, request.value.limit;
    var start := PageStart(p, l);
    var count := repo.FindQuestionCount();
    var nextPage := NextPage(p, l, count);
    var questions := repo.FindPaginatedQuestions(start, l);
    NextPageIffBeforeLastPage(p, l, count);
    response := Response(200, Page(PageResponse(p, count, TotalPages(count, l), nextPage), questions));
  }

  /** `handleGetQuestionById`. */
  method HandleGetQuestionById(repo: QuestionRepository, id: string) returns (response: Response)
    modifies repo`calls
    ensures repo.calls == old(repo.calls) + [IdQuery(id)]
    ensures FindById(repo.questions, id).None? ==> response == Response(404, Code(NotFound))
    ensures FindById(repo.questions, id).Some? ==> response == Response(200, One(FindById(repo.questions, id).value))
  {
    var question := repo.FindOneQuestionById(id);
    if question.None? {
      return Response(404, Code(NotFound));
    }
    response := Response(200, One(question.value));
  }
}
