# PeerPrep collaboration core in Dafny

This project models the real-time room coordinator of PeerPrep's collaboration
service (`WebSocketConnection`), together with four smaller pieces of the
system that feed or use it: the question service's pagination and create /
get-by-id handlers, the questions page's reload and dialog logic, the test-case
validator of the question form, and the account profile form.

- **Room coordinator** (`CollabSocket`, over the room table of `Rooms`). The
  class `WebSocketConnection` holds the transport's room table (room id to the
  set of joined socket ids, an empty room being absent), the transport's
  socket table with each socket's `socket.data`, the `languages` map, and an
  append-only log of everything emitted (with the set of sockets a broadcast
  reached) and of every external call (chat-history append, language persist,
  judge submission, session completion). The middleware and each socket
  handler is one atomic method; the judge call's success or failure is a
  parameter.
  - The middleware rejects exactly the falsy tokens and stores exactly
    `{name, roomId}`, with no `user` field.
  - `joinRoom` joins the room named in its payload and `send_message`
    broadcasts to, and persists for, the room named in the message;
    `change-language`, `run-code` and `disconnect` use the handshake room id.
  - `isUserInRoom` looks for `socket.data.user.username`. No admitted socket
    has a `user`, so it always answers false and every disconnect emits
    `user-disconnected` with an empty sender id and the name as message
    (`AdmittedSocketsNeverPresent`, `Disconnect`).
  - The session is completed, and the room's language dropped, exactly when
    the room lookup of the disconnect handler finds no room.
- **Question controller** (`QuestionPagination`, `QuestionController`). The
  pagination arithmetic as functions (integer ceiling for the page count);
  the three handlers as methods over a `QuestionRepository` that holds the
  questions as a sequence and logs each call made to it.
- **Questions page** (`QuestionsPage`, `PageClamp`). A class with the page's
  state fields; `load`, `clearFormData`, `handleCloseModal`, `actionsHandler`,
  `handleConfirmDialog` and `refreshTable` as methods. `PageClamp` plays
  `load` against the controller and proves that it re-requests at most once.
- **Test-case validator** (`QuestionFormFields`): `customValidator` with
  ECMAScript `trim`.
- **Profile form** (`ProfileForm`): `handleChange` and `validateInput` as
  functions. `validateInput` builds a new value and cannot change its input
  or `initialValues`.

Three behaviours of the code differ from what a reader might expect, and the
model follows the code:
- One might expect the disconnect handler to check, by display name, whether
  the user still has another connection. The code reads a `user.username`
  field that the middleware never writes, so the departure notice is always
  sent.
- One might expect a chosen language to be checked against the supported
  language modes. The code only casts the string and stores it unchecked.
- One might expect a room's session to be completed once per transition from
  occupied to empty. The code completes the session on every disconnect whose
  handshake room has no socket left. That includes a socket that never joined
  that room; see `Disconnect`.

Modelling assumption for `disconnect`: when the `disconnect` handler runs, the
transport has already removed the departing socket from every room and from
its socket table. So the lookup at line 57 sees the room without that socket,
and the `leave` at line 58 changes nothing (`LeaveAfterLeaveAll`).

## Model

| member | source | states |
|---|---|---|
| `Rooms.Join` | backend/collaboration-service/src/services/socketio.service.ts:26 | joining adds the socket to exactly that room, other rooms keep their members, and no room becomes empty |
| `Rooms.Leave` | backend/collaboration-service/src/services/socketio.service.ts:58 | leaving removes the socket from that room only; the room disappears exactly when the socket was its only member |
| `Rooms.LeaveAfterLeaveAll` | backend/collaboration-service/src/services/socketio.service.ts:56-58 | once the transport has removed the socket everywhere, the handler's own `leave` leaves the room table unchanged |
| `CollabSocket.Authenticate` | backend/collaboration-service/src/services/socketio.service.ts:79-87 | rejection with 'Authentication error' exactly when the token is absent or empty; on acceptance the data is the handshake name and room id, with no user claim |
| `CollabSocket.WebSocketConnection.constructor` | backend/collaboration-service/src/services/socketio.service.ts:11-13 | the coordinator starts with no rooms, no sockets, an empty `languages` map and an empty log |
| `CollabSocket.WebSocketConnection.Connect` | backend/collaboration-service/src/services/socketio.service.ts:79-87 | a rejected socket is not stored; an admitted one is stored with exactly the handshake's `{name, roomId}`; rooms, languages and log are unchanged |
| `CollabSocket.WebSocketConnection.JoinRoom` | backend/collaboration-service/src/services/socketio.service.ts:25-31 | the socket joins the payload's room; exactly one `user-connected(name)` goes to that room, joiner included; one `update-language` unicast with the stored value is sent iff the room has a language; languages unchanged |
| `CollabSocket.WebSocketConnection.SendMessage` | backend/collaboration-service/src/services/socketio.service.ts:33-36 | exactly one `receive_message` with the unchanged message goes to the message's room, then one chat-history append for that room; rooms, sockets and languages unchanged |
| `CollabSocket.WebSocketConnection.ChangeLanguage` | backend/collaboration-service/src/services/socketio.service.ts:38-42 | exactly one `update-language(language)` broadcast to the handshake room, then `languages[roomId] := language` with every other key unchanged, then one persist call; no check of the value |
| `CollabSocket.ExecutionPayload` | backend/collaboration-service/src/services/socketio.service.ts:49-52 | the `code-executed` payload is the judge's data on success and `{error: 'Failed to execute code'}` on failure |
| `CollabSocket.WebSocketConnection.RunCode` | backend/collaboration-service/src/services/socketio.service.ts:44-54 | exactly one `executing-code`, one judge submission, then exactly one `code-executed` to the handshake room; languages and membership unchanged |
| `CollabSocket.WebSocketConnection.IsUserInRoom` | backend/collaboration-service/src/services/socketio.service.ts:90-102 | the loop answers true iff some socket of the room has a `user` claim with that username; false for an absent room |
| `CollabSocket.AdmittedSocketsNeverPresent` | backend/collaboration-service/src/services/socketio.service.ts:85-97 | when no stored socket has a `user` claim, as the middleware guarantees, the presence check is false for every room and name |
| `CollabSocket.WebSocketConnection.Disconnect` | backend/collaboration-service/src/services/socketio.service.ts:56-74 | the socket leaves everything; exactly one `user-disconnected` with sender '' and message = name goes to the handshake room; the session is completed and the room's language removed iff the room lookup finds no room, which is exactly when the departing socket was that room's only member or the room had none; else languages unchanged |
| `CollabSocket.EmitCountAppend` | backend/collaboration-service/src/services/socketio.service.ts:27-66 | the number of emits of an event in a log is additive over concatenation, which the per-handler "exactly one" counts rest on |
| `QuestionPagination.ValidatePagination` | backend/question-service/src/controllers/question.controller.ts:39-45 | a request is accepted iff page and limit both parse and are both positive |
| `QuestionPagination.PageStart` | backend/question-service/src/controllers/question.controller.ts:47 | the start offset of a valid page is non-negative and the page ends at `page * limit` |
| `QuestionPagination.TotalPages` | backend/question-service/src/controllers/question.controller.ts:57 | the page count is the least number of `limit`-sized pages holding `count` items, and is zero exactly for an empty store |
| `QuestionPagination.TotalPagesUnique` | backend/question-service/src/controllers/question.controller.ts:57 | any number with the two ceiling properties equals the page count |
| `QuestionPagination.NextPageIffBeforeLastPage` | backend/question-service/src/controllers/question.controller.ts:49 | `nextPage` is `page + 1` when `start + limit < count` and null otherwise, which is exactly when `page < totalPages` |
| `QuestionPagination.Paginate` | backend/question-service/src/controllers/question.controller.ts:54-60 | the response echoes the page as `currentPage`, reports `count` items and the ceiling page count, and has a next page iff the page is before the last |
| `QuestionController.UpperChar` | backend/question-service/src/controllers/question.controller.ts:22 | upper-casing maps each ASCII lower-case letter to its capital and leaves every other character alone |
| `QuestionController.ToUpper` | backend/question-service/src/controllers/question.controller.ts:22 | upper-casing keeps the length, maps character by character and leaves no lower-case ASCII letter |
| `QuestionController.ToUpperIdempotent` | backend/question-service/src/controllers/question.controller.ts:22 | upper-casing twice is upper-casing once |
| `QuestionController.ErrorCodes` | backend/question-service/src/controllers/question.controller.ts:21-24 | one `'INVALID_' + UPPERCASE(property)` per validation error, in the same order |
| `QuestionController.FindByTitle` | backend/question-service/src/controllers/question.controller.ts:27-28 | the title lookup finds a question exactly when some stored question has that title, and what it finds has it |
| `QuestionController.FindById` | backend/question-service/src/controllers/question.controller.ts:66-68 | the id lookup finds nothing exactly when no stored question has that id; otherwise a stored question with that id |
| `QuestionController.Window` | backend/question-service/src/controllers/question.controller.ts:51 | the page query returns the consecutive questions from offset `start`: `limit` of them when that many remain, all remaining ones when fewer do, none past the end |
| `QuestionController.QuestionRepository.constructor` | backend/question-service/src/controllers/question.controller.ts:1-7 | the repository starts with the given questions and no calls |
| `QuestionController.QuestionRepository.FindQuestionCount` | backend/question-service/src/controllers/question.controller.ts:48 | the count query returns the number of stored questions and is logged |
| `QuestionController.QuestionRepository.FindPaginatedQuestions` | backend/question-service/src/controllers/question.controller.ts:51 | the page query returns the window at `(start, limit)` and is logged with exactly those arguments |
| `QuestionController.QuestionRepository.FindOneQuestionByTitle` | backend/question-service/src/controllers/question.controller.ts:27 | the title query returns the title lookup and is logged |
| `QuestionController.QuestionRepository.FindOneQuestionById` | backend/question-service/src/controllers/question.controller.ts:66 | the id query returns the id lookup and is logged |
| `QuestionController.QuestionRepository.CreateQuestion` | backend/question-service/src/controllers/question.controller.ts:33 | creating appends exactly one question with the request's fields |
| `QuestionController.HandleCreateQuestion` | backend/question-service/src/controllers/question.controller.ts:15-36 | with validation errors: 400 with the error codes, no query, store unchanged; with a taken title: 409 'DUPLICATE_TITLE', store unchanged; otherwise exactly one question added and 201 with it |
| `QuestionController.HandleGetPaginatedQuestions` | backend/question-service/src/controllers/question.controller.ts:38-61 | invalid page or limit: 400 'INVALID_PAGINATION' and no count or page query; otherwise one count query, one page query with exactly `(start, limit)`, and 200 with the pagination and that window |
| `QuestionController.HandleGetQuestionById` | backend/question-service/src/controllers/question.controller.ts:63-75 | 404 'NOT_FOUND' when no question has the id, else 200 with the question found |
| `QuestionFormFields.TrimStart` | frontend/pages/questions/props.tsx:131 | leading trimming removes a prefix made only of whitespace and leaves a suffix that is empty or starts with a non-whitespace character |
| `QuestionFormFields.TrimEnd` | frontend/pages/questions/props.tsx:131 | trailing trimming removes a suffix made only of whitespace and leaves a prefix that is empty or ends with a non-whitespace character |
| `QuestionFormFields.Trim` | frontend/pages/questions/props.tsx:131 | `trim()` is `''` exactly for whitespace-only strings |
| `QuestionFormFields.EveryIffAll` | frontend/pages/questions/props.tsx:131 | `every` over the list holds iff each case passes |
| `QuestionFormFields.CustomValidatorIff` | frontend/pages/questions/props.tsx:131 | a list is accepted iff it is non-empty and no case has a present input or output that is whitespace-only |
| `QuestionFormFields.EmptyListRejected` | frontend/pages/questions/props.tsx:131 | the empty list is rejected |
| `QuestionFormFields.OneBlankSideRejects` | frontend/pages/questions/props.tsx:131 | one whitespace-only input or output anywhere rejects the whole list |
| `QuestionFormFields.MissingOutputsPass` | frontend/pages/questions/props.tsx:131 | when no case has an output, the list passes iff it is non-empty and no input is whitespace-only |
| `QuestionFormFields.MissingInputsPass` | frontend/pages/questions/props.tsx:131 | when no case has an input, the list passes iff it is non-empty and no output is whitespace-only |
| `QuestionFormFields.DroppingASideKeepsValid` | frontend/pages/questions/props.tsx:131 | making either side of a valid case undefined keeps it valid |
| `QuestionFormFields.PermutationInvariant` | frontend/pages/questions/props.tsx:131 | two lists with the same cases in any order are both accepted or both rejected |
| `QuestionFormFields.AppendValidCase` | frontend/pages/questions/props.tsx:131 | appending a valid case to an accepted list keeps it accepted |
| `QuestionsPage.ClearedForm` | frontend/pages/questions/index.tsx:175-191 | the cleared form keeps the id and has empty title, description and link, no categories, EASY, NOT_ATTEMPTED and one empty test case |
| `QuestionsPage.ClearedFormDependsOnlyOnId` | frontend/pages/questions/index.tsx:175-191 | two forms clear to the same form iff they have the same id, and clearing is idempotent |
| `QuestionsPage.ClampRetry` | frontend/pages/questions/index.tsx:79-81 | `load` calls itself again iff `currentPage > totalPages` and `totalPages > 0`, with the same body except `page := totalPages` |
| `QuestionsPage.QuestionsPageState.constructor` | frontend/pages/questions/index.tsx:27-72 | the page's hooks start with their initial values: page 1 of 1, limit 5, closed dialogs, CREATE, an empty form |
| `QuestionsPage.QuestionsPageState.RequestQuestions` | frontend/pages/questions/index.tsx:74-76 | `load` issues one page request with the body it was given |
| `QuestionsPage.QuestionsPageState.ReceiveQuestions` | frontend/pages/questions/index.tsx:76-87 | on a response the data and pagination are shown and the retry is the clamp's; a falsy response changes nothing; a thrown error only adds the 'Failed to fetch questions' toast |
| `QuestionsPage.QuestionsPageState.Load` | frontend/pages/questions/index.tsx:74-88 | one page request, then the handling of its outcome; the sort order, modal, dialog, modification type and form are untouched |
| `QuestionsPage.QuestionsPageState.RefreshTable` | frontend/pages/questions/index.tsx:90-97 | a refresh requests the current page with the current limit and sort order, and returns that body for the later handling of its response |
| `QuestionsPage.QuestionsPageState.ClearFormData` | frontend/pages/questions/index.tsx:175-191 | the form becomes the cleared form of the old one, keeping its id |
| `QuestionsPage.QuestionsPageState.HandleCloseModal` | frontend/pages/questions/index.tsx:118-124 | closing the modal clears the form and sets only `isOpen := false` |
| `QuestionsPage.QuestionsPageState.ActionsHandler` | frontend/pages/questions/index.tsx:193-222 | a missing or empty row id changes nothing; DELETE sets only `id := elemId` and opens 'Delete question'; UPDATE requests the question and on success loads it into an opened 'Update question' modal |
| `QuestionsPage.QuestionsPageState.HandleConfirmDialog` | frontend/pages/questions/index.tsx:135-173 | a DELETE with an empty id does nothing; otherwise one request of the modification's kind; a thrown error adds one error toast and skips the refresh and the dialog close; else the table is refreshed and the dialog closed |
| `PageClamp.RetryIffPastLastPage` | frontend/pages/questions/index.tsx:79-81 | against the controller, `load` retries exactly when the page requested is past the last page of a non-empty store, and never for an empty store |
| `PageClamp.ClampSettlesAfterOneRetry` | frontend/pages/questions/index.tsx:79-81 | the retried request is accepted, is answered with `currentPage == totalPages`, and causes no further retry |
| `PageClamp.LoadFromController` | frontend/pages/questions/index.tsx:74-88 | `load` with its self-calls against the controller makes at most two requests; the page ends showing the last response's pagination and rows, which is not past the end, with sort order and modification type unchanged |
| `ProfileForm.HandleChange` | frontend/components/account/Profile.tsx:19-22 | the field named by the id gets the value and the other field is unchanged |
| `ProfileForm.ValidateInput` | frontend/components/account/Profile.tsx:24-35 | the username error is 'Please Enter a username!' iff the username is empty, else ''; the proficiency error is 'Please choose a proficiency level!' iff it is empty, else '' |
| `ProfileForm.ErrorDependsOnlyOnOwnField` | frontend/components/account/Profile.tsx:24-35 | each field's error depends only on that field's value |
| `ProfileForm.ValidateFilledAndEmpty` | frontend/components/account/Profile.tsx:10-35 | validation yields the all-empty initial values iff both fields are filled, and both messages for the initial form |
| `ProfileForm.ChangeAffectsOnlyItsError` | frontend/components/account/Profile.tsx:19-35 | after a change, the other field's error is as before and the changed field's error depends only on the new value |

## Left out

- Socket.IO server construction, CORS and the transport's own bookkeeping (socketio.service.ts:16-20): the room table and the socket table are plain fields, and each socket's own personal room is not modelled.
- `CollabSocket.WebSocketConnection.Disconnect`: assumes the transport has removed the socket from every room and its socket table before the handler runs; the other timing is not modelled.
- Interleaving at the `await` points (socketio.service.ts:41, 47, 71; the page's requests): each handler is one atomic step. So a `code-executed` reaches the members present when `executing-code` was sent, and two overlapping calls cannot interleave.
- The collaborators `completeCollaborationSession`, `updateChatHistory`, `updateLanguage` and `judgeZero.post` are recorded as calls only. Their failures, and the rejected promise a failed persist leaves, are not modelled. `config` is not part of this model.
- Logging (including the raw token log at socketio.service.ts:81) and `console.log`. `new Date()` is an abstract time parameter.
- `CollabSocket.Authenticate`: the token is a string or absent; other falsy JavaScript values (`0`, `false`, `null`) are represented by absence. `name` and `roomId` are assumed to be strings.
- `QuestionPagination.ValidatePagination`: the string parsing of `parseInt` is not modelled; a parsed value is an `Option<int>`, with `None` for `NaN`.
- `QuestionPagination.TotalPages`: integer ceiling division instead of floating-point `Math.ceil(count / limit)`, which agrees for counts well inside the exactly representable range.
- `QuestionController.ToUpper`: only the ASCII letters are upper-cased; JavaScript's full Unicode case mapping is not modelled.
- `CreateQuestionDto.validate`, `QuestionDto.fromModel` and the `class-validator` rules: validation errors are an input list of property names, and a stored question is returned as it is.
- The question repository is an abstract sequence. The count is its length, a page is a slice of it and the id of a new question is a parameter. Sorting is not modelled.
- HTTP client wrappers (`question-service-api` is not part of this model, nor are `matching-service-api.ts` and `collaboration-service-api.ts`). `PageClamp` assumes the page-request wrapper passes the controller's `currentPage` and `totalPages` through unchanged.
- `QuestionsPage.QuestionsPageState.RefreshTable`: `refreshTable` does not await `loadData`, so the response is handled by a separate `ReceiveQuestions` step; what other handlers do between the request and that step is not modelled.
- `QuestionsPage.QuestionsPageState.Load`: the self-call's request is returned as `retry` instead of being issued inside `load`, so the order in which the page's request and the earlier `setPagination` happen is not modelled.
- React's asynchronous `setState` batching and stale closures: each setter is an immediate field assignment.
- The page's rendering, `getColumns`, the sort and pagination UI handlers, `custom-input.tsx`, `custom-tabs.tsx`, `tailwind.config.js`, `Login.tsx`, both `Config.ts` files, `config.mock.ts` and the type declarations under `frontend/types`.
- `QuestionsPage.QuestionsPageState.HandleConfirmDialog`: only CREATE, UPDATE and DELETE are modelled; the `Modification` enum is not part of this model.
- `ProfileForm.HandleChange`: only the two ids the form's controls carry (Profile.tsx:50, 59) are modelled. With any other id the spread would add an extra key.
