# Feedback form: request-decision pipeline

A Dafny model of the core of a small Go web application that shows a
feedback form, validates submissions, stores valid ones and redirects to a
confirmation page. Everything around the decisions is abstracted: the
validator primitives, template execution, the database insert and the client
connection are parameters.

The model has six modules: `Optional`, a shared option type declared in
validation.dfy, and one module per source file or package:

- `Validation` (validation.dfy): the validator package the rules call. Its
  source is not part of this model. Two things are assumed: `Check` does
  nothing when its condition holds and records the key when it fails, and
  `ValidData` means no key is recorded. The rule primitives `NotBlank`,
  `MaxLength` and `IsValidEmail` are uninterpreted function fields of
  `Primitives`. Which message survives a second failure for the same key
  cannot be seen, so it is a parameter, `Policy = FirstWins | LastWins`.
  Every property below holds under both policies, unless it names one.
- `Data` (data.dfy): the `Feedback` record and `ValidateFeedback`. The
  function is written as the nine `Check` calls of the Go code. `Rules` is an
  independent table of the same checks, written field by field
  (`FieldRules`). The lemmas prove the two agree, then derive each property
  from the table through `Failures`: the failing messages of one field's
  rules, in order.
- `TemplateContext` (template_data.dfy): the render context and its defaults.
- `Rendering` (render.dfy): `render`. The response writer is a record with
  fields `headerWritten`, `status`, `body`, `location` and `room`. `room`
  counts the body bytes the client connection still accepts; a write past it
  fails after delivering what fits. The buffer pool is a sequence of idle
  buffers, which may hold stale content, plus counts of takes and returns.
  Template execution is an `Executor` returning either the full output or
  the partial output written before a failure.
- `Handlers` (handlers.dfy): `home`, `createFeedback` and `feedbackSuccess`.
  Each is a pure function from the collaborators (`App`), the buffer pool,
  the connection's room and, for `createFeedback`, the parsed form to a
  `Response`. A `Response` holds the terminal
  state, the final response writer, the pool, the `render` call made (if
  any) and the record passed to insert (if any).

Two points of the code's behaviour are easy to misread:

- A failed response write does not turn into a 500. `render` writes the
  header before the body (cmd/web/render.go:35-36), so when the write fails
  the page's status has already gone out. The handler's `http.Error` cannot
  replace that status, and the broken connection takes none of its text.
  `StatusFor` states this.
- Which message `Check` keeps when a key fails twice is not visible in the
  code, so it is the parameter `Policy`.

## Model

| member | source | states |
|---|---|---|
| `Validation.NewValidator` | cmd/web/handlers.go:45 | A new validator has no errors recorded. |
| `Validation.ValidData` | cmd/web/handlers.go:48 | The data is valid exactly when the error map is empty. |
| `Validation.AddError` | internal/data/feedback.go:21-29 | A failing check leaves the keys recorded so far plus its own key. Under first-wins an earlier message for the key stays; otherwise the key holds the new message. |
| `Validation.AddErrorKeepsOtherKeys` | internal/data/feedback.go:21-29 | Recording one key leaves every other key, and its message, as it was. |
| `Validation.Check` | internal/data/feedback.go:21-29 | A passing check leaves the validator unchanged. A failing check records its key. |
| `Data.ValidateFeedback` | internal/data/feedback.go:20-30 | When all nine predicates hold, the validator is left exactly as it was. The full per-key result is given by the lemmas below. |
| `Data.ValidateFeedbackFollowsTable` | internal/data/feedback.go:20-30 | The nine literal checks equal the rule table applied in order, on any validator and under either policy. |
| `Data.RuleTableShape` | internal/data/feedback.go:21-29 | There are nine rules. Every blank check says "must be provided", and only blank checks do. The only syntax check is on the email and says "invalid email address". Each length check uses its field's limit: 50, 50, 100, 500. |
| `Data.EveryFieldIsChecked` | internal/data/feedback.go:21-29 | Each of the four fields has a blank check with "must be provided" and a length check at its limit. |
| `Data.FailuresPerField` | internal/data/feedback.go:21-29 | For each field, the messages it can collect and their order: blank first, then email syntax, then length. |
| `Data.ApplyRulesPerField` | internal/data/feedback.go:20-30 | For any rule list, a field's key ends up recorded exactly when it was already recorded or one of its rules fails. First-wins keeps the earlier message, or else the first failure. Last-wins takes the last failure, or else keeps the earlier message. |
| `Data.ApplyRulesKeepsOtherKeys` | internal/data/feedback.go:20-30 | For any rule list, a key that is not a field key keeps exactly what it held before. |
| `Data.ValidateFeedbackErrors` | internal/data/feedback.go:20-30 | The same per-key description, for `ValidateFeedback` itself. |
| `Data.RecordedKeysAreFieldKeys` | internal/data/feedback.go:21-29 | A key other than fullname, subject, email or message is never recorded or changed. |
| `Data.ValidIffAllRulesPass` | internal/data/feedback.go:20-30 | A fresh validator stays valid exactly when all nine predicates hold, in both directions. |
| `Data.BlankFieldIsReported` | internal/data/feedback.go:21-28 | A blank field's key is always recorded. Under first-wins its message is "must be provided". |
| `Data.OverLongFieldIsReported` | internal/data/feedback.go:22-29 | A field over its byte limit is always recorded, so the data is invalid. `Handlers.OverLongFieldIsNotStored` carries this on to the handler. |
| `Data.BadEmailIsReported` | internal/data/feedback.go:25-27 | A malformed email gets "invalid email address": under first-wins when it is not blank, under last-wins when it is within 100 bytes. |
| `Data.FieldChecksAreLocal` | internal/data/feedback.go:21-29 | Whether a field's key is recorded, and its message, depend only on that field's value. |
| `Data.IdentityIsNotConsulted` | internal/data/feedback.go:11-30 | Changing `ID` or `CreatedAt` does not change the result of validation. |
| `TemplateContext.NewTemplateData` | cmd/web/template_data.go:10-17 | The defaults: title "Default Title", header "Default HeaderText", and empty error and form-data maps. |
| `Rendering.WriteHeader` | cmd/web/render.go:35 | The status is set by the first header only. A later call changes nothing, and the body and location are kept. |
| `Rendering.Write` | cmd/web/render.go:36 | A body write first sends 200 if no header was sent. It appends as much of the data as the connection takes and succeeds exactly when all of it was taken. A failed write leaves the connection taking nothing more. |
| `Rendering.Get` | cmd/web/render.go:10-17 | Taking a buffer returns an idle one, or a new empty one when none is idle, and counts the take. |
| `Rendering.Put` | cmd/web/render.go:19 | Returning a buffer appends it to the idle buffers and counts the return. |
| `Rendering.Reset` | cmd/web/render.go:18 | Resetting a buffer empties it, whatever it held. |
| `Rendering.Render` | cmd/web/render.go:16-44 | Exactly one buffer is taken and returned, and the other idle buffers are untouched. An unknown page or a failed execution returns its error and leaves the response untouched. After a full execution the header is sent once, then exactly the output, or the part the connection took. The result is nil exactly when lookup, execution and write all succeed. A write failure comes after the header. No body is ever sent before a header. The returned buffer is drained by the write: it is empty after success, and holds the unsent tail after a short write or the partial output after a failed execution. |
| `Rendering.SinkTouchedOnlyAfterExecution` | cmd/web/render.go:21-36 | If anything reached the response, the page was found and fully executed. |
| `Rendering.RenderIgnoresStaleBuffers` | cmd/web/render.go:17-19 | Because the buffer is reset, the response does not depend on what pooled buffers held. |
| `Rendering.RenderIsRepeatable` | cmd/web/render.go:17-36 | Rendering the same page twice, the second time with the buffer the first call returned, gives the same response and result. |
| `Handlers.HttpError` | cmd/web/handlers.go:18 | `http.Error` sets the status unless a header was already sent, then appends the text and a newline, as far as the connection takes them. |
| `Handlers.Redirect` | cmd/web/handlers.go:75 | `http.Redirect` on a fresh response sets the Location header and the status and sends no body. Once a header has been sent it changes nothing. |
| `Handlers.ServePage` | cmd/web/handlers.go:15-20 | Every handler's render-or-500 step records the render call and inserts nothing. It ends as rendered exactly when `render` returns nil, and otherwise as a render failure. The pool is the one `render` leaves. |
| `Handlers.Home` | cmd/web/handlers.go:11-21 | GET / asks `render` for home.tmpl at 200 with "Welcome" and "We are here to help", and stores nothing. |
| `Handlers.FeedbackSuccess` | cmd/web/handlers.go:78-89 | The success page asks `render` for feedback_success.tmpl at 200 with "Feedback Submitted" and "Thank You for Your Feedback!", and stores nothing. |
| `Handlers.CreateFeedback` | cmd/web/handlers.go:23-76 | The answer is 400 exactly when the form does not parse. A page is rendered only to re-show the form (home.tmpl at 422), and then nothing is stored. Without a page the pool is untouched. The store is reached exactly on the insert-failure and redirect paths. |
| `Handlers.FormValue` | cmd/web/handlers.go:32-35 | A form value is the first value posted under its key, or "" when there is none. |
| `Handlers.FeedbackFrom` | cmd/web/handlers.go:37-42 | The record holds the raw form values, with `name` filling `Fullname`. There is no trimming. `ID` and `CreatedAt` are unset. |
| `Handlers.FormData` | cmd/web/handlers.go:53-58 | The echoed form data has exactly the keys name, email, subject and message, each with its raw value. |
| `Handlers.ServePageResponse` | cmd/web/handlers.go:15-20 | Serving a page: the status follows `StatusFor`. A missing template or a failed execution gives 500 and only the error text, with no partial HTML. Success sends exactly the page. A write failure keeps the page's status and sends a strict prefix of the page. |
| `Handlers.HomeResponse` | cmd/web/handlers.go:11-21 | GET / renders home.tmpl at 200 with "Welcome" and "We are here to help" and empty maps. The status is 500 exactly when the page cannot be produced. |
| `Handlers.FeedbackSuccessResponse` | cmd/web/handlers.go:78-89 | The success page renders feedback_success.tmpl at 200 with "Feedback Submitted" and "Thank You for Your Feedback!". The status is 500 exactly when the page cannot be produced. |
| `Handlers.ParseFailureIsBadRequest` | cmd/web/handlers.go:25-30 | An unparsable body answers 400 "Bad Request", with no validation, insert or render, and the pool unchanged. |
| `Handlers.InsertIffValid` | cmd/web/handlers.go:44-69 | Insert is called exactly when the form parsed and all nine checks pass. It receives the record built from the form, and then no page is rendered. |
| `Handlers.InvalidSubmissionRerendersForm` | cmd/web/handlers.go:48-66 | Invalid data renders home.tmpl at 422 with "Welcome" and "We are here to help", the validator's non-empty errors and the four raw values, and inserts nothing. 422 is also the status after a write failure. |
| `Handlers.InsertFailureIsServerError` | cmd/web/handlers.go:69-74 | A failed insert answers 500 "Internal Server Error", with no redirect and no page. |
| `Handlers.OverLongFieldIsNotStored` | cmd/web/handlers.go:44-66 | A field over its byte limit is never stored. The form is re-shown at 422 with an error under that field's key. |
| `Handlers.InsertSuccessRedirects` | cmd/web/handlers.go:75 | A successful insert answers 303 with Location /feedback/success, an empty body and no page rendered. |
| `Handlers.EveryResponseIsWellFormed` | cmd/web/handlers.go:11-89 | On every path of every handler, a header is sent, no body precedes it, the status matches the terminal state, and the pool gets back exactly the one buffer lent per rendered page. |
| `Handlers.ValidSubmissionScenario` | cmd/web/handlers.go:23-76 | Alice's valid submission is stored once, as built from the form, and answered with 303 to /feedback/success. |
| `Handlers.InvalidSubmissionScenario` | cmd/web/handlers.go:23-66 | A blank name with the email "bad" gives 422 with errors for exactly fullname ("must be provided") and email ("invalid email address"), under either policy. Subject and message are echoed back. |
| `Handlers.MissingHomeTemplateScenario` | cmd/web/handlers.go:11-21 | Without home.tmpl in the cache, GET / answers 500 with only "Internal Server Error\n". |

## Left out

- The validator package is not part of this model. Its primitives are uninterpreted. The model assumes `Check` is a no-op on true and that `ValidData` means an empty map. The duplicate-key policy is a parameter; no email grammar is invented.
- `ValidateFeedback` only reading the record needs no member: Dafny values are immutable, so the caller's `Feedback` cannot change.
- `FeedbackModel.Insert` (internal/data/feedback.go:36-53) is SQL with a 3-second timeout. It is reduced to `App.insert`, a success-or-failure outcome. Storing `ID` and `CreatedAt` is not modelled because the handler discards the record.
- Logging (`app.logger.Error` in handlers and render) and the error texts built with `fmt.Errorf` are dropped. Only the kind of render error is kept.
- Program start-up, configuration, the HTTP server and request logging (cmd/web/main.go, server.go, middleware.go) are I/O.
- Building the template cache (cmd/web/templates.go) reads the file system. The cache is a given map from page names to opaque templates.
- Routing (cmd/web/routes.go) relies on `http.ServeMux` patterns and a static file server. `Handle` only picks the handler for a route; matching and static files are not modelled.
- `html/template` execution is the `Executor` parameter.
- `Rendering.WriteHeader`: status codes are the subset type `StatusCode`: 200-599 without 204 and 304. net/http rejects codes outside 100-999 and treats 1xx codes as informational, so the next write still sends 200. After 204 or 304 it refuses every body byte with `ErrBodyNotAllowed`. None of these cases is modelled, because every call in the handlers and in `render` passes 200, 303, 400, 422 or 500. The response writer's status starts at 200, net/http's default, and means nothing until a header is written.
- The `http.Error` model covers the status and body only. Its Content-Type and X-Content-Type-Options headers are not modelled.
- The `http.Redirect` model covers the Location header and status only. Its path cleaning leaves "/feedback/success" unchanged, and its short HTML body is sent only for GET requests, never for this POST.
- net/http's own output buffering is not modelled. A connection failure is the `room` byte budget of the response writer.
- `sync.Pool` is modelled sequentially. Concurrent access, and the runtime dropping idle buffers, are not modelled.
- Response bodies are strings of characters rather than byte slices.
- cmd/web/main_test.go expects output from an application without a template cache, so it does not describe the code's behaviour.
