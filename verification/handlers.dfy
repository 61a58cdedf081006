/**
 The three request handlers (cmd/web/handlers.go) as pure functions from
 the abstract outcomes of their collaborators to a response.

 Each request gets a fresh response writer, described only by how many
 body bytes its connection will take. The template cache, template
 execution, the validator primitives and policy, and the database insert
 are the fields of `App`.
 */
module Handlers {
  import opened Optional
  import opened Validation
  import opened Data
  import opened TemplateContext
  import opened Rendering

  datatype App = App(
    templateCache: map<string, Template>,
    exec: Executor,
    prims: Primitives,
    policy: Policy,
    insert: Feedback -> bool)   // whether storing the record succeeds

  /** The parsed request body: the posted form values, or a parse error. */
  datatype Form = ParseError | PostForm(values: map<string, seq<string>>)

  /** The first value posted under `key`, or "" when there is none. */
  function FormValue(values: map<string, seq<string>>, key: string): (s: string)
    ensures key in values && values[key] != [] ==> s == values[key][0]
    ensures key !in values || values[key] == [] ==> s == ""
  {
    if key in values && values[key] != [] then values[key][0] else ""
  }

  /** The arguments a handler passed to `render`. */
  datatype RenderCall = RenderCall(status: StatusCode, page: string, data: TemplateData)

  /** Where a handler's decision tree ended. */
  datatype Terminal =
    | BadRequest
    | PageRendered
    | RenderFailed(err: RenderError)
    | InsertFailed
    | Redirected

  datatype Response = Response(
    terminal: Terminal,
    sink: Sink,
    pool: Pool,
    rendered: Option<RenderCall>,
    inserted: Option<Feedback>)

  const HomePage := "home.tmpl"
  const SuccessPage := "feedback_success.tmpl"
  const SuccessPath := "/feedback/success"
  const InternalServerError := "Internal Server Error"

  /** The error text `http.Error` sends, cut where the connection stopped taking bytes. */
  function ErrorBody(text: string, room: Option<nat>): string {
    (text + "\n")[..Accepted(room, |text| + 1)]
  }

  /** `http.Error`: the status (ignored once a header was sent), then the text and a newline. */
  function HttpError(s: Sink, text: string, code: StatusCode): (s': Sink)
    ensures s'.headerWritten
    ensures s'.status == (if s.headerWritten then s.status else code)
    ensures s'.body == s.body + ErrorBody(text, s.room)
    ensures s'.location == s.location
  {
    Write(WriteHeader(s, code), text + "\n").sink
  }

  /** `http.Redirect` answering a POST: a Location header and the status, no body. */
  function Redirect(s: Sink, url: string, code: StatusCode): (s': Sink)
    ensures s'.headerWritten
    ensures !s.headerWritten ==> s'.status == code && s'.location == Some(url)
    ensures s.headerWritten ==> s' == s
    ensures s'.body == s.body
  {
    WriteHeader(if s.headerWritten then s else s.(location := Some(url)), code)
  }

  /** `render`, answering 500 when it reports an error. */
  function ServePage(app: App, room: Option<nat>, p: Pool, status: StatusCode, page: string, data: TemplateData): (r: Response)
    ensures r.rendered == Some(RenderCall(status, page, data)) && r.inserted == None
    ensures r.pool == Render(app.templateCache, app.exec, NewSink(room), p, status, page, data).pool
    ensures r.terminal == PageRendered || r.terminal.RenderFailed?
    ensures r.terminal == PageRendered <==>
              Render(app.templateCache, app.exec, NewSink(room), p, status, page, data).err == None
  {
    var rr := Render(app.templateCache, app.exec, NewSink(room), p, status, page, data);
    var call := RenderCall(status, page, data);
    match rr.err
    case None => Response(PageRendered, rr.sink, rr.pool, Some(call), None)
    case Some(e) => Response(RenderFailed(e), HttpError(rr.sink, InternalServerError, StatusInternalServerError), rr.pool, Some(call), None)
  }

  function HomeData(): TemplateData {
    NewTemplateData().(title := "Welcome", headerText := "We are here to help")
  }

  function SuccessData(): TemplateData {
    NewTemplateData().(title := "Feedback Submitted", headerText := "Thank You for Your Feedback!")
  }

  /** GET / */
  function Home(app: App, room: Option<nat>, p: Pool): (r: Response)
    ensures r.rendered.Some? && r.inserted == None
    ensures r.rendered.value.status == StatusOK && r.rendered.value.page == "home.tmpl"
    ensures r.rendered.value.data.title == "Welcome" && r.rendered.value.data.headerText == "We are here to help"
    ensures r.terminal == PageRendered || r.terminal.RenderFailed?
  {
    ServePage(app, room, p, StatusOK, HomePage, HomeData())
  }

  /** GET /feedback/success */
  function FeedbackSuccess(app: App, room: Option<nat>, p: Pool): (r: Response)
    ensures r.rendered.Some? && r.inserted == None
    ensures r.rendered.value.status == StatusOK && r.rendered.value.page == "feedback_success.tmpl"
    ensures r.rendered.value.data.title == "Feedback Submitted"
    ensures r.rendered.value.data.headerText == "Thank You for Your Feedback!"
    ensures r.terminal == PageRendered || r.terminal.RenderFailed?
  {
    ServePage(app, room, p, StatusOK, SuccessPage, SuccessData())
  }

  /** The record built from the raw form values; form key `name` fills `fullname`. */
  function FeedbackFrom(values: map<string, seq<string>>): (fb: Feedback)
    ensures fb.fullname == FormValue(values, "name")
    ensures fb.email == FormValue(values, "email")
    ensures fb.subject == FormValue(values, "subject")
    ensures fb.message == FormValue(values, "message")
    ensures fb.id == 0 && fb.createdAt == Unset
  {
    Feedback(0, Unset, FormValue(values, "name"), FormValue(values, "subject"),
             FormValue(values, "message"), FormValue(values, "email"))
  }

  /** The submitted values echoed back to the form. */
  function FormData(values: map<string, seq<string>>): (m: map<string, string>)
    ensures m.Keys == {"name", "email", "subject", "message"}
    ensures forall k :: k in m ==> m[k] == FormValue(values, k)
  {
    map["name" := FormValue(values, "name"),
        "email" := FormValue(values, "email"),
        "subject" := FormValue(values, "subject"),
        "message" := FormValue(values, "message")]
  }

  /** POST /feedback/new */
  function CreateFeedback(app: App, form: Form, room: Option<nat>, p: Pool): (r: Response)
    // a parse failure, and only that, answers 400
    ensures r.terminal == BadRequest <==> form.ParseError?
    // a page is rendered only to re-show the form, and then nothing is stored
    ensures r.rendered.Some? ==> r.inserted == None && r.rendered.value.page == "home.tmpl"
                                 && r.rendered.value.status == StatusUnprocessableEntity
    ensures r.rendered.None? ==> r.pool == p
    // the store is reached exactly on the insert-failure and redirect paths
    ensures r.inserted.Some? <==> r.terminal == InsertFailed || r.terminal == Redirected
  {
    match form
    case ParseError =>
      Response(BadRequest, HttpError(NewSink(room), "Bad Request", StatusBadRequest), p, None, None)
    case PostForm(values) =>
      var feedback := FeedbackFrom(values);
      var v := ValidateFeedback(app.policy, app.prims, NewValidator(), feedback);
      if !ValidData(v) then
        var data := NewTemplateData().(title := "Welcome", headerText := "We are here to help",
                                       formErrors := v.errors, formData := FormData(values));
        ServePage(app, room, p, StatusUnprocessableEntity, HomePage, data)
      else if !app.insert(feedback) then
        Response(InsertFailed, HttpError(NewSink(room), InternalServerError, StatusInternalServerError), p, None, Some(feedback))
      else
        Response(Redirected, Redirect(NewSink(room), SuccessPath, StatusSeeOther), p, None, Some(feedback))
  }

  /**
   The status each terminal state answers with, given the status the page
   was rendered at. A failed write happens after the page's header went out,
   so the 500 that follows it cannot replace that header.
   */
  function StatusFor(t: Terminal, pageStatus: int): int {
    match t
    case BadRequest => StatusBadRequest
    case PageRendered => pageStatus
    case RenderFailed(e) => if e == WriteFailed then pageStatus else StatusInternalServerError
    case InsertFailed => StatusInternalServerError
    case Redirected => StatusSeeOther
  }

  /** The status a page was asked to be rendered at, 0 when nothing was rendered. */
  function PageStatus(r: Response): int {
    if r.rendered.Some? then r.rendered.value.status else 0
  }


  /** Serving a page on a fresh response writer: which error ends where, and what is sent. */
  lemma ServePageResponse(app: App, room: Option<nat>, p: Pool, status: StatusCode, page: string, data: TemplateData)
    ensures var r := ServePage(app, room, p, status, page, data);
            && r.sink.headerWritten && r.sink.location == None
            && r.sink.status == StatusFor(r.terminal, status)
            && (r.terminal == RenderFailed(TemplateNotFound(page)) <==> page !in app.templateCache)
            && (r.terminal == RenderFailed(ExecuteFailed(page)) <==>
                  page in app.templateCache && app.exec(app.templateCache[page], data).ExecFailed?)
            && (r.terminal == PageRendered || r.terminal == RenderFailed(WriteFailed) <==>
                  Output(app.templateCache, app.exec, page, data).Some?)
    ensures var r := ServePage(app, room, p, status, page, data);
            var out := Output(app.templateCache, app.exec, page, data);
            && (r.terminal == PageRendered ==> r.sink.body == out.value)
            && (r.terminal == RenderFailed(WriteFailed) ==>
                  r.sink.body == out.value[..Accepted(room, |out.value|)] && |r.sink.body| < |out.value|)
            && (r.terminal == RenderFailed(TemplateNotFound(page)) || r.terminal == RenderFailed(ExecuteFailed(page)) ==>
                  r.sink.body == ErrorBody(InternalServerError, room))
  {
    var r := ServePage(app, room, p, status, page, data);
    var rr := Render(app.templateCache, app.exec, NewSink(room), p, status, page, data);
    var out := Output(app.templateCache, app.exec, page, data);
    if out.Some? {
      assert rr.sink.body == "" + out.value[..Accepted(room, |out.value|)];
    }
  }

  /** GET /: the home page at 200 with its own title and header and an empty form. */
  lemma HomeResponse(app: App, room: Option<nat>, p: Pool)
    ensures var r := Home(app, room, p);
            && r.rendered.Some? && r.inserted == None
            && r.rendered.value.status == StatusOK && r.rendered.value.page == "home.tmpl"
            && r.rendered.value.data == TemplateData("Welcome", "We are here to help", map[], map[])
            && (r.sink.status == StatusInternalServerError <==>
                  Output(app.templateCache, app.exec, "home.tmpl", r.rendered.value.data).None?)
            && (r.sink.status == StatusOK || r.sink.status == StatusInternalServerError)
  {
    ServePageResponse(app, room, p, StatusOK, HomePage, HomeData());
  }

  /** GET /feedback/success: the confirmation page at 200, or 500 when it cannot be produced. */
  lemma FeedbackSuccessResponse(app: App, room: Option<nat>, p: Pool)
    ensures var r := FeedbackSuccess(app, room, p);
            && r.rendered.Some? && r.inserted == None
            && r.rendered.value.status == StatusOK && r.rendered.value.page == "feedback_success.tmpl"
            && r.rendered.value.data == TemplateData("Feedback Submitted", "Thank You for Your Feedback!", map[], map[])
            && (r.sink.status == StatusInternalServerError <==>
                  Output(app.templateCache, app.exec, "feedback_success.tmpl", r.rendered.value.data).None?)
            && (r.sink.status == StatusOK || r.sink.status == StatusInternalServerError)
  {
    ServePageResponse(app, room, p, StatusOK, SuccessPage, SuccessData());
  }

  /** An unparsable body: 400 "Bad Request", nothing validated, inserted or rendered. */
  lemma ParseFailureIsBadRequest(app: App, other: App, room: Option<nat>, p: Pool)
    ensures var r := CreateFeedback(app, ParseError, room, p);
            && r.terminal == BadRequest
            && r.sink.headerWritten && r.sink.status == StatusBadRequest
            && r.sink.body == ErrorBody("Bad Request", room)
            && r.sink.location == None
            && r.rendered == None && r.inserted == None && r.pool == p
    // the collaborators, validation included, play no part
    ensures CreateFeedback(app, ParseError, room, p) == CreateFeedback(other, ParseError, room, p)
  {
  }

  /** The record is stored exactly when the form parsed and all nine checks pass. */
  lemma InsertIffValid(app: App, form: Form, room: Option<nat>, p: Pool)
    ensures CreateFeedback(app, form, room, p).inserted.Some? <==>
              && form.PostForm?
              && forall i :: 0 <= i < |Rules| ==> Passes(app.prims, Rules[i], FeedbackFrom(form.values))
    ensures CreateFeedback(app, form, room, p).inserted.Some? ==>
              CreateFeedback(app, form, room, p).inserted.value == FeedbackFrom(form.values)
    ensures CreateFeedback(app, form, room, p).inserted.Some? ==> CreateFeedback(app, form, room, p).rendered == None
  {
    if form.PostForm? {
      ValidIffAllRulesPass(app.policy, app.prims, FeedbackFrom(form.values));
    }
  }

  /**
   Invalid data re-renders the home page at 422 with the validator's errors
   and the raw submitted values, and stores nothing.
   */
  lemma InvalidSubmissionRerendersForm(app: App, values: map<string, seq<string>>, room: Option<nat>, p: Pool)
    requires !ValidData(ValidateFeedback(app.policy, app.prims, NewValidator(), FeedbackFrom(values)))
    ensures var r := CreateFeedback(app, PostForm(values), room, p);
            && r.inserted == None
            && r.rendered.Some?
            && r.rendered.value.status == StatusUnprocessableEntity
            && r.rendered.value.page == "home.tmpl"
            && r.rendered.value.data.title == "Welcome"
            && r.rendered.value.data.headerText == "We are here to help"
            && r.rendered.value.data.formErrors == ValidateFeedback(app.policy, app.prims, NewValidator(), FeedbackFrom(values)).errors
            && r.rendered.value.data.formErrors != map[]
            && r.rendered.value.data.formData.Keys == {"name", "email", "subject", "message"}
            && (forall k :: k in r.rendered.value.data.formData ==> r.rendered.value.data.formData[k] == FormValue(values, k))
            && (r.terminal == PageRendered ==> r.sink.status == StatusUnprocessableEntity)
            && (r.terminal == RenderFailed(WriteFailed) ==> r.sink.status == StatusUnprocessableEntity)
  {
    var r := CreateFeedback(app, PostForm(values), room, p);
    ServePageResponse(app, room, p, StatusUnprocessableEntity, HomePage, r.rendered.value.data);
  }

  /** A failed insert answers 500 with no redirect and no page. */
  lemma InsertFailureIsServerError(app: App, values: map<string, seq<string>>, room: Option<nat>, p: Pool)
    requires ValidData(ValidateFeedback(app.policy, app.prims, NewValidator(), FeedbackFrom(values)))
    requires !app.insert(FeedbackFrom(values))
    ensures var r := CreateFeedback(app, PostForm(values), room, p);
            && r.terminal == InsertFailed
            && r.sink.status == StatusInternalServerError
            && r.sink.body == ErrorBody(InternalServerError, room)
            && r.sink.location == None
            && r.rendered == None && r.pool == p
  {
  }

  /** A field over its byte limit is never stored, whatever the other fields hold. */
  lemma OverLongFieldIsNotStored(app: App, values: map<string, seq<string>>, room: Option<nat>, p: Pool, f: Field)
    requires !app.prims.maxLength(Value(FeedbackFrom(values), f), Limit(f))
    ensures var r := CreateFeedback(app, PostForm(values), room, p);
            && r.inserted == None
            && r.rendered.Some? && r.rendered.value.status == StatusUnprocessableEntity
            && Key(f) in r.rendered.value.data.formErrors
  {
    OverLongFieldIsReported(app.policy, app.prims, FeedbackFrom(values), f);
  }

  /** A stored record ends in a 303 redirect to the success page, with no page rendered. */
  lemma InsertSuccessRedirects(app: App, values: map<string, seq<string>>, room: Option<nat>, p: Pool)
    requires ValidData(ValidateFeedback(app.policy, app.prims, NewValidator(), FeedbackFrom(values)))
    requires app.insert(FeedbackFrom(values))
    ensures var r := CreateFeedback(app, PostForm(values), room, p);
            && r.terminal == Redirected
            && r.sink.headerWritten && r.sink.status == StatusSeeOther
            && r.sink.location == Some("/feedback/success")
            && r.sink.body == ""
            && r.rendered == None && r.pool == p
  {
  }

  /** The handler an incoming request is routed to. */
  datatype Route = GetHome | PostFeedback(form: Form) | GetSuccess

  function Handle(app: App, route: Route, room: Option<nat>, p: Pool): Response {
    match route
    case GetHome => Home(app, room, p)
    case PostFeedback(form) => CreateFeedback(app, form, room, p)
    case GetSuccess => FeedbackSuccess(app, room, p)
  }

  /**
   On every path of every handler a status header is sent and matches the
   terminal state; the body never precedes the header; and the pool gets
   back every buffer it lends, one per rendered page.
   */
  ghost predicate WellFormed(r: Response, p: Pool) {
    && r.sink.headerWritten
    && HeaderBeforeBody(r.sink)
    && r.sink.status == StatusFor(r.terminal, PageStatus(r))
    && r.pool.gets == p.gets + (if r.rendered.Some? then 1 else 0)
    && r.pool.puts == p.puts + (if r.rendered.Some? then 1 else 0)
  }

  lemma ServePageIsWellFormed(app: App, room: Option<nat>, p: Pool, status: StatusCode, page: string, data: TemplateData)
    ensures WellFormed(ServePage(app, room, p, status, page, data), p)
  {
    ServePageResponse(app, room, p, status, page, data);
  }

  lemma CreateFeedbackIsWellFormed(app: App, form: Form, room: Option<nat>, p: Pool)
    ensures WellFormed(CreateFeedback(app, form, room, p), p)
  {
    if form.PostForm? {
      var r := CreateFeedback(app, form, room, p);
      if r.rendered.Some? {
        ServePageIsWellFormed(app, room, p, StatusUnprocessableEntity, HomePage, r.rendered.value.data);
      }
    }
  }

  lemma EveryResponseIsWellFormed(app: App, route: Route, room: Option<nat>, p: Pool)
    ensures WellFormed(Handle(app, route, room, p), p)
  {
    match route
    case GetHome => ServePageIsWellFormed(app, room, p, StatusOK, HomePage, HomeData());
    case GetSuccess => ServePageIsWellFormed(app, room, p, StatusOK, SuccessPage, SuccessData());
    case PostFeedback(form) => CreateFeedbackIsWellFormed(app, form, room, p);
  }

  /**
   A well-formed submission by Alice, with primitives that accept her
   values and a store that accepts the record: one insert, then 303 to the
   success page.
   */
  lemma ValidSubmissionScenario(app: App, room: Option<nat>, p: Pool)
    requires app.prims.notBlank("Alice") && app.prims.maxLength("Alice", 50)
    requires app.prims.notBlank("Hi") && app.prims.maxLength("Hi", 50)
    requires app.prims.notBlank("alice@test.com") && app.prims.isValidEmail("alice@test.com")
    requires app.prims.maxLength("alice@test.com", 100)
    requires app.prims.notBlank("Hello") && app.prims.maxLength("Hello", 500)
    requires app.insert(Feedback(0, Unset, "Alice", "Hi", "Hello", "alice@test.com"))
    ensures var form := PostForm(map["name" := ["Alice"], "email" := ["alice@test.com"],
                                     "subject" := ["Hi"], "message" := ["Hello"]]);
            var r := CreateFeedback(app, form, room, p);
            && r.sink.status == StatusSeeOther
            && r.sink.location == Some("/feedback/success")
            && r.inserted == Some(Feedback(0, Unset, "Alice", "Hi", "Hello", "alice@test.com"))
  {
    var values := map["name" := ["Alice"], "email" := ["alice@test.com"], "subject" := ["Hi"], "message" := ["Hello"]];
    var fb := FeedbackFrom(values);
    assert fb == Feedback(0, Unset, "Alice", "Hi", "Hello", "alice@test.com");
    ValidIffAllRulesPass(app.policy, app.prims, fb);
    InsertSuccessRedirects(app, values, room, p);
  }

  /**
   A blank name and a malformed email, with primitives that judge them so:
   422, errors for exactly fullname and email, under either policy, and the
   subject and message echoed back.
   */
  lemma InvalidSubmissionScenario(app: App, room: Option<nat>, p: Pool)
    requires !app.prims.notBlank("") && app.prims.maxLength("", 50)
    requires app.prims.notBlank("bad") && !app.prims.isValidEmail("bad") && app.prims.maxLength("bad", 100)
    requires app.prims.notBlank("S") && app.prims.maxLength("S", 50)
    requires app.prims.notBlank("M") && app.prims.maxLength("M", 500)
    ensures var form := PostForm(map["name" := [""], "email" := ["bad"], "subject" := ["S"], "message" := ["M"]]);
            var r := CreateFeedback(app, form, room, p);
            && r.inserted == None
            && r.rendered.Some? && r.rendered.value.status == StatusUnprocessableEntity
            && r.rendered.value.data.formErrors == map["fullname" := "must be provided", "email" := "invalid email address"]
            && r.rendered.value.data.formData["subject"] == "S"
            && r.rendered.value.data.formData["message"] == "M"
  {
    var values := map["name" := [""], "email" := ["bad"], "subject" := ["S"], "message" := ["M"]];
    var fb := FeedbackFrom(values);
    assert fb == Feedback(0, Unset, "", "S", "M", "bad");
    var v := ValidateFeedback(app.policy, app.prims, NewValidator(), fb);
    FailuresPerField(app.prims, fb, Fullname);
    FailuresPerField(app.prims, fb, Email);
    ValidateFeedbackErrors(app.policy, app.prims, NewValidator(), fb, Fullname);
    ValidateFeedbackErrors(app.policy, app.prims, NewValidator(), fb, Subject);
    ValidateFeedbackErrors(app.policy, app.prims, NewValidator(), fb, Email);
    ValidateFeedbackErrors(app.policy, app.prims, NewValidator(), fb, Message);
    forall k | k in v.errors ensures k in FieldKeys {
      if k !in FieldKeys {
        RecordedKeysAreFieldKeys(app.policy, app.prims, NewValidator(), fb, k);
      }
    }
    assert v.errors == map["fullname" := "must be provided", "email" := "invalid email address"];
    InvalidSubmissionRerendersForm(app, values, room, p);
  }

  /** With no home template in the cache, GET / answers 500 and no HTML at all. */
  lemma MissingHomeTemplateScenario(app: App, p: Pool)
    requires "home.tmpl" !in app.templateCache
    ensures var r := Home(app, None, p);
            && r.terminal == RenderFailed(TemplateNotFound("home.tmpl"))
            && r.sink.status == StatusInternalServerError
            && r.sink.body == "Internal Server Error\n"
  {
    ServePageResponse(app, None, p, StatusOK, HomePage, HomeData());
  }
}
