/**
  The create/edit form: its default draft, the three field setters, the
  lenient JSON text areas, the body-pattern editor's visibility, the
  browser's constraint check, submission, and the "test" button's URL.
 */
module MappingForm {
  import opened Wrappers
  import opened JsStrings
  import opened WireMockTypes
  import opened AppStore
  import DetailLoad
  import ViewMappingPage

  const SaveError := "Error al guardar el mapping"
  const LoadError := "Error al cargar el mapping"
  const HttpMethods := ["GET", "POST", "PUT", "DELETE", "PATCH", "HEAD", "OPTIONS"]
  const TestBase := "http://localhost:8080"

  /** The draft a new form starts from. */
  const DefaultDraft := Mapping(
    id := None, uuid := None, name := Some(""),
    request := RequestPattern(
      httpMethod := "GET", url := None, urlPath := Some(""), urlPathPattern := None, urlPattern := None,
      headers := None, queryParameters := None, bodyPatterns := None),
    response := ResponseDefinition(
      status := 200, statusMessage := None, headers := None, body := Some(""), jsonBody := None,
      base64Body := None, bodyFileName := None, fixedDelayMilliseconds := None, fault := None),
    persistent := Some(true), priority := Some(1),
    scenarioName := None, requiredScenarioState := None, newScenarioState := None, metadata := None)

  /** Edits of the "general information" card. */
  datatype GeneralEdit = EditName(name: string) | EditPriority(priority: int) | EditPersistent(persistent: bool)

  /** Edits of the request card. */
  datatype RequestEdit =
    | EditMethod(httpMethod: string)
    | EditUrlPath(urlPath: string)
    | EditRequestHeaders(headers: map<string, string>)
    | EditQueryParameters(queryParameters: map<string, string>)
    | EditBodyPatterns(bodyPatterns: seq<BodyPattern>)

  /** Edits of the response card. */
  datatype ResponseEdit =
    | EditStatus(status: int)
    | EditDelay(delay: int)
    | EditResponseHeaders(headers: map<string, string>)
    | EditBody(body: string)

  datatype FormEdit = General(g: GeneralEdit) | OfRequest(q: RequestEdit) | OfResponse(p: ResponseEdit)

  /** `a` and `b` agree on every mapping field outside the request and the
      response, except possibly the one `e` writes. */
  predicate TopLevelAgreeExcept(a: Mapping, b: Mapping, e: GeneralEdit) {
    && a.id == b.id && a.uuid == b.uuid
    && a.scenarioName == b.scenarioName && a.requiredScenarioState == b.requiredScenarioState
    && a.newScenarioState == b.newScenarioState && a.metadata == b.metadata
    && (!e.EditName? ==> a.name == b.name)
    && (!e.EditPriority? ==> a.priority == b.priority)
    && (!e.EditPersistent? ==> a.persistent == b.persistent)
  }

  /** `a` and `b` agree on every request field except possibly the one `e`
      writes. */
  predicate RequestAgreeExcept(a: RequestPattern, b: RequestPattern, e: RequestEdit) {
    && a.url == b.url && a.urlPathPattern == b.urlPathPattern && a.urlPattern == b.urlPattern
    && (!e.EditMethod? ==> a.httpMethod == b.httpMethod)
    && (!e.EditUrlPath? ==> a.urlPath == b.urlPath)
    && (!e.EditRequestHeaders? ==> a.headers == b.headers)
    && (!e.EditQueryParameters? ==> a.queryParameters == b.queryParameters)
    && (!e.EditBodyPatterns? ==> a.bodyPatterns == b.bodyPatterns)
  }

  /** `a` and `b` agree on every response field except possibly the one `e`
      writes. */
  predicate ResponseAgreeExcept(a: ResponseDefinition, b: ResponseDefinition, e: ResponseEdit) {
    && a.statusMessage == b.statusMessage && a.jsonBody == b.jsonBody
    && a.base64Body == b.base64Body && a.bodyFileName == b.bodyFileName && a.fault == b.fault
    && (!e.EditStatus? ==> a.status == b.status)
    && (!e.EditDelay? ==> a.fixedDelayMilliseconds == b.fixedDelayMilliseconds)
    && (!e.EditResponseHeaders? ==> a.headers == b.headers)
    && (!e.EditBody? ==> a.body == b.body)
  }

  /** `handleInputChange`: writes one top-level field and nothing else. */
  function HandleInputChange(d: Mapping, e: GeneralEdit): (r: Mapping)
    ensures r.request == d.request && r.response == d.response
    ensures TopLevelAgreeExcept(d, r, e)
    ensures e.EditName? ==> r.name == Some(e.name)
    ensures e.EditPriority? ==> r.priority == Some(e.priority)
    ensures e.EditPersistent? ==> r.persistent == Some(e.persistent)
  {
    match e
    case EditName(n) => d.(name := Some(n))
    case EditPriority(p) => d.(priority := Some(p))
    case EditPersistent(b) => d.(persistent := Some(b))
  }

  /** `handleRequestChange`: writes one request field and nothing else. */
  function HandleRequestChange(d: Mapping, e: RequestEdit): (r: Mapping)
    ensures r.(request := d.request) == d
    ensures RequestAgreeExcept(d.request, r.request, e)
    ensures e.EditMethod? ==> r.request.httpMethod == e.httpMethod
    ensures e.EditUrlPath? ==> r.request.urlPath == Some(e.urlPath)
    ensures e.EditRequestHeaders? ==> r.request.headers == Some(e.headers)
    ensures e.EditQueryParameters? ==> r.request.queryParameters == Some(e.queryParameters)
    ensures e.EditBodyPatterns? ==> r.request.bodyPatterns == Some(e.bodyPatterns)
  {
    var q := d.request;
    var q' := match e
      case EditMethod(m) => q.(httpMethod := m)
      case EditUrlPath(p) => q.(urlPath := Some(p))
      case EditRequestHeaders(h) => q.(headers := Some(h))
      case EditQueryParameters(qp) => q.(queryParameters := Some(qp))
      case EditBodyPatterns(bp) => q.(bodyPatterns := Some(bp));
    d.(request := q')
  }

  /** `handleResponseChange`: writes one response field and nothing else. */
  function HandleResponseChange(d: Mapping, e: ResponseEdit): (r: Mapping)
    ensures r.(response := d.response) == d
    ensures ResponseAgreeExcept(d.response, r.response, e)
    ensures e.EditStatus? ==> r.response.status == e.status
    ensures e.EditDelay? ==> r.response.fixedDelayMilliseconds == Some(e.delay)
    ensures e.EditResponseHeaders? ==> r.response.headers == Some(e.headers)
    ensures e.EditBody? ==> r.response.body == Some(e.body)
  {
    var p := d.response;
    var p' := match e
      case EditStatus(s) => p.(status := s)
      case EditDelay(ms) => p.(fixedDelayMilliseconds := Some(ms))
      case EditResponseHeaders(h) => p.(headers := Some(h))
      case EditBody(b) => p.(body := Some(b));
    d.(response := p')
  }

  function ApplyEdit(d: Mapping, e: FormEdit): Mapping {
    match e
    case General(g) => HandleInputChange(d, g)
    case OfRequest(q) => HandleRequestChange(d, q)
    case OfResponse(p) => HandleResponseChange(d, p)
  }

  /** The draft field an edit writes. */
  datatype FormField =
    | NameField | PriorityField | PersistentField
    | MethodField | UrlPathField | RequestHeadersField | QueryParametersField | BodyPatternsField
    | StatusField | DelayField | ResponseHeadersField | BodyField

  function FieldOf(e: FormEdit): FormField {
    match e
    case General(EditName(_)) => NameField
    case General(EditPriority(_)) => PriorityField
    case General(EditPersistent(_)) => PersistentField
    case OfRequest(EditMethod(_)) => MethodField
    case OfRequest(EditUrlPath(_)) => UrlPathField
    case OfRequest(EditRequestHeaders(_)) => RequestHeadersField
    case OfRequest(EditQueryParameters(_)) => QueryParametersField
    case OfRequest(EditBodyPatterns(_)) => BodyPatternsField
    case OfResponse(EditStatus(_)) => StatusField
    case OfResponse(EditDelay(_)) => DelayField
    case OfResponse(EditResponseHeaders(_)) => ResponseHeadersField
    case OfResponse(EditBody(_)) => BodyField
  }

  /** The field `e` writes already holds the value `e` writes. */
  predicate Holds(d: Mapping, e: FormEdit) {
    match e
    case General(EditName(n)) => d.name == Some(n)
    case General(EditPriority(p)) => d.priority == Some(p)
    case General(EditPersistent(b)) => d.persistent == Some(b)
    case OfRequest(EditMethod(m)) => d.request.httpMethod == m
    case OfRequest(EditUrlPath(u)) => d.request.urlPath == Some(u)
    case OfRequest(EditRequestHeaders(h)) => d.request.headers == Some(h)
    case OfRequest(EditQueryParameters(q)) => d.request.queryParameters == Some(q)
    case OfRequest(EditBodyPatterns(bp)) => d.request.bodyPatterns == Some(bp)
    case OfResponse(EditStatus(st)) => d.response.status == st
    case OfResponse(EditDelay(ms)) => d.response.fixedDelayMilliseconds == Some(ms)
    case OfResponse(EditResponseHeaders(h)) => d.response.headers == Some(h)
    case OfResponse(EditBody(bd)) => d.response.body == Some(bd)
  }

  /** For every field of the three setters: writing the value the field
      already holds changes nothing, and two writes to the same field keep
      only the second value. */
  lemma EditIdempotentAndLastWins(d: Mapping, e1: FormEdit, e2: FormEdit)
    requires FieldOf(e1) == FieldOf(e2)
    ensures ApplyEdit(ApplyEdit(d, e1), e2) == ApplyEdit(d, e2)
    ensures Holds(d, e1) ==> ApplyEdit(d, e1) == d
  {
  }

  /** Edits that the JSON text areas produce: the request headers, query
      parameters and body patterns, and the response headers. */
  predicate IsJsonEdit(e: FormEdit) {
    || (e.OfRequest? && (e.q.EditRequestHeaders? || e.q.EditQueryParameters? || e.q.EditBodyPatterns?))
    || (e.OfResponse? && e.p.EditResponseHeaders?)
  }

  /** A keystroke in a JSON text area: `parsed` is the parser's result, None
      when the text is not valid JSON, in which case the draft is kept. */
  function OnJsonText(d: Mapping, parsed: Option<FormEdit>): (r: Mapping)
    requires parsed.Some? ==> IsJsonEdit(parsed.value)
    ensures parsed.None? ==> r == d
    ensures parsed.Some? ==> r.request.httpMethod == d.request.httpMethod && r.request.urlPath == d.request.urlPath
    ensures parsed.Some? ==> r.response.status == d.response.status && r.response.body == d.response.body
    ensures parsed.Some? && parsed.value.OfRequest? ==> r.response == d.response
    ensures parsed.Some? && parsed.value.OfResponse? ==> r.request == d.request
  {
    if parsed.None? then d else ApplyEdit(d, parsed.value)
  }

  /** A run of keystrokes in the JSON areas, some of them unparsable. */
  function OnJsonTexts(d: Mapping, keys: seq<Option<FormEdit>>): Mapping
    requires forall i :: 0 <= i < |keys| && keys[i].Some? ==> IsJsonEdit(keys[i].value)
    decreases |keys|
  {
    if keys == [] then d else OnJsonTexts(OnJsonText(d, keys[0]), keys[1..])
  }

  /** However the JSON areas are typed into, the method, URL path, status
      and raw body of the draft stay what they were. */
  lemma {:induction false} JsonTextsKeepCoreFields(d: Mapping, keys: seq<Option<FormEdit>>)
    requires forall i :: 0 <= i < |keys| && keys[i].Some? ==> IsJsonEdit(keys[i].value)
    ensures var r := OnJsonTexts(d, keys);
            && r.request.httpMethod == d.request.httpMethod && r.request.urlPath == d.request.urlPath
            && r.response.status == d.response.status && r.response.body == d.response.body
            && r.id == d.id && r.name == d.name
    decreases |keys|
  {
    if keys != [] {
      var d' := OnJsonText(d, keys[0]);
      assert d'.id == d.id && d'.name == d.name by {
        if keys[0].Some? {
          match keys[0].value
          case General(g) => assert false;
          case OfRequest(q) =>
          case OfResponse(p) =>
        }
      }
      assert forall i :: 0 <= i < |keys[1..]| && keys[1..][i].Some? ==> IsJsonEdit(keys[1..][i].value) by {
        forall i | 0 <= i < |keys[1..]| && keys[1..][i].Some? ensures IsJsonEdit(keys[1..][i].value) {
          assert keys[1..][i] == keys[i + 1];
        }
      }
      JsonTextsKeepCoreFields(d', keys[1..]);
    }
  }

  /** The body-pattern editor shows for POST, PUT and PATCH only, compared
      case-sensitively. */
  function ShowsBodyPatternEditor(d: Mapping): (shown: bool)
    ensures shown <==> d.request.httpMethod == "POST" || d.request.httpMethod == "PUT" || d.request.httpMethod == "PATCH"
  {
    d.request.httpMethod in ["POST", "PUT", "PATCH"]
  }

  /** Switching to a method without the editor hides it but keeps the body
      patterns in the draft, so they are still submitted. */
  lemma MethodChangeKeepsHiddenPatterns(d: Mapping, m: string)
    requires m in HttpMethods && m != "POST" && m != "PUT" && m != "PATCH"
    ensures var r := HandleRequestChange(d, EditMethod(m));
            !ShowsBodyPatternEditor(r) && r.request.bodyPatterns == d.request.bodyPatterns
  {
  }

  /** Lower-case methods from a loaded mapping never show the editor. */
  lemma LowerCasePostHidesEditor(d: Mapping)
    requires d.request.httpMethod == "post"
    ensures !ShowsBodyPatternEditor(d)
  {
  }

  /** The browser's constraint check on submit: the URL path input is
      required (it shows `urlPath || ''`), the status input is required and
      within 100..599, and the delay input (showing `fixedDelayMilliseconds
      || 0`) has a minimum of 0. */
  predicate PassesConstraints(d: Mapping) {
    && OrElse(d.request.urlPath, "") != ""
    && 100 <= d.response.status <= 599
    && (d.response.fixedDelayMilliseconds.None? || d.response.fixedDelayMilliseconds.value >= 0)
  }

  /** A mapping matched by `url` alone cannot be saved from the edit form
      until a URL path is typed in. */
  lemma UrlOnlyMappingIsBlocked(d: Mapping)
    requires d.request.urlPath.None? && d.request.url.Some?
    ensures !PassesConstraints(d)
    ensures PassesConstraints(d.(request := d.request.(urlPath := Some("/x"))))
            <==> 100 <= d.response.status <= 599 && (d.response.fixedDelayMilliseconds.None? || d.response.fixedDelayMilliseconds.value >= 0)
  {
  }

  /** The default draft is one keystroke in the URL path away from being
      submittable. */
  lemma DefaultDraftNeedsAPath()
    ensures !PassesConstraints(DefaultDraft)
    ensures forall p :: p != "" ==> PassesConstraints(HandleRequestChange(DefaultDraft, EditUrlPath(p)))
  {
  }

  /** What a submit did: the actions dispatched, and whether it went back to
      the list. */
  datatype Submitted = Submitted(dispatched: seq<AppAction>, navigateHome: bool)

  /** `handleSubmit`, after the browser's constraint check: the error is
      cleared first; in edit mode (a non-empty route id) the remote update
      is followed by UPDATE_MAPPING of the local draft, whatever the server
      answered; in create mode ADD_MAPPING carries the server's answer.
      Either failure sets the save error and stays on the form. */
  function HandleSubmit(routeId: Option<string>, d: Mapping, saved: Remote<Mapping>): (r: Submitted)
    ensures !PassesConstraints(d) ==> r == Submitted([], false)
    ensures PassesConstraints(d) ==> |r.dispatched| == 2 && r.dispatched[0] == SetError(None)
    ensures r.navigateHome <==> PassesConstraints(d) && saved.Ok?
    ensures PassesConstraints(d) && saved.Fail? ==> r.dispatched[1] == SetError(Some(SaveError))
    ensures PassesConstraints(d) && saved.Ok? && Truthy(routeId) ==> r.dispatched[1] == UpdateMapping(d)
    ensures PassesConstraints(d) && saved.Ok? && !Truthy(routeId) ==> r.dispatched[1] == AddMapping(saved.value)
  {
    if !PassesConstraints(d) then Submitted([], false)
    else if saved.Fail? then Submitted([SetError(None), SetError(Some(SaveError))], false)
    else if Truthy(routeId) then Submitted([SetError(None), UpdateMapping(d)], true)
    else Submitted([SetError(None), AddMapping(saved.value)], true)
  }

  /** The store after a submit: an edit replaces the stored mappings that
      share the draft's id, a create appends the server's answer, a failure
      leaves the list alone with the save error showing. */
  lemma SubmitOutcome(s: AppState, routeId: Option<string>, d: Mapping, saved: Remote<Mapping>)
    requires PassesConstraints(d)
    ensures var t := Run(s, HandleSubmit(routeId, d, saved).dispatched);
            && (saved.Ok? && Truthy(routeId) ==> t == s.(error := None, mappings := ReplaceById(s.mappings, d)))
            && (saved.Ok? && !Truthy(routeId) ==> t == s.(error := None, mappings := s.mappings + [saved.value]))
            && (saved.Fail? ==> t == s.(error := Some(SaveError)))
  {
    var acts := HandleSubmit(routeId, d, saved).dispatched;
    RunAppend(s, [acts[0]], [acts[1]]);
    assert acts == [acts[0]] + [acts[1]];
    RunOne(s, acts[0]);
    RunOne(Reduce(s, acts[0]), acts[1]);
  }

  /** In edit mode the server's answer to the update is never read. */
  lemma EditIgnoresServerAnswer(routeId: Option<string>, d: Mapping, a: Mapping, b: Mapping)
    requires Truthy(routeId)
    ensures HandleSubmit(routeId, d, Ok(a)) == HandleSubmit(routeId, d, Ok(b))
  {
  }

  /** The form's own state: its draft and its loading flag, which starts
      down. */
  datatype FormView = FormView(draft: Mapping, isLoading: bool)

  const InitialView := FormView(DefaultDraft, false)

  /** `loadMapping` in the form. */
  function LoadMapping(v: FormView, routeId: Option<string>, fetched: Remote<Mapping>): DetailLoad.Loaded<Mapping> {
    DetailLoad.LoadById(routeId, fetched, v.draft, v.isLoading, LoadError)
  }

  /** When the edit form's load fails it keeps the default draft, which has
      no id; submitting it (after a path is typed) then replaces every
      stored mapping without an id and leaves every mapping that has one. */
  lemma FailedLoadThenSubmit(s: AppState, routeId: Option<string>, p: string)
    requires Truthy(routeId) && p != ""
    ensures var loaded := LoadMapping(InitialView, routeId, Fail);
            var d := HandleRequestChange(loaded.held, EditUrlPath(p));
            var t := Run(Run(s, loaded.dispatched), HandleSubmit(routeId, d, Ok(d)).dispatched);
            && loaded.held == DefaultDraft && !loaded.isLoading
            && |t.mappings| == |s.mappings|
            && (forall i :: 0 <= i < |s.mappings| && s.mappings[i].id.Some? ==> t.mappings[i] == s.mappings[i])
            && (forall i :: 0 <= i < |s.mappings| && s.mappings[i].id.None? ==> t.mappings[i] == d)
  {
    var loaded := LoadMapping(InitialView, routeId, Fail);
    DetailLoad.LoadByIdOutcome(s, routeId, Fail, DefaultDraft, false, LoadError);
    var d := HandleRequestChange(loaded.held, EditUrlPath(p));
    SubmitOutcome(Run(s, loaded.dispatched), routeId, d, Ok(d));
  }

  /** `testMapping` as written: the base followed by the draft's `urlPath`
      interpolated into a template, so a missing path reads "undefined". */
  function TestUrlAsWritten(d: Mapping): string {
    TestBase + Interpolate(d.request.urlPath)
  }

  /** A mapping matched by `url` alone, opened in the edit form, sends the
      test button to a URL that ends in "undefined". */
  lemma TestUrlAsWrittenForUrlOnlyMapping(d: Mapping)
    requires d.request.urlPath.None? && d.request.url == Some("/users?page=1")
    ensures TestUrlAsWritten(d) == "http://localhost:8080undefined"
    ensures TestUrlAsWritten(d) != TestBase + "/users?page=1"
  {
  }

  /** The test button with the fallback the detail page already uses for
      its copy button: the URL path, else the URL, else nothing. */
  function TestUrl(d: Mapping): (r: string)
    ensures |r| >= |TestBase| && r[..|TestBase|] == TestBase
    ensures r[|TestBase|..] == ViewMappingPage.CopyUrl(d.request)
  {
    TestBase + ViewMappingPage.CopyUrl(d.request)
  }

  /** The corrected URL agrees with the written one whenever the draft has a
      URL path, and otherwise targets the mapping's `url` or the bare base,
      never a literal "undefined". */
  lemma TestUrlCorrected(d: Mapping)
    ensures d.request.urlPath.Some? && d.request.urlPath.value != "" ==> TestUrl(d) == TestUrlAsWritten(d)
    ensures d.request.urlPath.None? && Truthy(d.request.url) ==> TestUrl(d) == TestBase + d.request.url.value
    ensures d.request.urlPath.None? && !Truthy(d.request.url) ==> TestUrl(d) == TestBase
  {
  }
}
