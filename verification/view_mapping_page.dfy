/**
  The mapping detail page, and the display choices it shares with the
  mappings list: which URL is shown and copied, whether and which body is
  shown, whether the UUID row appears, and the delete button.
 */
module ViewMappingPage {
  import opened Wrappers
  import opened JsStrings
  import opened WireMockTypes
  import opened AppStore
  import DetailLoad

  const LoadError := "Error al cargar el mapping"
  const DeleteError := "Error al eliminar el mapping"

  /** `urlPath || url || 'N/A'`: the shown URL. */
  function DisplayUrl(req: RequestPattern): (r: string)
    ensures Truthy(req.urlPath) ==> r == req.urlPath.value
    ensures !Truthy(req.urlPath) && Truthy(req.url) ==> r == req.url.value
    ensures !Truthy(req.urlPath) && !Truthy(req.url) ==> r == "N/A"
  {
    OrElse(req.urlPath, OrElse(req.url, "N/A"))
  }

  /** `urlPath || url || ''`: the copied URL. */
  function CopyUrl(req: RequestPattern): string {
    OrElse(req.urlPath, OrElse(req.url, ""))
  }

  /** The copy button copies what is shown, except that it copies "" where
      "N/A" is shown. */
  lemma CopyUrlMatchesDisplay(req: RequestPattern)
    ensures CopyUrl(req) != "" ==> DisplayUrl(req) == CopyUrl(req)
    ensures CopyUrl(req) == "" <==> DisplayUrl(req) == "N/A" && !Truthy(req.urlPath) && !Truthy(req.url)
  {
  }

  /** What the body section shows: the placeholder, the structured body, or
      the raw text. */
  datatype BodyView = NoBody | JsonView(json: map<string, Json>) | TextView(text: string)

  /** The body section is shown when the raw body has a non-whitespace
      character or a structured body is present (an object is always
      truthy); when shown, the structured body wins over the raw text. */
  function BodySection(resp: ResponseDefinition): (v: BodyView)
    ensures v != NoBody <==> resp.jsonBody.Some? || (resp.body.Some? && !IsBlank(resp.body.value))
    ensures resp.jsonBody.Some? ==> v == JsonView(resp.jsonBody.value)
    ensures v.TextView? ==> resp.jsonBody.None? && resp.body == Some(v.text)
    ensures resp.jsonBody.None? && v != NoBody ==> resp.body.Some? && v == TextView(resp.body.value)
  {
    TrimIsEmptyIffBlank(OrElse(resp.body, ""));
    if (Truthy(resp.body) && Trim(resp.body.value) != "") || resp.jsonBody.Some? then
      if resp.jsonBody.Some? then JsonView(resp.jsonBody.value) else TextView(resp.body.value)
    else
      NoBody
  }

  /** What the body's copy button copies: the structured body if present,
      else the raw text or "". */
  function CopiedBody(resp: ResponseDefinition): BodyView {
    if resp.jsonBody.Some? then JsonView(resp.jsonBody.value) else TextView(OrElse(resp.body, ""))
  }

  /** Whenever the body section is shown, its copy button copies exactly the
      body it shows. */
  lemma CopiedBodyMatchesShown(resp: ResponseDefinition)
    ensures BodySection(resp) != NoBody ==> CopiedBody(resp) == BodySection(resp)
  {
  }

  /** The UUID row appears exactly when the uuid is present, non-empty and
      differs from the id; a mapping whose uuid repeats its id shows one row. */
  function ShowsUuidRow(m: Mapping): (shown: bool)
    ensures shown <==> m.uuid.Some? && m.uuid.value != "" && m.uuid != m.id
    ensures m.uuid == m.id ==> !shown
    ensures m.uuid.Some? && m.uuid.value != "" && m.id.None? ==> shown
  {
    Truthy(m.uuid) && m.uuid != m.id
  }

  /** The page's local state: the mapping it holds and its loading flag,
      which starts raised. */
  datatype DetailView = DetailView(shown: Option<Mapping>, isLoading: bool)

  const InitialView := DetailView(None, true)

  /** `loadMapping` on the page's route id. */
  function LoadMapping(v: DetailView, routeId: Option<string>, fetched: Remote<Mapping>): DetailLoad.Loaded<Option<Mapping>> {
    var f: Remote<Option<Mapping>> := if fetched.Ok? then Ok(Some(fetched.value)) else Fail;
    DetailLoad.LoadById(routeId, f, v.shown, v.isLoading, LoadError)
  }

  /** A load failure sets the load error and lowers the loading flag, so the
      page shows "not found"; without a route id the page never leaves its
      loading placeholder. */
  lemma LoadMappingOutcome(s: AppState, routeId: Option<string>, fetched: Remote<Mapping>)
    ensures var r := LoadMapping(InitialView, routeId, fetched);
            && (Truthy(routeId) && fetched.Fail? ==>
                  !r.isLoading && r.held.None? && Run(s, r.dispatched).error == Some(LoadError))
            && (Truthy(routeId) && fetched.Ok? ==> !r.isLoading && r.held == Some(fetched.value))
            && (!Truthy(routeId) ==> r.isLoading && r.dispatched == [])
  {
    var f: Remote<Option<Mapping>> := if fetched.Ok? then Ok(Some(fetched.value)) else Fail;
    DetailLoad.LoadByIdOutcome(s, routeId, f, None, true, LoadError);
  }

  /** What the delete button did: actions dispatched, and whether it went
      back to the list. */
  datatype DeleteOutcome = DeleteOutcome(dispatched: seq<AppAction>, navigateHome: bool)

  /** `handleDelete`: nothing when the held mapping has no (non-empty) id or
      the user declines; otherwise the remote delete, then DELETE_MAPPING of
      that id and a return to the list, or the delete error. */
  function HandleDelete(shown: Option<Mapping>, confirmed: bool, deleted: Remote<()>): (r: DeleteOutcome)
    ensures shown.None? || !Truthy(shown.value.id) || !confirmed ==> r == DeleteOutcome([], false)
    ensures r.navigateHome <==> shown.Some? && Truthy(shown.value.id) && confirmed && deleted.Ok?
    ensures r.navigateHome ==> r.dispatched == [DeleteMapping(shown.value.id.value)]
  {
    if shown.None? || !Truthy(shown.value.id) || !confirmed then DeleteOutcome([], false)
    else if deleted.Ok? then DeleteOutcome([DeleteMapping(shown.value.id.value)], true)
    else DeleteOutcome([SetError(Some(DeleteError))], false)
  }

  /** A successful delete removes every stored mapping with that id; a failed
      one only sets the delete error. */
  lemma HandleDeleteOutcome(s: AppState, m: Mapping, deleted: Remote<()>)
    requires Truthy(m.id)
    ensures var t := Run(s, HandleDelete(Some(m), true, deleted).dispatched);
            && (deleted.Ok? ==> t == s.(mappings := RemoveById(s.mappings, m.id.value)))
            && (deleted.Fail? ==> t == s.(error := Some(DeleteError)))
  {
    RunOne(s, HandleDelete(Some(m), true, deleted).dispatched[0]);
  }
}
