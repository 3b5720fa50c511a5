/**
  The request detail page: loading one journal entry and choosing between
  its body and the "no body" placeholder.
 */
module ViewRequestPage {
  import opened Wrappers
  import opened JsStrings
  import opened WireMockTypes
  import opened AppStore
  import DetailLoad

  const LoadError := "Error al cargar el request"

  /** `request.request.body && request.request.body.trim() !== ''`. */
  function ShowsBody(body: string): bool {
    body != "" && Trim(body) != ""
  }

  /** `!request.request.body || request.request.body.trim() === ''`. */
  function ShowsPlaceholder(body: string): bool {
    body == "" || Trim(body) == ""
  }

  /** Exactly one of the two body branches renders, and the body is shown
      exactly when it has a character other than whitespace. */
  lemma ExactlyOneBodyBranch(body: string)
    ensures ShowsBody(body) != ShowsPlaceholder(body)
    ensures ShowsBody(body) <==> exists i :: 0 <= i < |body| && !IsWhitespace(body[i])
  {
    TrimIsEmptyIffBlank(body);
  }

  /** The page's local state: the entry it holds and its loading flag, which
      starts raised. */
  datatype DetailView = DetailView(shown: Option<RequestLog>, isLoading: bool)

  const InitialView := DetailView(None, true)

  /** `loadRequest` on the page's route id. */
  function LoadRequest(v: DetailView, routeId: Option<string>, fetched: Remote<RequestLog>): DetailLoad.Loaded<Option<RequestLog>> {
    var f: Remote<Option<RequestLog>> := if fetched.Ok? then Ok(Some(fetched.value)) else Fail;
    DetailLoad.LoadById(routeId, f, v.shown, v.isLoading, LoadError)
  }

  /** A load failure sets the store's error and ends with the loading flag
      down and no entry held. */
  lemma LoadRequestFailure(s: AppState, id: string)
    requires id != ""
    ensures var r := LoadRequest(InitialView, Some(id), Fail);
            && !r.isLoading && r.held.None?
            && Run(s, r.dispatched) == s.(error := Some(LoadError))
  {
    var none: Option<RequestLog> := None;
    DetailLoad.LoadByIdOutcome<Option<RequestLog>>(s, Some(id), Fail, none, true, LoadError);
  }
}
