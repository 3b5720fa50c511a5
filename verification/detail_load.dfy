/**
  The fetch-by-id step shared by the mapping detail page, the request detail
  page and the edit form.
 */
module DetailLoad {
  import opened Wrappers
  import opened JsStrings
  import opened WireMockTypes
  import opened AppStore

  /** What one load leaves behind: the actions dispatched into the view's
      store, the record the view holds, and its local loading flag. */
  datatype Loaded<T> = Loaded(dispatched: seq<AppAction>, held: T, isLoading: bool)

  /** Returns at once when the route id is missing or empty. Otherwise the
      fetched record replaces the held one, or the store receives the load
      error and the held record stays; in both cases the loading flag ends
      down. */
  function LoadById<T>(routeId: Option<string>, fetched: Remote<T>, held: T, wasLoading: bool, errorMessage: string): Loaded<T> {
    if !Truthy(routeId) then Loaded([], held, wasLoading)
    else if fetched.Ok? then Loaded([], fetched.value, false)
    else Loaded([SetError(Some(errorMessage))], held, false)
  }

  /** With a route id the loading flag always ends down; a success changes
      nothing in the store, a failure sets only its error. Without one,
      nothing happens at all. */
  lemma LoadByIdOutcome<T>(s: AppState, routeId: Option<string>, fetched: Remote<T>, held: T, wasLoading: bool, errorMessage: string)
    ensures var r := LoadById(routeId, fetched, held, wasLoading, errorMessage);
            && (!Truthy(routeId) ==> r.dispatched == [] && r.held == held && r.isLoading == wasLoading)
            && (Truthy(routeId) ==> !r.isLoading)
            && (Truthy(routeId) && fetched.Ok? ==> Run(s, r.dispatched) == s && r.held == fetched.value)
            && (Truthy(routeId) && fetched.Fail? ==>
                  Run(s, r.dispatched) == s.(error := Some(errorMessage)) && r.held == held)
  {
    if Truthy(routeId) && fetched.Fail? {
      RunOne(s, SetError(Some(errorMessage)));
    }
  }
}
