/**
  The data the console exchanges with the WireMock admin API, and the shape of
  its client-side store: mappings (stubs), request-log entries, the
  application state and the eight store actions.

  Optional TypeScript members (`x?: T`) and nullable ones (`T | null`) are
  `Option`s; members the TypeScript types declare as required are plain.
 */
module WireMockTypes {
  import opened Wrappers

  /** A JSON value as `JSON.parse` produces it (numbers limited to integers). */
  datatype Json =
    | JNull
    | JBool(b: bool)
    | JNumber(n: int)
    | JString(s: string)
    | JArray(items: seq<Json>)
    | JObject(fields: map<string, Json>)

  /** One element of a request's `bodyPatterns`. */
  datatype BodyPattern = BodyPattern(equalTo: Option<string>, caseInsensitive: Option<bool>)

  /** The request-matching half of a mapping: the HTTP method (`method` in
      the JSON) is required, every match target and matcher is optional. */
  datatype RequestPattern = RequestPattern(
    httpMethod: string,
    url: Option<string>,
    urlPath: Option<string>,
    urlPathPattern: Option<string>,
    urlPattern: Option<string>,
    headers: Option<map<string, string>>,
    queryParameters: Option<map<string, string>>,
    bodyPatterns: Option<seq<BodyPattern>>)

  /** The canned response of a mapping: `status` is required, the rest is optional. */
  datatype ResponseDefinition = ResponseDefinition(
    status: int,
    statusMessage: Option<string>,
    headers: Option<map<string, string>>,
    body: Option<string>,
    jsonBody: Option<map<string, Json>>,
    base64Body: Option<string>,
    bodyFileName: Option<string>,
    fixedDelayMilliseconds: Option<int>,
    fault: Option<string>)

  /** A stub mapping. Both `id` and `uuid` are optional: a mapping without an
      `id` is a draft the server has not stored yet. */
  datatype Mapping = Mapping(
    id: Option<string>,
    uuid: Option<string>,
    name: Option<string>,
    request: RequestPattern,
    response: ResponseDefinition,
    persistent: Option<bool>,
    priority: Option<int>,
    scenarioName: Option<string>,
    requiredScenarioState: Option<string>,
    newScenarioState: Option<string>,
    metadata: Option<map<string, Json>>)

  /** The request a logged call carried; every member is required. */
  datatype LoggedRequest = LoggedRequest(
    url: string,
    absoluteUrl: string,
    httpMethod: string,
    clientIp: string,
    headers: map<string, string>,
    cookies: map<string, string>,
    body: string,
    loggedDate: int,
    loggedDateString: string)

  /** How the server answered a logged call. */
  datatype LoggedResponse = LoggedResponse(status: int, fromConfiguredStub: bool)

  /** One entry of the server's request journal; unlike a mapping, its `id`
      is always present. */
  datatype RequestLog = RequestLog(id: string, request: LoggedRequest, responseDefinition: LoggedResponse)

  /** The client-side store: exactly these five fields. */
  datatype AppState = AppState(
    mappings: seq<Mapping>,
    requests: seq<RequestLog>,
    loading: bool,
    error: Option<string>,
    selectedMapping: Option<Mapping>)

  /** The closed action vocabulary of the store: eight tags, each with its
      payload. DELETE_MAPPING carries only an id; ADD_MAPPING and
      UPDATE_MAPPING carry a whole mapping. */
  datatype AppAction =
    | SetMappings(mappings: seq<Mapping>)
    | SetRequests(requests: seq<RequestLog>)
    | SetLoading(loading: bool)
    | SetError(error: Option<string>)
    | SelectMapping(selected: Option<Mapping>)
    | AddMapping(added: Mapping)
    | UpdateMapping(updated: Mapping)
    | DeleteMapping(id: string)
}
