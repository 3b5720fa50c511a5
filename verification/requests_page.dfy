/**
  The request log view: loading the journal into the store, clearing it,
  client-side pagination of the loaded list (ten entries a page), and the
  URL copied from a row.
 */
module RequestsPage {
  import opened Wrappers
  import opened WireMockTypes
  import opened AppStore
  import ApiConfig

  const LoadError := "Error al cargar los requests"
  const ClearError := "Error al limpiar los logs"
  const ItemsPerPage := 10

  // ---------------------------------------------------------------------
  // Pagination
  // ---------------------------------------------------------------------

  function Min(a: int, b: int): int { if a <= b then a else b }
  function Max(a: int, b: int): int { if a >= b then a else b }

  /** How `Array.prototype.slice` resolves an index against a length `n`:
      a negative index counts back from the end, and the result is clamped
      into `[0, n]`. */
  function SliceIndex(i: int, n: nat): (k: nat)
    ensures k <= n
    ensures 0 <= i ==> k == Min(i, n)
    ensures i < 0 ==> k == Max(n + i, 0)
  {
    if i < 0 then (if n + i < 0 then 0 else n + i)
    else if i > n then n
    else i
  }

  /** `items.slice(start, end)`. */
  function JsSlice<T>(items: seq<T>, start: int, end: int): seq<T> {
    var from := SliceIndex(start, |items|);
    var to := SliceIndex(end, |items|);
    if from < to then items[from..to] else []
  }

  function StartIndex(page: int): int {
    (page - 1) * ItemsPerPage
  }

  function EndIndex(page: int): int {
    StartIndex(page) + ItemsPerPage
  }

  /** `Math.ceil(n / itemsPerPage)`: the fewest pages that hold `n` entries. */
  function TotalPages(n: nat): (t: nat)
    ensures t * ItemsPerPage >= n
    ensures t == 0 || (t - 1) * ItemsPerPage < n
  {
    (n + ItemsPerPage - 1) / ItemsPerPage
  }

  /** `currentRequests`: the slice shown for `page`. */
  function PageItems<T>(items: seq<T>, page: int): seq<T> {
    JsSlice(items, StartIndex(page), EndIndex(page))
  }

  /** For a page from 1 up, the shown slice is the window starting at
      `(page - 1) * 10`, cut off at the end of the list, and holds
      `min(10, max(0, n - start))` entries. */
  lemma PageWindow<T>(items: seq<T>, page: int)
    requires page >= 1
    ensures var start := StartIndex(page);
            && PageItems(items, page) == items[Min(start, |items|)..Min(start + ItemsPerPage, |items|)]
            && |PageItems(items, page)| == Min(ItemsPerPage, Max(0, |items| - start))
  {
  }

  /** Every page from 1 to the page count shows at least one entry. */
  lemma PageInRangeIsNonEmpty<T>(items: seq<T>, page: int)
    requires 1 <= page <= TotalPages(|items|)
    ensures |PageItems(items, page)| > 0
  {
    PageWindow(items, page);
  }

  /** Pages 1 to k laid end to end. */
  function Pages<T>(items: seq<T>, k: nat): seq<T> {
    if k == 0 then [] else Pages(items, k - 1) + PageItems(items, k)
  }

  lemma {:induction false} PagesArePrefix<T>(items: seq<T>, k: nat)
    ensures Pages(items, k) == items[..Min(k * ItemsPerPage, |items|)]
  {
    if k > 0 {
      PagesArePrefix(items, k - 1);
      PageWindow(items, k);
      var a := Min((k - 1) * ItemsPerPage, |items|);
      var b := Min(k * ItemsPerPage, |items|);
      assert items[..a] + items[a..b] == items[..b];
    }
  }

  /** The pages 1..totalPages, concatenated, are exactly the loaded list. */
  lemma PagesRebuildList<T>(items: seq<T>)
    ensures Pages(items, TotalPages(|items|)) == items
  {
    PagesArePrefix(items, TotalPages(|items|));
    assert items[..|items|] == items;
  }

  /** The page count of a few lengths: none for an empty list, three for 25
      entries, whose third page holds entries 20 to 24. */
  lemma PaginationExamples<T>(items: seq<T>)
    requires |items| == 25
    ensures TotalPages(0) == 0 && TotalPages(10) == 1 && TotalPages(11) == 2
    ensures TotalPages(|items|) == 3
    ensures PageItems(items, 3) == items[20..25]
    ensures PageItems(items, 1) == items[0..10]
  {
    PageWindow(items, 3);
    PageWindow(items, 1);
  }

  /** Nothing keeps the page at 1 or above: page 0 shows nothing, and a
      negative page, through `slice`'s counting from the end, shows a window
      taken from the back of the list. */
  lemma PagesBelowOne<T>(items: seq<T>)
    requires |items| == 25
    ensures PageItems(items, 0) == []
    ensures PageItems(items, -1) == items[5..15]
  {
  }

  // ---------------------------------------------------------------------
  // The view
  // ---------------------------------------------------------------------

  /** The view's state: its own store, the current page (starting at 1) and
      the refresh flag. */
  datatype RequestsView = RequestsView(store: AppState, currentPage: int, isRefreshing: bool)

  const InitialView := RequestsView(InitialState, 1, false)

  /** The entries the table shows and the page count handed to the pager. */
  function Visible(v: RequestsView): seq<RequestLog> {
    PageItems(v.store.requests, v.currentPage)
  }

  function PageCount(v: RequestsView): nat {
    TotalPages(|v.store.requests|)
  }

  /** `loadRequests`: loading on and error cleared, then the fetched journal
      or the load error, then loading off whatever happened. */
  function LoadRequests(fetched: Remote<seq<RequestLog>>): seq<AppAction> {
    [SetLoading(true), SetError(None)]
    + (if fetched.Ok? then [SetRequests(fetched.value)] else [SetError(Some(LoadError))])
    + [SetLoading(false)]
  }

  /** `handleRefresh`: one load between raising and lowering the refresh
      flag; the current page is left as it was. */
  function HandleRefresh(v: RequestsView, fetched: Remote<seq<RequestLog>>): RequestsView {
    RequestsView(Run(v.store, LoadRequests(fetched)), v.currentPage, false)
  }

  /** A refresh ends with loading off and the refresh flag down, keeps the
      page, and installs the journal with no error, or keeps the old journal
      and reports the load error. */
  lemma RefreshOutcome(v: RequestsView, fetched: Remote<seq<RequestLog>>)
    ensures var r := HandleRefresh(v, fetched);
            && !r.store.loading && !r.isRefreshing
            && r.currentPage == v.currentPage
            && r.store.mappings == v.store.mappings
            && (fetched.Ok? ==> r.store.requests == fetched.value && r.store.error == None)
            && (fetched.Fail? ==> r.store.requests == v.store.requests && r.store.error == Some(LoadError))
  {
    var middle := if fetched.Ok? then SetRequests(fetched.value) else SetError(Some(LoadError));
    RunFour(v.store, SetLoading(true), SetError(None), middle, SetLoading(false));
  }

  /** The journal load dispatches only loading, error and journal actions,
      so it never touches the store's mappings or its selected mapping. */
  lemma LoadRequestsKeepsMappings(s: AppState, fetched: Remote<seq<RequestLog>>)
    ensures Run(s, LoadRequests(fetched)).mappings == s.mappings
    ensures Run(s, LoadRequests(fetched)).selectedMapping == s.selectedMapping
  {
    var acts := LoadRequests(fetched);
    assert forall i :: 0 <= i < |acts| ==> Writes(acts[i]) != MappingsField && Writes(acts[i]) != SelectedField;
    RunKeepsUnwritten(s, acts, MappingsField);
    RunKeepsUnwritten(s, acts, SelectedField);
  }

  /** Because a refresh keeps the page, a refresh that shrinks the journal
      can leave the view past its last page, showing no entries although
      the journal is not empty. */
  lemma RefreshCanStrandThePage(v: RequestsView, journal: seq<RequestLog>)
    requires v.currentPage == 3 && |journal| == 5
    ensures var r := HandleRefresh(v, Ok(journal));
            && PageCount(r) == 1 && r.currentPage == 3
            && Visible(r) == [] && r.store.requests != []
  {
    RefreshOutcome(v, Ok(journal));
  }

  /** `handleClearAll`: nothing without confirmation; otherwise, once the
      remote reset resolved, an empty journal and page 1, or the clear error
      with the journal and page as they were. */
  function HandleClearAll(v: RequestsView, confirmed: bool, reset: Remote<()>): RequestsView {
    if !confirmed then v
    else if reset.Ok? then RequestsView(Reduce(v.store, SetRequests([])), 1, v.isRefreshing)
    else RequestsView(Reduce(v.store, SetError(Some(ClearError))), v.currentPage, v.isRefreshing)
  }

  lemma ClearAllOutcome(v: RequestsView, confirmed: bool, reset: Remote<()>)
    ensures var r := HandleClearAll(v, confirmed, reset);
            && (!confirmed ==> r == v)
            && (confirmed && reset.Ok? ==>
                  r.store == v.store.(requests := []) && r.currentPage == 1 && Visible(r) == [] && PageCount(r) == 0)
            && (confirmed && reset.Fail? ==>
                  r.store == v.store.(error := Some(ClearError)) && r.currentPage == v.currentPage)
  {
  }

  /** `handlePageChange`: the page becomes exactly the requested one, with no
      clamping to the page count, and nothing else changes. */
  function HandlePageChange(v: RequestsView, page: int): (r: RequestsView)
    ensures r.currentPage == page
    ensures r.store == v.store && r.isRefreshing == v.isRefreshing
    ensures Visible(r) == PageItems(v.store.requests, page)
  {
    v.(currentPage := page)
  }

  // ---------------------------------------------------------------------
  // Copying a row's URL
  // ---------------------------------------------------------------------

  /** `handleCopyUrl`: a double click (click count 2) copies the absolute URL
      built from the configured base address, any other click the relative URL. */
  function CopiedUrl(baseEnv: Option<string>, url: string, clickCount: int): (r: string)
    ensures clickCount == 2 ==> r == ApiConfig.BuildAbsoluteUrl(baseEnv, url)
    ensures clickCount == 2 ==> |r| == |ApiConfig.BaseUrl(baseEnv)| + |url|
    ensures clickCount == 2 ==> r[..|ApiConfig.BaseUrl(baseEnv)|] == ApiConfig.BaseUrl(baseEnv)
    ensures clickCount == 2 ==> r[|ApiConfig.BaseUrl(baseEnv)|..] == url
    ensures clickCount != 2 ==> r == url
  {
    if clickCount == 2 then ApiConfig.BuildAbsoluteUrl(baseEnv, url) else url
  }
}
