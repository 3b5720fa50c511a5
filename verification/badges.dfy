/**
  The badge classifiers that colour an HTTP method or a response status.
  The mappings list, the request log and the request detail page share one
  pair of classifiers (upper-casing lookup, four status bands); the mapping
  detail page has its own pair (case-sensitive lookup over eight verbs, a
  separate band for 3xx, one "danger" band for everything from 400).
 */
module Badges {
  import opened JsStrings

  /** The badge colours the classifiers return. */
  datatype Badge = Success | Info | Warning | Error | Danger | Primary | Secondary

  /** The CSS class each badge is rendered with. */
  function CssClass(b: Badge): string {
    match b
    case Success => "badge-success"
    case Info => "badge-info"
    case Warning => "badge-warning"
    case Error => "badge-error"
    case Danger => "badge-danger"
    case Primary => "badge-primary"
    case Secondary => "badge-secondary"
  }

  /** Every class carries the `badge-` prefix, and different badges render
      with different classes, so comparing badges is comparing the class
      strings the source returns. */
  lemma CssClassIsFaithful(b: Badge, c: Badge)
    ensures "badge-" <= CssClass(b)
    ensures CssClass(b) == CssClass(c) <==> b == c
  {
    if b != c {
      var k := |"badge-"|;
      assert CssClass(b)[k] != CssClass(c)[k] || CssClass(b)[k + 1] != CssClass(c)[k + 1] || |CssClass(b)| != |CssClass(c)|;
    }
  }

  // ---------------------------------------------------------------------
  // Mappings list, request log, request detail
  // ---------------------------------------------------------------------

  /** The `methodColors` table, keyed by upper-case method. */
  const MethodColors: map<string, Badge> :=
    map["GET" := Success, "POST" := Info, "PUT" := Warning, "DELETE" := Error, "PATCH" := Info]

  /** `methodColors[key] || 'badge-secondary'`: the table lookup itself. */
  function KeyBadge(key: string): Badge {
    if key in MethodColors then MethodColors[key] else Secondary
  }

  /** `methodColors[method.toUpperCase()] || 'badge-secondary'`. */
  function MethodBadge(httpMethod: string): (b: Badge)
    ensures b == Success <==> ToUpperCase(httpMethod) == "GET"
    ensures b == Info <==> ToUpperCase(httpMethod) == "POST" || ToUpperCase(httpMethod) == "PATCH"
    ensures b == Warning <==> ToUpperCase(httpMethod) == "PUT"
    ensures b == Error <==> ToUpperCase(httpMethod) == "DELETE"
    ensures b == Secondary <==> ToUpperCase(httpMethod) !in {"GET", "POST", "PUT", "DELETE", "PATCH"}
  {
    KeyBadge(ToUpperCase(httpMethod))
  }

  /** The method lookup ignores case: a method and its upper-case form get
      the same badge. */
  lemma MethodBadgeIgnoresCase(httpMethod: string)
    ensures MethodBadge(ToUpperCase(httpMethod)) == MethodBadge(httpMethod)
  {
    ToUpperCaseIdempotent(httpMethod);
  }

  /** The status bands: 2xx success, 4xx warning, 500 and above error, and
      info for everything else, 1xx, 3xx and values below 100 included. */
  function StatusBadge(status: int): (b: Badge)
    ensures b == Success <==> 200 <= status < 300
    ensures b == Warning <==> 400 <= status < 500
    ensures b == Error <==> 500 <= status
    ensures b == Info <==> status < 200 || 300 <= status < 400
  {
    if status >= 200 && status < 300 then Success
    else if status >= 400 && status < 500 then Warning
    else if status >= 500 then Error
    else Info
  }

  // ---------------------------------------------------------------------
  // Mapping detail page
  // ---------------------------------------------------------------------

  /** The `methodClasses` table of the mapping detail page. */
  const DetailMethodClasses: map<string, Badge> :=
    map["GET" := Success, "POST" := Primary, "PUT" := Warning, "DELETE" := Danger,
        "PATCH" := Info, "HEAD" := Secondary, "OPTIONS" := Secondary, "ANY" := Info]

  /** `methodClasses[method] || 'badge-secondary'`: the method is looked up
      as written, without upper-casing. */
  function DetailMethodBadge(httpMethod: string): (b: Badge)
    ensures b == Success <==> httpMethod == "GET"
    ensures b == Primary <==> httpMethod == "POST"
    ensures b == Warning <==> httpMethod == "PUT"
    ensures b == Danger <==> httpMethod == "DELETE"
    ensures b == Info <==> httpMethod == "PATCH" || httpMethod == "ANY"
    ensures b == Secondary <==> httpMethod !in {"GET", "POST", "PUT", "DELETE", "PATCH", "ANY"}
  {
    if httpMethod in DetailMethodClasses then DetailMethodClasses[httpMethod] else Secondary
  }

  /** The detail page's status bands: 2xx success, 3xx warning, 400 and above
      danger, below 200 secondary. */
  function DetailStatusBadge(status: int): (b: Badge)
    ensures b == Success <==> 200 <= status < 300
    ensures b == Warning <==> 300 <= status < 400
    ensures b == Danger <==> 400 <= status
    ensures b == Secondary <==> status < 200
  {
    if status >= 200 && status < 300 then Success
    else if status >= 300 && status < 400 then Warning
    else if status >= 400 && status < 500 then Danger
    else if status >= 500 then Danger
    else Secondary
  }

  /** Where the two status classifiers agree and where they differ: both
      call 2xx a success; the detail page's single danger band covers the
      list's warning and error bands; a 3xx is info on the list but a
      warning on the detail page; below 200 it is info against secondary. */
  lemma StatusClassifiersCompared(status: int)
    ensures StatusBadge(status) == Success <==> DetailStatusBadge(status) == Success
    ensures DetailStatusBadge(status) == Danger <==> StatusBadge(status) == Warning || StatusBadge(status) == Error
    ensures DetailStatusBadge(status) == Warning <==> StatusBadge(status) == Info && status >= 300
    ensures DetailStatusBadge(status) == Secondary <==> StatusBadge(status) == Info && status < 200
  {
  }

  /** A method already written in ASCII capitals is looked up in the table as
      it is. */
  lemma MethodBadgeOfCapitals(httpMethod: string)
    requires forall i :: 0 <= i < |httpMethod| ==> 'A' <= httpMethod[i] <= 'Z'
    ensures MethodBadge(httpMethod) == KeyBadge(httpMethod)
  {
    UpperAsciiIsFixed(httpMethod);
  }

  /** On the same key the two tables agree on GET, PUT and PATCH, and
      disagree on the rest: POST is info on the list but primary on the
      detail page, DELETE error against danger, and ANY secondary against
      info. */
  lemma MethodClassifiersCompared(key: string)
    ensures KeyBadge(key) == Success <==> DetailMethodBadge(key) == Success
    ensures KeyBadge(key) == Warning <==> DetailMethodBadge(key) == Warning
    ensures KeyBadge(key) == Info && DetailMethodBadge(key) == Info <==> key == "PATCH"
    ensures key == "POST" ==> KeyBadge(key) == Info && DetailMethodBadge(key) == Primary
    ensures key == "DELETE" ==> KeyBadge(key) == Error && DetailMethodBadge(key) == Danger
    ensures key == "ANY" ==> KeyBadge(key) == Secondary && DetailMethodBadge(key) == Info
  {
  }

  /** A lower-case verb, as WireMock accepts it, is a success on the list
      but falls through to secondary on the detail page. */
  lemma LowerCaseGetCompared()
    ensures MethodBadge("get") == Success && DetailMethodBadge("get") == Secondary
  {
    assert ToUpperCase("get") == "GET" by {
      assert ToUpperCase("t") == "T";
      assert ToUpperCase("et") == "ET";
    }
  }
}
