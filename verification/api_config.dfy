/**
  Where the console sends its admin calls: the configured base address of
  the WireMock server, the fixed admin endpoints, absolute URLs built from
  the base address, and the choice between the direct address and the
  same-origin development proxy. Environment values are parameters.
 */
module ApiConfig {
  import opened Wrappers
  import opened JsStrings

  const DefaultBaseUrl := "http://localhost:8080"
  const MappingsEndpoint := "/__admin/mappings"
  const RequestsEndpoint := "/__admin/requests"
  const AdminEndpoint := "/__admin"

  /** The same-origin path the development proxy listens on. */
  const ProxyPath := "/api"

  /** `API_CONFIG.BASE_URL`: VITE_API_BASE_URL, unless it is unset or empty. */
  function BaseUrl(env: Option<string>): (r: string)
    ensures r != ""
    ensures Truthy(env) ==> r == env.value
    ensures !Truthy(env) ==> r == DefaultBaseUrl
  {
    OrElse(env, DefaultBaseUrl)
  }

  /** `buildAbsoluteUrl`: the base address immediately followed by the
      relative URL, with no slash inserted or removed, so the relative URL
      can be read back off the end. */
  function BuildAbsoluteUrl(env: Option<string>, relativeUrl: string): (r: string)
    ensures |r| == |BaseUrl(env)| + |relativeUrl|
    ensures r[..|BaseUrl(env)|] == BaseUrl(env)
    ensures r[|BaseUrl(env)|..] == relativeUrl
  {
    BaseUrl(env) + relativeUrl
  }

  /** `getProxyUrl`: the proxy path when VITE_USE_PROXY is exactly the
      string "true", the base address otherwise. */
  function GetProxyUrl(useProxy: Option<string>, env: Option<string>): (r: string)
    ensures useProxy == Some("true") ==> r == ProxyPath
    ensures useProxy != Some("true") ==> r == BaseUrl(env)
  {
    if useProxy == Some("true") then ProxyPath else BaseUrl(env)
  }

  /** The flag is compared as a string: "TRUE", "1" and an unset flag all
      select the direct address. */
  lemma ProxyFlagIsExact(env: Option<string>)
    ensures GetProxyUrl(Some("TRUE"), env) == BaseUrl(env)
    ensures GetProxyUrl(Some("1"), env) == BaseUrl(env)
    ensures GetProxyUrl(None, env) == BaseUrl(env)
    ensures GetProxyUrl(Some(""), None) == DefaultBaseUrl
  {
  }
}
