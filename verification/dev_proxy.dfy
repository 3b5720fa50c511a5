/**
  The development server's proxy for the `/api` prefix: its target address
  and the rewrite that strips the prefix before forwarding.
 */
module DevProxy {
  import opened Wrappers
  import opened JsStrings
  import ApiConfig

  const DefaultTarget := "http://localhost:8080"

  /** `env.VITE_PROXY_TARGET || 'http://localhost:8080'`. */
  function ProxyTarget(env: Option<string>): (r: string)
    ensures Truthy(env) ==> r == env.value
    ensures !Truthy(env) ==> r == DefaultTarget
  {
    OrElse(env, DefaultTarget)
  }

  /** `path.replace(/^\/api/, '')`: the anchored pattern matches at most once,
      at the start of the path, and needs no segment boundary after it. */
  function Rewrite(path: string): (r: string)
    ensures ApiConfig.ProxyPath <= path ==> r == path[|ApiConfig.ProxyPath|..]
    ensures !(ApiConfig.ProxyPath <= path) ==> r == path
  {
    if |path| >= 4 && path[0] == '/' && path[1] == 'a' && path[2] == 'p' && path[3] == 'i' then
      path[4..]
    else
      path
  }

  /** Stripping undoes prefixing: whatever follows the prefix is forwarded. */
  lemma RewriteUndoesPrefix(rest: string)
    ensures Rewrite(ApiConfig.ProxyPath + rest) == rest
  {
    assert ApiConfig.ProxyPath <= ApiConfig.ProxyPath + rest;
  }

  /** Only the leading occurrence goes, and a longer first segment loses its
      first four characters too. */
  lemma RewriteExamples()
    ensures Rewrite("/api/api/x") == "/api/x"
    ensures Rewrite("/apiary") == "ary"
    ensures Rewrite("/x/api") == "/x/api"
    ensures Rewrite("/ap") == "/ap"
  {
    assert ApiConfig.ProxyPath <= "/api/api/x";
    assert ApiConfig.ProxyPath <= "/apiary";
    assert "/x/api"[1] != 'a';
  }

  /** In proxy mode a client call to an admin endpoint reaches the WireMock
      server at that endpoint: the client prefixes it with the proxy path and
      the proxy strips that prefix again. Paths are joined by concatenation,
      which is how the client library joins these particular values. */
  lemma ProxiedCallReachesEndpoint(env: Option<string>, endpoint: string)
    ensures Rewrite(ApiConfig.GetProxyUrl(Some("true"), env) + endpoint) == endpoint
  {
    RewriteUndoesPrefix(endpoint);
  }

  /** The three admin endpoints all start with '/', the case in which the
      client joins them to the proxy path by concatenation, and each reaches
      the server unchanged. */
  lemma AdminEndpointsReachedThroughProxy(env: Option<string>)
    ensures ApiConfig.MappingsEndpoint[0] == '/' && ApiConfig.RequestsEndpoint[0] == '/' && ApiConfig.AdminEndpoint[0] == '/'
    ensures Rewrite(ApiConfig.GetProxyUrl(Some("true"), env) + ApiConfig.MappingsEndpoint) == ApiConfig.MappingsEndpoint
    ensures Rewrite(ApiConfig.GetProxyUrl(Some("true"), env) + ApiConfig.RequestsEndpoint) == ApiConfig.RequestsEndpoint
    ensures Rewrite(ApiConfig.GetProxyUrl(Some("true"), env) + ApiConfig.AdminEndpoint) == ApiConfig.AdminEndpoint
  {
    ProxiedCallReachesEndpoint(env, ApiConfig.MappingsEndpoint);
    ProxiedCallReachesEndpoint(env, ApiConfig.RequestsEndpoint);
    ProxiedCallReachesEndpoint(env, ApiConfig.AdminEndpoint);
  }
}
