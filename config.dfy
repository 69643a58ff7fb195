/** The API configuration object of public/js/config.js. */
module Config {

  const DOMAIN: string := "https://platform.zone01.gr"
  const CORS_PROXY: string := "https://corsproxy.io"
  const SIGNIN_PATH: string := "/api/auth/signin"
  const GRAPHQL_PATH: string := "/api/graphql-engine/v1/graphql"

  /** The localStorage keys of the configuration object. */
  const TOKEN_KEY: string := "zone01_token"
  const USER_ID_KEY: string := "zone01_user_id"

  /** Not part of the configuration object: graphql.js writes the resolved
      event id under this literal key and reads it back from there. */
  const EVENT_ID_KEY: string := "zone01_event_id"

  predicate IsSuffix(s: string, t: string) {
    |s| <= |t| && t[|t| - |s|..] == s
  }

  predicate IsPrefix(s: string, t: string) {
    |s| <= |t| && t[..|s|] == s
  }

  /** USE_PROXY: the page is served from the local machine. */
  function UseProxy(hostname: string): (b: bool)
    ensures b <==> hostname in {"localhost", "127.0.0.1"}
  {
    hostname == "localhost" || hostname == "127.0.0.1"
  }

  /** Both getters send a request through the CORS proxy by prefixing the
      proxy's "/?" query to the direct URL. */
  function ViaProxy(useProxy: bool, url: string): (r: string)
    ensures IsSuffix(url, r)
    ensures useProxy ==> IsPrefix(CORS_PROXY + "/?", r) && |r| == |CORS_PROXY| + 2 + |url|
    ensures !useProxy ==> r == url
  {
    if useProxy then CORS_PROXY + "/?" + url else url
  }

  /** The SIGNIN_ENDPOINT getter. */
  function SigninEndpoint(useProxy: bool): (url: string)
    ensures IsSuffix(DOMAIN + SIGNIN_PATH, url)
    ensures !useProxy ==> url == DOMAIN + SIGNIN_PATH
    ensures useProxy ==> url == CORS_PROXY + "/?" + DOMAIN + SIGNIN_PATH
  {
    ViaProxy(useProxy, DOMAIN + SIGNIN_PATH)
  }

  /** The GRAPHQL_ENDPOINT getter. */
  function GraphqlEndpoint(useProxy: bool): (url: string)
    ensures IsSuffix(DOMAIN + GRAPHQL_PATH, url)
    ensures !useProxy ==> url == DOMAIN + GRAPHQL_PATH
    ensures useProxy ==> url == CORS_PROXY + "/?" + DOMAIN + GRAPHQL_PATH
  {
    ViaProxy(useProxy, DOMAIN + GRAPHQL_PATH)
  }

  /** The two endpoints never coincide, whatever the proxy flag. */
  lemma EndpointsDiffer(useProxy: bool)
    ensures SigninEndpoint(useProxy) != GraphqlEndpoint(useProxy)
  {
    assert |SigninEndpoint(useProxy)| != |GraphqlEndpoint(useProxy)|;
  }

  /** The three storage keys the dashboard uses are pairwise distinct, so
      writing or removing one never touches another. */
  lemma StorageKeysDistinct()
    ensures TOKEN_KEY != USER_ID_KEY
    ensures TOKEN_KEY != EVENT_ID_KEY && USER_ID_KEY != EVENT_ID_KEY
  {
  }
}
