/**
 * Where the completion request goes and with which headers. On the server the
 * request goes straight to the DeepSeek API with the key from the environment;
 * in the browser it goes to the local proxy path and carries no key. Whether
 * the code runs on the server and the two environment variables are
 * parameters here.
 */
module RequestTarget {
  import opened Wrappers
  import opened Types

  const DEEPSEEK_API_URL: string := "https://api.deepseek.com/v1/chat/completions"
  const DEEPSEEK_PROXY_PATH: string := "/api/deepseek"
  const CONTENT_TYPE: string := "Content-Type"
  const AUTHORIZATION: string := "Authorization"
  const JSON_MEDIA_TYPE: string := "application/json"

  /** Either a value or the error thrown when the server has no key. */
  datatype Outcome<T> = Ok(value: T) | MissingApiKey

  /** `getEndpoint`: the API itself on the server, the proxy path in the browser. */
  function Endpoint(isServer: bool): (url: string)
    ensures isServer ==> url == DEEPSEEK_API_URL
    ensures !isServer ==> url == DEEPSEEK_PROXY_PATH
    ensures url[0] == '/' <==> !isServer
  {
    if isServer then DEEPSEEK_API_URL else DEEPSEEK_PROXY_PATH
  }

  /**
   * `DEEPSEEK_API_KEY || API_KEY`: the first variable when it is set and not
   * empty, otherwise the second as it is (possibly missing or empty).
   */
  function ServerKey(deepseekKey: Option<string>, apiKey: Option<string>): (key: Option<string>)
    ensures IsSet(key) <==> IsSet(deepseekKey) || IsSet(apiKey)
    ensures IsSet(deepseekKey) ==> key == deepseekKey
    ensures !IsSet(deepseekKey) ==> key == apiKey
  {
    if IsSet(deepseekKey) then deepseekKey else apiKey
  }

  /**
   * `getRequestHeaders`: a JSON content type, plus a bearer token on the
   * server; on the server without a usable key, the missing-key error.
   */
  function RequestHeaders(isServer: bool, deepseekKey: Option<string>, apiKey: Option<string>)
    : (r: Outcome<map<string, string>>)
    ensures r.MissingApiKey? <==> isServer && !IsSet(deepseekKey) && !IsSet(apiKey)
    ensures r.Ok? ==> CONTENT_TYPE in r.value && r.value[CONTENT_TYPE] == JSON_MEDIA_TYPE
    ensures r.Ok? ==> (AUTHORIZATION in r.value <==> isServer)
    ensures r.Ok? ==> r.value.Keys <= {CONTENT_TYPE, AUTHORIZATION}
    ensures r.Ok? && isServer ==>
      r.value[AUTHORIZATION] == "Bearer " + ServerKey(deepseekKey, apiKey).value
      && ServerKey(deepseekKey, apiKey).value != ""
  {
    var headers := map[CONTENT_TYPE := JSON_MEDIA_TYPE];
    if !isServer then Ok(headers)
    else
      var key := ServerKey(deepseekKey, apiKey);
      if !IsSet(key) then MissingApiKey
      else Ok(headers[AUTHORIZATION := "Bearer " + key.value])
  }

  /** The browser never needs a key and never sends one, whatever the environment holds. */
  lemma BrowserSendsNoKey(deepseekKey: Option<string>, apiKey: Option<string>)
    ensures RequestHeaders(false, deepseekKey, apiKey) == Ok(map[CONTENT_TYPE := JSON_MEDIA_TYPE])
  {
    var r := RequestHeaders(false, deepseekKey, apiKey);
    assert r.value.Keys == {CONTENT_TYPE};
  }

  /** On the server the headers depend on the environment only through the chosen key. */
  lemma ServerHeadersFollowKey(d1: Option<string>, a1: Option<string>, d2: Option<string>, a2: Option<string>)
    requires ServerKey(d1, a1) == ServerKey(d2, a2)
    ensures RequestHeaders(true, d1, a1) == RequestHeaders(true, d2, a2)
  {
  }
}
