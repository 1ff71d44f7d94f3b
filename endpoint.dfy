/** Configuration check, completion URL and the request sent to the endpoint. */
module Endpoint {
  import opened Wrappers
  import opened Messages

  /** Route appended to the configured base URL. */
  const CompletionsPath: string := "/api/v1/chat/completions"

  /** Fixed `Content-Type` header of every request. */
  const JsonContentType: string := "application/json"

  /**
   * Truthiness of an environment value: `not v` holds of an unset
   * variable and of an empty string.
   */
  predicate IsSet(v: Option<string>)
    ensures IsSet(v) <==> v != None && v != Some("")
  {
    v.Some? && v.value != ""
  }

  /**
   * `s.rstrip("/")`: the longest prefix of `s` that does not end in `/`
   * and after which `s` holds only slashes.
   */
  function StripTrailingSlashes(s: string): (r: string)
    ensures r <= s
    ensures forall i | |r| <= i < |s| :: s[i] == '/'
    ensures r == "" || r[|r| - 1] != '/'
    decreases |s|
  {
    if s != "" && s[|s| - 1] == '/' then StripTrailingSlashes(s[..|s| - 1]) else s
  }

  /**
   * The three properties above determine the stripped string uniquely
   * (two such prefixes of `s` would differ in a character that is `/` in
   * one and not in the other).
   */
  lemma StripTrailingSlashesUnique(s: string, r: string)
    requires r <= s
    requires forall i | |r| <= i < |s| :: s[i] == '/'
    requires r == "" || r[|r| - 1] != '/'
    ensures StripTrailingSlashes(s) == r
  {
  }

  /** Stripping twice is stripping once. */
  lemma StripTrailingSlashesIdempotent(s: string)
    ensures StripTrailingSlashes(StripTrailingSlashes(s)) == StripTrailingSlashes(s)
  {
  }

  /**
   * `base.rstrip("/") + "/api/v1/chat/completions"`: the URL ends with
   * the completions route, and what stands before the route is the base
   * with every trailing slash removed.
   */
  function CompletionsUrl(base: string): (url: string)
    ensures |CompletionsPath| <= |url|
    ensures url[|url| - |CompletionsPath|..] == CompletionsPath
    ensures var stem := url[..|url| - |CompletionsPath|];
      && stem <= base
      && (stem == "" || stem[|stem| - 1] != '/')
      && (forall i | |stem| <= i < |base| :: base[i] == '/')
  {
    StripTrailingSlashes(base) + CompletionsPath
  }

  /** Extra trailing slashes on the configured base do not change the URL. */
  lemma CompletionsUrlIgnoresTrailingSlash(base: string)
    ensures CompletionsUrl(base + "/") == CompletionsUrl(base)
  {
  }

  /** The HTTP request: its URL, its two headers and its JSON payload. */
  datatype Request = Request(
    url: string,
    authorization: string,
    contentType: string,
    messages: seq<Message>,
    stream: bool,
    includeFunctionsInfo: bool,
    includeRetrievalInfo: bool,
    includeGuardrailsInfo: bool)

  /** The request for `history`: bearer token from `key`, every diagnostic flag off. */
  function BuildRequest(base: string, key: string, history: seq<Message>): (req: Request)
    ensures req.url == CompletionsUrl(base)
    ensures |"Bearer "| <= |req.authorization|
    ensures req.authorization[..|"Bearer "|] == "Bearer " && req.authorization[|"Bearer "|..] == key
    ensures req.contentType == "application/json"
    ensures req.messages == history
    ensures !req.stream && !req.includeFunctionsInfo && !req.includeRetrievalInfo && !req.includeGuardrailsInfo
  {
    Request(CompletionsUrl(base), "Bearer " + key, JsonContentType, history, false, false, false, false)
  }
}
