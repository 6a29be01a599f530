/** The authenticated request builder of backend/src/pearClient.ts: reading the
    access token, normalising and joining the URL, merging headers, and the
    single outbound `fetch`, which is returned as a request record. */
module PearClient {
  import opened Results
  import opened Strings
  import opened Js

  const ApiBaseVar := "PEAR_API_BASE"
  const AccessTokenVar := "PEAR_ACCESS_TOKEN"

  const AuthorizationHeader := "authorization"
  const ContentTypeHeader := "content-type"
  const JsonContentType := "application/json"

  /** The two configuration errors the client throws. */
  datatype ConfigError = ApiBaseNotSet | AccessTokenNotSet {
    function Message(): string {
      match this
      case ApiBaseNotSet => "PEAR_API_BASE is not set in environment variables"
      case AccessTokenNotSet => "PEAR_ACCESS_TOKEN is not set in environment variables"
    }
  }

  /** `getPearAccessToken`: the token when the variable is set and non-empty. */
  function GetPearAccessToken(env: Env): (r: Result<string, ConfigError>)
    ensures r.Success? <==> AccessTokenVar in env && env[AccessTokenVar] != ""
    ensures r.Success? ==> r.value == env[AccessTokenVar] && r.value != ""
    ensures r.Failure? ==> r.error == AccessTokenNotSet
  {
    if !IsSet(env, AccessTokenVar) then Failure(AccessTokenNotSet)
    else Success(env[AccessTokenVar])
  }

  // ---------------------------------------------------------------------------
  // URL construction

  /** `path.startsWith('/') ? path : `/${path}`` */
  function NormalizePath(path: string): (r: string)
    ensures StartsWith(r, "/")
    ensures StartsWith(path, "/") ==> r == path
    ensures !StartsWith(path, "/") ==> r[1..] == path && |r| == |path| + 1
  {
    if StartsWith(path, "/") then path else "/" + path
  }

  /** `apiBase.replace(/\/$/, '')`: drops one trailing slash, if there is one. */
  function StripTrailingSlash(base: string): (r: string)
    ensures EndsWith(base, "/") ==> r + "/" == base
    ensures !EndsWith(base, "/") ==> r == base
  {
    if EndsWith(base, "/") then base[..|base| - 1] else base
  }

  /** The request URL: the normalised base followed by the normalised path. */
  function JoinUrl(base: string, path: string): (url: string)
    ensures StartsWith(url, StripTrailingSlash(base))
    ensures url[|StripTrailingSlash(base)|..] == NormalizePath(path)
  {
    StripTrailingSlash(base) + NormalizePath(path)
  }

  /** Normalising a path twice changes nothing further. */
  lemma NormalizePathIdempotent(path: string)
    ensures NormalizePath(NormalizePath(path)) == NormalizePath(path)
  {
  }

  /** Moving the separator from the end of the base to the start of the path
      does not change the URL. */
  lemma SlashPlacementIrrelevant(base: string, path: string)
    requires !EndsWith(base, "/")
    requires !StartsWith(path, "/")
    ensures JoinUrl(base + "/", path) == JoinUrl(base, "/" + path)
    ensures JoinUrl(base + "/", path) == base + "/" + path
  {
  }

  /** The two spellings of the same endpoint yield one URL, with no doubled slash. */
  lemma ExampleUrls()
    ensures JoinUrl("https://api.example.com/", "bets") == "https://api.example.com/bets"
    ensures JoinUrl("https://api.example.com", "/bets") == "https://api.example.com/bets"
  {
  }

  /** Only one trailing slash is removed: a base ending in two keeps one. */
  lemma OnlyOneSlashStripped(base: string)
    requires !EndsWith(base, "/")
    ensures StripTrailingSlash(base + "//") == base + "/"
    ensures JoinUrl(base + "//", "/bets") == base + "//bets"
  {
  }

  // ---------------------------------------------------------------------------
  // Headers

  /** The caller's `headers` option as name/value entries in order (a record,
      an array of pairs, or an existing `Headers` object all reduce to this). */
  type HeaderInit = seq<(string, string)>

  /** A `Headers` object: values keyed by lower-cased name. */
  type Headers = map<string, string>

  /** `headers.append(name, value)`: a repeated name joins its values with ", ". */
  function AppendHeader(h: Headers, name: string, value: string): (r: Headers)
    ensures r.Keys == h.Keys + {AsciiLower(name)}
    ensures forall k :: k in h && k != AsciiLower(name) ==> r[k] == h[k]
    ensures AsciiLower(name) in h ==> r[AsciiLower(name)] == h[AsciiLower(name)] + ", " + value
    ensures AsciiLower(name) !in h ==> r[AsciiLower(name)] == value
  {
    var k := AsciiLower(name);
    if k in h then h[k := h[k] + ", " + value] else h[k := value]
  }

  /** The names an init supplies, lower-cased. */
  function InitNames(init: HeaderInit): set<string> {
    set i | 0 <= i < |init| :: AsciiLower(init[i].0)
  }

  /** The names of an init are those of all but its last entry plus the last one's. */
  lemma InitNamesSnoc(init: HeaderInit)
    requires |init| > 0
    ensures InitNames(init) == InitNames(init[..|init| - 1]) + {AsciiLower(init[|init| - 1].0)}
  {
  }

  /** Reference definition: the values the caller gave for the (lower-cased)
      name `k`, in the order given. */
  function ValuesFor(init: HeaderInit, k: string): (vs: seq<string>)
    ensures |vs| == 0 <==> k !in InitNames(init)
  {
    if |init| == 0 then []
    else
      InitNamesSnoc(init);
      ValuesFor(init[..|init| - 1], k) + (if AsciiLower(init[|init| - 1].0) == k then [init[|init| - 1].1] else [])
  }

  /** Values joined with ", ", as `Headers` combines a repeated name. */
  function JoinValues(vs: seq<string>): string {
    if |vs| == 0 then ""
    else if |vs| == 1 then vs[0]
    else JoinValues(vs[..|vs| - 1]) + ", " + vs[|vs| - 1]
  }

  lemma JoinValuesSnoc(vs: seq<string>, v: string)
    requires |vs| > 0
    ensures JoinValues(vs + [v]) == JoinValues(vs) + ", " + v
  {
  }

  /** Appending the last entry extends the key and value description from
      all but the last entry to the whole init. */
  lemma AppendExtendsDescription(init: HeaderInit, prev: Headers)
    requires |init| > 0
    requires prev.Keys == InitNames(init[..|init| - 1])
    requires forall k :: k in prev ==> prev[k] == JoinValues(ValuesFor(init[..|init| - 1], k))
    ensures var h := AppendHeader(prev, init[|init| - 1].0, init[|init| - 1].1);
            && h.Keys == InitNames(init)
            && forall k :: k in h ==> h[k] == JoinValues(ValuesFor(init, k))
  {
    var prefix := init[..|init| - 1];
    var last := init[|init| - 1];
    var name := AsciiLower(last.0);
    var h := AppendHeader(prev, last.0, last.1);
    InitNamesSnoc(init);
    forall k | k in h ensures h[k] == JoinValues(ValuesFor(init, k)) {
      assert ValuesFor(init, k) == ValuesFor(prefix, k) + (if name == k then [last.1] else []);
      if k == name {
        if k in prev {
          JoinValuesSnoc(ValuesFor(prefix, k), last.1);
        } else {
          assert ValuesFor(prefix, k) == [];
        }
      } else {
        assert ValuesFor(prefix, k) + [] == ValuesFor(prefix, k);
      }
    }
  }

  /** `new Headers(init)`: every entry appended in order. A name holds the
      values the caller gave for it, in order, joined with ", ". */
  function BuildHeaders(init: HeaderInit): (h: Headers)
    ensures h.Keys == InitNames(init)
    ensures forall k :: k in h ==> h[k] == JoinValues(ValuesFor(init, k))
  {
    if |init| == 0 then map[]
    else
      var prev := BuildHeaders(init[..|init| - 1]);
      AppendExtendsDescription(init, prev);
      AppendHeader(prev, init[|init| - 1].0, init[|init| - 1].1)
  }

  /** Two spellings of one name are combined into a single lower-cased entry. */
  lemma RepeatedNameCombined()
    ensures BuildHeaders([("X-Trace", "1"), ("x-trace", "2")]) == map["x-trace" := "1, 2"]
  {
    var init := [("X-Trace", "1"), ("x-trace", "2")];
    assert AsciiLower("X-Trace") == "x-trace";
    assert AsciiLower("x-trace") == "x-trace";
    assert init[..1] == [("X-Trace", "1")];
    assert init[..1][..0] == [];
    assert BuildHeaders(init[..1][..0]) == map[];
    assert BuildHeaders(init[..1]) == map["x-trace" := "1"];
    assert BuildHeaders(init) == AppendHeader(map["x-trace" := "1"], "x-trace", "2");
    assert "1" + ", " + "2" == "1, 2";
    assert map["x-trace" := "1"]["x-trace" := "1, 2"] == map["x-trace" := "1, 2"];
  }

  /** Every header name in a built `Headers` is in lower case: the caller's
      name for entry `i` is stored under its lower-cased form, which lower-casing
      leaves unchanged. */
  lemma BuiltNamesAreLowerCase(init: HeaderInit, i: nat)
    requires i < |init|
    ensures AsciiLower(init[i].0) in BuildHeaders(init)
    ensures AsciiLower(AsciiLower(init[i].0)) == AsciiLower(init[i].0)
  {
  }

  /** Does a body count as present? `options.body` is tested for truthiness,
      so an empty string body counts as absent. */
  datatype BodyInit = Text(text: string) | Binary(bytes: seq<bv8>)

  function HasBody(body: Option<BodyInit>): (present: bool)
    ensures present <==> body.Some? && (body.value.Text? ==> Truthy(Str(body.value.text)))
  {
    match body
    case None => false
    case Some(Text(t)) => t != ""
    case Some(Binary(_)) => true
  }

  /** The merge of `pearFetch`: Authorization always set to the bearer token,
      Content-Type set to JSON only when a body is present and the caller set
      none (names compared without regard to case). */
  function MergeHeaders(init: HeaderInit, token: string, hasBody: bool): (h: Headers)
    ensures AuthorizationHeader in h && h[AuthorizationHeader] == "Bearer " + token
    ensures ContentTypeHeader in h <==> ContentTypeHeader in InitNames(init) || hasBody
    ensures ContentTypeHeader in InitNames(init) ==>
              h[ContentTypeHeader] == BuildHeaders(init)[ContentTypeHeader]
    ensures ContentTypeHeader !in InitNames(init) && hasBody ==>
              h[ContentTypeHeader] == JsonContentType
    ensures h.Keys - {AuthorizationHeader, ContentTypeHeader}
         == InitNames(init) - {AuthorizationHeader, ContentTypeHeader}
    ensures forall k :: k in h && k != AuthorizationHeader && k != ContentTypeHeader ==>
              k in BuildHeaders(init) && h[k] == BuildHeaders(init)[k]
  {
    var built := BuildHeaders(init);
    var withAuth := built[AuthorizationHeader := "Bearer " + token];
    if ContentTypeHeader !in withAuth && hasBody then withAuth[ContentTypeHeader := JsonContentType]
    else withAuth
  }

  /** A Content-Type the caller wrote in any letter case is kept as given,
      even when a body is present. */
  lemma CallerContentTypeKept(init: HeaderInit, i: nat, token: string, hasBody: bool)
    requires i < |init| && AsciiLower(init[i].0) == ContentTypeHeader
    ensures ContentTypeHeader in MergeHeaders(init, token, hasBody)
    ensures MergeHeaders(init, token, hasBody)[ContentTypeHeader]
         == BuildHeaders(init)[ContentTypeHeader]
  {
  }

  // ---------------------------------------------------------------------------
  // The request

  /** The fetch options the caller may pass; options other than method,
      headers and body are kept as opaque name/value pairs. */
  datatype RequestInit = RequestInit(
    verb: Option<string>,
    headers: HeaderInit,
    body: Option<BodyInit>,
    other: map<string, string>)

  /** The one `fetch(url, { ...options, headers })` call `pearFetch` makes. */
  datatype FetchCall = FetchCall(
    url: string,
    verb: Option<string>,
    headers: Headers,
    body: Option<BodyInit>,
    other: map<string, string>)

  /** `pearFetch(path, options)`: the base URL is checked first, then the
      URL is built, then the token is read, then the single request is made. */
  function PearFetch(env: Env, path: string, options: RequestInit): (r: Result<FetchCall, ConfigError>)
    ensures r.Success? <==> IsSet(env, ApiBaseVar) && IsSet(env, AccessTokenVar)
    ensures !IsSet(env, ApiBaseVar) ==> r == Failure(ApiBaseNotSet)
    ensures IsSet(env, ApiBaseVar) && !IsSet(env, AccessTokenVar) ==> r == Failure(AccessTokenNotSet)
    ensures r.Success? ==>
              && StartsWith(r.value.url, StripTrailingSlash(env[ApiBaseVar]))
              && r.value.url[|StripTrailingSlash(env[ApiBaseVar])|..] == NormalizePath(path)
              && AuthorizationHeader in r.value.headers
              && r.value.headers[AuthorizationHeader] == "Bearer " + env[AccessTokenVar]
              && r.value.headers == MergeHeaders(options.headers, env[AccessTokenVar], HasBody(options.body))
              && r.value.verb == options.verb
              && r.value.body == options.body
              && r.value.other == options.other
  {
    if !IsSet(env, ApiBaseVar) then Failure(ApiBaseNotSet)
    else
      var url := JoinUrl(env[ApiBaseVar], path);
      match GetPearAccessToken(env)
      case Failure(e) => Failure(e)
      case Success(token) =>
        var headers := MergeHeaders(options.headers, token, HasBody(options.body));
        Success(FetchCall(url, options.verb, headers, options.body, options.other))
  }

  /** With neither setting present the base-URL error is the one reported. */
  lemma BaseUrlErrorReportedFirst(env: Env, path: string, options: RequestInit)
    requires ApiBaseVar !in env && AccessTokenVar !in env
    ensures PearFetch(env, path, options) == Failure(ApiBaseNotSet)
    ensures PearFetch(env, path, options).error.Message()
         == "PEAR_API_BASE is not set in environment variables"
  {
  }

  /** With no body no Content-Type is added, whatever else the caller sent. */
  lemma NoBodyNoDefaultContentType(env: Env, path: string, options: RequestInit)
    requires IsSet(env, ApiBaseVar) && IsSet(env, AccessTokenVar)
    requires !HasBody(options.body)
    ensures var call := PearFetch(env, path, options).value;
            ContentTypeHeader in call.headers <==> ContentTypeHeader in InitNames(options.headers)
  {
  }
}
