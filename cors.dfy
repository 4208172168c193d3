/** The CORS response headers the worker sends: `isLocalhostOrigin` and
    `getCorsHeaders` of src/util/getCorsHeaders.ts. The response header names
    are those of the Fetch Standard, section 3.2.3 ("HTTP responses"). */
module Cors {
  import opened Wrappers

  /** What a successful WHATWG URL parse exposes that the origin check reads. */
  datatype ParsedUrl = ParsedUrl(hostname: string, port: string)

  /** `new URL(s)`: the parser is a library outside this model, so it is a
      parameter; `None` stands for the parser throwing. */
  type UrlParser = string -> Option<ParsedUrl>

  const DevelopmentMode := "development"
  const LoopbackHosts: set<string> := {"localhost", "127.0.0.1"}

  const AllowOriginName := "Access-Control-Allow-Origin"
  const AllowMethodsName := "Access-Control-Allow-Methods"
  const AllowHeadersName := "Access-Control-Allow-Headers"
  const MaxAgeName := "Access-Control-Max-Age"
  const CacheControlName := "Cache-Control"
  const PragmaName := "Pragma"
  const ExpiresName := "Expires"

  const HeaderNames: set<string> :=
    {AllowOriginName, AllowMethodsName, AllowHeadersName, MaxAgeName, CacheControlName, PragmaName, ExpiresName}

  const AllowedMethods := "GET, POST, OPTIONS"
  const DefaultAllowHeaders := "Content-Type, Authorization"
  const MaxAgeValue := "0"
  const CacheControlValue := "no-store, no-cache, must-revalidate, proxy-revalidate"
  const PragmaValue := "no-cache"
  const ExpiresValue := "0"

  predicate IsDigit(c: char) {
    '0' <= c <= '9'
  }

  /** `/^[0-9]*$/.test(s)`: the whole string is ASCII decimal digits, the empty
      string included. */
  function AllDigits(s: string): (r: bool)
    ensures r <==> forall i :: 0 <= i < |s| ==> IsDigit(s[i])
  {
    s == [] || (IsDigit(s[0]) && AllDigits(s[1..]))
  }

  /** `list.includes(x)`: a left-to-right scan for an element equal to `x`. */
  function Includes(list: seq<string>, x: string): (r: bool)
    ensures r <==> x in list
  {
    |list| > 0 && (list[0] == x || Includes(list[1..], x))
  }

  /** `isLocalhostOrigin`: the origin parses, its hostname is `localhost` or
      `127.0.0.1`, and its port is all digits or empty. A parse failure is
      caught and answered with `false`. */
  function IsLocalhostOrigin(origin: string, parse: UrlParser): (r: bool)
    ensures parse(origin).None? ==> !r
    ensures r <==> parse(origin).Some? && parse(origin).value.hostname in LoopbackHosts
                   && forall i :: 0 <= i < |parse(origin).value.port| ==> IsDigit(parse(origin).value.port[i])
  {
    match parse(origin)
    case None => false
    case Some(url) => (url.hostname == "localhost" || url.hostname == "127.0.0.1") && AllDigits(url.port)
  }

  predicate IsDevelopment(envType: Option<string>) {
    envType == Some(DevelopmentMode)
  }

  /** The `allowOrigin` variable: assigned the origin by at most one branch of
      the if/else-if chain, otherwise left at "". */
  function AllowOrigin(origin: Option<string>, envType: Option<string>, allowList: seq<string>, parse: UrlParser): (r: string)
    ensures r == "" || (origin.Some? && r == origin.value)
  {
    var isDev := IsDevelopment(envType);
    if isDev && origin.Some? && origin.value != "" && IsLocalhostOrigin(origin.value, parse) then origin.value
    else if !isDev && origin.Some? && origin.value != "" && Includes(allowList, origin.value) then origin.value
    else ""
  }

  /** `getCorsHeaders`: `origin` and `requestHeaders` are the request's `Origin`
      and `Access-Control-Request-Headers` values (`None` when the header is
      absent), `envType` is `env.ENV_TYPE`, `allowList` is `AllowedProdOrigins`. */
  function GetCorsHeaders(origin: Option<string>, requestHeaders: Option<string>, envType: Option<string>,
                          allowList: seq<string>, parse: UrlParser): (h: map<string, string>)
    ensures h.Keys == HeaderNames && |h| == 7
    ensures h[AllowOriginName] == "" || (origin.Some? && h[AllowOriginName] == origin.value)
  {
    var requested := if requestHeaders.Some? then requestHeaders.value else "";
    map[
      AllowOriginName := AllowOrigin(origin, envType, allowList, parse),
      AllowMethodsName := AllowedMethods,
      AllowHeadersName := if requested != "" then requested else DefaultAllowHeaders,
      MaxAgeName := MaxAgeValue,
      CacheControlName := CacheControlValue,
      PragmaName := PragmaValue,
      ExpiresName := ExpiresValue
    ]
  }

  /** In development mode the origin is echoed exactly when it is a non-empty
      localhost origin. */
  lemma DevelopmentEchoesLocalhostOnly(origin: Option<string>, requestHeaders: Option<string>, envType: Option<string>,
                                        allowList: seq<string>, parse: UrlParser)
    requires IsDevelopment(envType)
    ensures var h := GetCorsHeaders(origin, requestHeaders, envType, allowList, parse);
            (origin.Some? && origin.value != "" && IsLocalhostOrigin(origin.value, parse) ==> h[AllowOriginName] == origin.value)
            && (h[AllowOriginName] != "" ==> origin.Some? && IsLocalhostOrigin(origin.value, parse))
  {
  }

  /** Outside development mode the origin is echoed exactly when it is a
      non-empty element of the allow-list. */
  lemma ProductionEchoesListedOnly(origin: Option<string>, requestHeaders: Option<string>, envType: Option<string>,
                                   allowList: seq<string>, parse: UrlParser)
    requires !IsDevelopment(envType)
    ensures var h := GetCorsHeaders(origin, requestHeaders, envType, allowList, parse);
            (origin.Some? && origin.value != "" && origin.value in allowList ==> h[AllowOriginName] == origin.value)
            && (h[AllowOriginName] != "" ==> origin.Some? && origin.value in allowList)
  {
  }

  /** A missing or empty `Origin` header is never allowed. */
  lemma AbsentOriginDenied(origin: Option<string>, requestHeaders: Option<string>, envType: Option<string>,
                           allowList: seq<string>, parse: UrlParser)
    requires origin.None? || origin.value == ""
    ensures GetCorsHeaders(origin, requestHeaders, envType, allowList, parse)[AllowOriginName] == ""
  {
  }

  /** Development mode never consults the allow-list. */
  lemma DevelopmentIgnoresAllowList(origin: Option<string>, requestHeaders: Option<string>, envType: Option<string>,
                                    list1: seq<string>, list2: seq<string>, parse: UrlParser)
    requires IsDevelopment(envType)
    ensures GetCorsHeaders(origin, requestHeaders, envType, list1, parse)
         == GetCorsHeaders(origin, requestHeaders, envType, list2, parse)
  {
  }

  /** Any other mode never applies the localhost rule, so never parses the origin. */
  lemma ProductionIgnoresUrlParser(origin: Option<string>, requestHeaders: Option<string>, envType: Option<string>,
                                   allowList: seq<string>, parse1: UrlParser, parse2: UrlParser)
    requires !IsDevelopment(envType)
    ensures GetCorsHeaders(origin, requestHeaders, envType, allowList, parse1)
         == GetCorsHeaders(origin, requestHeaders, envType, allowList, parse2)
  {
  }

  /** A localhost origin gets no special treatment outside development mode:
      it is denied unless it is listed. */
  lemma LocalhostDeniedInProductionUnlessListed(origin: string, requestHeaders: Option<string>, envType: Option<string>,
                                                allowList: seq<string>, parse: UrlParser)
    requires !IsDevelopment(envType) && IsLocalhostOrigin(origin, parse) && origin !in allowList
    ensures GetCorsHeaders(Some(origin), requestHeaders, envType, allowList, parse)[AllowOriginName] == ""
  {
  }

  /** The allowed headers echo a non-empty request value and fall back to the
      fixed default otherwise. */
  lemma AllowHeadersEchoOrDefault(origin: Option<string>, requestHeaders: Option<string>, envType: Option<string>,
                                  allowList: seq<string>, parse: UrlParser)
    ensures var h := GetCorsHeaders(origin, requestHeaders, envType, allowList, parse);
            (requestHeaders.Some? && requestHeaders.value != "" ==> h[AllowHeadersName] == requestHeaders.value)
            && (requestHeaders.None? || requestHeaders.value == "" ==> h[AllowHeadersName] == DefaultAllowHeaders)
  {
  }

  /** The five remaining entries are the same constants for every request. */
  lemma FixedEntriesAreConstant(origin: Option<string>, requestHeaders: Option<string>, envType: Option<string>,
                                allowList: seq<string>, parse: UrlParser)
    ensures var h := GetCorsHeaders(origin, requestHeaders, envType, allowList, parse);
            && h[AllowMethodsName] == "GET, POST, OPTIONS"
            && h[MaxAgeName] == "0"
            && h[CacheControlName] == "no-store, no-cache, must-revalidate, proxy-revalidate"
            && h[PragmaName] == "no-cache"
            && h[ExpiresName] == "0"
  {
  }

  /** With the reference deployment's list, production echoes a listed origin
      and denies an unlisted one, including a local development server. */
  lemma ReferenceDeploymentExamples(parse: UrlParser)
    ensures var list := ["http://localhost:3000", "https://ziyou.uk"];
            && GetCorsHeaders(Some("https://ziyou.uk"), None, Some("production"), list, parse)[AllowOriginName] == "https://ziyou.uk"
            && GetCorsHeaders(Some("https://evil.example"), None, Some("production"), list, parse)[AllowOriginName] == ""
            && GetCorsHeaders(Some("http://localhost:5173"), None, Some("production"), list, parse)[AllowOriginName] == ""
  {
    var list := ["http://localhost:3000", "https://ziyou.uk"];
    assert "https://ziyou.uk" in list;
    assert "https://evil.example" !in list;
    assert "http://localhost:5173" !in list;
  }
}
