/** The worker entry point of src/index.ts: the `hello` query, the
    `chatWithDeepSeek` mutation resolver, and the `OPTIONS` branch of `fetch`.
    The one network round trip of the resolver is a parameter (`exchange`), and
    `JSON.stringify` is one too (`stringify`), so the resolver is a total
    function of its inputs. */
module ChatWorker {
  import opened Wrappers
  import opened JsValues
  import opened Environment
  import Cors

  const Greeting := "Hello from DeepSeek Chat Worker!"
  const ApiUrl := "https://api.deepseek.com/v1/chat/completions"
  const BearerPrefix := "Bearer "
  const FormatPrefix := "DeepSeek API response format unexpected: "
  const Fallback := "No response from DeepSeek"
  /** "DEEPSEEK_API_KEY is not configured". */
  const MissingKeyMessage := "DEEPSEEK_API_KEY \U{672A}\U{914D}\U{7F6E}"
  /** "DeepSeek request failed". */
  const RequestFailedMessage := "DeepSeek \U{8BF7}\U{6C42}\U{5931}\U{8D25}"

  /** One chat turn, `MessageInput`. */
  datatype Message = Message(role: string, content: string)

  /** The mutation's arguments after GraphQL has applied the schema defaults; a
      `None` is an argument the caller set to `null` explicitly. */
  datatype ChatArgs = ChatArgs(messages: seq<Message>, model: Option<string>,
                               temperature: Option<real>, maxTokens: Option<int>)

  /** The outbound POST; `body` is the value that `JSON.stringify` serialises. */
  datatype UpstreamRequest = UpstreamRequest(url: string, verb: string, headers: map<string, string>, body: Json)

  /** What `response.json()` gives: a value, or a rejection for malformed text. */
  datatype Body = Parsed(value: Json) | Malformed

  /** What the awaited `fetch` settles to: a response, or a rejection (DNS
      failure, connection reset) that the resolver does not catch. */
  datatype UpstreamResponse = UpstreamResponse(status: int, body: Body) | Unreachable

  /** The errors the resolver throws, in the order of its gates. */
  datatype ChatError =
    | ConfigError
    | NetworkError
    | UpstreamRequestError
    | ParseError
    | FormatError(message: string)
  {
    /** The thrown message; the texts of a rejected `fetch` and of a parse
        error belong to the runtime. */
    function Message(): (m: Option<string>)
      ensures ConfigError? ==> m == Some("DEEPSEEK_API_KEY \U{672A}\U{914D}\U{7F6E}")
      ensures UpstreamRequestError? ==> m == Some("DeepSeek \U{8BF7}\U{6C42}\U{5931}\U{8D25}")
      ensures FormatError? ==> m == Some(message)
      ensures NetworkError? || ParseError? ==> m.None?
    {
      match this
      case ConfigError => Some(MissingKeyMessage)
      case NetworkError => None
      case UpstreamRequestError => Some(RequestFailedMessage)
      case ParseError => None
      case FormatError(m) => Some(m)
    }
  }

  /** The resolver's value: what it returns, or what it throws. */
  datatype ChatResult = Ok(value: Json) | Fail(error: ChatError)

  /** One resolver run: the request it sent, if any, and its result. */
  datatype Resolution = Resolution(sent: Option<UpstreamRequest>, result: ChatResult)

  /** The `hello` query. */
  function Hello(): (s: string)
    ensures s == "Hello from DeepSeek Chat Worker!"
  {
    Greeting
  }

  // ---------------------------------------------------------------------------
  // The outbound request

  /** The key when `env && env.DEEPSEEK_API_KEY` is truthy. */
  function ConfiguredKey(env: Option<Env>): (k: Option<string>)
    ensures k.Some? <==> env.Some? && env.value.deepseekApiKey.Some? && env.value.deepseekApiKey.value != ""
    ensures k.Some? ==> k.value == env.value.deepseekApiKey.value
  {
    if env.Some? && env.value.deepseekApiKey.Some? && env.value.deepseekApiKey.value != ""
    then env.value.deepseekApiKey
    else None
  }

  function MessageJson(m: Message): Json {
    Obj(map["role" := Str(m.role), "content" := Str(m.content)])
  }

  function MessagesJson(ms: seq<Message>): seq<Json> {
    seq(|ms|, i requires 0 <= i < |ms| => MessageJson(ms[i]))
  }

  function StringOrNull(o: Option<string>): Json {
    if o.Some? then Str(o.value) else Null
  }

  function NumberOrNull(o: Option<real>): Json {
    if o.Some? then Num(o.value) else Null
  }

  function IntegerOrNull(o: Option<int>): Json {
    if o.Some? then Num(o.value as real) else Null
  }

  /** The object literal passed to `JSON.stringify` as the request body. */
  function RequestBody(args: ChatArgs): Json {
    Obj(map[
      "model" := StringOrNull(args.model),
      "messages" := Arr(MessagesJson(args.messages)),
      "temperature" := NumberOrNull(args.temperature),
      "max_tokens" := IntegerOrNull(args.maxTokens)
    ])
  }

  /** The `fetch` call the resolver makes once the key is known. */
  function BuildRequest(key: string, args: ChatArgs): (req: UpstreamRequest)
    ensures req.url == ApiUrl && req.verb == "POST"
    ensures req.headers.Keys == {"Content-Type", "Authorization"}
    ensures req.headers["Content-Type"] == "application/json"
    ensures req.body.Obj? && req.body.fields.Keys == {"model", "messages", "temperature", "max_tokens"}
  {
    UpstreamRequest(
      ApiUrl, "POST",
      map["Content-Type" := "application/json", "Authorization" := BearerPrefix + key],
      RequestBody(args))
  }

  // Reading the request back, as the upstream API would: the inverse of
  // BuildRequest, used to state that nothing is lost or reordered.

  function MessageOf(v: Json): Option<Message> {
    if v.Obj? && "role" in v.fields && "content" in v.fields
       && v.fields["role"].Str? && v.fields["content"].Str?
    then Some(Message(v.fields["role"].s, v.fields["content"].s))
    else None
  }

  function MessagesOf(items: seq<Json>): Option<seq<Message>> {
    if items == [] then Some([])
    else
      match (MessageOf(items[0]), MessagesOf(items[1..]))
      case (Some(m), Some(ms)) => Some([m] + ms)
      case _ => None
  }

  function StringOrNullOf(v: Json): Option<Option<string>> {
    match v
    case Null => Some(None)
    case Str(s) => Some(Some(s))
    case _ => None
  }

  function NumberOrNullOf(v: Json): Option<Option<real>> {
    match v
    case Null => Some(None)
    case Num(n) => Some(Some(n))
    case _ => None
  }

  function IntegerOrNullOf(v: Json): Option<Option<int>> {
    match v
    case Null => Some(None)
    case Num(n) => if n.Floor as real == n then Some(Some(n.Floor)) else None
    case _ => None
  }

  function ArgsOf(body: Json): Option<ChatArgs> {
    if body.Obj? && body.fields.Keys == {"model", "messages", "temperature", "max_tokens"}
       && body.fields["messages"].Arr?
    then
      match (MessagesOf(body.fields["messages"].items), StringOrNullOf(body.fields["model"]),
             NumberOrNullOf(body.fields["temperature"]), IntegerOrNullOf(body.fields["max_tokens"]))
      case (Some(ms), Some(model), Some(t), Some(n)) => Some(ChatArgs(ms, model, t, n))
      case _ => None
    else None
  }

  function KeyOf(authorization: string): Option<string> {
    if |authorization| >= |BearerPrefix| && authorization[..|BearerPrefix|] == BearerPrefix
    then Some(authorization[|BearerPrefix|..])
    else None
  }

  /** The messages reach the upstream API unchanged and in order. */
  lemma {:induction false} MessagesRoundTrip(ms: seq<Message>)
    ensures MessagesOf(MessagesJson(ms)) == Some(ms)
  {
    if ms != [] {
      MessagesRoundTrip(ms[1..]);
      assert MessagesJson(ms)[1..] == MessagesJson(ms[1..]);
      assert [ms[0]] + ms[1..] == ms;
    }
  }

  /** The body carries `model`, `messages`, `temperature` and `max_tokens`
      unchanged, and the `Authorization` header carries the key. */
  lemma BuildRequestRoundTrip(key: string, args: ChatArgs)
    ensures ArgsOf(BuildRequest(key, args).body) == Some(args)
    ensures KeyOf(BuildRequest(key, args).headers["Authorization"]) == Some(key)
  {
    MessagesRoundTrip(args.messages);
    var auth := BearerPrefix + key;
    assert auth[..|BearerPrefix|] == BearerPrefix;
    assert auth[|BearerPrefix|..] == key;
  }

  // ---------------------------------------------------------------------------
  // The upstream response

  /** `response.ok`: a status in the range 200 to 299. */
  predicate IsOkStatus(status: int) {
    200 <= status <= 299
  }

  function Choices(data: Json): Option<Json> {
    Field(Some(data), "choices")
  }

  function FirstChoice(data: Json): Option<Json> {
    var choices := Choices(data);
    if choices.Some? then ElementZero(choices.value) else None
  }

  /** `data?.choices[0]?.message?.content`. */
  function Content(data: Json): Option<Json> {
    Field(Field(FirstChoice(data), "message"), "content")
  }

  /** The negation of `!data || !data.choices || !data.choices[0]`. */
  predicate WellShaped(data: Json) {
    Truthy(data) && IsTruthy(Choices(data)) && IsTruthy(FirstChoice(data))
  }

  /** What the resolver does with a parsed body after an ok status. */
  function DecodeCompletion(data: Json, stringify: Json -> string): (r: ChatResult)
    ensures r.Fail? <==> !WellShaped(data)
    ensures r.Fail? ==> r.error == FormatError(FormatPrefix + stringify(data))
    ensures r.Ok? ==> Truthy(r.value)
  {
    if !WellShaped(data) then Fail(FormatError(FormatPrefix + stringify(data)))
    else
      var content := Content(data);
      if IsTruthy(content) then Ok(content.value) else Ok(Str(Fallback))
  }

  /** The `chatWithDeepSeek` resolver: key gate, one request, status gate,
      body parse, shape gate, then the content or the fallback text. */
  function ChatWithDeepSeek(env: Option<Env>, args: ChatArgs,
                            exchange: UpstreamRequest -> UpstreamResponse,
                            stringify: Json -> string): (r: Resolution)
    ensures r.sent.None? <==> r.result == Fail(ConfigError)
    ensures r.sent.Some? ==> ConfiguredKey(env).Some?
                             && r.sent.value == BuildRequest(ConfiguredKey(env).value, args)
    ensures r.result.Ok? ==> Truthy(r.result.value)
  {
    match ConfiguredKey(env)
    case None => Resolution(None, Fail(ConfigError))
    case Some(key) =>
      var request := BuildRequest(key, args);
      var response := exchange(request);
      var result :=
        if response.Unreachable? then Fail(NetworkError)
        else if !IsOkStatus(response.status) then Fail(UpstreamRequestError)
        else match response.body
          case Malformed => Fail(ParseError)
          case Parsed(data) => DecodeCompletion(data, stringify);
      Resolution(Some(request), result)
  }

  /** Without a configured key the resolver fails with the configuration error
      and sends nothing, whatever the network would have answered. */
  lemma MissingKeySendsNothing(env: Option<Env>, args: ChatArgs,
                               exchange: UpstreamRequest -> UpstreamResponse, stringify: Json -> string)
    requires env.None? || env.value.deepseekApiKey.None? || env.value.deepseekApiKey.value == ""
    ensures ChatWithDeepSeek(env, args, exchange, stringify) == Resolution(None, Fail(ConfigError))
  {
  }

  /** With a key, exactly one request is sent, and its Authorization header is
      the bearer token for that key. */
  lemma ConfiguredKeySendsBearerRequest(env: Option<Env>, args: ChatArgs,
                                        exchange: UpstreamRequest -> UpstreamResponse, stringify: Json -> string)
    requires env.Some? && env.value.deepseekApiKey.Some? && env.value.deepseekApiKey.value != ""
    ensures var r := ChatWithDeepSeek(env, args, exchange, stringify);
            && r.sent.Some?
            && r.sent.value.headers["Authorization"] == "Bearer " + env.value.deepseekApiKey.value
            && r.result != Fail(ConfigError)
  {
  }

  /** A rejected `fetch` fails the resolver after the request has gone out. */
  lemma UnreachableUpstreamFails(env: Option<Env>, args: ChatArgs,
                                 exchange: UpstreamRequest -> UpstreamResponse, stringify: Json -> string)
    requires ConfiguredKey(env).Some?
    requires exchange(BuildRequest(ConfiguredKey(env).value, args)).Unreachable?
    ensures ChatWithDeepSeek(env, args, exchange, stringify)
         == Resolution(Some(BuildRequest(ConfiguredKey(env).value, args)), Fail(NetworkError))
  {
  }

  /** The message a caller sees for each failure of a resolver run: the fixed
      texts for the key and status gates, the prefix followed by the serialised
      payload for the shape gate, and the runtime's own text otherwise. */
  lemma ThrownMessages(env: Option<Env>, args: ChatArgs,
                       exchange: UpstreamRequest -> UpstreamResponse, stringify: Json -> string)
    ensures var r := ChatWithDeepSeek(env, args, exchange, stringify).result;
            r.Fail? ==>
              && (r.error.ConfigError? ==> r.error.Message() == Some(MissingKeyMessage))
              && (r.error.UpstreamRequestError? ==> r.error.Message() == Some(RequestFailedMessage))
              && (r.error.FormatError? ==>
                    && ConfiguredKey(env).Some?
                    && var response := exchange(BuildRequest(ConfiguredKey(env).value, args));
                    && response.UpstreamResponse? && response.body.Parsed?
                    && r.error.Message() == Some(FormatPrefix + stringify(response.body.value))
                    && r.error.Message().value[..|FormatPrefix|] == FormatPrefix)
              && (r.error.NetworkError? || r.error.ParseError? ==> r.error.Message().None?)
  {
    var r := ChatWithDeepSeek(env, args, exchange, stringify).result;
    if r.Fail? && r.error.FormatError? {
      var response := exchange(BuildRequest(ConfiguredKey(env).value, args));
      var m := FormatPrefix + stringify(response.body.value);
      assert m[..|FormatPrefix|] == FormatPrefix;
    }
  }

  /** A non-ok status fails the request whatever the body holds. */
  lemma NonOkStatusIgnoresBody(env: Option<Env>, args: ChatArgs,
                               exchange: UpstreamRequest -> UpstreamResponse, stringify: Json -> string)
    requires ConfiguredKey(env).Some?
    requires exchange(BuildRequest(ConfiguredKey(env).value, args)).UpstreamResponse?
    requires !IsOkStatus(exchange(BuildRequest(ConfiguredKey(env).value, args)).status)
    ensures ChatWithDeepSeek(env, args, exchange, stringify).result == Fail(UpstreamRequestError)
  {
  }

  /** After an ok status, a malformed body fails with the parse error, and a
      parsed one is decoded by the shape gate and content rule. */
  lemma OkStatusDecodesBody(env: Option<Env>, args: ChatArgs,
                            exchange: UpstreamRequest -> UpstreamResponse, stringify: Json -> string)
    requires ConfiguredKey(env).Some?
    requires exchange(BuildRequest(ConfiguredKey(env).value, args)).UpstreamResponse?
    requires IsOkStatus(exchange(BuildRequest(ConfiguredKey(env).value, args)).status)
    ensures var body := exchange(BuildRequest(ConfiguredKey(env).value, args)).body;
            var result := ChatWithDeepSeek(env, args, exchange, stringify).result;
            && (body.Malformed? ==> result == Fail(ParseError))
            && (body.Parsed? ==> result == DecodeCompletion(body.value, stringify))
  {
  }

  /** A truthy `content` is returned as it is; a missing or falsy one gives the
      fallback text as a success, not an error. */
  lemma ContentOrFallback(data: Json, stringify: Json -> string)
    requires WellShaped(data)
    ensures IsTruthy(Content(data)) ==> DecodeCompletion(data, stringify) == Ok(Content(data).value)
    ensures !IsTruthy(Content(data)) ==> DecodeCompletion(data, stringify) == Ok(Str("No response from DeepSeek"))
  {
  }

  /** Every successful result that is a string is a non-empty one. */
  lemma OkStringIsNonEmpty(env: Option<Env>, args: ChatArgs,
                           exchange: UpstreamRequest -> UpstreamResponse, stringify: Json -> string)
    ensures var r := ChatWithDeepSeek(env, args, exchange, stringify).result;
            r.Ok? && r.value.Str? ==> r.value.s != ""
  {
  }

  // A typed decoder of `{ choices: [{ message: { content: string } }] }`, as a
  // reference for what the duck-typed gates accept.

  function StrictContent(data: Json): Option<string> {
    if data.Obj? && "choices" in data.fields && data.fields["choices"].Arr?
       && |data.fields["choices"].items| > 0
    then
      var first := data.fields["choices"].items[0];
      if first.Obj? && "message" in first.fields && first.fields["message"].Obj?
         && "content" in first.fields["message"].fields
         && first.fields["message"].fields["content"].Str?
      then Some(first.fields["message"].fields["content"].s)
      else None
    else None
  }

  /** On a response of the documented shape the resolver agrees with the typed
      decoder: the content when it is non-empty, the fallback when it is empty. */
  lemma AgreesWithStrictDecoder(data: Json, stringify: Json -> string)
    requires StrictContent(data).Some?
    ensures var s := StrictContent(data).value;
            DecodeCompletion(data, stringify) == Ok(Str(if s != "" then s else Fallback))
  {
  }

  /** Everything the shape gate rejects, the typed decoder rejects as well. */
  lemma FormatErrorImpliesStrictRejects(data: Json, stringify: Json -> string)
    requires DecodeCompletion(data, stringify).Fail?
    ensures StrictContent(data).None?
  {
  }

  /** Where the duck-typed gates are more lenient than the typed decoder: a
      string `choices` and a choice without `message` both pass the shape gate
      and give the fallback, while an empty `choices` array is rejected. */
  lemma LenientShapes(stringify: Json -> string)
    ensures var d := Obj(map["choices" := Str("x")]);
            StrictContent(d).None? && DecodeCompletion(d, stringify) == Ok(Str(Fallback))
    ensures var d := Obj(map["choices" := Arr([Obj(map[])])]);
            StrictContent(d).None? && DecodeCompletion(d, stringify) == Ok(Str(Fallback))
    ensures var d := Obj(map["choices" := Arr([])]);
            DecodeCompletion(d, stringify) == Fail(FormatError(FormatPrefix + stringify(d)))
  {
  }

  /** The four upstream examples: `"hi"` is returned, `""` falls back, `{}` is a
      format error carrying its serialisation, and status 500 is a request error. */
  lemma UpstreamExamples(env: Env, args: ChatArgs, body: Body, stringify: Json -> string)
    requires env.deepseekApiKey.Some? && env.deepseekApiKey.value != ""
    ensures var hi := Obj(map["choices" := Arr([Obj(map["message" := Obj(map["content" := Str("hi")])])])]);
            DecodeCompletion(hi, stringify) == Ok(Str("hi"))
    ensures var empty := Obj(map["choices" := Arr([Obj(map["message" := Obj(map["content" := Str("")])])])]);
            DecodeCompletion(empty, stringify) == Ok(Str("No response from DeepSeek"))
    ensures DecodeCompletion(Obj(map[]), stringify) == Fail(FormatError(FormatPrefix + stringify(Obj(map[]))))
    ensures ChatWithDeepSeek(Some(env), args, _ => UpstreamResponse(500, body), stringify).result
         == Fail(UpstreamRequestError)
  {
  }

  // ---------------------------------------------------------------------------
  // The fetch handler

  /** What `fetch` reads of an incoming request. */
  datatype IncomingRequest = IncomingRequest(verb: string, origin: Option<string>, requestHeaders: Option<string>)

  /** A response built by the handler itself, or the request handed to the
      GraphQL server adapter. */
  datatype FetchOutcome =
    | Respond(status: int, body: Option<string>, headers: map<string, string>)
    | HandOff(request: IncomingRequest)

  /** `fetch`: a preflight is answered here with 204, no body and the CORS
      headers; every other method goes to the GraphQL pipeline untouched. */
  function Fetch(request: IncomingRequest, env: Env, allowList: seq<string>, parse: Cors.UrlParser): (r: FetchOutcome)
    ensures r.Respond? <==> request.verb == "OPTIONS"
    ensures r.Respond? ==> r.status == 204 && r.body.None?
    ensures r.Respond? ==> r.headers == Cors.GetCorsHeaders(request.origin, request.requestHeaders, env.envType, allowList, parse)
    ensures r.HandOff? ==> r.request == request
  {
    if request.verb == "OPTIONS" then
      Respond(204, None, Cors.GetCorsHeaders(request.origin, request.requestHeaders, env.envType, allowList, parse))
    else HandOff(request)
  }
}
