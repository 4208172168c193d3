# DeepSeek chat worker: CORS and resolver model

This project models the decision logic of a stateless edge worker that forwards
GraphQL chat requests to the DeepSeek completion API. There are two parts:

- **CORS headers** (`Cors`, in `cors.dfy`). This is `isLocalhostOrigin` and
  `getCorsHeaders` from `src/util/getCorsHeaders.ts`. The output is the fixed
  seven-entry header map of a CORS response (Fetch Standard, section 3.2.3,
  "HTTP responses"). Only `Access-Control-Allow-Origin` and
  `Access-Control-Allow-Headers` vary. In `development` mode a localhost origin
  is echoed. In every other mode an origin is echoed only if it is in the
  allow-list.
- **Chat resolver** (`ChatWorker`, in `chat_worker.dfy`). This is
  `chatWithDeepSeek`, `hello` and the `OPTIONS` branch of `fetch` from
  `src/index.ts`. The resolver is a total function from the environment, the
  arguments, the network exchange and the serializer to a `Resolution`. A
  `Resolution` holds the request that was sent, if any, and the result: `Ok` or
  one of `ConfigError`, `NetworkError`, `UpstreamRequestError`, `ParseError`
  and `FormatError(message)`. The gates run in the source's order: API key,
  the network call (which may reject), HTTP status, body parse, shape check,
  then the content or the fallback text.

Supporting modules:

- `Wrappers` holds `Option`.
- `Environment` holds the `Env` bindings (`DEEPSEEK_API_KEY`, `ENV_TYPE`).
- `JsValues` holds the parsed JSON value. It also gives the JavaScript
  semantics that the duck-typed checks rely on: truthiness, property reads with
  optional chaining, and `v[0]`.

The following are parameters, so the model stays pure:

- The network round trip is `exchange: UpstreamRequest -> UpstreamResponse`.
  It is consulted only after the key gate, so "no request on a missing key" can
  be stated. Its answer is a response or `Unreachable`, which stands for a
  rejected `fetch`.
- WHATWG URL parsing is `parse: string -> Option<ParsedUrl>`. `None` means
  `new URL` threw.
- `JSON.stringify` is `stringify: Json -> string`.
- `AllowedProdOrigins` is `allowList`.

Two choices follow the code where a cleaner reading was possible:

- The code checks the upstream response with duck-typed truthiness tests. It
  does not decode it into a typed shape, and the model does the same.
  `StrictContent` is such a typed decode, kept as a reference. Lemmas show
  where the two agree and where the code is more lenient.
- The schema declares the result as `String!`, but the resolver returns
  whatever truthy `content` it finds, so `Ok` carries a JSON value. What is
  proved is that the value is truthy, and that a string result is non-empty.

## Model

| member | source | states |
|---|---|---|
| Cors.AllDigits | src/util/getCorsHeaders.ts:9 | `/^[0-9]*$/` holds exactly when every character is a decimal digit (empty string included) |
| Cors.Includes | src/util/getCorsHeaders.ts:25 | the allow-list scan is true exactly when the origin is an element of the list |
| Cors.IsLocalhostOrigin | src/util/getCorsHeaders.ts:4-14 | false when the URL does not parse; otherwise true exactly when the hostname is `localhost` or `127.0.0.1` and the port is all digits or empty |
| Cors.AllowOrigin | src/util/getCorsHeaders.ts:21-27 | the allowed origin is always `""` or exactly the request's origin |
| Cors.GetCorsHeaders | src/util/getCorsHeaders.ts:15-38 | the map has exactly the seven CORS and cache header names; Allow-Origin is `""` or the origin verbatim |
| Cors.DevelopmentEchoesLocalhostOnly | src/util/getCorsHeaders.ts:19-24 | in development mode a non-empty localhost origin is echoed verbatim, and any non-empty Allow-Origin is a localhost origin |
| Cors.ProductionEchoesListedOnly | src/util/getCorsHeaders.ts:25-26 | outside development mode a non-empty listed origin is echoed, and any non-empty Allow-Origin is in the allow-list |
| Cors.AbsentOriginDenied | src/util/getCorsHeaders.ts:21-27 | a missing or empty `Origin` always gives Allow-Origin `""` |
| Cors.DevelopmentIgnoresAllowList | src/util/getCorsHeaders.ts:23 | in development mode the headers do not depend on the allow-list |
| Cors.ProductionIgnoresUrlParser | src/util/getCorsHeaders.ts:25 | outside development mode the headers do not depend on URL parsing, so the localhost rule never applies |
| Cors.LocalhostDeniedInProductionUnlessListed | src/util/getCorsHeaders.ts:23-27 | outside development mode a localhost origin that is not listed is denied |
| Cors.AllowHeadersEchoOrDefault | src/util/getCorsHeaders.ts:32 | Allow-Headers is the requested-headers value when non-empty (read at line 17), else `Content-Type, Authorization` |
| Cors.FixedEntriesAreConstant | src/util/getCorsHeaders.ts:29-37 | Allow-Methods, Max-Age, Cache-Control, Pragma and Expires are the same literals for every input |
| Cors.ReferenceDeploymentExamples | src/util/getCorsHeaders.ts:25-26 | with the list `http://localhost:3000`, `https://ziyou.uk` in production mode, `https://ziyou.uk` is echoed; `https://evil.example` and `http://localhost:5173` get `""` |
| ChatWorker.Hello | src/index.ts:20 | `hello` is the fixed greeting |
| ChatWorker.ConfiguredKey | src/index.ts:28 | a key is available exactly when env is present and its API key is set and non-empty |
| ChatWorker.BuildRequest | src/index.ts:33-45 | POST to the fixed DeepSeek URL, with exactly the Content-Type and Authorization headers and a body with exactly the four argument fields |
| ChatWorker.MessagesRoundTrip | src/index.ts:41 | the serialized message list reads back to the same messages in the same order |
| ChatWorker.BuildRequestRoundTrip | src/index.ts:35-44 | model, messages, temperature and max_tokens read back unchanged from the body, and the key reads back from `Bearer <key>` |
| ChatWorker.DecodeCompletion | src/index.ts:50-53 | fails exactly when the shape gate rejects the body, and then only with the format error of prefix plus the serialized payload; every success value is truthy |
| ChatWorker.ChatWithDeepSeek | src/index.ts:23-54 | no request is sent exactly when the result is the configuration error; a sent request is the one built from the configured key; success values are truthy |
| ChatWorker.ChatError.Message | src/index.ts:28-51 | the thrown texts: the fixed "not configured" text (line 29) for `ConfigError`, the fixed "request failed" text (line 47) for `UpstreamRequestError`, the format message itself (line 51) for `FormatError`, none in the model for a rejected `fetch` or a parse error |
| ChatWorker.ThrownMessages | src/index.ts:28-51 | for every failed resolver run, the message is the fixed key or status text, or the format prefix followed by the serialization of the body the upstream returned; rejected `fetch` and parse errors carry no modelled text |
| ChatWorker.UnreachableUpstreamFails | src/index.ts:33-45 | a rejected `fetch` fails the resolver with `NetworkError`, after the built request has been sent |
| ChatWorker.MissingKeySendsNothing | src/index.ts:28-30 | a missing env, or a missing or empty key, gives `ConfigError` and no request, whatever the network would answer |
| ChatWorker.ConfiguredKeySendsBearerRequest | src/index.ts:28-38 | with a key, a request is sent with Authorization `Bearer ` + key, and the result is not the configuration error |
| ChatWorker.NonOkStatusIgnoresBody | src/index.ts:46-48 | when a response arrives, a status outside 200-299 gives `UpstreamRequestError`, whatever the body is |
| ChatWorker.OkStatusDecodesBody | src/index.ts:46-53 | after an ok status a malformed body gives `ParseError`, and a parsed body goes through the shape gate and content rule |
| ChatWorker.ContentOrFallback | src/index.ts:53 | a truthy `choices[0].message.content` is returned as is; otherwise the result is the success value `No response from DeepSeek` |
| ChatWorker.OkStringIsNonEmpty | src/index.ts:53 | every successful string result is non-empty |
| ChatWorker.AgreesWithStrictDecoder | src/index.ts:50-53 | on a body of the documented shape the result is the content, or the fallback when the content is empty |
| ChatWorker.FormatErrorImpliesStrictRejects | src/index.ts:50-51 | every body the shape gate rejects is also rejected by the typed decoder |
| ChatWorker.LenientShapes | src/index.ts:50-53 | a string `choices` and a choice without `message` pass the gate and give the fallback; an empty `choices` array is a format error |
| ChatWorker.UpstreamExamples | src/index.ts:46-53 | content `hi` gives `hi`; empty content gives the fallback; `{}` gives a format error carrying its serialization; status 500 gives `UpstreamRequestError` |
| ChatWorker.Fetch | src/index.ts:102-118 | `OPTIONS` and only `OPTIONS` is answered directly, with 204, no body and the CORS headers; every other request goes to GraphQL unchanged |

## Left out

- The `fetch` call to DeepSeek and `response.json()` are network I/O. The response status and the parsed body (or a parse failure) are inputs, through the `exchange` parameter.
- WHATWG URL parsing inside `new URL(origin)` is library code. The model takes it as the `parse` parameter.
- The exact text of `JSON.stringify` is not modelled; `stringify` is a parameter. Key order in serialized objects is not modelled either, because JSON objects are maps here.
- `ParseError` and `NetworkError` have no message. The source propagates the runtime's own `SyntaxError` or `TypeError` text, which the model does not have. Which network failures cause a rejected `fetch` is left to whoever supplies `exchange`.
- GraphQL schema wiring, the `typeDefs` string and its argument defaults are not modelled. Yoga's own `cors` option, `createServerAdapter` and `handleRequest` are left out too. The resolver receives arguments after defaults have been applied, and `None` stands for an explicit `null`.
- The GraphQL `String!` coercion of the resolver's return value is left out. A truthy non-string `content` is returned as a JSON value.
- JavaScript numbers are modelled as reals. `temperature` is forwarded as an opaque value, with no arithmetic.
- Strings are sequences of Unicode scalar values, not UTF-16 code units. This only affects `choices[0]` on a string `choices`, and that value is truthy either way.
- `src/env` and `src/config` are not part of this model. The environment mode and `AllowedProdOrigins` are parameters.
- Concurrency between requests on the edge platform is left out. There is no shared state to model.
