# vaija-worker gateway, modelled in Dafny

`vaija-worker` is an edge HTTP gateway. It sits between the VAIJÁ delivery app
and two external services: Supabase, its REST data store, and Twilio, which
sends WhatsApp messages. This project models the whole of
`vaija-worker/src/index.js` as pure Dafny functions, with every network and
platform result taken as an input:

- `Js` (js.dfy) covers the JavaScript rules the decisions depend on:
  - values as JSON decoding yields them, plus `undefined`;
  - truthiness, `||` and `??`, and property reads;
  - `${x}` of an absent binding, written "undefined";
  - `includes`, the decimal numeral of a status code, and `Object.fromEntries`;
  - Error objects and `String(err?.message || err)`.
- `Config` (config.dfy) holds the seven environment bindings, each a string or absent.
- `Upstream` (upstream.dfy) describes an outbound call (method, URL, headers, body before serialisation) and what its fetch settles to.
- `Responses` (responses.dfy) holds `json`, `withCors`, the JSON+CORS envelope, the pre-flight answer and the plain-text answer.
- `DataStore` (datastore.dfy) is `sb`: URL and header construction, and how a reply becomes a value or an error.
- `Messaging` (messaging.dfy) covers `makeBasicAuth`, checked against a reference "first complete credential pair" definition, and `sendWhatsApp`. The latter is split into its checks and call (`Prepare`) and its reply handling (`Result`).
- `Router` (router.dfy) is the default export's `fetch` handler. `Fetch` maps a request, the environment, the platform encoders, the clock and the fetch outcome to a response and the list of outbound calls issued. With that list, "no call on a 400" can be stated and proved.
- `RouterProperties` (router_properties.dfy) holds the all-inputs properties of the handler.

Details of the code the model keeps:

- `/criar-entrega` reads the clock twice (`index.js:62`), so `created_at` and `updated_at` are two separate readings. The model does not claim they are equal.
- The 404 message is "Rota não encontrada", and the 400 messages are the Portuguese strings in the code.
- A missing `SUPABASE_URL` or `SUPABASE_KEY` is not checked by `sb`. The call is still issued, to `undefined/rest/v1/...` and with the key written as "undefined". How that fetch fails is the fetch-outcome input.
- In `/aceitar-motorista`, `driver = {}` only replaces `undefined`. A body with a truthy `entregaId` and `"driver": null` therefore throws a TypeError at `driver.nome`. The result is a 500 and no patch (`RouterProperties.AceitarNullDriver`).

## Model

| member | source | states |
|---|---|---|
| `Js.OrReplacesWhatNullishKeeps` | vaija-worker/src/index.js:59-62 | logical OR replaces every falsy value, nullish coalescing (`??`) only `undefined`/`null`; `false`, `0` and `""` survive `??` but not OR |
| `Js.IsSetMeansNonEmpty` | vaija-worker/src/index.js:27-28 | `!env.X` treats an absent binding and the empty string alike, and nothing else as missing |
| `Js.ContainsInfix` | vaija-worker/src/index.js:17 | `includes` finds any string placed inside another |
| `Js.Decimal` | vaija-worker/src/index.js:16 | `${status}` is a non-empty string of digits with no leading zero |
| `Js.DecimalRoundTrip` | vaija-worker/src/index.js:32 | the numeral written for a status code reads back as that code, so error messages identify the status exactly |
| `Js.FromEntriesKeys` | vaija-worker/src/index.js:80 | `Object.fromEntries` has exactly the keys of its entries |
| `Js.FromEntriesLastWins` | vaija-worker/src/index.js:80 | the last entry with a key decides that key's value |
| `Js.ErrorText` | vaija-worker/src/index.js:89 | the 500 text is empty only when both the error's message and its name are empty |
| `Js.FailShownAsMessage` | vaija-worker/src/index.js:89 | an error thrown with a non-empty message is shown as exactly that message |
| `Responses.Json` | vaija-worker/src/index.js:1-2 | status defaults to 200; the JSON content type is set unless the caller's headers name one; the caller's headers all survive |
| `Responses.WithCors` | vaija-worker/src/index.js:4-10 | status and body unchanged; every original header keeps its value; each CORS header the original lacks gets its default |
| `Responses.Envelope` | vaija-worker/src/index.js:41 | a routed JSON answer has the given status, the JSON body, and exactly the content type plus the three CORS headers |
| `Responses.Preflight` | vaija-worker/src/index.js:37 | 204, no body, the three CORS headers and `access-control-max-age: 86400`, nothing else |
| `Responses.PlainText` | vaija-worker/src/index.js:77 | `new Response("ok")` is a 200 plain-text answer with no CORS header |
| `DataStore.Request` | vaija-worker/src/index.js:13-15 | URL is `SUPABASE_URL + "/rest/v1" + path`; `apikey`, `Authorization: Bearer <key>` and `Content-Type` are set, and caller headers override them; method and body come from `init` |
| `DataStore.Result` | vaija-worker/src/index.js:15-17 | a rejected fetch rethrows; non-ok throws the Supabase message; ok gives decoded JSON exactly when the content type includes `application/json`, raw text otherwise |
| `DataStore.Sb` | vaija-worker/src/index.js:12-18 | `sb` always issues exactly its one call, whatever its result |
| `DataStore.ResultFailsExactly` | vaija-worker/src/index.js:15-17 | `sb` fails if and only if the fetch fails, the status is not 2xx, or the body cannot be read in the form the content type selects |
| `DataStore.FailureNamesStatus` | vaija-worker/src/index.js:16 | a non-ok reply yields a non-empty error containing the status code; it contains the body text when that is readable and non-empty, and the status text otherwise |
| `Messaging.MakeBasicAuth` | vaija-worker/src/index.js:20-24 | a header is produced only from a complete pair and starts with `Basic `; with neither pair complete it throws "Credenciais Twilio ausentes" |
| `Messaging.FirstComplete` | vaija-worker/src/index.js:20-24 | reference choice: none exactly when no pair is complete, otherwise the first complete pair |
| `Messaging.MakeBasicAuthTakesFirstComplete` | vaija-worker/src/index.js:20-24 | `makeBasicAuth` uses the API-key pair if complete, else the SID/token pair, else throws "Credenciais Twilio ausentes" |
| `Messaging.HalfPairFallsThrough` | vaija-worker/src/index.js:21-22 | a half-present API-key pair is skipped in favour of a complete SID/token pair |
| `Messaging.Prepare` | vaija-worker/src/index.js:26-31 | checks SID, then sender, then credentials, each with its own error; otherwise one form POST to the account's Messages.json with From, To, Body in that order and the Basic header |
| `Messaging.PrepareChecksInOrder` | vaija-worker/src/index.js:27-31 | a call is prepared only when all three checks pass; a missing SID is reported before the sender, and the sender before the credentials |
| `Messaging.Result` | vaija-worker/src/index.js:31-32 | a rejected fetch or an unreadable body rethrows; non-ok throws "Twilio <status> → <text>"; ok returns the parsed JSON, or `{ok:true, raw:text}` when the text is not JSON |
| `Messaging.ResultByStatus` | vaija-worker/src/index.js:32 | with a readable body, the send succeeds if and only if the status is 2xx; a failure message contains the status code and the body text |
| `Messaging.SendWhatsApp` | vaija-worker/src/index.js:26-33 | at most one call; no call exactly when a check fails, and then the check's error is the result |
| `Router.Fetch` | vaija-worker/src/index.js:36-91 | at most one outbound call per request, none for `OPTIONS`, otherwise exactly the dispatch's calls |
| `Router.Dispatch` | vaija-worker/src/index.js:40-87 | at most one call; every answer that is not thrown and not the webhook liveness answer is a 200, 400 or 404 in the JSON+CORS envelope |
| `Router.WhatsAppTest` | vaija-worker/src/index.js:48-52 | without a truthy `to`: 400 and no call; otherwise at most one call, and unless it throws, a 200 envelope `{sent:true, result}` carrying what the send resolved to |
| `Router.EnvReport` | vaija-worker/src/index.js:43-46 | the report has exactly the `supabase` and `twilio` sections; the URL and the sender appear as given, or `null` when absent or empty; `hasKey`, `accountSidSet` and `usingAuthToken` say whether the key, SID and auth token are set, and `usingApiKey` whether both the API key and its secret are |
| `Router.TestMessageIsMsgOrDefault` | vaija-worker/src/index.js:49 | the message is `msg` unless absent or empty, then the sandbox text |
| `Router.CriarEntrega` | vaija-worker/src/index.js:54-66 | no call if and only if `origem` or `destino` is falsy; at most one call; answers are 200 or 400 envelopes |
| `Router.NewDelivery` | vaija-worker/src/index.js:57-63 | the record's status is "buscando", and its price is always present, `null` when not given |
| `Router.AceitarMotorista` | vaija-worker/src/index.js:68-74 | without a truthy `entregaId`: 400 and no call; at most one call; answers are 200 or 400 envelopes |
| `Router.DriverPatch` | vaija-worker/src/index.js:71 | building the patch throws, with the TypeError, exactly when `driver` is `null` |
| `Router.WebhookPayload` | vaija-worker/src/index.js:79-82 | reading the payload throws exactly when the form branch is taken and the form cannot be read, or the raw-text branch is taken and the text cannot be read |
| `Router.FormObject` | vaija-worker/src/index.js:80 | the object has exactly the keys of `Object.fromEntries` over the form entries, and every value is a string |
| `Router.Webhook` | vaija-worker/src/index.js:78-84 | no call; a 200 envelope unless reading the body throws |
| `RouterProperties.PreflightForAnyPath` | vaija-worker/src/index.js:37 | any `OPTIONS` request, whatever its path, gets 204, no body, exactly the three CORS headers plus max-age 86400, and makes no call |
| `RouterProperties.UnmatchedRouteIsNotFound` | vaija-worker/src/index.js:87 | an unmatched path, or a known path with the wrong method, gets 404 `{error:"Rota não encontrada"}` with no call |
| `RouterProperties.CorsEverywhereButWebhookGet` | vaija-worker/src/index.js:37-89 | for a request that is not a pre-flight: webhook GET is plain "ok" with no CORS header, and every other answer is in the JSON+CORS envelope |
| `RouterProperties.ErrorBoundary` | vaija-worker/src/index.js:88-89 | statuses are 200, 400, 404 or 500; 500 exactly when something was thrown, with `{error: <text>}` |
| `RouterProperties.DispatchRoutes` | vaija-worker/src/index.js:48-83 | GET `/whatsapp/test`, POST `/criar-entrega`, POST `/aceitar-motorista` and POST `/whatsapp/webhook` each reach their own handler |
| `RouterProperties.HealthAnswersAnyMethod` | vaija-worker/src/index.js:41 | `/` and `/healthz` answer `{ok:true, now}` for any method, with no call |
| `RouterProperties.EnvRevealsNoSecret` | vaija-worker/src/index.js:43-46 | two environments that agree on the URL, the sender and which bindings are set get identical `/env` answers, so no key, token or secret value can show; no call |
| `RouterProperties.WhatsAppTestNeedsTo` | vaija-worker/src/index.js:48-50 | GET `/whatsapp/test` with `to` absent or empty is a 400 with no send |
| `RouterProperties.WhatsAppTestSends` | vaija-worker/src/index.js:48-51 | the one send is a POST from the sender to `to`, carrying `msg` or else the sandbox text |
| `RouterProperties.WhatsAppTestMissingConfig` | vaija-worker/src/index.js:51 | a missing SID or sender is a 500 naming it, with no call |
| `RouterProperties.CriarEntregaNeedsEnds` | vaija-worker/src/index.js:54-56 | a falsy `origem` or `destino` is a 400 with no data-store call |
| `RouterProperties.CriarEntregaUnparseableBody` | vaija-worker/src/index.js:55 | an unparseable body counts as `{}` and is rejected with 400, no call |
| `RouterProperties.CriarEntregaCreatesOne` | vaija-worker/src/index.js:57-64 | otherwise exactly one POST to `<base>/rest/v1/entregas` with `Prefer: return=representation`, carrying the new record |
| `RouterProperties.NewDeliveryFields` | vaija-worker/src/index.js:57-63 | the record has status "buscando" and the two clock readings, and copies the coordinates |
| `RouterProperties.NewDeliveryDefaults` | vaija-worker/src/index.js:57-63 | address and customer fields become `null` when falsy; `preco` becomes `null` when absent or null and is otherwise kept as given, so 0, `false` and `""` survive |
| `RouterProperties.CriarEntregaAnswers` | vaija-worker/src/index.js:64-65 | on success: 200 `{ok:true, entrega}`, where `entrega` is the first row of an array result or the result itself; on adapter failure: 500 with its text |
| `RouterProperties.DataStoreFailureIs500` | vaija-worker/src/index.js:88-89 | a non-2xx data-store reply during creation gives 500 with an `error` string containing the upstream status code |
| `RouterProperties.CriarEntregaCall` | vaija-worker/src/index.js:57-64 | with both ends given, the handler's one call is the data-store request creating the new record |
| `RouterProperties.AceitarNeedsId` | vaija-worker/src/index.js:69-70 | a falsy `entregaId` (including a falsy or unparseable body) is a 400 with no patch |
| `RouterProperties.AceitarPatchesOne` | vaija-worker/src/index.js:71-73 | exactly one PATCH to `<base>/rest/v1/entregas?id=eq.<encoded id>` carrying the driver patch; the answer is `{ok:true}` whatever the patch returns, unless it fails |
| `RouterProperties.AceitarFailureIs500` | vaija-worker/src/index.js:88-89 | a non-2xx reply to the patch gives a 500 whose error contains the upstream status code |
| `RouterProperties.AceitarCall` | vaija-worker/src/index.js:68-73 | with a truthy id, a non-null driver and an encodable id, the handler's one call is the patch of that delivery, answered `{ok:true}` unless it fails |
| `RouterProperties.DriverPatchFields` | vaija-worker/src/index.js:71 | the patch has exactly status "aceita", the five `driver_*` fields (each `null` when falsy) and `updated_at` |
| `RouterProperties.AceitarNullDriver` | vaija-worker/src/index.js:69-71 | `driver: null` with a truthy id throws on `driver.nome`: a 500 with the TypeError text, no patch |
| `RouterProperties.WebhookPayloadOrder` | vaija-worker/src/index.js:79-82 | the payload is form fields if the content type includes the form type, else JSON (or `{}`), else `{raw: text}` |
| `RouterProperties.FormObjectFields` | vaija-worker/src/index.js:80 | every form field becomes a string property holding its last value |
| `RouterProperties.WebhookEchoesForm` | vaija-worker/src/index.js:78-83 | a form-encoded webhook post is answered `{received:true, payload}` with the form as `payload`, and no call |
| `RouterProperties.FormObjectExample` | vaija-worker/src/index.js:80 | the form `a=1&b=2` becomes `{a:"1", b:"2"}` |
| `RouterProperties.WebhookFormExample` | vaija-worker/src/index.js:78-83 | a form post `a=1&b=2` is answered `{received:true, payload:{a:"1", b:"2"}}` with no call |

## Left out

- Network and platform I/O are not executed: `fetch`, the `Request`/`Response` objects, `request.json()`/`formData()`/`text()`, `r.text()`/`r.json()` and `async`/`await`. Each is replaced by an input giving how it settles: `Outcome` values on `Request` and `Reply`, and the fetch outcome passed to `Router.Fetch`.
- Library encoders are not modelled. `JSON.stringify` is not modelled: bodies are kept as values. `JSON.parse` and `formData` decoding appear only as pre-decoded inputs, and `URLSearchParams` serialisation is left out too (form fields are kept as ordered pairs). `btoa` and `encodeURIComponent` are function-valued inputs that may throw. The `URL` parsing of `request.url` is pre-decoded into the path and a map from each query name to its first value.
- The clock is not modelled: `new Date().toISOString()` readings are the inputs `Clock.first` and `Clock.second`.
- HTTP header-name case-insensitivity and the combining of duplicate names by `Headers` are left out. Headers are maps with keys exactly as written, and only the literal spread order of the object literals is modelled. The CORS protocol itself is out of scope.
- Number semantics are left out: numbers are reals, with no NaN, infinities or `-0`. JSON decoding can yield the infinities (`1e400`) and `-0`. The gateway only tests numbers for truthiness, and there the infinities behave like any non-zero number and `-0` like 0. Object key order is not kept, because objects are maps.
- Strings are sequences of Unicode scalar values, not UTF-16 code units. A lone surrogate, which a JSON `\uD800` escape can produce, cannot be written. Such an `entregaId` is exactly the input on which `encodeURIComponent` throws (`index.js:72`). The model reaches that 500 only because `encodeUriComponent` is an unconstrained input that may fail.
- Property reads model own properties of objects only: no `length` of strings or arrays, and no prototype members. None of the keys the gateway reads is such a member.
- Environment bindings are strings or absent; other binding kinds are not modelled.
- A failure of `new URL(request.url)`, which sits outside the `try`, is left out: the platform always supplies a valid URL.
- `formData()` on a multipart body, whose values can be files, is left out: the form branch is taken for URL-encoded bodies, whose values are strings.
- Response bodies are values. The reuse of the original body stream by `withCors` is not modelled.
