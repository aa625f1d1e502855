/** The worker's `fetch` handler: pre-flight short-circuit, dispatch on the
    path (and for some routes the method), validation, payload construction,
    the adapters, and a single error boundary that turns anything thrown into
    a CORS-wrapped 500. Every awaited result is an input: the request's body
    decodings, the clock, the platform's encoders and what the one outbound
    fetch (if any) settles to. */
module Router {
  import opened Js
  import opened Config
  import opened Upstream
  import opened Responses
  import DataStore
  import Messaging

  /** An inbound request as the handler sees it. `query` holds, for each
      search parameter, its first value (`searchParams.get`); `contentType` is
      the content-type header, "" when absent. The three body fields are what
      `request.json()`, `request.formData()` (its entries in order) and
      `request.text()` settle to; a route reads at most one of them. */
  datatype Request = Request(
    verb: string,
    pathname: string,
    query: map<string, string>,
    contentType: string,
    json: Outcome<JsVal>,
    form: Outcome<seq<(string, string)>>,
    text: Outcome<string>)

  /** Successive readings of `new Date().toISOString()`. */
  datatype Clock = Clock(first: string, second: string)

  /** Library functions whose workings are not modelled: `btoa` and
      `encodeURIComponent` (of the value's string form); both may throw. */
  datatype Platform = Platform(
    btoa: string -> Outcome<string>,
    encodeUriComponent: JsVal -> Outcome<string>)

  /** The response, and the outbound calls issued while producing it. */
  datatype Served = Served(response: Response, calls: seq<Call>)

  const NotFound := "Rota não encontrada"
  const ToRequired := "to obrigatório: whatsapp:+55SEUNUMERO"
  const OrigemDestinoRequired := "origem/destino obrigatórios"
  const EntregaIdRequired := "entregaId obrigatório"
  const SandboxMessage := "VAIJÁ: teste via Twilio Sandbox ✅"
  const Representation: map<string, string> := map["Prefer" := "return=representation"]

  /** The message `driver.nome` throws with when `driver` is `null`. */
  const NullDriver := JsError("TypeError", "Cannot read properties of null (reading 'nome')")

  function ErrorBody(message: string): JsVal {
    Obj(map["error" := Str(message)])
  }

  /** A handler that answers without calling out. */
  function Answer(res: Response): Exchange<Response> {
    Exchange([], Ok(res))
  }

  /** The handler's result: the pre-flight answer for `OPTIONS`, otherwise the
      routed answer, with anything thrown turned into a 500. */
  function Fetch(req: Request, env: Env, platform: Platform, clock: Clock, fetched: Outcome<Reply>): (s: Served)
    ensures |s.calls| <= 1
    ensures req.verb == "OPTIONS" ==> s.calls == []
    ensures req.verb != "OPTIONS" ==> s.calls == Dispatch(req, env, platform, clock, fetched).calls
  {
    if req.verb == "OPTIONS" then Served(Preflight(), [])
    else
      var x := Dispatch(req, env, platform, clock, fetched);
      match x.outcome
      case Ok(res) => Served(res, x.calls)
      case Err(e) => Served(Envelope(ErrorBody(ErrorText(e)), 500), x.calls)
  }

  /** The body of the `try`: route on the path, first match wins. */
  function Dispatch(req: Request, env: Env, platform: Platform, clock: Clock, fetched: Outcome<Reply>): (x: Exchange<Response>)
    ensures |x.calls| <= 1
    ensures x.outcome.Ok? && (req.pathname != "/whatsapp/webhook" || req.verb != "GET") ==>
      InEnvelope(x.outcome.value) && x.outcome.value.status in {200, 400, 404}
  {
    var path := req.pathname;
    if path == "/" || path == "/healthz" then
      Answer(Envelope(Obj(map["ok" := Bool(true), "now" := Str(clock.first)])))
    else if path == "/env" then
      Answer(Envelope(EnvReport(env)))
    else if path == "/whatsapp/test" && req.verb == "GET" then
      WhatsAppTest(req, env, platform, fetched)
    else if path == "/criar-entrega" && req.verb == "POST" then
      CriarEntrega(req, env, clock, fetched)
    else if path == "/aceitar-motorista" && req.verb == "POST" then
      AceitarMotorista(req, env, platform, clock, fetched)
    else if path == "/whatsapp/webhook" && req.verb == "GET" then
      Answer(PlainText("ok"))
    else if path == "/whatsapp/webhook" && req.verb == "POST" then
      Webhook(req)
    else
      Answer(Envelope(ErrorBody(NotFound), 404))
  }

  /** `/env`: the base URL and the sender as given, everything else only as
      whether it is set. */
  function EnvReport(env: Env): (r: JsVal)
    ensures r.Obj? && r.fields.Keys == {"supabase", "twilio"}
    ensures Get(Get(r, "supabase"), "url") == (if IsSet(env.supabaseUrl) then Str(env.supabaseUrl.value) else Null)
    ensures Get(Get(r, "twilio"), "from") == (if IsSet(env.twilioWhatsappFrom) then Str(env.twilioWhatsappFrom.value) else Null)
    ensures Get(Get(r, "supabase"), "hasKey") == Bool(IsSet(env.supabaseKey))
    ensures Get(Get(r, "twilio"), "accountSidSet") == Bool(IsSet(env.twilioAccountSid))
    ensures Get(Get(r, "twilio"), "usingApiKey") == Bool(IsSet(env.twilioApiKey) && IsSet(env.twilioApiSecret))
    ensures Get(Get(r, "twilio"), "usingAuthToken") == Bool(IsSet(env.twilioAuthToken))
  {
    Obj(map[
      "supabase" := Obj(map[
        "url" := Or(OfBinding(env.supabaseUrl), Null),
        "hasKey" := Bool(IsSet(env.supabaseKey))]),
      "twilio" := Obj(map[
        "accountSidSet" := Bool(IsSet(env.twilioAccountSid)),
        "from" := Or(OfBinding(env.twilioWhatsappFrom), Null),
        "usingApiKey" := Bool(IsSet(env.twilioApiKey) && IsSet(env.twilioApiSecret)),
        "usingAuthToken" := Bool(IsSet(env.twilioAuthToken))])])
  }

  /** `searchParams.get(name)`: the first value, or `null`. */
  function SearchParam(query: map<string, string>, name: string): JsVal {
    if name in query then Str(query[name]) else Null
  }

  /** The message `/whatsapp/test` sends: `msg`, unless absent or empty. */
  function TestMessage(query: map<string, string>): string {
    if "msg" in query && query["msg"] != "" then query["msg"] else SandboxMessage
  }

  lemma TestMessageIsMsgOrDefault(query: map<string, string>)
    ensures Or(SearchParam(query, "msg"), Str(SandboxMessage)) == Str(TestMessage(query))
  {
  }

  /** `GET /whatsapp/test`. */
  function WhatsAppTest(req: Request, env: Env, platform: Platform, fetched: Outcome<Reply>): (x: Exchange<Response>)
    ensures |x.calls| <= 1
    ensures x.outcome.Ok? ==> InEnvelope(x.outcome.value) && x.outcome.value.status in {200, 400}
    ensures !Truthy(SearchParam(req.query, "to")) ==> x == Answer(Envelope(ErrorBody(ToRequired), 400))
    ensures Truthy(SearchParam(req.query, "to")) && x.outcome.Ok? ==>
      && Messaging.Result(fetched).Ok?
      && x.outcome.value.status == 200
      && x.outcome.value.body == JsonBody(Obj(map["sent" := Bool(true), "result" := Messaging.Result(fetched).value]))
  {
    var to := SearchParam(req.query, "to");
    if !Truthy(to) then
      Answer(Envelope(ErrorBody(ToRequired), 400))
    else
      var x := Messaging.SendWhatsApp(env, to.s, TestMessage(req.query), platform.btoa, fetched);
      match x.outcome
      case Err(e) => Exchange(x.calls, Err(e))
      case Ok(result) => Exchange(x.calls, Ok(Envelope(Obj(map["sent" := Bool(true), "result" := result]))))
  }

  /** `await request.json().catch(() => ({}))` */
  function BodyOrEmpty(req: Request): JsVal {
    match req.json
    case Ok(v) => v
    case Err(_) => Obj(map[])
  }

  /** The delivery record `/criar-entrega` asks the data store to create.
      The two timestamps are two separate clock readings. */
  function NewDelivery(body: JsVal, clock: Clock): (r: JsVal)
    ensures r.Obj? && Get(r, "status") == Str("buscando")
    ensures Get(r, "preco") != Undefined
  {
    var origem := Get(body, "origem");
    var destino := Get(body, "destino");
    var cliente := Get(body, "cliente");
    Obj(map[
      "status" := Str("buscando"),
      "cliente_nome" := Or(Get(cliente, "nome"), Null),
      "cliente_fone" := Or(Get(cliente, "fone"), Null),
      "origem_lat" := Get(origem, "lat"),
      "origem_lng" := Get(origem, "lng"),
      "origem_endereco" := Or(Get(origem, "endereco"), Null),
      "destino_lat" := Get(destino, "lat"),
      "destino_lng" := Get(destino, "lng"),
      "destino_endereco" := Or(Get(destino, "endereco"), Null),
      "preco" := Nullish(Get(body, "preco"), Null),
      "created_at" := Str(clock.first),
      "updated_at" := Str(clock.second)])
  }

  /** `Array.isArray(rows) ? rows[0] : rows` */
  function FirstRow(rows: JsVal): JsVal {
    match rows
    case Arr(items) => if |items| > 0 then items[0] else Undefined
    case _ => rows
  }

  /** `POST /criar-entrega`. */
  function CriarEntrega(req: Request, env: Env, clock: Clock, fetched: Outcome<Reply>): (x: Exchange<Response>)
    ensures |x.calls| <= 1
    ensures x.outcome.Ok? ==> InEnvelope(x.outcome.value) && x.outcome.value.status in {200, 400}
    ensures x.calls == [] <==> !Truthy(Get(BodyOrEmpty(req), "origem")) || !Truthy(Get(BodyOrEmpty(req), "destino"))
  {
    var body := BodyOrEmpty(req);
    if !Truthy(Get(body, "origem")) || !Truthy(Get(body, "destino")) then
      Answer(Envelope(ErrorBody(OrigemDestinoRequired), 400))
    else
      var x := DataStore.Sb(env, "/entregas", DataStore.Init("POST", NewDelivery(body, clock), Representation), fetched);
      match x.outcome
      case Err(e) => Exchange(x.calls, Err(e))
      case Ok(rows) => Exchange(x.calls, Ok(Envelope(Obj(map["ok" := Bool(true), "entrega" := FirstRow(rows)]))))
  }

  /** `driver` in `const { entregaId, driver = {} } = body || {}`. */
  function DriverOf(body: JsVal): JsVal {
    var d := Get(Or(body, Obj(map[])), "driver");
    if d == Undefined then Obj(map[]) else d
  }

  /** The update `/aceitar-motorista` sends. Reading `driver.nome` throws when
      `driver` is `null`; any other value reads as an object or as having no
      such properties. */
  function DriverPatch(driver: JsVal, clock: Clock): (r: Outcome<JsVal>)
    ensures r.Err? <==> driver == Null
    ensures r.Err? ==> r.error == NullDriver
  {
    if driver == Null then Err(NullDriver)
    else Ok(Obj(map[
      "status" := Str("aceita"),
      "driver_nome" := Or(Get(driver, "nome"), Null),
      "driver_placa" := Or(Get(driver, "placa"), Null),
      "driver_veiculo" := Or(Get(driver, "veiculo"), Null),
      "driver_fone" := Or(Get(driver, "fone"), Null),
      "driver_avatar" := Or(Get(driver, "avatar"), Null),
      "updated_at" := Str(clock.first)]))
  }

  /** `POST /aceitar-motorista`. */
  function AceitarMotorista(req: Request, env: Env, platform: Platform, clock: Clock, fetched: Outcome<Reply>): (x: Exchange<Response>)
    ensures |x.calls| <= 1
    ensures x.outcome.Ok? ==> InEnvelope(x.outcome.value) && x.outcome.value.status in {200, 400}
    ensures !Truthy(Get(Or(BodyOrEmpty(req), Obj(map[])), "entregaId")) ==> x == Answer(Envelope(ErrorBody(EntregaIdRequired), 400))
  {
    var body := Or(BodyOrEmpty(req), Obj(map[]));
    var id := Get(body, "entregaId");
    if !Truthy(id) then
      Answer(Envelope(ErrorBody(EntregaIdRequired), 400))
    else
      match DriverPatch(DriverOf(body), clock)
      case Err(e) => Exchange([], Err(e))
      case Ok(patch) =>
        match platform.encodeUriComponent(id)
        case Err(e) => Exchange([], Err(e))
        case Ok(encoded) =>
          var x := DataStore.Sb(env, "/entregas?id=eq." + encoded, DataStore.Init("PATCH", patch, Representation), fetched);
          match x.outcome
          case Err(e) => Exchange(x.calls, Err(e))
          case Ok(_) => Exchange(x.calls, Ok(Envelope(Obj(map["ok" := Bool(true)]))))
  }

  /** The webhook's payload: form fields, else the JSON body (`{}` if it does
      not parse), else `{ raw: <text> }`, chosen by what the content type
      includes, in that order. */
  function WebhookPayload(req: Request): (r: Outcome<JsVal>)
    ensures r.Err? <==>
      || (Contains(req.contentType, "application/x-www-form-urlencoded") && req.form.Err?)
      || (!Contains(req.contentType, "application/x-www-form-urlencoded")
          && !Contains(req.contentType, "application/json") && req.text.Err?)
  {
    if Contains(req.contentType, "application/x-www-form-urlencoded") then
      match req.form
      case Ok(entries) => Ok(FormObject(entries))
      case Err(e) => Err(e)
    else if Contains(req.contentType, "application/json") then
      Ok(BodyOrEmpty(req))
    else
      match req.text
      case Ok(t) => Ok(Obj(map["raw" := Str(t)]))
      case Err(e) => Err(e)
  }

  /** `Object.fromEntries([...formData.entries()])` */
  function FormObject(entries: seq<(string, string)>): (r: JsVal)
    ensures r.Obj? && r.fields.Keys == FromEntries(entries).Keys
    ensures forall k :: k in r.fields ==> r.fields[k].Str?
  {
    var m := FromEntries(entries);
    Obj(map k | k in m :: Str(m[k]))
  }

  /** `POST /whatsapp/webhook`. */
  function Webhook(req: Request): (x: Exchange<Response>)
    ensures x.calls == []
    ensures x.outcome.Ok? ==> InEnvelope(x.outcome.value) && x.outcome.value.status == 200
  {
    match WebhookPayload(req)
    case Err(e) => Exchange([], Err(e))
    case Ok(payload) => Answer(Envelope(Obj(map["received" := Bool(true), "payload" := payload])))
  }
}
