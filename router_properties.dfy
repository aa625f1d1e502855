/** What the handler promises, for all requests, configurations, clock
    readings, platform encoders and upstream outcomes. */
module RouterProperties {
  import opened Js
  import opened Config
  import opened Upstream
  import opened Responses
  import opened Router
  import DataStore
  import Messaging

  /** Any `OPTIONS` request, whatever its path, is answered 204 with no body,
      the three CORS headers and a one-day max-age, and calls nothing. */
  lemma PreflightForAnyPath(req: Request, env: Env, platform: Platform, clock: Clock, fetched: Outcome<Reply>)
    requires req.verb == "OPTIONS"
    ensures var s := Fetch(req, env, platform, clock, fetched);
      && s.calls == []
      && s.response.status == 204
      && s.response.body == NoBody
      && s.response.headers == map[
        "access-control-allow-origin" := "*",
        "access-control-allow-methods" := "GET,POST,OPTIONS",
        "access-control-allow-headers" := "content-type,authorization",
        "access-control-max-age" := "86400"]
  {
  }

  /** A request is handled by one of the named routes. */
  predicate Routed(req: Request) {
    || req.pathname in {"/", "/healthz", "/env"}
    || (req.pathname == "/whatsapp/test" && req.verb == "GET")
    || (req.pathname in {"/criar-entrega", "/aceitar-motorista"} && req.verb == "POST")
    || (req.pathname == "/whatsapp/webhook" && req.verb in {"GET", "POST"})
  }

  /** Every other request that is not a pre-flight gets 404 and calls nothing. */
  lemma UnmatchedRouteIsNotFound(req: Request, env: Env, platform: Platform, clock: Clock, fetched: Outcome<Reply>)
    requires req.verb != "OPTIONS" && !Routed(req)
    ensures Fetch(req, env, platform, clock, fetched) == Served(Envelope(ErrorBody(NotFound), 404), [])
  {
  }

  /** Every answer to a request that is not a pre-flight, except the
      webhook's liveness answer, carries the three CORS headers with their
      default values; that answer carries none. */
  lemma CorsEverywhereButWebhookGet(req: Request, env: Env, platform: Platform, clock: Clock, fetched: Outcome<Reply>)
    requires req.verb != "OPTIONS"
    ensures var r := Fetch(req, env, platform, clock, fetched).response;
      if req.pathname == "/whatsapp/webhook" && req.verb == "GET" then
        r == PlainText("ok") && forall h :: h in CorsHeaders ==> h !in r.headers
      else
        InEnvelope(r)
  {
  }

  /** Past the pre-flight, the handler never lets an error escape: it answers
      200, 400, 404 or 500, and 500 exactly when something was thrown, with
      its text. */
  lemma ErrorBoundary(req: Request, env: Env, platform: Platform, clock: Clock, fetched: Outcome<Reply>)
    requires req.verb != "OPTIONS"
    ensures var s := Fetch(req, env, platform, clock, fetched);
      var x := Dispatch(req, env, platform, clock, fetched);
      && s.calls == x.calls
      && s.response.status in {200, 400, 404, 500}
      && (s.response.status == 500 <==> x.outcome.Err?)
      && (x.outcome.Err? ==> s.response.body == JsonBody(ErrorBody(ErrorText(x.outcome.error))))
  {
  }

  /** Each path, with the method it requires, is handled by its handler. */
  lemma DispatchRoutes(req: Request, env: Env, platform: Platform, clock: Clock, fetched: Outcome<Reply>)
    ensures req.pathname == "/whatsapp/test" && req.verb == "GET" ==>
      Dispatch(req, env, platform, clock, fetched) == WhatsAppTest(req, env, platform, fetched)
    ensures req.pathname == "/criar-entrega" && req.verb == "POST" ==>
      Dispatch(req, env, platform, clock, fetched) == CriarEntrega(req, env, clock, fetched)
    ensures req.pathname == "/aceitar-motorista" && req.verb == "POST" ==>
      Dispatch(req, env, platform, clock, fetched) == AceitarMotorista(req, env, platform, clock, fetched)
    ensures req.pathname == "/whatsapp/webhook" && req.verb == "POST" ==>
      Dispatch(req, env, platform, clock, fetched) == Webhook(req)
  {
  }

  /** `/` and `/healthz` answer with the time, for any method. */
  lemma HealthAnswersAnyMethod(req: Request, env: Env, platform: Platform, clock: Clock, fetched: Outcome<Reply>)
    requires req.verb != "OPTIONS" && req.pathname in {"/", "/healthz"}
    ensures Fetch(req, env, platform, clock, fetched) ==
      Served(Envelope(Obj(map["ok" := Bool(true), "now" := Str(clock.first)])), [])
  {
  }

  /** Two configurations that agree on the base URL, the sender and which
      bindings are set get the same `/env` answer: no secret's value can
      influence it. */
  predicate SameDisclosure(e1: Env, e2: Env) {
    && e1.supabaseUrl == e2.supabaseUrl
    && e1.twilioWhatsappFrom == e2.twilioWhatsappFrom
    && IsSet(e1.supabaseKey) == IsSet(e2.supabaseKey)
    && IsSet(e1.twilioAccountSid) == IsSet(e2.twilioAccountSid)
    && IsSet(e1.twilioAuthToken) == IsSet(e2.twilioAuthToken)
    && IsSet(e1.twilioApiKey) == IsSet(e2.twilioApiKey)
    && IsSet(e1.twilioApiSecret) == IsSet(e2.twilioApiSecret)
  }

  lemma EnvRevealsNoSecret(req: Request, e1: Env, e2: Env, platform: Platform, clock: Clock, fetched: Outcome<Reply>)
    requires req.verb != "OPTIONS" && req.pathname == "/env"
    requires SameDisclosure(e1, e2)
    ensures Fetch(req, e1, platform, clock, fetched) == Fetch(req, e2, platform, clock, fetched)
    ensures Fetch(req, e1, platform, clock, fetched).calls == []
  {
  }

  /** `GET /whatsapp/test` without a truthy `to` is a 400 and sends nothing. */
  lemma WhatsAppTestNeedsTo(req: Request, env: Env, platform: Platform, clock: Clock, fetched: Outcome<Reply>)
    requires req.verb == "GET" && req.pathname == "/whatsapp/test"
    requires "to" !in req.query || req.query["to"] == ""
    ensures Fetch(req, env, platform, clock, fetched) == Served(Envelope(ErrorBody(ToRequired), 400), [])
  {
  }

  /** With a `to`, the one message sent goes to `to` from the configured
      sender and carries `msg`, or the sandbox text when `msg` is absent or
      empty. */
  lemma WhatsAppTestSends(req: Request, env: Env, platform: Platform, clock: Clock, fetched: Outcome<Reply>)
    requires req.verb == "GET" && req.pathname == "/whatsapp/test"
    requires "to" in req.query && req.query["to"] != ""
    ensures var s := Fetch(req, env, platform, clock, fetched);
      s.calls != [] ==>
        && s.calls[0].verb == "POST"
        && s.calls[0].payload == FormPayload([
             ("From", env.twilioWhatsappFrom.value),
             ("To", req.query["to"]),
             ("Body", if "msg" in req.query && req.query["msg"] != "" then req.query["msg"] else SandboxMessage)])
  {
    DispatchRoutes(req, env, platform, clock, fetched);
  }

  /** A missing SID or sender is a 500 naming it, with nothing sent. */
  lemma WhatsAppTestMissingConfig(req: Request, env: Env, platform: Platform, clock: Clock, fetched: Outcome<Reply>)
    requires req.verb == "GET" && req.pathname == "/whatsapp/test"
    requires "to" in req.query && req.query["to"] != ""
    ensures !IsSet(env.twilioAccountSid) ==>
      Fetch(req, env, platform, clock, fetched) == Served(Envelope(ErrorBody(Messaging.MissingAccountSid), 500), [])
    ensures IsSet(env.twilioAccountSid) && !IsSet(env.twilioWhatsappFrom) ==>
      Fetch(req, env, platform, clock, fetched) == Served(Envelope(ErrorBody(Messaging.MissingSender), 500), [])
  {
    DispatchRoutes(req, env, platform, clock, fetched);
  }

  /** `POST /criar-entrega` whose body (or `{}` if it does not parse) lacks a
      truthy `origem` or `destino` is a 400 with no data-store call. */
  lemma CriarEntregaNeedsEnds(req: Request, env: Env, platform: Platform, clock: Clock, fetched: Outcome<Reply>)
    requires req.verb == "POST" && req.pathname == "/criar-entrega"
    requires !Truthy(Get(BodyOrEmpty(req), "origem")) || !Truthy(Get(BodyOrEmpty(req), "destino"))
    ensures Fetch(req, env, platform, clock, fetched) == Served(Envelope(ErrorBody(OrigemDestinoRequired), 400), [])
  {
  }

  /** A body that does not parse is treated as `{}`, hence rejected. */
  lemma CriarEntregaUnparseableBody(req: Request, env: Env, platform: Platform, clock: Clock, fetched: Outcome<Reply>)
    requires req.verb == "POST" && req.pathname == "/criar-entrega" && req.json.Err?
    ensures Fetch(req, env, platform, clock, fetched).response.status == 400
    ensures Fetch(req, env, platform, clock, fetched).calls == []
  {
  }

  /** Otherwise exactly one POST to `/rest/v1/entregas` is made, asking for the
      created row back and carrying the new delivery record. */
  lemma CriarEntregaCreatesOne(req: Request, env: Env, platform: Platform, clock: Clock, fetched: Outcome<Reply>)
    requires req.verb == "POST" && req.pathname == "/criar-entrega"
    requires Truthy(Get(BodyOrEmpty(req), "origem")) && Truthy(Get(BodyOrEmpty(req), "destino"))
    ensures var s := Fetch(req, env, platform, clock, fetched);
      && |s.calls| == 1
      && s.calls[0].verb == "POST"
      && s.calls[0].url == Interpolate(env.supabaseUrl) + "/rest/v1" + "/entregas"
      && s.calls[0].headers["Prefer"] == "return=representation"
      && s.calls[0].payload == JsonPayload(NewDelivery(BodyOrEmpty(req), clock))
  {
    var init := DataStore.Init("POST", NewDelivery(BodyOrEmpty(req), clock), Representation);
    DispatchRoutes(req, env, platform, clock, fetched);
    CriarEntregaCall(req, env, clock, fetched);
    var c := DataStore.Request(env, "/entregas", init);
    assert Fetch(req, env, platform, clock, fetched).calls == [c];
  }

  /** With both ends given, the handler's one call is the data-store request
      creating the new delivery record. */
  lemma CriarEntregaCall(req: Request, env: Env, clock: Clock, fetched: Outcome<Reply>)
    requires Truthy(Get(BodyOrEmpty(req), "origem")) && Truthy(Get(BodyOrEmpty(req), "destino"))
    ensures CriarEntrega(req, env, clock, fetched).calls ==
      [DataStore.Request(env, "/entregas", DataStore.Init("POST", NewDelivery(BodyOrEmpty(req), clock), Representation))]
  {
  }

  /** The new delivery record has status "buscando" and the two clock
      readings, and copies the coordinates as given. */
  lemma NewDeliveryFields(body: JsVal, clock: Clock)
    ensures var p := NewDelivery(body, clock);
      var origem := Get(body, "origem");
      var destino := Get(body, "destino");
      && p.Obj?
      && p.fields["status"] == Str("buscando")
      && p.fields["created_at"] == Str(clock.first)
      && p.fields["updated_at"] == Str(clock.second)
      && p.fields["origem_lat"] == Get(origem, "lat") && p.fields["origem_lng"] == Get(origem, "lng")
      && p.fields["destino_lat"] == Get(destino, "lat") && p.fields["destino_lng"] == Get(destino, "lng")
  {
  }

  /** The address and customer fields fall back to `null` when falsy; the
      price falls back only when absent or `null`, so a price of 0 is kept. */
  lemma NewDeliveryDefaults(body: JsVal, clock: Clock)
    ensures var p := NewDelivery(body, clock);
      var origem := Get(body, "origem");
      var destino := Get(body, "destino");
      var cliente := Get(body, "cliente");
      && p.Obj?
      && p.fields["origem_endereco"] == (if Truthy(Get(origem, "endereco")) then Get(origem, "endereco") else Null)
      && p.fields["destino_endereco"] == (if Truthy(Get(destino, "endereco")) then Get(destino, "endereco") else Null)
      && p.fields["cliente_nome"] == (if Truthy(Get(cliente, "nome")) then Get(cliente, "nome") else Null)
      && p.fields["cliente_fone"] == (if Truthy(Get(cliente, "fone")) then Get(cliente, "fone") else Null)
      && p.fields["preco"] == (if Get(body, "preco") in {Undefined, Null} then Null else Get(body, "preco"))
  {
  }

  /** When the data store answers, the response is 200 with the first row of
      an array result, or the result itself; when it fails, a 500. */
  lemma CriarEntregaAnswers(req: Request, env: Env, platform: Platform, clock: Clock, fetched: Outcome<Reply>)
    requires req.verb == "POST" && req.pathname == "/criar-entrega"
    requires Truthy(Get(BodyOrEmpty(req), "origem")) && Truthy(Get(BodyOrEmpty(req), "destino"))
    ensures var r := Fetch(req, env, platform, clock, fetched).response;
      match DataStore.Result(fetched)
      case Ok(rows) =>
        && r.status == 200
        && r.body == JsonBody(Obj(map["ok" := Bool(true), "entrega" := FirstRow(rows)]))
        && (rows.Arr? && rows.items != [] ==> r.body.data.fields["entrega"] == rows.items[0])
      case Err(e) => r.status == 500 && r.body == JsonBody(ErrorBody(ErrorText(e)))
  {
    DispatchRoutes(req, env, platform, clock, fetched);
  }

  /** A non-2xx reply from the data store becomes a 500 whose error text
      carries the upstream status code. */
  lemma DataStoreFailureIs500(req: Request, env: Env, platform: Platform, clock: Clock, reply: Reply)
    requires req.verb == "POST" && req.pathname == "/criar-entrega"
    requires Truthy(Get(BodyOrEmpty(req), "origem")) && Truthy(Get(BodyOrEmpty(req), "destino"))
    requires !IsOk(reply)
    ensures var r := Fetch(req, env, platform, clock, Ok(reply)).response;
      && r.status == 500
      && r.body.JsonBody? && r.body.data.Obj? && "error" in r.body.data.fields
      && r.body.data.fields["error"].Str?
      && Contains(r.body.data.fields["error"].s, Decimal(reply.status))
  {
    DispatchRoutes(req, env, platform, clock, Ok(reply));
    DataStore.FailureNamesStatus(reply);
  }

  /** `POST /aceitar-motorista` without a truthy `entregaId` is a 400 with no
      data-store call. */
  lemma AceitarNeedsId(req: Request, env: Env, platform: Platform, clock: Clock, fetched: Outcome<Reply>)
    requires req.verb == "POST" && req.pathname == "/aceitar-motorista"
    requires !Truthy(Get(Or(BodyOrEmpty(req), Obj(map[])), "entregaId"))
    ensures Fetch(req, env, platform, clock, fetched) == Served(Envelope(ErrorBody(EntregaIdRequired), 400), [])
  {
  }

  /** With an id and a driver that is not `null`, exactly one PATCH is made,
      filtered by the encoded id and carrying the driver patch; the answer is
      `{ ok: true }` whatever the data store returns, as long as it does not
      fail. */
  lemma AceitarPatchesOne(req: Request, env: Env, platform: Platform, clock: Clock, fetched: Outcome<Reply>, encoded: string)
    requires req.verb == "POST" && req.pathname == "/aceitar-motorista"
    requires Truthy(Get(Or(BodyOrEmpty(req), Obj(map[])), "entregaId"))
    requires DriverOf(BodyOrEmpty(req)) != Null
    requires platform.encodeUriComponent(Get(Or(BodyOrEmpty(req), Obj(map[])), "entregaId")) == Ok(encoded)
    ensures var s := Fetch(req, env, platform, clock, fetched);
      && |s.calls| == 1
      && s.calls[0].verb == "PATCH"
      && s.calls[0].url == Interpolate(env.supabaseUrl) + "/rest/v1" + ("/entregas?id=eq." + encoded)
      && s.calls[0].headers["Prefer"] == "return=representation"
      && s.calls[0].payload == JsonPayload(DriverPatch(DriverOf(BodyOrEmpty(req)), clock).value)
      && (DataStore.Result(fetched).Ok? ==> s.response == Envelope(Obj(map["ok" := Bool(true)])))
  {
    var patch := DriverPatch(DriverOf(BodyOrEmpty(req)), clock).value;
    var init := DataStore.Init("PATCH", patch, Representation);
    DispatchRoutes(req, env, platform, clock, fetched);
    AceitarCall(req, env, platform, clock, fetched, encoded);
    var c := DataStore.Request(env, "/entregas?id=eq." + encoded, init);
    assert Fetch(req, env, platform, clock, fetched).calls == [c];
  }

  /** With a truthy id, a driver that is not `null` and an encodable id, the
      handler's one call is the data-store request patching that delivery,
      and it answers `{ok:true}` unless the request fails. */
  lemma AceitarCall(req: Request, env: Env, platform: Platform, clock: Clock, fetched: Outcome<Reply>, encoded: string)
    requires Truthy(Get(Or(BodyOrEmpty(req), Obj(map[])), "entregaId"))
    requires DriverOf(BodyOrEmpty(req)) != Null
    requires platform.encodeUriComponent(Get(Or(BodyOrEmpty(req), Obj(map[])), "entregaId")) == Ok(encoded)
    ensures var x := AceitarMotorista(req, env, platform, clock, fetched);
      && x.calls == [DataStore.Request(env, "/entregas?id=eq." + encoded,
           DataStore.Init("PATCH", DriverPatch(DriverOf(BodyOrEmpty(req)), clock).value, Representation))]
      && (DataStore.Result(fetched).Ok? ==> x.outcome == Ok(Envelope(Obj(map["ok" := Bool(true)]))))
  {
  }

  /** A non-2xx reply to the patch becomes a 500 whose error text carries the
      upstream status code. */
  lemma AceitarFailureIs500(req: Request, env: Env, platform: Platform, clock: Clock, reply: Reply, encoded: string)
    requires req.verb == "POST" && req.pathname == "/aceitar-motorista"
    requires Truthy(Get(Or(BodyOrEmpty(req), Obj(map[])), "entregaId"))
    requires DriverOf(BodyOrEmpty(req)) != Null
    requires platform.encodeUriComponent(Get(Or(BodyOrEmpty(req), Obj(map[])), "entregaId")) == Ok(encoded)
    requires !IsOk(reply)
    ensures var r := Fetch(req, env, platform, clock, Ok(reply)).response;
      && r.status == 500
      && r.body.JsonBody? && r.body.data.Obj? && "error" in r.body.data.fields
      && r.body.data.fields["error"].Str?
      && Contains(r.body.data.fields["error"].s, Decimal(reply.status))
  {
    DispatchRoutes(req, env, platform, clock, Ok(reply));
    DataStore.FailureNamesStatus(reply);
  }

  /** The driver patch sets status "aceita", all five driver fields, each
      `null` when the driver's value is falsy, and the update time. */
  lemma DriverPatchFields(driver: JsVal, clock: Clock)
    requires driver != Null
    ensures DriverPatch(driver, clock).Ok?
    ensures var p := DriverPatch(driver, clock).value;
      && p.Obj?
      && p.fields.Keys == {"status", "driver_nome", "driver_placa", "driver_veiculo", "driver_fone", "driver_avatar", "updated_at"}
      && p.fields["status"] == Str("aceita")
      && p.fields["driver_nome"] == Or(Get(driver, "nome"), Null)
      && p.fields["driver_placa"] == Or(Get(driver, "placa"), Null)
      && p.fields["driver_veiculo"] == Or(Get(driver, "veiculo"), Null)
      && p.fields["driver_fone"] == Or(Get(driver, "fone"), Null)
      && p.fields["driver_avatar"] == Or(Get(driver, "avatar"), Null)
      && p.fields["updated_at"] == Str(clock.first)
  {
  }

  /** A `driver` of `null` is not defaulted to `{}`: reading its name throws,
      so the request is a 500 and nothing is patched. */
  lemma AceitarNullDriver(req: Request, env: Env, platform: Platform, clock: Clock, fetched: Outcome<Reply>)
    requires req.verb == "POST" && req.pathname == "/aceitar-motorista"
    requires Truthy(Get(Or(BodyOrEmpty(req), Obj(map[])), "entregaId"))
    requires Get(Or(BodyOrEmpty(req), Obj(map[])), "driver") == Null
    ensures Fetch(req, env, platform, clock, fetched) ==
      Served(Envelope(ErrorBody("Cannot read properties of null (reading 'nome')"), 500), [])
  {
  }

  /** The webhook's payload is chosen by content type: form fields first, then
      JSON, then raw text. */
  lemma WebhookPayloadOrder(req: Request)
    ensures Contains(req.contentType, "application/x-www-form-urlencoded") && req.form.Ok? ==>
      WebhookPayload(req) == Ok(FormObject(req.form.value))
    ensures !Contains(req.contentType, "application/x-www-form-urlencoded") && Contains(req.contentType, "application/json") ==>
      WebhookPayload(req) == Ok(BodyOrEmpty(req))
    ensures !Contains(req.contentType, "application/x-www-form-urlencoded") && !Contains(req.contentType, "application/json") && req.text.Ok? ==>
      WebhookPayload(req) == Ok(Obj(map["raw" := Str(req.text.value)]))
  {
  }

  /** Form fields become string properties; a repeated field keeps its last
      value. */
  lemma FormObjectFields(entries: seq<(string, string)>, i: nat)
    requires i < |entries|
    requires forall j :: i < j < |entries| ==> entries[j].0 != entries[i].0
    ensures entries[i].0 in FormObject(entries).fields
    ensures FormObject(entries).fields[entries[i].0] == Str(entries[i].1)
  {
    FromEntriesLastWins(entries, i);
  }

  /** A form-encoded webhook post is echoed, with nothing sent upstream. */
  lemma WebhookEchoesForm(req: Request, env: Env, platform: Platform, clock: Clock, fetched: Outcome<Reply>)
    requires req.verb == "POST" && req.pathname == "/whatsapp/webhook"
    requires Contains(req.contentType, "application/x-www-form-urlencoded")
    requires req.form.Ok?
    ensures Fetch(req, env, platform, clock, fetched) == Served(Envelope(Obj(map[
      "received" := Bool(true),
      "payload" := FormObject(req.form.value)])), [])
  {
    DispatchRoutes(req, env, platform, clock, fetched);
  }

  /** The form `a=1&b=2` becomes `{ a: "1", b: "2" }`. */
  lemma FormObjectExample()
    ensures FormObject([("a", "1"), ("b", "2")]) == Obj(map["a" := Str("1"), "b" := Str("2")])
  {
    var entries := [("a", "1"), ("b", "2")];
    assert FromEntries(entries) == map["a" := "1", "b" := "2"] by {
      assert entries[..1] == [("a", "1")];
      assert entries[..1][..0] == [];
    }
  }

  /** A form-encoded webhook post `a=1&b=2` is echoed as `{ a: "1", b: "2" }`. */
  lemma WebhookFormExample(req: Request, env: Env, platform: Platform, clock: Clock, fetched: Outcome<Reply>)
    requires req.verb == "POST" && req.pathname == "/whatsapp/webhook"
    requires req.contentType == "application/x-www-form-urlencoded"
    requires req.form == Ok([("a", "1"), ("b", "2")])
    ensures Fetch(req, env, platform, clock, fetched) == Served(Envelope(Obj(map[
      "received" := Bool(true),
      "payload" := Obj(map["a" := Str("1"), "b" := Str("2")])])), [])
  {
    assert OccursAt(req.contentType, "application/x-www-form-urlencoded", 0);
    WebhookEchoesForm(req, env, platform, clock, fetched);
    FormObjectExample();
  }
}
