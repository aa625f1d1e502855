/** The data-store adapter `sb`: it builds one REST call under
    `<SUPABASE_URL>/rest/v1`, authenticated with the service key, and turns
    what that call settles to into a value or an error. */
module DataStore {
  import opened Js
  import opened Config
  import opened Upstream

  /** The `init` a caller passes: method, the value sent as JSON, and extra
      headers. */
  datatype Init = Init(verb: string, body: JsVal, headers: map<string, string>)

  /** The headers every call carries unless the caller overrides them. */
  function DefaultHeaders(env: Env): map<string, string> {
    map[
      "apikey" := Interpolate(env.supabaseKey),
      "Authorization" := "Bearer " + Interpolate(env.supabaseKey),
      "Content-Type" := "application/json"]
  }

  /** The call `sb(request, env, path, init)` hands to `fetch`. A missing base
      URL or key is not checked here: it is written as "undefined". */
  function Request(env: Env, path: string, init: Init): (c: Call)
    ensures c.verb == init.verb && c.payload == JsonPayload(init.body)
    ensures c.url == Interpolate(env.supabaseUrl) + "/rest/v1" + path
    ensures c.headers.Keys == init.headers.Keys + {"apikey", "Authorization", "Content-Type"}
    ensures forall h :: h in init.headers ==> c.headers[h] == init.headers[h]
    ensures "apikey" !in init.headers ==> c.headers["apikey"] == Interpolate(env.supabaseKey)
    ensures "Authorization" !in init.headers ==> c.headers["Authorization"] == "Bearer " + Interpolate(env.supabaseKey)
    ensures "Content-Type" !in init.headers ==> c.headers["Content-Type"] == "application/json"
  {
    Call(init.verb, Interpolate(env.supabaseUrl) + "/rest/v1" + path, DefaultHeaders(env) + init.headers, JsonPayload(init.body))
  }

  /** What the error of a non-ok reply says: the body text, or the status
      text when the body is empty or cannot be read. */
  function FailureDetail(reply: Reply): string {
    var t := match reply.text case Ok(t) => t case Err(_) => "";
    if t != "" then t else reply.statusText
  }

  function FailureMessage(reply: Reply): string {
    "Supabase " + Decimal(reply.status) + ": " + FailureDetail(reply)
  }

  /** What `sb` resolves to, or throws, once its fetch has settled to `fetched`. */
  function Result(fetched: Outcome<Reply>): (r: Outcome<JsVal>)
    ensures fetched.Err? ==> r == Err(fetched.error)
    ensures fetched.Ok? && !IsOk(fetched.value) ==> r == Fail(FailureMessage(fetched.value))
    ensures fetched.Ok? && IsOk(fetched.value) && Contains(fetched.value.contentType, "application/json") ==>
      r == fetched.value.json
    ensures fetched.Ok? && IsOk(fetched.value) && !Contains(fetched.value.contentType, "application/json") ==>
      r == match fetched.value.text case Ok(t) => Ok(Str(t)) case Err(e) => Err(e)
  {
    match fetched
    case Err(e) => Err(e)
    case Ok(reply) =>
      if !IsOk(reply) then Fail(FailureMessage(reply))
      else if Contains(reply.contentType, "application/json") then reply.json
      else match reply.text
        case Ok(t) => Ok(Str(t))
        case Err(e) => Err(e)
  }

  /** `sb` as a whole: it always issues exactly its one call. */
  function Sb(env: Env, path: string, init: Init, fetched: Outcome<Reply>): (x: Exchange<JsVal>)
    ensures x.calls == [Request(env, path, init)]
    ensures x.outcome == Result(fetched)
  {
    Exchange([Request(env, path, init)], Result(fetched))
  }

  /** `sb` fails exactly when the fetch fails, the status is not ok, or the
      body cannot be read in the form the content type selects. */
  lemma ResultFailsExactly(fetched: Outcome<Reply>)
    ensures Result(fetched).Err? <==>
      || fetched.Err?
      || !IsOk(fetched.value)
      || (Contains(fetched.value.contentType, "application/json") && fetched.value.json.Err?)
      || (!Contains(fetched.value.contentType, "application/json") && fetched.value.text.Err?)
  {
  }

  /** A non-ok reply becomes an error whose message carries the status code,
      written so that it reads back as that code. */
  lemma FailureNamesStatus(reply: Reply)
    requires !IsOk(reply)
    ensures Result(Ok(reply)).Err?
    ensures var m := Result(Ok(reply)).error.message;
      && m != ""
      && Contains(m, Decimal(reply.status))
      && DecimalValue(Decimal(reply.status)) == reply.status
      && (reply.text.Ok? && reply.text.value != "" ==> Contains(m, reply.text.value))
      && (reply.text.Err? || reply.text == Ok("") ==> Contains(m, reply.statusText))
  {
    ContainsInfix("Supabase " + Decimal(reply.status) + ": ", FailureDetail(reply), "");
    assert "Supabase " + Decimal(reply.status) + ": " + FailureDetail(reply) + ""
        == "Supabase " + Decimal(reply.status) + ": " + FailureDetail(reply);
    ContainsInfix("Supabase ", Decimal(reply.status), ": " + FailureDetail(reply));
    assert "Supabase " + Decimal(reply.status) + ": " + FailureDetail(reply)
        == "Supabase " + Decimal(reply.status) + (": " + FailureDetail(reply));
    DecimalRoundTrip(reply.status);
  }
}
