/** The messaging adapter: Basic credentials chosen from two pairs in a fixed
    order (section 2 of RFC 7617, with base64 as the platform's `btoa`), and
    `sendWhatsApp`, which checks its configuration, issues one form-encoded
    POST to the provider's per-account endpoint and interprets the reply. */
module Messaging {
  import opened Js
  import opened Config
  import opened Upstream

  const MissingCredentials := "Credenciais Twilio ausentes"
  const MissingAccountSid := "TWILIO_ACCOUNT_SID ausente"
  const MissingSender := "TWILIO_WHATSAPP_FROM ausente"
  const FormContentType := "application/x-www-form-urlencoded;charset=UTF-8"

  /** `Basic ${btoa(`${user}:${password}`)}`; `btoa` may throw. */
  function Basic(btoa: string -> Outcome<string>, user: string, password: string): Outcome<string> {
    match btoa(user + ":" + password)
    case Ok(b) => Ok("Basic " + b)
    case Err(e) => Err(e)
  }

  /** `makeBasicAuth(env)`: the API-key pair when both halves are set, else the
      account-SID and auth-token pair when both are set, else an error. */
  function MakeBasicAuth(env: Env, btoa: string -> Outcome<string>): (r: Outcome<string>)
    ensures r.Ok? ==> |r.value| >= 6 && r.value[..6] == "Basic "
    ensures r.Ok? ==>
      || (IsSet(env.twilioApiKey) && IsSet(env.twilioApiSecret))
      || (IsSet(env.twilioAccountSid) && IsSet(env.twilioAuthToken))
    ensures (!(IsSet(env.twilioApiKey) && IsSet(env.twilioApiSecret))
             && !(IsSet(env.twilioAccountSid) && IsSet(env.twilioAuthToken))) ==>
      r == Fail(MissingCredentials)
  {
    if IsSet(env.twilioApiKey) && IsSet(env.twilioApiSecret) then
      Basic(btoa, env.twilioApiKey.value, env.twilioApiSecret.value)
    else if IsSet(env.twilioAccountSid) && IsSet(env.twilioAuthToken) then
      Basic(btoa, env.twilioAccountSid.value, env.twilioAuthToken.value)
    else
      Fail(MissingCredentials)
  }

  /** The credential pairs, most preferred first. */
  function Strategies(env: Env): seq<(Option<string>, Option<string>)> {
    [(env.twilioApiKey, env.twilioApiSecret), (env.twilioAccountSid, env.twilioAuthToken)]
  }

  predicate Complete(pair: (Option<string>, Option<string>)) {
    IsSet(pair.0) && IsSet(pair.1)
  }

  /** Reference definition of the choice: the first complete pair, if any. */
  function FirstComplete(pairs: seq<(Option<string>, Option<string>)>): (r: Option<(string, string)>)
    ensures r.None? <==> forall i :: 0 <= i < |pairs| ==> !Complete(pairs[i])
    ensures r.Some? ==> exists i ::
      && 0 <= i < |pairs|
      && Complete(pairs[i])
      && pairs[i] == (Some(r.value.0), Some(r.value.1))
      && forall j :: 0 <= j < i ==> !Complete(pairs[j])
  {
    if pairs == [] then None
    else if Complete(pairs[0]) then Some((pairs[0].0.value, pairs[0].1.value))
    else
      var r := FirstComplete(pairs[1..]);
      assert forall i :: 1 <= i < |pairs| ==> pairs[i] == pairs[1..][i - 1];
      r
  }

  /** `makeBasicAuth` is the first-complete-pair choice over the two pairs. */
  lemma MakeBasicAuthTakesFirstComplete(env: Env, btoa: string -> Outcome<string>)
    ensures MakeBasicAuth(env, btoa) ==
      match FirstComplete(Strategies(env))
      case None => Fail(MissingCredentials)
      case Some(pair) => Basic(btoa, pair.0, pair.1)
  {
    var s := Strategies(env);
    if !Complete(s[0]) {
      assert s[1..] == [s[1]];
      assert s[1..][1..] == [];
    }
  }

  /** A half-present API-key pair is passed over for a complete SID/token pair. */
  lemma HalfPairFallsThrough(env: Env, btoa: string -> Outcome<string>)
    requires !(IsSet(env.twilioApiKey) && IsSet(env.twilioApiSecret))
    requires IsSet(env.twilioAccountSid) && IsSet(env.twilioAuthToken)
    ensures MakeBasicAuth(env, btoa) == Basic(btoa, env.twilioAccountSid.value, env.twilioAuthToken.value)
  {
  }

  function MessagesUrl(accountSid: string): string {
    "https://api.twilio.com/2010-04-01/Accounts/" + accountSid + "/Messages.json"
  }

  /** Everything `sendWhatsApp(env, to, body)` does before its fetch: the
      account SID, then the sender, then the credentials are checked, each
      with its own error; if all are there, the call to issue. */
  function Prepare(env: Env, to: string, body: string, btoa: string -> Outcome<string>): (r: Outcome<Call>)
    ensures !IsSet(env.twilioAccountSid) ==> r == Fail(MissingAccountSid)
    ensures IsSet(env.twilioAccountSid) && !IsSet(env.twilioWhatsappFrom) ==> r == Fail(MissingSender)
    ensures IsSet(env.twilioAccountSid) && IsSet(env.twilioWhatsappFrom) ==>
      match MakeBasicAuth(env, btoa)
      case Err(e) => r == Err(e)
      case Ok(auth) => r == Ok(Call(
        "POST",
        MessagesUrl(env.twilioAccountSid.value),
        map["Authorization" := auth, "Content-Type" := FormContentType],
        FormPayload([("From", env.twilioWhatsappFrom.value), ("To", to), ("Body", body)])))
  {
    if !IsSet(env.twilioAccountSid) then Fail(MissingAccountSid)
    else if !IsSet(env.twilioWhatsappFrom) then Fail(MissingSender)
    else
      match MakeBasicAuth(env, btoa)
      case Err(e) => Err(e)
      case Ok(auth) => Ok(Call(
        "POST",
        MessagesUrl(env.twilioAccountSid.value),
        map["Authorization" := auth, "Content-Type" := FormContentType],
        FormPayload([("From", env.twilioWhatsappFrom.value), ("To", to), ("Body", body)])))
  }

  /** A configuration that is missing something is reported before any call
      is prepared, and the SID is reported before the sender, the sender
      before the credentials. */
  lemma PrepareChecksInOrder(env: Env, to: string, body: string, btoa: string -> Outcome<string>)
    ensures Prepare(env, to, body, btoa).Ok? ==>
      IsSet(env.twilioAccountSid) && IsSet(env.twilioWhatsappFrom) && MakeBasicAuth(env, btoa).Ok?
    ensures !IsSet(env.twilioAccountSid) && !IsSet(env.twilioWhatsappFrom) ==>
      Prepare(env, to, body, btoa) == Fail(MissingAccountSid)
    ensures (IsSet(env.twilioAccountSid) && !IsSet(env.twilioWhatsappFrom) && MakeBasicAuth(env, btoa).Err?) ==>
      Prepare(env, to, body, btoa) == Fail(MissingSender)
  {
  }

  function FailureMessage(status: nat, text: string): string {
    "Twilio " + Decimal(status) + " → " + text
  }

  /** What `sendWhatsApp` resolves to, or throws, once its fetch has settled. */
  function Result(fetched: Outcome<Reply>): (r: Outcome<JsVal>)
    ensures fetched.Err? ==> r == Err(fetched.error)
    ensures fetched.Ok? && fetched.value.text.Err? ==> r == Err(fetched.value.text.error)
    ensures fetched.Ok? && fetched.value.text.Ok? && !IsOk(fetched.value) ==>
      r == Fail(FailureMessage(fetched.value.status, fetched.value.text.value))
    ensures fetched.Ok? && fetched.value.text.Ok? && IsOk(fetched.value) ==>
      r == match fetched.value.json
        case Ok(v) => Ok(v)
        case Err(_) => Ok(Obj(map["ok" := Bool(true), "raw" := Str(fetched.value.text.value)]))
  {
    match fetched
    case Err(e) => Err(e)
    case Ok(reply) =>
      match reply.text
      case Err(e) => Err(e)
      case Ok(text) =>
        if !IsOk(reply) then Fail(FailureMessage(reply.status, text))
        else match reply.json
          case Ok(v) => Ok(v)
          case Err(_) => Ok(Obj(map["ok" := Bool(true), "raw" := Str(text)]))
  }

  /** An ok reply never fails, whether or not its body is JSON; a non-ok one
      always fails, with the status code and the body text in the message. */
  lemma ResultByStatus(reply: Reply, text: string)
    requires reply.text == Ok(text)
    ensures IsOk(reply) <==> Result(Ok(reply)).Ok?
    ensures !IsOk(reply) ==>
      var m := Result(Ok(reply)).error.message;
      && Contains(m, Decimal(reply.status)) && Contains(m, text)
      && DecimalValue(Decimal(reply.status)) == reply.status
  {
    if !IsOk(reply) {
      var d := Decimal(reply.status);
      ContainsInfix("Twilio ", d, " → " + text);
      assert "Twilio " + d + " → " + text == "Twilio " + d + (" → " + text);
      ContainsInfix("Twilio " + d + " → ", text, "");
      assert "Twilio " + d + " → " + text == "Twilio " + d + " → " + text + "";
      DecimalRoundTrip(reply.status);
    }
  }

  /** `sendWhatsApp(env, to, body)`: at most one call, issued only when the
      configuration is complete. */
  function SendWhatsApp(env: Env, to: string, body: string, btoa: string -> Outcome<string>, fetched: Outcome<Reply>): (x: Exchange<JsVal>)
    ensures |x.calls| <= 1
    ensures x.calls == [] <==> Prepare(env, to, body, btoa).Err?
    ensures x.calls == [] ==> x.outcome == Err(Prepare(env, to, body, btoa).error)
    ensures x.calls != [] ==> x.calls == [Prepare(env, to, body, btoa).value] && x.outcome == Result(fetched)
  {
    match Prepare(env, to, body, btoa)
    case Err(e) => Exchange([], Err(e))
    case Ok(call) => Exchange([call], Result(fetched))
  }
}
