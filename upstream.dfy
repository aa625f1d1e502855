/** Outbound HTTP calls and how they settle. A call is recorded when the
    gateway hands it to `fetch`; what that fetch settles to is an input. */
module Upstream {
  import opened Js

  /** The body of an outbound call, before serialisation: a value that is
      sent as `JSON.stringify(value)`, or form fields in insertion order that
      are sent through `URLSearchParams`. */
  datatype Payload = JsonPayload(value: JsVal) | FormPayload(fields: seq<(string, string)>)

  datatype Call = Call(verb: string, url: string, headers: map<string, string>, payload: Payload)

  /** A response that `fetch` resolved to. `contentType` is its content-type
      header, "" when absent. `text` is what reading the body as text settles
      to; `json` is what decoding the body as JSON settles to (`r.json()`,
      and `JSON.parse` of the text when the text was readable). */
  datatype Reply = Reply(
    status: nat,
    statusText: string,
    contentType: string,
    text: Outcome<string>,
    json: Outcome<JsVal>)

  /** `Response.ok`: a status in the range 200 to 299. */
  predicate IsOk(r: Reply) {
    200 <= r.status <= 299
  }

  /** The calls an adapter or a handler issued, and how it ended. */
  datatype Exchange<+T> = Exchange(calls: seq<Call>, outcome: Outcome<T>)
}
