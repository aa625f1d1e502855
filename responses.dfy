/** Building responses: the JSON envelope, the CORS wrapper and the two
    responses that bypass the JSON envelope. Header names are kept exactly as
    written; the case-insensitivity of HTTP header names is not modelled. */
module Responses {
  import opened Js

  /** A response body: none, `JSON.stringify(data)`, or plain text. */
  datatype Body = NoBody | JsonBody(data: JsVal) | TextBody(text: string)

  datatype Response = Response(status: int, headers: map<string, string>, body: Body)

  const JsonContentType := "application/json; charset=utf-8"

  /** What the platform sets as content type for a string body. */
  const TextContentType := "text/plain;charset=UTF-8"

  const CorsHeaders: map<string, string> := map[
    "access-control-allow-origin" := "*",
    "access-control-allow-methods" := "GET,POST,OPTIONS",
    "access-control-allow-headers" := "content-type,authorization"]

  /** `json(data, { status, headers })`: a JSON body, status 200 unless given,
      and a JSON content type unless the caller's headers name one. */
  function Json(data: JsVal, status: int := 200, headers: map<string, string> := map[]): (r: Response)
    ensures r.status == status && r.body == JsonBody(data)
    ensures r.headers.Keys == headers.Keys + {"content-type"}
    ensures forall h :: h in headers ==> r.headers[h] == headers[h]
    ensures "content-type" !in headers ==> r.headers["content-type"] == JsonContentType
  {
    Response(status, map["content-type" := JsonContentType] + headers, JsonBody(data))
  }

  /** `withCors(res)`: the same status and body, the original headers, and each
      CORS header the original does not already carry. */
  function WithCors(res: Response): (r: Response)
    ensures r.status == res.status && r.body == res.body
    ensures r.headers.Keys == res.headers.Keys + CorsHeaders.Keys
    ensures forall h :: h in res.headers ==> r.headers[h] == res.headers[h]
    ensures forall h :: h in CorsHeaders && h !in res.headers ==> r.headers[h] == CorsHeaders[h]
  {
    Response(res.status, CorsHeaders + res.headers, res.body)
  }

  /** `withCors(json(data, { status }))`, the envelope of every routed answer:
      a JSON body with the JSON content type and every CORS header at its
      default value. */
  function Envelope(data: JsVal, status: int := 200): (r: Response)
    ensures r.status == status && r.body == JsonBody(data)
    ensures r.headers == CorsHeaders["content-type" := JsonContentType]
  {
    WithCors(Json(data, status))
  }

  /** A response in the JSON envelope. */
  predicate InEnvelope(r: Response) {
    r.body.JsonBody? && r.headers == CorsHeaders["content-type" := JsonContentType]
  }

  /** The answer to a pre-flight request: status 204, no body, and the CORS
      headers with a one-day max-age. */
  function Preflight(): (r: Response)
    ensures r.status == 204 && r.body == NoBody
    ensures r.headers == CorsHeaders["access-control-max-age" := "86400"]
  {
    WithCors(Response(204, map["access-control-max-age" := "86400"], NoBody))
  }

  /** `new Response(text)`: status 200 with a plain-text content type. */
  function PlainText(text: string): (r: Response)
    ensures r.status == 200 && r.body == TextBody(text)
    ensures r.headers == map["content-type" := TextContentType]
    ensures forall h :: h in CorsHeaders ==> h !in r.headers
  {
    Response(200, map["content-type" := TextContentType], TextBody(text))
  }
}
