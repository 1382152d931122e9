/**
 * The transport every client issues its single requests through, reduced to
 * what the model needs: a request shape, a response made of a status code and
 * a body, and the server itself as an oracle. JSON text is never parsed
 * here: a body is either an already parsed document or text that `JSON.parse`
 * would reject.
 */
module Http {
  import opened Wrappers

  newtype byte = x: int | 0 <= x < 256

  datatype Verb = Get | Post | Put | Delete

  /**
   * A parsed JSON document; Ruby's `nil` is `JNull`. Numbers are exact
   * rationals, so integers and decimals such as `1.5` both have a parsed form.
   */
  datatype Json =
    | JNull
    | JBool(b: bool)
    | JNum(n: real)
    | JStr(s: string)
    | JArr(items: seq<Json>)
    | JObj(fields: map<string, Json>)

  /** What a response body turns into under `JSON.parse`. */
  datatype Payload = Parsed(doc: Json) | Malformed

  datatype Body =
    | NoBody
    | Raw(bytes: seq<byte>)            // an APPEND chunk, sent as is
    | JsonFields(fields: map<string, string>)  // a hash sent with `to_json`
    | Form(text: string)               // a form-encoded string

  datatype Request = Request(verb: Verb, url: string, body: Body)

  datatype Response = Response(code: int, body: Payload)

  /** The exceptions the modelled code can raise. */
  datatype Failure =
    | ParserError       // `JSON.parse` on a body that is not JSON
    | NotIndexable      // `[]` with a string key on `nil`, a boolean, an array or a number (NoMethodError or TypeError)
    | UninitializedVar  // reading a class variable that was never assigned

  /**
   * The remote side: the n-th request of a call sequence (counting from 0)
   * gets the response the oracle chooses. Taking the index lets the oracle
   * model a server whose answers depend on what came before.
   */
  type Server = (nat, Request) -> Response

  /** `JSON.parse response.read_body`. */
  function ParseBody(resp: Response): (r: Result<Json, Failure>)
    ensures r.Ok? <==> resp.body.Parsed?
    ensures r.Ok? ==> r.value == resp.body.doc
    ensures r.Err? ==> r.error == ParserError
  {
    match resp.body
    case Parsed(doc) => Ok(doc)
    case Malformed => Err(ParserError)
  }
}
