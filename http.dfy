/** The client's view of one HTTP exchange through `fetch`. The network,
    `fetch` itself and the stream reads are outside the model: an exchange
    is given as data. */
module Http {
  import opened Wrappers
  import opened Text
  import opened JsValues

  /** A thrown JavaScript exception: the value of its `message` property (""
      when absent or empty) and `String(e)`. */
  datatype JsError = JsError(message: string, text: string)

  /** `e.message || String(e)`, the message both components display. */
  function Describe(e: JsError): (m: string)
    ensures m == e.message || m == e.text
    ensures m == "" <==> e.message == "" && e.text == ""
    ensures e.message != "" ==> m == e.message
  {
    if e.message != "" then e.message else e.text
  }

  /** A response as `fetch` resolves it: the status code, the `content-type`
      header (None when the header is absent), the body as `resp.text()` reads
      it and what `resp.json()` makes of the same body (a parse failure being
      the error it throws). */
  datatype HttpResponse = HttpResponse(
    status: int,
    contentType: Option<string>,
    text: string,
    json: Result<Json, JsError>)

  /** `resp.ok`. */
  predicate IsOk(r: HttpResponse) {
    200 <= r.status <= 299
  }

  /** `resp.headers.get("content-type") || ""`. */
  function ContentType(r: HttpResponse): string {
    r.contentType.GetOr("")
  }

  /** `contentType.includes("application/json")`: a case-sensitive substring test. */
  predicate DeclaresJson(r: HttpResponse) {
    Contains(ContentType(r), "application/json")
  }

  /** An awaited request: either a response or an exception thrown by `fetch`. */
  datatype Exchange = Responded(resp: HttpResponse) | Threw(error: JsError)

  /** The TypeError V8 throws for `j.error` or `j.path` when the body is `null`. */
  function NullPropertyError(prop: string): JsError {
    JsError("Cannot read properties of null (reading '" + prop + "')",
            "TypeError: Cannot read properties of null (reading '" + prop + "')")
  }

  /** Reading property `prop` of a parsed body: `null` throws, every other
      value yields the property or `undefined`. */
  function ReadProperty(j: Json, prop: string): Result<JsValue, JsError> {
    if j == Null then Err(NullPropertyError(prop)) else Ok(Get(j, prop))
  }
}
