/**
 * What the screens exchange with the outside world. The backend's answers are
 * inputs to the handlers; what a handler does that can be observed (a request
 * sent, an alert shown, a write to device storage, the session flag flipped,
 * a busy indicator toggled) is returned as a list of effects in program order.
 */
module Net {
  import opened Js

  /** The body of a `fetch` response as `response.json()` sees it. */
  datatype Body = Json(value: JsValue) | NotJson

  /** What one awaited `fetch` call yields: a response, or a rejected promise. */
  datatype Fetched = Response(ok: bool, body: Body) | NetworkFailure

  /**
   * What one awaited `axios.get` call yields: a 2xx response with its parsed
   * data (a body that is not JSON arrives as a string), or a rejection.
   */
  datatype AxiosResult = AxiosResponse(data: JsValue) | AxiosFailure

  datatype Verb = Get | Post | Put

  /** One part of a `FormData` body. */
  datatype FormValue = Field(value: JsValue) | File(uri: string, mime: string, name: string)

  datatype Payload =
    | NoBody
    | Form(parts: seq<(string, FormValue)>)
    | JsonBody(fields: seq<(string, JsValue)>)

  /** A request to the backend; `path` is relative to the configured API root. */
  datatype Request = Request(verb: Verb, path: string, query: seq<(string, string)>, body: Payload)

  /**
   * The message of an alert: a value the code supplies, or the message of an
   * error raised by the runtime (transport, JSON parser, property access).
   */
  datatype AlertText = Text(value: JsValue) | ErrorMessage

  datatype Effect =
    | Send(request: Request)
    | Alert(title: string, text: AlertText)
    | StoreSet(key: string, value: string)
    | StoreRemove(key: string)
    | SetAuthenticated(flag: bool)
    | Busy(on: bool)

  /** An alert whose message is a string literal of the code. */
  function Say(title: string, message: string): Effect {
    Alert(title, Text(Str(message)))
  }

  /** No alert is among the effects. */
  predicate Silent(effects: seq<Effect>) {
    forall i :: 0 <= i < |effects| ==> !effects[i].Alert?
  }
}
