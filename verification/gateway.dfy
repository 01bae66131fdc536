/** The two HTTP handlers of the gateway, `/quote` and `/info`, as pure
    functions from what the attestation agent answered to the HTTP response.
    Each handler is written the way the program is: a `try` body that returns
    or raises, an `except` clause that turns what was raised into an
    `HTTPException`, and FastAPI rendering the outcome. */
module Gateway {
  import opened Values
  import opened PyRuntime

  /** What one call to the attestation agent produced: its result, or the
      `str()` of the exception the client raised. */
  datatype AgentResult<+T> = Ok(value: T) | Err(message: string)

  /** The agent's answer to a quote request; both fields are opaque strings. */
  datatype QuoteData = QuoteData(quote: string, event_log: string)

  /** The agent's answer to an info request, after `.dict()`: always a dict. */
  type InfoPayload = map<string, Json>

  /** An HTTP response: a status code and a JSON body. */
  datatype Response = Response(status: int, body: Json)

  /** The fixed detail of the `/info` not-found response. */
  const NotFoundDetail: string := "app_compose not found in tcb_info"

  /** The body FastAPI gives an `HTTPException` response. */
  function DetailBody(detail: string): (body: Json)
    ensures body.Object? && body.fields.Keys == {"detail"}
    ensures body.fields["detail"] == Str(detail)
  {
    Object(map["detail" := Str(detail)])
  }

  /** Awaiting the agent's client: its value, or the exception it raised. */
  function Await<T>(call: AgentResult<T>): (r: Outcome<T>)
    ensures call.Ok? <==> r.Returned?
    ensures call.Ok? ==> r.value == call.value
    ensures call.Err? ==> r.exc == AgentError(call.message)
  {
    match call
    case Ok(v) => Returned(v)
    case Err(m) => Raised(AgentError(m))
  }

  /** How FastAPI answers a handler that returned a value or raised an
      `HTTPException`: 200 with the value, or the exception's status with its
      detail. */
  function Render(o: Outcome<Json>): (r: Response)
    requires o.Raised? ==> o.exc.HttpException?
    ensures o.Returned? ==> r == Response(200, o.value)
    ensures o.Raised? ==> r == Response(o.exc.status, DetailBody(o.exc.detail))
  {
    match o
    case Returned(v) => Response(200, v)
    case Raised(HttpException(status, detail)) => Response(status, DetailBody(detail))
  }

  // ---------------------------------------------------------------- /quote

  /** The JSON of a `QuoteResponse` model: exactly the two declared fields. */
  function QuoteResponseJson(quote: string, event_log: string): (body: Json)
    ensures body.Object? && body.fields.Keys == {"quote", "event_log"}
    ensures body.fields["quote"] == Str(quote)
    ensures body.fields["event_log"] == Str(event_log)
  {
    Object(map["quote" := Str(quote), "event_log" := Str(event_log)])
  }

  /** The `try` body of the `/quote` handler. */
  function QuoteTryBody(call: AgentResult<QuoteData>): (r: Outcome<Json>) {
    var data :- Await(call);
    Returned(QuoteResponseJson(data.quote, data.event_log))
  }

  /** The `except Exception` clause of the `/quote` handler: whatever was
      raised becomes a 500 whose detail is its text. */
  function QuoteExcept(e: Exception): (h: Exception)
    requires !e.HttpException?
    ensures h.HttpException? && h.status == 500 && h.detail == ExcText(e)
  {
    HttpException(500, ExcText(e))
  }

  /** `GET /quote`: the agent's quote and event log passed through unchanged,
      or a 500 carrying the agent's error. */
  function GetQuote(call: AgentResult<QuoteData>): (r: Response)
    ensures r.status == 200 <==> call.Ok?
    ensures call.Ok? ==> r.body.Object? && r.body.fields.Keys == {"quote", "event_log"}
    ensures call.Ok? ==> r.body.fields["quote"] == Str(call.value.quote)
    ensures call.Ok? ==> r.body.fields["event_log"] == Str(call.value.event_log)
    ensures call.Err? ==> r == Response(500, DetailBody(call.message))
  {
    match QuoteTryBody(call)
    case Returned(v) => Render(Returned(v))
    case Raised(e) => Render(Raised(QuoteExcept(e)))
  }

  // ----------------------------------------------------------------- /info

  /** The `try` body of the `/info` handler: look up `tcb_info` (defaulting
      to an empty dict when the key is missing), then `app_compose` in it
      (defaulting to `None`), and return it unless it is `None`. The second
      lookup raises when `tcb_info` is present but is not a dict. */
  function InfoTryBody(call: AgentResult<InfoPayload>): (r: Outcome<Json>)
    ensures r.Returned? ==> !r.value.Null?
    ensures r.Raised? && r.exc.HttpException? ==> r.exc == HttpException(404, NotFoundDetail)
  {
    var info :- Await(call);
    var tcbInfo := MapGet(info, "tcb_info", Object(map[]));
    var appCompose :- DictGet(tcbInfo, "app_compose", Null);
    if appCompose != Null then Returned(appCompose)
    else Raised(HttpException(404, NotFoundDetail))
  }

  /** The `except Exception` clause of the `/info` handler: an
      `HTTPException` is re-raised as it is, anything else becomes a 500 whose
      detail is its text. */
  function InfoExcept(e: Exception): (h: Exception)
    ensures h.HttpException?
    ensures e.HttpException? ==> h == e
    ensures !e.HttpException? ==> h.status == 500 && h.detail == ExcText(e)
  {
    if e.HttpException? then e else HttpException(500, ExcText(e))
  }

  /** `GET /info`: the app-compose manifest, a 404 when there is none, or a
      500 when the agent call or the lookup failed. */
  function GetInfo(call: AgentResult<InfoPayload>): (r: Response)
    ensures r.status in {200, 404, 500}
    ensures r.status == 200 ==> call.Ok? && !r.body.Null?
    ensures r.status == 404 ==> call.Ok? && r.body == DetailBody(NotFoundDetail)
    ensures call.Err? ==> r == Response(500, DetailBody(call.message))
  {
    match InfoTryBody(call)
    case Returned(v) => Render(Returned(v))
    case Raised(e) => Render(Raised(InfoExcept(e)))
  }
}
