# Attestation gateway: response shaping and error mapping

A Dafny model of the two HTTP handlers of a small FastAPI gateway in front of a
TEE attestation agent (`main.py`):

- `GET /quote` asks the agent for a fresh quote and event log. It answers 200
  with exactly those two fields, or 500 with the error's text.
- `GET /info` asks the agent for its info. It looks up `tcb_info`, defaulting
  to `{}` when the key is missing, and then `app_compose` in it. It answers
  200 with the manifest verbatim when the manifest is not `None`. It answers
  404 with the fixed detail `"app_compose not found in tcb_info"` when there is
  no manifest. It answers 500 with the exception's text when anything else
  raised.

Each handler is a pure function from the agent's outcome
(`AgentResult = Ok(value) | Err(message)`) to a `Response(status, body)`. The
model keeps the program's structure: a `try` body evaluates to
`Outcome = Returned(value) | Raised(exception)`, with `:-` playing the part
of Python's exception propagation. An `except` clause maps the exception to an
`HTTPException`, and FastAPI's rendering gives the response. Python's
`dict.get` is modelled with its real behaviour: the default applies only
when the key is missing, and `.get` on anything but a dict raises
`AttributeError` with the interpreter's message.

Files:

- `values.dfy`: the JSON value type, where objects are `map<string, Json>`.
- `pyruntime.dfy`: exceptions, `Outcome`, `dict.get` and `str(e)`.
- `gateway.dfy`: the two handlers.
- `infolookup.dfy`: an independent reference. It states the `/info` lookup as the
  three-way outcome found / not found / failed, written by plain case analysis.
- `properties.dfy`: lemmas over all agent outcomes.

One might expect a `tcb_info` that is `null` to count as a missing one. The
code defaults only a missing key (main.py:38). A `tcb_info` that is present but
`null` (or any other non-object) makes line 39 call `.get` on it. That raises
`AttributeError`, which the handler turns into a 500 with detail
`'NoneType' object has no attribute 'get'` (`NullTcbInfoIsServerError`,
`FailuresAreServerErrors`).

Statelessness holds by construction. Both handlers are functions of the agent
outcome alone, so the same outcome always gives the same response, and no
state is carried from one request to the next.

## Model

| member | source | states |
|---|---|---|
| Gateway.GetQuote | main.py:18-27 | status is 200 exactly when the agent call succeeds; the body then has the keys `quote` and `event_log` and no others, holding the agent's strings unchanged; a failed call gives 500 with detail equal to the error's text |
| Gateway.InfoTryBody | main.py:34-46 | the `try` body never returns `None`, and the only HTTPException it raises is the fixed 404 |
| Gateway.GetInfo | main.py:29-52 | the status is always 200, 404 or 500; a 200 body is never null; a 404 always carries the fixed detail; a failed agent call always gives 500 with its text |
| InfoLookup.FetchAppCompose | main.py:35-46 | reference three-way lookup: a found manifest is never null |
| GatewayProperties.InfoMatchesLookup | main.py:29-52 | for every agent outcome, the handler's response equals the reference lookup's response |
| GatewayProperties.ManifestPassedThrough | main.py:37-42 | a non-null `tcb_info.app_compose` value V gives 200 with body exactly V |
| GatewayProperties.MissingTcbInfoIsNotFound | main.py:38-46 | a payload without `tcb_info` gives the 404 with detail "app_compose not found in tcb_info" |
| GatewayProperties.AbsentManifestIsNotFound | main.py:39-46 | an object `tcb_info` whose `app_compose` is missing or null gives the same 404 |
| GatewayProperties.FalsyManifestsAreServed | main.py:41-42 | an empty object, empty list, empty string, 0 or false as manifest still gives 200 with that value |
| GatewayProperties.NotFoundIsReraised | main.py:44-50 | the try body raising an HTTPException is exactly the case of a 404 response, and that response is the fixed 404, never a 500 |
| GatewayProperties.FailuresAreServerErrors | main.py:35-52 | the response is 500 exactly when the agent call fails or `tcb_info` is present but not an object; every non-HTTP exception becomes 500 with its text |
| GatewayProperties.NullTcbInfoIsServerError | main.py:38-39 | `tcb_info: null` is not defaulted; it gives 500 with detail "'NoneType' object has no attribute 'get'" |
| GatewayProperties.ServableManifests | main.py:37-42 | the bodies `/info` can answer 200 with are exactly the non-null JSON values |
| GatewayProperties.Scenarios | main.py:29-52 | worked examples: `{"name": "app1"}` is served as is, an empty `tcb_info` gives the 404, a connection error on `/quote` gives 500 with its text |

## Left out

- Uvicorn startup and the bind address and port (main.py:54-55): process plumbing.
- Client construction and how it locates the agent, by socket path or the simulator endpoint variable (main.py:14-16): the agent SDK is not part of this model. Its calls appear only as an `Ok | Err` input, and `Err` carries the text `str(e)` of the exception the client raised, which is assumed not to be an `HTTPException` (see the `Gateway.Await` line below).
- `async`/`await` suspension and concurrent request handling: the handlers share no mutable state.
- FastAPI routing, `response_model` validation, JSON serialisation, and pydantic's `.dict()` conversion (main.py:7-9, 12, 18, 29, 37): framework behaviour. The `.dict()` output is taken as the given payload, a dict of JSON values.
- Floating-point JSON numbers: the model's numbers are integers. A float manifest would behave like an integer one, since it is non-null; a float `tcb_info` would report the type name `float`.
- The content and meaning of `quote` and `event_log`: opaque strings produced by the agent.
- Any exception other than `AgentError`, `AttributeError` or `HTTPException`: none can arise in the handlers' bodies once the agent call is abstracted.
- Gateway.Await: the agent client is assumed never to raise FastAPI's own `HTTPException`; every client failure is modelled as `AgentError`. If it did raise one, `/info` would re-raise it unchanged (main.py:49-50) and answer with that exception's status and detail, so `GetInfo`'s "status is 200, 404 or 500" and `NotFoundIsReraised`'s "every 404 is the fixed one" rest on this assumption; `/quote` would turn it into a 500 whose detail is the exception's `str()` (main.py:26-27), which the model's `ExcText` does not define for `HTTPException`.
