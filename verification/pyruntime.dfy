/** The small part of Python's runtime behaviour the handlers rely on:
    the exceptions that can be raised, evaluation that either returns or
    raises, `dict.get`, and `str(e)`. */
module PyRuntime {
  import opened Values

  /** The exceptions a handler can meet. */
  datatype Exception =
      /** Anything the attestation agent's client raises; `message` is its `str()`. */
    | AgentError(message: string)
      /** Looking up a method a value does not have. */
    | AttributeError(message: string)
      /** FastAPI's `HTTPException(status_code, detail)`. */
    | HttpException(status: int, detail: string)

  /** The result of evaluating a block of Python: a value, or a raised exception.
      Failure-compatible, so `:-` propagates a raised exception the way Python does. */
  datatype Outcome<+T> = Returned(value: T) | Raised(exc: Exception) {

    predicate IsFailure() {
      Raised?
    }

    function PropagateFailure<U>(): Outcome<U>
      requires Raised?
    {
      Raised(exc)
    }

    function Extract(): T
      requires Returned?
    {
      value
    }
  }

  /** The message Python gives when `attr` is looked up on a value lacking it. */
  function NoAttributeMessage(receiver: Json, attr: string): (msg: string) {
    "'" + PyTypeName(receiver) + "' object has no attribute '" + attr + "'"
  }

  /** `d.get(key, default)` on a value statically known to be a dict. */
  function MapGet(d: map<string, Json>, key: string, default: Json): (v: Json)
    ensures key in d ==> v == d[key]
    ensures key !in d ==> v == default
  {
    if key in d then d[key] else default
  }

  /** `receiver.get(key, default)` on an arbitrary value: only dicts have `get`,
      every other value raises AttributeError. */
  function DictGet(receiver: Json, key: string, default: Json): (r: Outcome<Json>)
    ensures r.Returned? <==> receiver.Object?
    ensures receiver.Object? && key in receiver.fields ==> r == Returned(receiver.fields[key])
    ensures receiver.Object? && key !in receiver.fields ==> r == Returned(default)
    ensures r.Raised? ==> r.exc == AttributeError(NoAttributeMessage(receiver, "get"))
  {
    match receiver
    case Object(d) => Returned(MapGet(d, key, default))
    case _ => Raised(AttributeError(NoAttributeMessage(receiver, "get")))
  }

  /** `str(e)` for the exceptions a handler converts into a 500 response. */
  function ExcText(e: Exception): (text: string)
    requires !e.HttpException?
  {
    e.message
  }
}
