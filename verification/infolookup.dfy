/** The `/info` lookup stated directly as a three-way outcome — manifest
    found, manifest legitimately absent, or failure — written by cases rather
    than through Python's `dict.get` defaults and exception handling. It
    serves as the reference the handler is proved against. */
module InfoLookup {
  import opened Values
  import opened PyRuntime
  import opened Gateway

  /** The three outcomes of fetching the app-compose manifest. */
  datatype AppComposeLookup =
    | Found(manifest: Json)
    | NotFound
    | Failed(message: string)

  /** Classify what the agent's info call produced. A missing `tcb_info`, an
      `app_compose` that is missing or `null`, means "no manifest"; a failed
      call, or a `tcb_info` that is not an object, is a failure. */
  function FetchAppCompose(call: AgentResult<InfoPayload>): (l: AppComposeLookup)
    ensures l.Found? ==> !l.manifest.Null?
  {
    match call
    case Err(m) => Failed(m)
    case Ok(info) =>
      if "tcb_info" !in info then NotFound
      else
        match info["tcb_info"]
        case Object(tcb) =>
          if "app_compose" !in tcb || tcb["app_compose"].Null? then NotFound
          else Found(tcb["app_compose"])
        case other => Failed(NoAttributeMessage(other, "get"))
  }

  /** The HTTP response for each lookup outcome. */
  function ToResponse(l: AppComposeLookup): (r: Response)
    ensures l.Found? <==> r.status == 200
    ensures l.NotFound? <==> r.status == 404
    ensures l.Failed? <==> r.status == 500
    ensures l.Found? ==> r.body == l.manifest
    ensures l.NotFound? ==> r.body == DetailBody(NotFoundDetail)
    ensures l.Failed? ==> r.body == DetailBody(l.message)
  {
    match l
    case Found(v) => Response(200, v)
    case NotFound => Response(404, DetailBody(NotFoundDetail))
    case Failed(m) => Response(500, DetailBody(m))
  }
}
