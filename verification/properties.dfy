/** Properties of the two handlers over every possible agent outcome. */
module GatewayProperties {
  import opened Values
  import opened PyRuntime
  import opened Gateway
  import opened InfoLookup

  /** An info payload whose `tcb_info.app_compose` is `v`. */
  function WithManifest(v: Json): (info: InfoPayload)
    ensures "tcb_info" in info && info["tcb_info"].Object?
    ensures "app_compose" in info["tcb_info"].fields
    ensures info["tcb_info"].fields["app_compose"] == v
  {
    map["tcb_info" := Object(map["app_compose" := v])]
  }

  /** The handler, written with Python's defaults and exception handling,
      gives exactly the response the three-way lookup assigns. */
  lemma InfoMatchesLookup(call: AgentResult<InfoPayload>)
    ensures GetInfo(call) == ToResponse(FetchAppCompose(call))
  {
  }

  /** A non-null manifest is returned with status 200 as it is, nested
      structure included. */
  lemma ManifestPassedThrough(info: InfoPayload, v: Json)
    requires "tcb_info" in info && info["tcb_info"].Object?
    requires "app_compose" in info["tcb_info"].fields
    requires info["tcb_info"].fields["app_compose"] == v
    requires !v.Null?
    ensures GetInfo(Ok(info)) == Response(200, v)
  {
  }

  /** A payload without `tcb_info` is answered with the fixed 404. */
  lemma MissingTcbInfoIsNotFound(info: InfoPayload)
    requires "tcb_info" !in info
    ensures GetInfo(Ok(info)) == Response(404, DetailBody(NotFoundDetail))
  {
  }

  /** An object `tcb_info` whose `app_compose` is missing or null is
      answered with the same fixed 404. */
  lemma AbsentManifestIsNotFound(info: InfoPayload)
    requires "tcb_info" in info && info["tcb_info"].Object?
    requires "app_compose" !in info["tcb_info"].fields
          || info["tcb_info"].fields["app_compose"].Null?
    ensures GetInfo(Ok(info)) == Response(404, DetailBody(NotFoundDetail))
  {
  }

  /** Presence is tested with `is not None`, not truthiness: the empty
      object, the empty list, the empty string, 0 and false are all served. */
  lemma FalsyManifestsAreServed()
    ensures GetInfo(Ok(WithManifest(Object(map[])))) == Response(200, Object(map[]))
    ensures GetInfo(Ok(WithManifest(Array([])))) == Response(200, Array([]))
    ensures GetInfo(Ok(WithManifest(Str("")))) == Response(200, Str(""))
    ensures GetInfo(Ok(WithManifest(Int(0)))) == Response(200, Int(0))
    ensures GetInfo(Ok(WithManifest(Bool(false)))) == Response(200, Bool(false))
  {
  }

  /** The 404 raised inside the `try` reaches the client as it is: whenever
      the `try` body raises an `HTTPException`, the response is that 404, and
      every 404 response comes from it. */
  lemma NotFoundIsReraised(call: AgentResult<InfoPayload>)
    ensures InfoTryBody(call).Raised? && InfoTryBody(call).exc.HttpException? <==>
            GetInfo(call).status == 404
    ensures InfoTryBody(call).Raised? && InfoTryBody(call).exc.HttpException? ==>
            GetInfo(call) == Response(404, DetailBody(NotFoundDetail))
  {
  }

  /** Every other exception — the agent call failing, or `.get` on a
      `tcb_info` that is not a dict — is answered with 500 and its text, and
      these are the only 500s. */
  lemma FailuresAreServerErrors(call: AgentResult<InfoPayload>)
    ensures GetInfo(call).status == 500 <==>
            call.Err? || ("tcb_info" in call.value && !call.value["tcb_info"].Object?)
    ensures InfoTryBody(call).Raised? && !InfoTryBody(call).exc.HttpException? ==>
            GetInfo(call) == Response(500, DetailBody(ExcText(InfoTryBody(call).exc)))
  {
  }

  /** A `tcb_info` that is present but null is not defaulted: `.get` is
      called on `None`, and the resulting AttributeError becomes a 500. */
  lemma NullTcbInfoIsServerError(info: InfoPayload)
    requires "tcb_info" in info && info["tcb_info"].Null?
    ensures GetInfo(Ok(info)) ==
            Response(500, DetailBody("'NoneType' object has no attribute 'get'"))
  {
    var msg := NoAttributeMessage(Null, "get");
    assert msg == "'" + "NoneType" + "' object has no attribute '" + "get" + "'";
    assert msg == "'NoneType' object has no attribute 'get'";
    assert InfoTryBody(Ok(info)) == Raised(AttributeError(msg));
  }

  /** The bodies `/info` can answer 200 with are exactly the non-null JSON
      values: the handler never serves null, and can serve anything else. */
  lemma ServableManifests(v: Json)
    ensures (exists info: InfoPayload :: GetInfo(Ok(info)) == Response(200, v)) <==> !v.Null?
  {
    if !v.Null? {
      ManifestPassedThrough(WithManifest(v), v);
    }
  }

  /** The worked examples of the gateway's behaviour. */
  lemma Scenarios()
    ensures GetInfo(Ok(WithManifest(Object(map["name" := Str("app1")]))))
         == Response(200, Object(map["name" := Str("app1")]))
    ensures GetInfo(Ok(map["tcb_info" := Object(map[])]))
         == Response(404, Object(map["detail" := Str("app_compose not found in tcb_info")]))
    ensures GetQuote(Err("connection refused"))
         == Response(500, Object(map["detail" := Str("connection refused")]))
  {
  }
}
