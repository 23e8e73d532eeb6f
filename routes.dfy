/** The two API views: `GET /api/health` and `POST /api/patch-code`. A view
    either returns a JSON body with a status, or lets an exception escape to
    Flask, which answers 500. The request is seen through what Flask reports
    of it (`request.is_json` and the decoded body) and the webhook through
    the `transport` function of `N8nClient`. */
module Routes {
  import opened PyJson
  import N8nClient

  /** An inbound request: whether its declared content type is JSON, and
      what decoding its body gave. */
  datatype Request = Request(isJson: bool, body: BodyParse)

  /** The webhook URL and timeout, passed through to the client unread. */
  datatype WebhookConfig = WebhookConfig(url: string, timeoutSeconds: real)

  /** What a view produced: a `(jsonify(body), status)` pair, or an
      exception that escaped it. */
  datatype ViewResult = Reply(status: int, body: Json) | Escaped(fault: Fault)

  /** What `POST /api/patch-code` did: the webhook calls it made, in order,
      and its result. */
  datatype Handled = Handled(webhookCalls: seq<N8nClient.OutboundPost>, result: ViewResult)

  /** The outcome of the validation steps of `patch_code`. */
  datatype Validation = Accepted(code: string) | Rejected(message: string) | Crashed(fault: Fault)

  const CodeKey := "code"
  const InvalidPayload := "Invalid payload"
  const NotJsonDetail := "Request must be JSON: {'code': 'raw python string'}"
  const CodeDetail := "Field 'code' is required and must be a string."
  const BadGateway := "Bad Gateway"
  const BadGatewayDetail := "Unable to retrieve corrected code from n8n webhook."

  /** The status the client sees: an escaped exception becomes Flask's
      500 Internal Server Error. */
  function HttpStatus(v: ViewResult): int {
    if v.Reply? then v.status else 500
  }

  function ErrorBody(error: string, message: string): Json {
    JObject(map["error" := JString(error), "message" := JString(message)])
  }

  function CorrectedBody(code: string): Json {
    JObject(map[N8nClient.CorrectedCodeKey := JString(code)])
  }

  /** `health`: 200 with `{"status": "ok"}`; it reads nothing. */
  function Health(): (v: ViewResult)
    ensures v.Reply? && v.status == 200
    ensures HasString(v.body, "status") && v.body.fields.Keys == {"status"}
    ensures v.body.fields["status"] == JString("ok")
  {
    Reply(200, JObject(map["status" := JString("ok")]))
  }

  /** `request.get_json(silent=True) or {}` for a request declared JSON: a
      body that does not decode, or decodes to a falsy value, becomes `{}`. */
  function Payload(body: BodyParse): (j: Json)
    ensures Truthy(j) || j == JObject(map[])
    ensures body.Parsed? && Truthy(body.value) ==> j == body.value
    ensures body.NotJson? || !Truthy(body.value) ==> j == JObject(map[])
  {
    match body
    case NotJson => JObject(map[])
    case Parsed(value) => if Truthy(value) then value else JObject(map[])
  }

  /** The validation steps of `patch_code`: the content type, then
      `payload.get("code")`, then `isinstance(code, str)`. */
  function Validate(req: Request): (v: Validation)
    // Accepted exactly for a JSON request whose body is a dict holding a
    // string `code`; the empty string included. The code is that string.
    ensures v.Accepted? <==> req.isJson && req.body.Parsed? && HasString(req.body.value, CodeKey)
    ensures v.Accepted? ==> req.body.Parsed? && req.body.value.JObject? && CodeKey in req.body.value.fields
                            && req.body.value.fields[CodeKey] == JString(v.code)
    // The content type is checked first.
    ensures !req.isJson ==> v == Rejected(NotJsonDetail)
    // `.get` on a truthy decoded value that is not a dict escapes.
    ensures v.Crashed? <==> req.isJson && req.body.Parsed? && Truthy(req.body.value) && !req.body.value.JObject?
    ensures v.Crashed? ==> req.body.Parsed? && v.fault == AttributeError(TypeName(req.body.value))
    // Every other JSON request is rejected for its `code` field.
    ensures req.isJson && v.Rejected? ==> v.message == CodeDetail
  {
    if !req.isJson then Rejected(NotJsonDetail)
    else
      match Get(Payload(req.body), CodeKey)
      case Raises(fault) => Crashed(fault)
      case Value(code) => if code.JString? then Accepted(code.s) else Rejected(CodeDetail)
  }

  /** The error-to-response mapping after the webhook call: the corrected
      code on success, one fixed 502 for every webhook error kind. */
  function Respond(r: N8nClient.CallResult): (v: ViewResult)
    ensures HttpStatus(v) == 200 <==> r.Returned?
    ensures r.Returned? ==> v.Reply? && v.body == CorrectedBody(r.correctedCode)
    // The kind and message of a webhook error are not exposed.
    ensures HttpStatus(v) == 502 <==> r.Raised?
    ensures r.Raised? ==> v == Reply(502, ErrorBody(BadGateway, BadGatewayDetail))
    ensures v.Escaped? <==> r.Uncaught?
  {
    match r
    case Returned(corrected) => Reply(200, CorrectedBody(corrected))
    case Raised(_) => Reply(502, ErrorBody(BadGateway, BadGatewayDetail))
    case Uncaught(fault) => Escaped(fault)
  }

  /** `patch_code`: validate, and only for a valid request call the webhook
      once with the validated code. */
  function PatchCode(req: Request, cfg: WebhookConfig,
                     transport: N8nClient.OutboundPost -> N8nClient.TransportOutcome): (h: Handled)
    // The webhook is called only after validation passes, exactly once,
    // with exactly the validated code and the configured URL and timeout.
    ensures h.webhookCalls ==
              if Validate(req).Accepted?
              then [N8nClient.WebhookRequest(Validate(req).code, cfg.url, cfg.timeoutSeconds)]
              else []
    // A rejected request is a 400 whose body names the reason.
    ensures Validate(req).Rejected? ==> h.result == Reply(400, ErrorBody(InvalidPayload, Validate(req).message))
    // The only statuses the client can see.
    ensures HttpStatus(h.result) in {200, 400, 500, 502}
    // 200 exactly when the webhook delivered a correction, which is passed
    // through verbatim.
    ensures HttpStatus(h.result) == 200 <==>
              (|h.webhookCalls| == 1 && N8nClient.CarriesCorrection(transport(h.webhookCalls[0]))
               && transport(h.webhookCalls[0]).status < 400)
    ensures HttpStatus(h.result) == 200 ==>
              |h.webhookCalls| == 1 &&
              h.result.body == CorrectedBody(transport(h.webhookCalls[0]).body.value.fields[N8nClient.CorrectedCodeKey].s)
    // 500 exactly when `.get` escaped, in validation or in the client.
    ensures HttpStatus(h.result) == 500 <==>
              (Validate(req).Crashed? ||
               (|h.webhookCalls| == 1 && N8nClient.Classify(transport(h.webhookCalls[0])).Uncaught?))
    // 502 exactly when the client raised one of the webhook error kinds.
    ensures HttpStatus(h.result) == 502 <==>
              (|h.webhookCalls| == 1 && N8nClient.Classify(transport(h.webhookCalls[0])).Raised?)
  {
    match Validate(req)
    case Rejected(message) => Handled([], Reply(400, ErrorBody(InvalidPayload, message)))
    case Crashed(fault) => Handled([], Escaped(fault))
    case Accepted(code) =>
      var call := N8nClient.WebhookRequest(code, cfg.url, cfg.timeoutSeconds);
      Handled([call], Respond(N8nClient.PatchCodeViaN8n(code, cfg.url, cfg.timeoutSeconds, transport)))
  }

  /** A request not declared JSON is rejected with the "must be JSON" 400,
      whatever its body, and the webhook is never called. */
  lemma NonJsonRequestRejected(req: Request, cfg: WebhookConfig,
                               transport: N8nClient.OutboundPost -> N8nClient.TransportOutcome)
    requires !req.isJson
    ensures PatchCode(req, cfg, transport) == Handled([], Reply(400, ErrorBody(InvalidPayload, NotJsonDetail)))
  {
  }

  /** A JSON request whose payload is a dict without a string `code`
      (missing, null, a number, a dict, ...) is rejected with the 400 that
      names `code`, and the webhook is never called. */
  lemma MissingCodeRejected(req: Request, cfg: WebhookConfig,
                            transport: N8nClient.OutboundPost -> N8nClient.TransportOutcome)
    requires req.isJson && Payload(req.body).JObject? && !HasString(Payload(req.body), CodeKey)
    ensures PatchCode(req, cfg, transport) == Handled([], Reply(400, ErrorBody(InvalidPayload, CodeDetail)))
    ensures CodeDetail[7..11] == CodeKey
  {
    assert CodeDetail[7] == 'c' && CodeDetail[8] == 'o' && CodeDetail[9] == 'd' && CodeDetail[10] == 'e';
  }

  /** A JSON request whose body does not decode, or decodes to a falsy value
      (`null`, `false`, `0`, `""`, `[]`, `{}`), is treated as `{}`: the
      missing-`code` 400, with no webhook call. */
  lemma FalsyBodyTreatedAsEmpty(req: Request, cfg: WebhookConfig,
                                transport: N8nClient.OutboundPost -> N8nClient.TransportOutcome)
    requires req.isJson && (req.body.NotJson? || !Truthy(req.body.value))
    ensures Payload(req.body) == JObject(map[])
    ensures PatchCode(req, cfg, transport) == Handled([], Reply(400, ErrorBody(InvalidPayload, CodeDetail)))
  {
  }

  /** A JSON request whose body is a truthy value that is not a dict (a
      non-empty list or string, a non-zero number, `true`) makes `.get`
      raise: a 500, not a 400, and no webhook call. */
  lemma TruthyNonObjectEscapes(req: Request, cfg: WebhookConfig,
                               transport: N8nClient.OutboundPost -> N8nClient.TransportOutcome)
    requires req.isJson && req.body.Parsed? && Truthy(req.body.value) && !req.body.value.JObject?
    ensures PatchCode(req, cfg, transport) == Handled([], Escaped(AttributeError(TypeName(req.body.value))))
    ensures HttpStatus(PatchCode(req, cfg, transport).result) == 500
  {
  }

  /** The empty string is a valid `code`: it is sent to the webhook. */
  lemma EmptyCodeAccepted(cfg: WebhookConfig, transport: N8nClient.OutboundPost -> N8nClient.TransportOutcome)
    ensures Validate(Request(true, Parsed(JObject(map[CodeKey := JString("")])))) == Accepted("")
    ensures PatchCode(Request(true, Parsed(JObject(map[CodeKey := JString("")]))), cfg, transport).webhookCalls
            == [N8nClient.WebhookRequest("", cfg.url, cfg.timeoutSeconds)]
  {
  }

  /** The three webhook error kinds are indistinguishable to the client: all
      give the same 502 with the same fixed message. */
  lemma WebhookErrorsLookAlike(req: Request, cfg: WebhookConfig,
                               t1: N8nClient.OutboundPost -> N8nClient.TransportOutcome,
                               t2: N8nClient.OutboundPost -> N8nClient.TransportOutcome)
    requires Validate(req).Accepted?
    requires N8nClient.PatchCodeViaN8n(Validate(req).code, cfg.url, cfg.timeoutSeconds, t1).Raised?
    requires N8nClient.PatchCodeViaN8n(Validate(req).code, cfg.url, cfg.timeoutSeconds, t2).Raised?
    ensures PatchCode(req, cfg, t1).result == PatchCode(req, cfg, t2).result
    ensures PatchCode(req, cfg, t1).result == Reply(502, ErrorBody(BadGateway, BadGatewayDetail))
  {
  }

  /** A webhook that times out, fails to connect, or answers with a status
      of 400 or more gives the 502. */
  lemma WebhookFailureIsBadGateway(req: Request, cfg: WebhookConfig,
                                   transport: N8nClient.OutboundPost -> N8nClient.TransportOutcome)
    requires Validate(req).Accepted?
    requires var o := transport(N8nClient.WebhookRequest(Validate(req).code, cfg.url, cfg.timeoutSeconds));
             o.TransportRaised? || o.status >= 400
    ensures PatchCode(req, cfg, transport).result == Reply(502, ErrorBody(BadGateway, BadGatewayDetail))
  {
  }

  /** A webhook answer of status below 400 with `{"corrected_code": x}`
      reaches the client as 200 `{"corrected_code": x}`, unchanged. */
  lemma SuccessPassesThrough(req: Request, cfg: WebhookConfig,
                             transport: N8nClient.OutboundPost -> N8nClient.TransportOutcome,
                             status: int, fields: map<string, Json>, x: string)
    requires Validate(req).Accepted?
    requires transport(N8nClient.WebhookRequest(Validate(req).code, cfg.url, cfg.timeoutSeconds))
             == N8nClient.Responded(status, Parsed(JObject(fields)))
    requires status < 400 && N8nClient.CorrectedCodeKey in fields && fields[N8nClient.CorrectedCodeKey] == JString(x)
    ensures PatchCode(req, cfg, transport).result == Reply(200, CorrectedBody(x))
  {
  }

  /** No state is kept between requests: the response depends on the
      webhook only through its answer to the one call made, and for a
      request that fails validation not at all. */
  lemma PatchCodeIsStateless(req: Request, cfg: WebhookConfig,
                             t1: N8nClient.OutboundPost -> N8nClient.TransportOutcome,
                             t2: N8nClient.OutboundPost -> N8nClient.TransportOutcome)
    requires forall p :: p in PatchCode(req, cfg, t1).webhookCalls ==> t1(p) == t2(p)
    ensures PatchCode(req, cfg, t1) == PatchCode(req, cfg, t2)
  {
  }

  /** The corrected validation: any decoded body that is not a dict is
      rejected like a dict without `code`, so validation never escapes. */
  function ValidateCorrected(req: Request): (v: Validation)
    ensures !v.Crashed?
    ensures v.Accepted? <==> req.isJson && req.body.Parsed? && HasString(req.body.value, CodeKey)
    ensures !Validate(req).Crashed? ==> v == Validate(req)
    ensures Validate(req).Crashed? ==> v == Rejected(CodeDetail)
  {
    if req.isJson && !Payload(req.body).JObject? then Rejected(CodeDetail) else Validate(req)
  }

  /** `patch_code` built on the corrected validation and classification:
      every request ends in 200, 400 or 502, with 502 for every webhook
      failure, and nothing escapes. */
  function PatchCodeCorrected(req: Request, cfg: WebhookConfig,
                              transport: N8nClient.OutboundPost -> N8nClient.TransportOutcome): (h: Handled)
    ensures h.result.Reply? && h.result.status in {200, 400, 502}
    ensures h.webhookCalls == PatchCode(req, cfg, transport).webhookCalls
    ensures PatchCode(req, cfg, transport).result.Reply? ==> h == PatchCode(req, cfg, transport)
    ensures h.result.status == 400 <==> !Validate(req).Accepted?
    // 200 exactly when the webhook delivered a correction, passed through verbatim.
    ensures h.result.status == 200 <==>
              (|h.webhookCalls| == 1 && N8nClient.CarriesCorrection(transport(h.webhookCalls[0]))
               && transport(h.webhookCalls[0]).status < 400)
    ensures h.result.status == 200 ==>
              |h.webhookCalls| == 1 &&
              h.result.body == CorrectedBody(transport(h.webhookCalls[0]).body.value.fields[N8nClient.CorrectedCodeKey].s)
    // Every other webhook answer, the non-dict ones included, is the one 502.
    ensures |h.webhookCalls| == 1 && !N8nClient.Classify(transport(h.webhookCalls[0])).Returned? ==>
              h.result == Reply(502, ErrorBody(BadGateway, BadGatewayDetail))
  {
    match ValidateCorrected(req)
    case Rejected(message) => Handled([], Reply(400, ErrorBody(InvalidPayload, message)))
    case Accepted(code) =>
      var call := N8nClient.WebhookRequest(code, cfg.url, cfg.timeoutSeconds);
      Handled([call], Respond(N8nClient.ClassifyCorrected(transport(call))))
  }

  /** As written, a JSON request whose body is `[1]` is answered 500 rather
      than with the "Invalid payload" 400; the corrected handler gives the
      400. */
  lemma ListRequestEscapes(cfg: WebhookConfig, transport: N8nClient.OutboundPost -> N8nClient.TransportOutcome)
    ensures HttpStatus(PatchCode(Request(true, Parsed(JArray([JNumber(1)]))), cfg, transport).result) == 500
    ensures PatchCodeCorrected(Request(true, Parsed(JArray([JNumber(1)]))), cfg, transport).result
            == Reply(400, ErrorBody(InvalidPayload, CodeDetail))
  {
  }

  /** As written, a valid request whose webhook answers 200 with a JSON list
      is answered 500 rather than 502; the corrected handler gives the 502. */
  lemma ListAnswerEscapes(cfg: WebhookConfig)
    ensures HttpStatus(PatchCode(Request(true, Parsed(JObject(map[CodeKey := JString("x")]))), cfg,
                                 p => N8nClient.Responded(200, Parsed(JArray([])))).result) == 500
    ensures PatchCodeCorrected(Request(true, Parsed(JObject(map[CodeKey := JString("x")]))), cfg,
                               p => N8nClient.Responded(200, Parsed(JArray([])))).result
            == Reply(502, ErrorBody(BadGateway, BadGatewayDetail))
  {
  }
}
