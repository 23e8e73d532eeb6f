/** The webhook client: one POST to the n8n webhook, and the classification
    of whatever came back into a corrected snippet or one of the three
    webhook error kinds. The transport is not performed here: what
    `requests.post` did is an input (`TransportOutcome`). */
module N8nClient {
  import opened PyJson
  import Decimal

  /** `N8NWebhookError` and its three subclasses; every value is an
      `N8NWebhookError` carrying its message. */
  datatype WebhookError =
    | TimeoutError(message: string)
    | UpstreamError(message: string)
    | ResponseError(message: string)

  /** What `requests.post` did: raised a `RequestException` (which is also a
      `Timeout` when `timeout` holds, as a connect or read timeout is), or
      returned a response with a status code and a body that does or does
      not decode as JSON. */
  datatype TransportOutcome =
    | TransportRaised(timeout: bool)
    | Responded(status: int, body: BodyParse)

  /** The one outbound call: `POST url` with JSON body and timeout. */
  datatype OutboundPost = OutboundPost(url: string, json: Json, timeoutSeconds: real)

  /** How `patch_code_via_n8n` ends: it returns the corrected code, raises a
      webhook error, or lets the `AttributeError` of `payload.get` escape. */
  datatype CallResult =
    | Returned(correctedCode: string)
    | Raised(error: WebhookError)
    | Uncaught(fault: Fault)

  const CorrectedCodeKey := "corrected_code"
  const TimeoutMessage := "n8n webhook request timed out"
  const TransportMessage := "Failed to call n8n webhook"
  const ServerErrorPrefix := "n8n webhook returned server error "
  const UnexpectedStatusPrefix := "n8n webhook returned unexpected status "
  const NotJsonMessage := "n8n webhook response was not valid JSON"
  const MissingFieldMessage := "n8n webhook response missing 'corrected_code' string"

  /** The request the client sends: `{"code": code}` to the configured URL
      under the configured timeout. */
  function WebhookRequest(code: string, url: string, timeoutSeconds: real): (p: OutboundPost)
    ensures p.url == url && p.timeoutSeconds == timeoutSeconds
    ensures HasString(p.json, "code") && p.json.fields["code"] == JString(code)
    ensures p.json.fields.Keys == {"code"}
  {
    OutboundPost(url, JObject(map["code" := JString(code)]), timeoutSeconds)
  }

  /** The body was decoded, is a dict, and holds a string `corrected_code`. */
  predicate CarriesCorrection(o: TransportOutcome) {
    o.Responded? && o.body.Parsed? && HasString(o.body.value, CorrectedCodeKey)
  }

  /** The decision chain of `patch_code_via_n8n` after the POST: transport
      exceptions first (timeout before any other), then the status (5xx,
      then 4xx), then JSON decoding, then the `corrected_code` field. */
  function Classify(o: TransportOutcome): (r: CallResult)
    // Success only for a status below 400 and a dict with a string field,
    // and the string comes back unchanged.
    ensures r.Returned? <==> (CarriesCorrection(o) && o.status < 400)
    ensures r.Returned? ==> CarriesCorrection(o) && o.body.value.fields[CorrectedCodeKey] == JString(r.correctedCode)
    // Each error kind has exactly its own inputs.
    ensures (r.Raised? && r.error.TimeoutError?) <==> o == TransportRaised(true)
    ensures (r.Raised? && r.error.UpstreamError?) <==>
              (o == TransportRaised(false) || (o.Responded? && o.status >= 400))
    ensures (r.Raised? && r.error.ResponseError?) <==>
              (o.Responded? && o.status < 400 &&
               (o.body.NotJson? || (o.body.value.JObject? && !HasString(o.body.value, CorrectedCodeKey))))
    // The escape: a status below 400 with JSON that is not a dict.
    ensures r.Uncaught? <==> (o.Responded? && o.status < 400 && o.body.Parsed? && !o.body.value.JObject?)
    ensures r.Uncaught? ==> o.Responded? && o.body.Parsed? && r.fault == AttributeError(TypeName(o.body.value))
    // Fixed messages of the kinds that do not carry a status.
    ensures r.Raised? && r.error.TimeoutError? ==> r.error.message == TimeoutMessage
    ensures r.Raised? && o.TransportRaised? && !o.timeout ==> r.error.message == TransportMessage
    ensures r.Raised? && r.error.ResponseError? ==>
              r.error.message == (if o.body.NotJson? then NotJsonMessage else MissingFieldMessage)
  {
    match o
    case TransportRaised(timeout) =>
      if timeout then Raised(TimeoutError(TimeoutMessage)) else Raised(UpstreamError(TransportMessage))
    case Responded(status, body) =>
      if status >= 500 then Raised(UpstreamError(ServerErrorPrefix + Decimal.NatToString(status)))
      else if status >= 400 then Raised(UpstreamError(UnexpectedStatusPrefix + Decimal.NatToString(status)))
      else
        match body
        case NotJson => Raised(ResponseError(NotJsonMessage))
        case Parsed(payload) =>
          match Get(payload, CorrectedCodeKey)
          case Raises(fault) => Uncaught(fault)
          case Value(field) =>
            if field.JString? then Returned(field.s) else Raised(ResponseError(MissingFieldMessage))
  }

  /** `patch_code_via_n8n`: send the request, classify what came back.
      `transport` stands for the network and the webhook behind it. */
  function PatchCodeViaN8n(code: string, url: string, timeoutSeconds: real,
                           transport: OutboundPost -> TransportOutcome): (r: CallResult)
    // Success only when the webhook's answer to the one request carrying
    // the code has a status below 400 and a string `corrected_code`, which
    // is returned unchanged.
    ensures var o := transport(WebhookRequest(code, url, timeoutSeconds));
            r.Returned? <==> (CarriesCorrection(o) && o.status < 400)
    ensures var o := transport(WebhookRequest(code, url, timeoutSeconds));
            r.Returned? ==> CarriesCorrection(o) && o.body.value.fields[CorrectedCodeKey] == JString(r.correctedCode)
    // Each error kind, and the escape, has exactly its own answers.
    ensures var o := transport(WebhookRequest(code, url, timeoutSeconds));
            (r.Raised? && r.error.TimeoutError?) <==> o == TransportRaised(true)
    ensures var o := transport(WebhookRequest(code, url, timeoutSeconds));
            (r.Raised? && r.error.UpstreamError?) <==>
            (o == TransportRaised(false) || (o.Responded? && o.status >= 400))
    ensures var o := transport(WebhookRequest(code, url, timeoutSeconds));
            (r.Raised? && r.error.ResponseError?) <==>
            (o.Responded? && o.status < 400 &&
             (o.body.NotJson? || (o.body.value.JObject? && !HasString(o.body.value, CorrectedCodeKey))))
    ensures var o := transport(WebhookRequest(code, url, timeoutSeconds));
            r.Uncaught? <==> (o.Responded? && o.status < 400 && o.body.Parsed? && !o.body.value.JObject?)
    ensures var o := transport(WebhookRequest(code, url, timeoutSeconds));
            r.Uncaught? ==> o.Responded? && o.body.Parsed? && r.fault == AttributeError(TypeName(o.body.value))
    // The messages: fixed ones, and the status after its prefix.
    ensures r.Raised? && r.error.TimeoutError? ==> r.error.message == TimeoutMessage
    ensures var o := transport(WebhookRequest(code, url, timeoutSeconds));
            r.Raised? && o.TransportRaised? && !o.timeout ==> r.error.message == TransportMessage
    ensures var o := transport(WebhookRequest(code, url, timeoutSeconds));
            o.Responded? && o.status >= 500 ==>
            r.Raised? && Decimal.NumberAfter(ServerErrorPrefix, r.error.message) == Decimal.Some(o.status)
    ensures var o := transport(WebhookRequest(code, url, timeoutSeconds));
            o.Responded? && 400 <= o.status < 500 ==>
            r.Raised? && Decimal.NumberAfter(UnexpectedStatusPrefix, r.error.message) == Decimal.Some(o.status)
    ensures var o := transport(WebhookRequest(code, url, timeoutSeconds));
            r.Raised? && r.error.ResponseError? ==>
            r.error.message == (if o.body.NotJson? then NotJsonMessage else MissingFieldMessage)
  {
    var o := transport(WebhookRequest(code, url, timeoutSeconds));
    if o.Responded? && o.status >= 500 then
      ServerErrorCarriesStatus(o.status, o.body);
      Classify(o)
    else if o.Responded? && o.status >= 400 then
      ClientErrorCarriesStatus(o.status, o.body);
      Classify(o)
    else
      Classify(o)
  }

  /** A status of 500 or more is a server error whatever the body, and the
      status can be read back from the message. */
  lemma ServerErrorCarriesStatus(status: int, body: BodyParse)
    requires status >= 500
    ensures Classify(Responded(status, body)).Raised?
    ensures Classify(Responded(status, body)).error.UpstreamError?
    ensures Decimal.NumberAfter(ServerErrorPrefix, Classify(Responded(status, body)).error.message) == Decimal.Some(status)
  {
    Decimal.NumberAfterRendering(ServerErrorPrefix, status);
  }

  /** A status from 400 to 499 is an "unexpected status" upstream error
      whatever the body, and the status can be read back from the message. */
  lemma ClientErrorCarriesStatus(status: int, body: BodyParse)
    requires 400 <= status < 500
    ensures Classify(Responded(status, body)).Raised?
    ensures Classify(Responded(status, body)).error.UpstreamError?
    ensures Decimal.NumberAfter(UnexpectedStatusPrefix, Classify(Responded(status, body)).error.message) == Decimal.Some(status)
    ensures Decimal.NumberAfter(ServerErrorPrefix, Classify(Responded(status, body)).error.message) == Decimal.None
  {
    Decimal.NumberAfterRendering(UnexpectedStatusPrefix, status);
    var m := Classify(Responded(status, body)).error.message;
    assert m[..|ServerErrorPrefix|] != ServerErrorPrefix by {
      assert m[21] == 'u' && ServerErrorPrefix[21] == 's';
    }
  }

  /** Two error responses produce the same message only for the same status. */
  lemma StatusMessagesInjective(s1: int, b1: BodyParse, s2: int, b2: BodyParse)
    requires s1 >= 400 && s2 >= 400
    requires Classify(Responded(s1, b1)) == Classify(Responded(s2, b2))
    ensures s1 == s2
  {
    if s1 >= 500 && s2 >= 500 {
      ServerErrorCarriesStatus(s1, b1);
      ServerErrorCarriesStatus(s2, b2);
    } else if s1 < 500 && s2 < 500 {
      ClientErrorCarriesStatus(s1, b1);
      ClientErrorCarriesStatus(s2, b2);
    } else if s1 >= 500 {
      ServerErrorCarriesStatus(s1, b1);
      ClientErrorCarriesStatus(s2, b2);
    } else {
      ClientErrorCarriesStatus(s1, b1);
      ServerErrorCarriesStatus(s2, b2);
    }
  }

  /** The call depends on nothing but what the webhook answered to the one
      request it was sent: equal answers give equal results. */
  lemma ClientIsStateless(code: string, url: string, timeoutSeconds: real,
                          t1: OutboundPost -> TransportOutcome, t2: OutboundPost -> TransportOutcome)
    requires t1(WebhookRequest(code, url, timeoutSeconds)) == t2(WebhookRequest(code, url, timeoutSeconds))
    ensures PatchCodeViaN8n(code, url, timeoutSeconds, t1) == PatchCodeViaN8n(code, url, timeoutSeconds, t2)
  {
  }

  /** The corrected classification: a decoded body that is not a dict is a
      malformed response like a dict without the field, so the call never
      ends in anything but a result or a webhook error. */
  function ClassifyCorrected(o: TransportOutcome): (r: CallResult)
    ensures !r.Uncaught?
    ensures r.Returned? <==> (CarriesCorrection(o) && o.status < 400)
    ensures r.Returned? ==> CarriesCorrection(o) && o.body.value.fields[CorrectedCodeKey] == JString(r.correctedCode)
    ensures !Classify(o).Uncaught? ==> r == Classify(o)
    ensures Classify(o).Uncaught? ==> r == Raised(ResponseError(MissingFieldMessage))
  {
    match o
    case Responded(status, Parsed(payload)) =>
      if status < 400 && !payload.JObject? then Raised(ResponseError(MissingFieldMessage)) else Classify(o)
    case _ => Classify(o)
  }

  /** As written, a webhook that answers 200 with a JSON list makes
      `patch_code_via_n8n` raise `AttributeError` rather than a webhook
      error; the corrected classification reports a response error. */
  lemma ListBodyEscapes()
    ensures Classify(Responded(200, Parsed(JArray([])))) == Uncaught(AttributeError("list"))
    ensures ClassifyCorrected(Responded(200, Parsed(JArray([])))) == Raised(ResponseError(MissingFieldMessage))
  {
  }
}
