# Cerberus gateway: webhook classification and request handling

Cerberus is a small Flask gateway. `POST /api/patch-code` takes a JSON body
`{"code": <string>}`, forwards the code to an n8n webhook, and returns the
corrected code the webhook sends back. `GET /api/health` answers a fixed
`{"status": "ok"}`.

This project models the two pieces of decision logic in the gateway as pure
Dafny functions:

- `N8nClient.Classify` models `patch_code_via_n8n` after the POST. It runs
  the source's checks in the same order: transport exceptions (a `Timeout`
  before any other `RequestException`), then the status (`>= 500`, then
  `>= 400`), then JSON decoding, then the `corrected_code` field. Each
  outcome ends as a returned string, one of the three `N8NWebhookError`
  kinds with the source's message, or the `AttributeError` that
  `payload.get` raises when the decoded body is not a dict. The source does
  not catch that error.
- `Routes.Validate`, `Routes.Respond` and `Routes.PatchCode` model the
  `patch_code` view:
  - the `request.is_json` check;
  - `get_json(silent=True) or {}`, which turns a body that does not decode,
    or decodes to a falsy value, into `{}`;
  - `payload.get("code")` and the `isinstance` check;
  - the webhook call and the mapping of its outcome to 200, 502 or an
    escaped exception, which Flask turns into 500.

The network is the parameter `transport: OutboundPost -> TransportOutcome`.
It stands for the webhook's answer to a given request. `PatchCode` records
the calls it makes, so its contract can say when the webhook is called and
with what.

The webhook URL and timeout are opaque parameters (`WebhookConfig`). They
are passed to the client unchanged. Python's `str()` of a status code, used
in the f-string messages, is `Decimal.NatToString`. `Decimal.NumberAfter`
parses the number back out of a message, so "the message carries the
status" is stated as a round trip.

Decoded JSON is the datatype `PyJson.Json`. `PyJson.Truthy` gives Python's
truth value for it, and `PyJson.Get` models Python's `.get`: `None` for a
missing key, and `AttributeError` on anything that is not a dict.

## Model

| member | source | states |
|---|---|---|
| `N8nClient.Classify` | cerberus_api/n8n_client.py:30-55 | Success exactly when the status is below 400, the body decodes to a dict, and `corrected_code` is a string; the string is returned unchanged. A `Timeout` (even though it is also a `RequestException`) is exactly the timeout kind. Any other transport exception, or a status of 400 or more, is exactly the upstream kind. A status below 400 with an undecodable body, or with a dict lacking a string `corrected_code`, is exactly the response kind. Any other decoded body (list, string, number, bool, null) is exactly the uncaught `AttributeError` naming its type. The fixed messages of each kind are stated too. |
| `N8nClient.WebhookRequest` | cerberus_api/n8n_client.py:25-29 | The one POST goes to the configured URL with the configured timeout, and its JSON body is a dict whose only key `code` holds exactly the given code. |
| `N8nClient.PatchCodeViaN8n` | cerberus_api/n8n_client.py:23-55 | Stated over the webhook's answer to the one request carrying the code: success exactly for a status below 400 with a dict holding a string `corrected_code`, returned unchanged; the timeout kind exactly for a `Timeout`; the upstream kind exactly for any other transport exception or a status of 400 or more; the response kind exactly for a status below 400 with an undecodable body or a dict lacking a string `corrected_code`; the escaped `AttributeError`, naming the body's type, exactly for a status below 400 with a non-dict JSON body. The messages are stated too: the fixed timeout, transport and response messages, and for a status of 400 or more, the status parsed back from the message after its prefix. |
| `N8nClient.ServerErrorCarriesStatus` | cerberus_api/n8n_client.py:35-38 | A status of 500 or more is an upstream error whatever the body, and the status is recovered by parsing the number after "server error " in the message. |
| `N8nClient.ClientErrorCarriesStatus` | cerberus_api/n8n_client.py:39-42 | A status from 400 to 499 is an upstream error whatever the body. Its message parses back to the status after "unexpected status ", and it does not read as a server-error message. |
| `N8nClient.StatusMessagesInjective` | cerberus_api/n8n_client.py:35-42 | Two error responses with the same classification have the same status, so distinct statuses give distinct messages. |
| `N8nClient.ClientIsStateless` | cerberus_api/n8n_client.py:23-55 | The result depends on nothing but the webhook's answer to the one request: equal answers give equal results (no state is kept between calls). |
| `N8nClient.ClassifyCorrected` | cerberus_api/n8n_client.py:49-53 | Corrected classification. A decoded body that is not a dict is the response kind with the missing-field message, so nothing escapes. Success is exactly as in `Classify`, and it agrees with `Classify` everywhere else. |
| `N8nClient.ListBodyEscapes` | cerberus_api/n8n_client.py:49 | A status-200 answer whose body is the JSON list `[]` escapes as `AttributeError('list')` as written, and is a response error after the correction. |
| `Decimal.NatToString` | cerberus_api/n8n_client.py:37 | Python's `str()` of a non-negative status: non-empty, digits only, and starts with `0` only for zero. |
| `Decimal.NatToStringRoundTrip` | cerberus_api/n8n_client.py:37 | Reading the decimal rendering back gives the number. |
| `Decimal.NatToStringInjective` | cerberus_api/n8n_client.py:41 | Distinct numbers have distinct renderings. |
| `Decimal.NumberAfterRendering` | cerberus_api/n8n_client.py:41 | A message built as prefix plus `str(n)` parses back to `n`. |
| `PyJson.Get` | cerberus_api/n8n_client.py:49 | `.get` raises `AttributeError` (naming the receiver's type) exactly when the receiver is not a dict. On a dict it yields `None` exactly when the key is absent or maps to `null`. |
| `PyJson.GetString` | cerberus_api/n8n_client.py:49-50 | `isinstance(x.get(key), str)` holds exactly when `x` is a dict with a string under `key`, and the value is that string. |
| `Routes.Health` | cerberus_api/routes.py:15-17 | Always 200, with body `{"status": "ok"}` and no other key. It takes no input. |
| `Routes.Payload` | cerberus_api/routes.py:33 | `get_json(silent=True) or {}`: a truthy decoded body passes through unchanged, and an undecodable or falsy body becomes `{}`. |
| `Routes.Validate` | cerberus_api/routes.py:22-45 | Accepted exactly for a JSON-typed request whose decoded body is a dict with a string `code` (the empty string included), and the accepted code is that string. A request not declared JSON gets the "Request must be JSON" rejection. Any other JSON-typed request is rejected with the `code` message, except a truthy non-dict body, which is exactly the escaped `AttributeError`. |
| `Routes.Respond` | cerberus_api/routes.py:55-67 | 200 `{"corrected_code": v}` exactly for a returned `v`. Exactly the three webhook error kinds give one and the same 502 "Bad Gateway" body, so the kind is not exposed. An escaped fault stays escaped. |
| `Routes.PatchCode` | cerberus_api/routes.py:20-67 | The webhook is called only after validation passes, exactly once, with exactly the validated code and the configured URL and timeout. A rejected request gets 400 "Invalid payload" with the rejection's message. The visible status is always 200, 400, 500 or 502. It is 200 exactly when the webhook's answer carries a correction with a status below 400, and the body then holds that string verbatim. It is 500 exactly when `.get` escaped, in validation or in the client, and 502 exactly when the client raised one of the three webhook error kinds. |
| `Routes.NonJsonRequestRejected` | cerberus_api/routes.py:22-31 | A request not declared JSON gets 400 "Invalid payload" with the "Request must be JSON" message, whatever its body, and no webhook call is made. |
| `Routes.MissingCodeRejected` | cerberus_api/routes.py:36-45 | A JSON request whose payload is a dict without a string `code` (missing, null, a number, a dict) gets 400 "Invalid payload" with a message that names `code`, and no webhook call is made. |
| `Routes.FalsyBodyTreatedAsEmpty` | cerberus_api/routes.py:33-36 | A JSON-typed request whose body does not decode, or decodes to `null`, `false`, `0`, `""`, `[]` or `{}`, is treated as `{}`, so it gets the missing-`code` 400 with no webhook call. |
| `Routes.TruthyNonObjectEscapes` | cerberus_api/routes.py:33-34 | A JSON-typed request whose body decodes to a truthy non-dict value makes `.get` raise. The result is a 500, not a 400, and no webhook call is made. |
| `Routes.EmptyCodeAccepted` | cerberus_api/routes.py:36 | `{"code": ""}` passes validation, and the empty code is sent to the webhook. |
| `Routes.WebhookErrorsLookAlike` | cerberus_api/routes.py:55-65 | Any two webhook error outcomes, of whatever kind, give the same response: 502 "Bad Gateway" with the fixed message. |
| `Routes.WebhookFailureIsBadGateway` | cerberus_api/routes.py:49-65 | A timeout, any other transport failure, or a webhook status of 400 or more gives the 502. |
| `Routes.SuccessPassesThrough` | cerberus_api/routes.py:67 | A webhook answer with status below 400 and `{"corrected_code": x, ...}` reaches the client as 200 `{"corrected_code": x}`, with `x` unchanged. |
| `Routes.PatchCodeIsStateless` | cerberus_api/routes.py:20-67 | The handling depends on the webhook only through its answers to the calls made, and for a request that fails validation not at all. Identical requests against identical webhook answers give identical outcomes. |
| `Routes.ValidateCorrected` | cerberus_api/routes.py:33-45 | Corrected validation. A decoded body that is not a dict is rejected like a dict without `code`, so nothing escapes. Acceptance is exactly as in `Validate`, and it agrees with `Validate` everywhere else. |
| `Routes.PatchCodeCorrected` | cerberus_api/routes.py:20-67 | The handler built on the corrected validation and classification. Every request ends in 200, 400 or 502, and never in an escaped exception. It makes the same webhook calls as `PatchCode`, agrees with it wherever `PatchCode` replies, and answers 400 exactly for requests `Validate` does not accept. It answers 200 exactly when the webhook's answer carries a correction with a status below 400, and then passes that string through verbatim. Every other webhook answer, including JSON that is not a dict, gets the one 502 "Bad Gateway" reply. |
| `Routes.ListRequestEscapes` | cerberus_api/routes.py:33-34 | As written, the JSON request body `[1]` is answered 500. The corrected handler answers it with the `code` 400. |
| `Routes.ListAnswerEscapes` | cerberus_api/n8n_client.py:49 | As written, a valid request whose webhook answers 200 with `[]` is answered 500. The corrected handler answers it with the 502. |

The three outcomes (result, webhook error, escaped fault) are the
constructors of `CallResult`, so every webhook outcome has exactly one of
them. That totality and exclusivity is a property of the datatype, not a
lemma.

## Findings

| source | as written | input that shows it | evidently intended | confidence | as-written member | corrected member |
|---|---|---|---|---|---|---|
| cerberus_api/n8n_client.py:49 | `payload.get` runs on whatever the body decodes to. A JSON list, string, number, bool or null raises `AttributeError`, which neither `patch_code_via_n8n` nor `patch_code` catches, so the client gets 500. | webhook answers status 200 with body `[]` | a malformed success body is a response error, so the client gets 502 | medium, not executed | `Routes.ListAnswerEscapes` | `N8nClient.ClassifyCorrected` |
| cerberus_api/routes.py:34 | `payload.get` runs on a truthy decoded request body that is not a dict, and raises, so the client gets 500. | `POST /api/patch-code`, content type JSON, body `[1]` | a JSON body that is not an object is an invalid payload, so the client gets 400 | medium, not executed | `Routes.ListRequestEscapes` | `Routes.ValidateCorrected` |

`Routes.PatchCodeCorrected` builds on both corrected members. Everywhere
else the model follows the code as written. The intent is read from the
code around each fault: cerberus_api/routes.py:36-45 answers 400 for every
other malformed payload; cerberus_api/routes.py:55-65 turns all three
webhook error kinds into the same 502; and cerberus_api/n8n_client.py:50-53
classifies every other malformed success body as a response error.

## Left out

- The network I/O of `requests.post`, the enforcement of the timeout
  against wall-clock time, and redirects are not modelled. What the call
  did is the input `TransportOutcome`, and the webhook is the function
  `transport`.
- `requests.post` raising an exception other than a `RequestException` is
  not modelled.
- Flask's request parsing is reduced to its observable results: a
  content-type flag for `is_json` and a decode result. `jsonify` is not
  modelled beyond the body value it is given.
- Flask's 500 page for an escaped exception is not modelled. It is reduced
  to the status 500 (`HttpStatus`), assuming the app runs in neither debug
  nor testing mode. In either of those, Flask's `PROPAGATE_EXCEPTIONS`
  re-raises the `AttributeError` to the caller instead.
- JSON numbers are integers, and floats are not modelled. A float behaves
  like an integer here for truthiness and `isinstance`, except that Python
  names its type `float`.
- Duplicate keys in a JSON object are not modelled, because decoding is an
  input here.
- Logging in `routes.py` and `__init__.py` is not modelled, because it has
  no bearing on outcomes.
- The app factory, CORS and blueprint registration in `__init__.py` are
  plumbing and are not modelled.
- The environment lookup in `config.py` and its `float(...)` parse of the
  timeout are not modelled. The URL and timeout are opaque parameters, and
  the timeout is a `real`.
- The hosting server's concurrency is out of scope. There is none in the
  core.
