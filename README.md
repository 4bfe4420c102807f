# travisci-webhook-handler, modelled in Dafny

This project models the request handler that `create(options)` builds in
`handler.js`. The handler is middleware in front of an HTTP server. It takes
CI notifications (Travis CI webhooks) posted to one configured path. It checks
that the request carries a signature and a repository slug, decodes the form
body, and verifies the RSA/SHA-1 signature of its JSON `payload`. It then
answers `200 {"ok":true}` and emits an event classified as `success`, `start`
or `failure`, first on the wildcard channel `*` and then on the event's own
channel. A missing header, a form decode error or a failed signature check is
answered with a 400 JSON error, and the completion callback gets an `Error`
with the same message. Three failures throw instead: a public key NodeRSA
refuses, and a payload that does not parse (missing ones included), throw
before anything is written; a `null` payload, for a signature check that
accepts it (see Left out), throws reading `result.status` after the 200 has
been written, and nothing is emitted. A request for any
other path is handed back through `callback()`.

Modules, one per concern:

- `Wrappers` (wrappers.dfy): `Option` and `Result`.
- `JsValues` (js_values.dfy): the JavaScript values the handler reads. This covers `typeof`, reading a property (reading one of `null` throws) and `=== 0`.
- `JsonText` (json_text.dfy): `JSON.stringify` of a string and of `{error: msg}`. A reader for the error body is proved to invert it.
- `Options` (options.dfy): the three ordered checks of `create`.
- `Routing` (routing.dfy): the path match, which ignores the query string.
- `Classifier` (classifier.dfy): the status classification.
- `WebhookHandler` (webhook_handler.dfy): the pipeline. A run is a trace of observable actions: `WriteHead`, `End`, `Callback` and `Emit`. The run also ends in one of two ways: it returns, or an exception escapes.
  - `Decide` says what a request leads to, and `Effects` says what that outcome does.
  - `Respond` is the two together.
  - The class `Handler` has the imperative `Handle` and `HasError`. Each appends to its `effects` field in source order. `Handle` is proved to append exactly `Respond`'s trace and to end as `Respond` says. `HasError` is proved to append exactly `Rejection(msg)`.
  - `Create` is `create`.

The foreign steps are the body decoder, the NodeRSA key import, `JSON.parse`
and the signature check. They are function-typed fields of `Foreign`.
Because they are functions, they give the same result every time they get the
same input. That matters for the two parses of the same payload at lines 55
and 60.

The model follows handler.js as written, including where its tests expect
something else:

- Only signature mode exists. `create` requires `public_key` and has no token mode. test.js expects a token mode and a `'token'` message at test.js:39, but handler.js does not implement it.
- A malformed payload throws at handler.js:55. It does not get a 400 answer. See Findings.
- Headers are looked up by exact name in a map whose names are already lower case.

## Model

| member | source | states |
|---|---|---|
| `Options.CheckOptions` | handler.js:12-23 | Succeeds exactly when `path` and `public_key` are own string properties, and then keeps them. The checks run in order: a non-object (by `typeof`) fails with "must provide an options object". `null` throws reading `path`. A missing or non-string path fails with the path message even if the key is missing too. Then a missing key fails with the `public_key` message. |
| `Options.CheckOptionsExamples` | test.js:35-41 | No options, `{}` and `{path:'/'}` throw the options, path and public_key messages in turn. A `token` option does not stand in for `public_key`. |
| `Routing.PathOf` | handler.js:26 | `url.split('?').shift()` is a prefix of the URL with no `?`, followed in the URL by `?` or by the end. |
| `Routing.PathOfUnique` | handler.js:26 | Those three properties determine the path part. |
| `Routing.MatchesIff` | handler.js:26 | A URL matches exactly when the path has no `?`, is a prefix of the URL, and is followed by the end or by `?`. |
| `Routing.QueryIgnored` | handler.js:26 | `path` and `path?query` both match `path`. |
| `Routing.OneCharacterMore` | handler.js:26 | The path plus one more character matches only if that character is `?`. |
| `Routing.PathWithQueryMarkNeverMatches` | handler.js:26 | A configured path that contains `?` matches no URL. |
| `Routing.RoutingExamples` | test.js:61-121 | `/`, `/some` and `/some/url/` do not match `/some/url`. `/some/url` and `/some/url?test=param` do. |
| `Classifier.Classify` | handler.js:68-71 | Success exactly when `status === 0`, whatever the message. Start exactly when the status is not 0 and `status_message === 'Pending'`. Failure in every other case. |
| `Classifier.ClassifyResult` | handler.js:68-69 | Reading `result.status` throws exactly when the payload is `null` or `undefined`. Otherwise the event is `Classify` of the payload's `status` and `status_message`. |
| `Classifier.NamesDistinct` | handler.js:79-80 | The channel names of the three events are distinct. None is `*` or `error`. |
| `Classifier.ClassifyExamples` | test.js:123-203 | `{status:0}` gives success. `{status:1, status_message:'Pending'}` gives start. `'Broken'` gives failure. |
| `JsonText.ErrorBody` | handler.js:32 | `JSON.stringify({ error: msg })`. Its properties are the rows `ErrorBodyRoundTrip`, `ErrorBodyInjective` and `ErrorBodyIsNotOkBody`. |
| `JsonText.UnescapeEscape` | handler.js:32 | The string literal `JSON.stringify` writes reads back as exactly the original string. |
| `JsonText.ErrorBodyRoundTrip` | handler.js:32 | The error body `{"error":…}` reads back as its message. |
| `JsonText.ErrorBodyInjective` | handler.js:32 | Distinct messages give distinct error bodies. |
| `JsonText.ErrorBodyIsNotOkBody` | handler.js:66 | `{"ok":true}` is not an error body. |
| `WebhookHandler.Decide` | handler.js:25-63 | What a request leads to, in source order. Its cases are stated by the rows `PassThrough` to `GuardedParseUnreachable`. |
| `WebhookHandler.Publish` | handler.js:65-80 | The acknowledgement, classification and emissions. The row `Accepted` states them. |
| `WebhookHandler.Respond` | handler.js:25-83 | The whole run. The rows `EffectsAtMostOnce`, `RejectionShape`, `BadRequestIsRejection` and `EmitsFollowAcknowledgement` state its shape, and `Handler.Handle` is proved equal to it. |
| `WebhookHandler.PassThrough` | handler.js:26-28 | A request for another path gives exactly `callback()`, with no write and no emission. A no-error callback happens on no other path. |
| `WebhookHandler.MissingSignature` | handler.js:37-43 | A missing or empty `signature` header is rejected with "No Signature found on request". This holds whatever the slug, the body and the foreign steps are. |
| `WebhookHandler.MissingRepo` | handler.js:44-46 | With a signature but no `travis-repo-slug`, the request is rejected with "No repo found on request". |
| `WebhookHandler.DecodeFailure` | handler.js:48-51 | A form decode error is rejected with the decoder's message, verbatim. |
| `WebhookHandler.KeyFailure` | handler.js:53 | A key NodeRSA refuses makes the run throw that error, with nothing written. |
| `WebhookHandler.MalformedPayloadThrows` | handler.js:55 | A payload that does not parse makes the run throw a SyntaxError. Nothing is written and the callback is not called. |
| `WebhookHandler.MissingPayload` | handler.js:48-55 | A form without a `payload` field has the text "undefined" parsed. When the parser rejects it, the run throws that SyntaxError with nothing written. |
| `WebhookHandler.MalformedPayloadExample` | handler.js:55-63 | A concrete request with payload `{` throws as written, and is rejected with the parser's message by the intended decision. |
| `WebhookHandler.VerifyFailure` | handler.js:53-56 | A parsed payload whose signature fails is rejected with exactly "Signed payload does not match signature". |
| `WebhookHandler.GuardedParseUnreachable` | handler.js:58-63 | Once the payload parses, the run either rejects for the signature or publishes. The catch never fires. |
| `WebhookHandler.Accepted` | handler.js:65-80 | A verified request writes exactly `WriteHead(200, application/json)`, `End({"ok":true})`, `Emit('*', d)` and then `Emit(event, d)`, with no callback. `d` is the same object both times: its event is the classification, its payload the parsed value, its host the `host` header, and its url the full URL with the query. A `null` or `undefined` payload throws after the acknowledgement, and nothing is emitted. |
| `WebhookHandler.EffectsAtMostOnce` | handler.js:25-83 | Every run has at most one status write, one body and one callback. It has 0 or 2 emissions, never a callback together with emissions. Two emissions occur exactly when the run returns with a status write and no callback. |
| `WebhookHandler.RejectionShape` | handler.js:30-35 | Any run that calls back with an error message is exactly `WriteHead(400, application/json)`, then a body that reads back as that message, then `callback(Error(msg))`. |
| `WebhookHandler.BadRequestIsRejection` | handler.js:30-35 | Conversely, a run that writes a 400 status is a rejection. The content type is JSON, and the run is exactly the 400, the error body and `callback(Error(msg))` for one message, ending in a return. |
| `WebhookHandler.EmitsFollowAcknowledgement` | handler.js:65-80 | Every emission comes after the 200 status and the `{"ok":true}` body. |
| `WebhookHandler.IntendedRejectsMalformedPayload` | handler.js:59-63 | In the intended decision a malformed payload is rejected with the parser's message. The code as written throws with an empty trace instead. |
| `WebhookHandler.IntendedAgreesOtherwise` | handler.js:53-63 | On every request whose payload is not malformed, the intended run equals the run as written. |
| `WebhookHandler.IntendedNeverThrowsSyntaxError` | handler.js:59-63 | No parse error escapes the intended run. |
| `WebhookHandler.RequestExamples` | test.js:70-118 | For path `/some/url`, `/`, `/some/url/` and `/some` are handed back with `callback()` only. `/some/url?test=param` is not handed back. |
| `WebhookHandler.Handler.constructor` | handler.js:25 | The closure made at line 25 and returned at line 86: a new handler holds its options and has done nothing yet. |
| `WebhookHandler.Handler.HasError` | handler.js:30-35 | Appends the 400 status, the error body and `callback(Error(msg))`, in that order. |
| `WebhookHandler.Handler.Handle` | handler.js:25-83 | Appends exactly the trace of `Respond` for its options, and ends as `Respond` says. |
| `WebhookHandler.Create` | handler.js:12-87 | Returns the exception `CheckOptions` gives, or a fresh handler holding the checked options with no effects. |

## Left out

- The event emitter (handler.js:1, 5-10, 84-85) is left out: listener registration, `bindEmitter`'s method copying, and the throw on an `error` emission with no listener. These are library behaviour. Emissions are recorded in the trace in order instead.
- A listener that throws during `handler.emit`, and a callback that throws, are not modelled. Listeners are outside the model.
- The asynchronous flow is left out: the `formBody` continuation and the stream reads. A run is one sequential pass.
- What `formBody`, NodeRSA and `JSON.parse` compute is not modelled. They are foreign, and they are parameters here.
- NodeRSA's `verify` is taken to return a boolean and never to throw. The library may instead throw for a message it cannot encode, such as `null` or a boolean; then such a payload throws at handler.js:55 before anything is written, which the model does not capture.
- The form decoder is taken to yield one string per field. Repeated fields that would decode to arrays are not modelled.
- Node's lower-casing of header names and array-valued headers are not modelled. Header maps come already normalised.
- JavaScript numbers are modelled as reals. NaN, infinities and the sign of zero are not represented; the sign of zero does not matter to `===`.
- Inherited and getter properties of the options object and of the payload are not modelled. Only own data properties of plain objects are. Arrays carry no named properties, so an array with its own string `path` and `public_key`, which `create` accepts because `typeof []` is `'object'`, cannot be represented.
- Token-mode authentication is left out because handler.js does not implement it.
- The return value of `handler(req, res, callback)` is left out. It is what `callback()` returns when a request is handed back, and `undefined` otherwise: `hasError` returns nothing, and neither does the `formBody` path.
- WebhookHandler.Create: reads `path` and `public_key` once, when the handler is made. The source keeps the caller's options object and reads `options.path` (handler.js:26) and `options.public_key` (handler.js:53) again on every request. The model assumes the options object is not changed after `create`.
- `formBody`'s reading of the request is foreign. `decodeForm` is given the whole request, headers included, and nothing is assumed about what it reads.
- `JSON.parse(undefined)` parses the text "undefined". That every JSON parser rejects that text is not built into the foreign `parseJson`; `MissingPayload` states the run for a parser that does.
- Strings are sequences of Unicode scalar values, not of UTF-16 code units. A message with a lone surrogate, which `JSON.stringify` writes as a `\udxxx` escape, cannot be represented, so that rule of the string quoting is not modelled.

## Findings

The unguarded `JSON.parse` at line 55 runs before the guarded parse. The class `Handler` models the code as written. `IntendedDecide` is the corrected decision.

| source | as written | input that shows it | evidently intended | confidence | as-written member | corrected member |
|---|---|---|---|---|---|---|
| handler.js:55 | The payload is parsed with `JSON.parse` outside any `try`, so the catch at lines 59-63 can never run. | A request to the configured path with both headers and form body `payload={`. It throws a SyntaxError out of the form callback; no response is written and the callback is never called. | The parse error is answered with 400 `{"error": <parser message>}`, and the callback gets an Error with that message, like every other failure. | high; not executed | `WebhookHandler.MalformedPayloadExample` | `WebhookHandler.IntendedRejectsMalformedPayload` |
