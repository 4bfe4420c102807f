/** The request pipeline of the handler `create` returns (handler.js:25-83).
    Everything a run does that an observer can see is recorded, in order, as
    a trace of actions: the response's `writeHead` and `end`, the call of the
    completion callback, and each emission. The body decoder, the key import,
    `JSON.parse` and the signature check are foreign steps, given as
    functions. */
module WebhookHandler {
  import opened Wrappers
  import opened JsValues
  import opened Options
  import JsonText
  import Routing
  import Classifier

  /** The argument of one emission: handler.js:72-77. */
  datatype EmitData = EmitData(payload: Value, host: Option<string>, url: string, event: string)

  /** A response body: the JSON document it is, rendered to its exact text
      by Text. */
  datatype Body = OkDocument | ErrorDocument(message: string)

  /** The characters `res.end` is given: `'{"ok":true}'` (handler.js:66) or
      `JSON.stringify({ error: message })` (handler.js:32). */
  function Text(b: Body): string
  {
    match b
    case OkDocument => JsonText.OkBody
    case ErrorDocument(m) => JsonText.ErrorBody(m)
  }

  /** One observable effect of a run. */
  datatype Action =
    | WriteHead(status: int, contentType: string)  // res.writeHead(status, {'content-type': ...})
    | End(body: Body)                              // res.end(Text(body))
    | Callback(error: Option<string>)              // callback() or callback(new Error(msg))
    | Emit(channel: string, data: EmitData)        // handler.emit(channel, data)

  /** How a run ends: it returns, or an exception escapes it. */
  datatype Exit = Returned | Threw(thrown: Thrown)

  datatype Run = Run(trace: seq<Action>, exit: Exit)

  /** What the handler reads of `req`. Header names are already lower case. */
  datatype Request = Request(url: string, headers: map<string, string>, body: seq<bv8>)

  /** The foreign steps. `decodeForm` is `formBody` reading the whole
      request, headers and body, yielding the fields of the form or the
      decoder's error message; `loadKey` is `new NodeRSA(publicKey, ...)`,
      yielding the message of the error it throws, if any; `parseJson` is
      `JSON.parse` of a text, yielding the value or the message of its
      SyntaxError; `verify(key, message, signature)` is NodeRSA's RSA/SHA-1
      check with base64 encodings. Being functions, each gives the same
      answer whenever it is asked the same question. */
  datatype Foreign = Foreign(
    decodeForm: Request -> Result<map<string, string>, string>,
    loadKey: string -> Option<string>,
    parseJson: string -> Result<Value, string>,
    verify: (string, Value, string) -> bool)

  const JsonType: string := "application/json"
  const SignatureHeader: string := "signature"
  const RepoHeader: string := "travis-repo-slug"
  const HostHeader: string := "host"
  const NoSignature: string := "No Signature found on request"
  const NoRepo: string := "No repo found on request"
  const Mismatch: string := "Signed payload does not match signature"
  const Wildcard: string := "*"

  /** `req.headers[name]`: the header's value, or None for `undefined`. */
  function Header(headers: map<string, string>, name: string): Option<string>
  {
    if name in headers then Some(headers[name]) else None
  }

  /** The JavaScript truthiness of a header value: present and not empty. */
  predicate Truthy(v: Option<string>)
  {
    v.Some? && v.value != ""
  }

  /** The text `JSON.parse(data.payload)` parses: `JSON.parse` first turns
      its argument into a string, so a form without a `payload` field is
      parsed as the text "undefined". */
  function PayloadText(data: map<string, string>): string
  {
    if "payload" in data then data["payload"] else "undefined"
  }

  /** What `hasError(msg)` does (handler.js:30-35). */
  function Rejection(msg: string): seq<Action>
  {
    [WriteHead(400, JsonType), End(ErrorDocument(msg)), Callback(Some(msg))]
  }

  /** The successful response (handler.js:65-66). */
  function Acknowledgement(): seq<Action>
  {
    [WriteHead(200, JsonType), End(OkDocument)]
  }

  /** After acknowledging: classify the parsed payload and emit it on `*` and
      then on the event's own channel (handler.js:68-80). */
  function Publish(req: Request, result: Value): Run
  {
    match Classifier.ClassifyResult(result)
    case Err(t) => Run(Acknowledgement(), Threw(t))
    case Ok(e) =>
      var d := EmitData(result, Header(req.headers, HostHeader), req.url, Classifier.Name(e));
      Run(Acknowledgement() + [Emit(Wildcard, d), Emit(Classifier.Name(e), d)], Returned)
  }

  /** What a run of the handler decides. */
  datatype Outcome =
    | PassedOn                  // not this handler's request: `return callback()`
    | Rejected(message: string) // `hasError(message)`
    | Aborted(thrown: Thrown)   // an exception escapes before anything is written
    | Published(result: Value)  // acknowledged, then classified and emitted

  /** The decision of handler.js:25-83 as written. The payload is parsed
      unguarded for the signature check (line 55), so a malformed payload
      throws there; the guarded parse of lines 59-63 parses the same text
      again. */
  function Decide(cfg: Config, req: Request, ext: Foreign): Outcome
  {
    if !Routing.Matches(req.url, cfg.path) then PassedOn
    else
      var repoSlug := Header(req.headers, RepoHeader);
      var sig := Header(req.headers, SignatureHeader);
      if !Truthy(sig) then Rejected(NoSignature)
      else if !Truthy(repoSlug) then Rejected(NoRepo)
      else match ext.decodeForm(req)
        case Err(m) => Rejected(m)
        case Ok(data) =>
          if ext.loadKey(cfg.publicKey).Some? then Aborted(LibraryError(ext.loadKey(cfg.publicKey).value))
          else match ext.parseJson(PayloadText(data))
            case Err(m) => Aborted(SyntaxError(m))
            case Ok(signed) =>
              if !ext.verify(cfg.publicKey, signed, sig.value) then Rejected(Mismatch)
              else match ext.parseJson(PayloadText(data))
                case Err(m) => Rejected(m)
                case Ok(result) => Published(result)
  }

  /** What an outcome does that can be observed. */
  function Effects(o: Outcome, req: Request): Run
  {
    match o
    case PassedOn => Run([Callback(None)], Returned)
    case Rejected(m) => Run(Rejection(m), Returned)
    case Aborted(t) => Run([], Threw(t))
    case Published(result) => Publish(req, result)
  }

  /** One run of the handler on `req`. */
  function Respond(cfg: Config, req: Request, ext: Foreign): Run
  {
    Effects(Decide(cfg, req, ext), req)
  }

  // ---------------------------------------------------------------------
  // How far a request gets

  /** The request is for this handler and carries both headers. */
  predicate Screened(cfg: Config, req: Request)
  {
    && Routing.Matches(req.url, cfg.path)
    && Truthy(Header(req.headers, SignatureHeader))
    && Truthy(Header(req.headers, RepoHeader))
  }

  /** The request gets as far as parsing its payload. */
  predicate ReachesParse(cfg: Config, req: Request, ext: Foreign)
  {
    Screened(cfg, req) && ext.decodeForm(req).Ok? && ext.loadKey(cfg.publicKey).None?
  }

  /** `JSON.parse(data.payload)`. */
  function ParsedPayload(req: Request, ext: Foreign): Result<Value, string>
    requires ext.decodeForm(req).Ok?
  {
    ext.parseJson(PayloadText(ext.decodeForm(req).value))
  }

  /** The request gets as far as parsing its payload, and the parse fails. */
  predicate PayloadMalformed(cfg: Config, req: Request, ext: Foreign)
  {
    ReachesParse(cfg, req, ext) && ParsedPayload(req, ext).Err?
  }

  /** The payload parses and its signature verifies. */
  predicate Authentic(cfg: Config, req: Request, ext: Foreign)
  {
    && ReachesParse(cfg, req, ext)
    && ParsedPayload(req, ext).Ok?
    && ext.verify(cfg.publicKey, ParsedPayload(req, ext).value, req.headers[SignatureHeader])
  }

  // ---------------------------------------------------------------------
  // The intended behaviour

  /** The decision the guarded parse of handler.js:59-63 was written for: the
      payload is parsed once, and a parse error is rejected with the
      parser's message like every other failure. */
  function IntendedDecide(cfg: Config, req: Request, ext: Foreign): Outcome
  {
    if !Routing.Matches(req.url, cfg.path) then PassedOn
    else
      var sig := Header(req.headers, SignatureHeader);
      if !Truthy(sig) then Rejected(NoSignature)
      else if !Truthy(Header(req.headers, RepoHeader)) then Rejected(NoRepo)
      else match ext.decodeForm(req)
        case Err(m) => Rejected(m)
        case Ok(data) =>
          if ext.loadKey(cfg.publicKey).Some? then Aborted(LibraryError(ext.loadKey(cfg.publicKey).value))
          else match ext.parseJson(PayloadText(data))
            case Err(m) => Rejected(m)
            case Ok(result) =>
              if !ext.verify(cfg.publicKey, result, sig.value) then Rejected(Mismatch)
              else Published(result)
  }

  function IntendedRespond(cfg: Config, req: Request, ext: Foreign): Run
  {
    Effects(IntendedDecide(cfg, req, ext), req)
  }

  // ---------------------------------------------------------------------
  // Counting the actions of a trace

  datatype Kind = HeadKind | EndKind | CallbackKind | EmitKind

  function KindOf(a: Action): Kind
  {
    match a
    case WriteHead(_, _) => HeadKind
    case End(_) => EndKind
    case Callback(_) => CallbackKind
    case Emit(_, _) => EmitKind
  }

  /** The number of actions of kind `k` in `t`. */
  function Count(t: seq<Action>, k: Kind): nat
  {
    if t == [] then 0 else (if KindOf(t[0]) == k then 1 else 0) + Count(t[1..], k)
  }

  lemma {:induction false} CountAppend(a: seq<Action>, b: seq<Action>, k: Kind)
    ensures Count(a + b, k) == Count(a, k) + Count(b, k)
  {
    if a != [] {
      assert (a + b)[0] == a[0];
      assert (a + b)[1..] == a[1..] + b;
      assert Count(a + b, k) == (if KindOf(a[0]) == k then 1 else 0) + Count(a[1..] + b, k);
      CountAppend(a[1..], b, k);
    } else {
      assert a + b == b;
    }
  }

  lemma CountSingle(x: Action, k: Kind)
    ensures Count([x], k) == if KindOf(x) == k then 1 else 0
  {
    assert [x][1..] == [];
  }

  lemma CountPair(x: Action, y: Action, k: Kind)
    ensures Count([x, y], k) == Count([x], k) + Count([y], k)
  {
    assert [x, y] == [x] + [y];
    CountAppend([x], [y], k);
  }

  lemma RejectionCounts(msg: string)
    ensures Count(Rejection(msg), HeadKind) == 1 && Count(Rejection(msg), EndKind) == 1
    ensures Count(Rejection(msg), CallbackKind) == 1 && Count(Rejection(msg), EmitKind) == 0
  {
    var t := Rejection(msg);
    assert t == [t[0], t[1]] + [t[2]];
    forall k: Kind
      ensures Count(t, k) == Count([t[0]], k) + Count([t[1]], k) + Count([t[2]], k)
    {
      CountAppend([t[0], t[1]], [t[2]], k);
      CountPair(t[0], t[1], k);
    }
    forall k: Kind, x | x in t
      ensures Count([x], k) == if KindOf(x) == k then 1 else 0
    {
      CountSingle(x, k);
    }
  }

  /** A published run writes the acknowledgement first and then only emits. */
  lemma PublishShape(req: Request, result: Value)
    ensures var t := Publish(req, result).trace;
      && |t| >= 2 && t[..2] == Acknowledgement()
      && (forall i :: 2 <= i < |t| ==> t[i].Emit?)
      && (Publish(req, result).exit.Returned? <==> |t| == 4)
  {
    match Classifier.ClassifyResult(result)
    case Err(_) =>
    case Ok(e) =>
      var d := EmitData(result, Header(req.headers, HostHeader), req.url, Classifier.Name(e));
      var t := Acknowledgement() + [Emit(Wildcard, d), Emit(Classifier.Name(e), d)];
      assert Publish(req, result).trace == t;
      assert t[2] == Emit(Wildcard, d) && t[3] == Emit(Classifier.Name(e), d);
  }

  lemma PublishCounts(req: Request, result: Value)
    ensures var t := Publish(req, result).trace;
      && Count(t, HeadKind) == 1 && Count(t, EndKind) == 1 && Count(t, CallbackKind) == 0
      && Count(t, EmitKind) == (if Publish(req, result).exit.Returned? then 2 else 0)
  {
    var run := Publish(req, result);
    var ack := Acknowledgement();
    forall k: Kind
      ensures Count(ack, k) == Count([ack[0]], k) + Count([ack[1]], k)
    {
      CountPair(ack[0], ack[1], k);
    }
    forall k: Kind, x | x in ack
      ensures Count([x], k) == if KindOf(x) == k then 1 else 0
    {
      CountSingle(x, k);
    }
    if run.exit.Returned? {
      var rest := run.trace[2..];
      assert run.trace == ack + rest;
      forall k: Kind
        ensures Count(run.trace, k) == Count(ack, k) + Count([rest[0]], k) + Count([rest[1]], k)
      {
        CountAppend(ack, rest, k);
        CountPair(rest[0], rest[1], k);
      }
      forall k: Kind, x | x in rest
        ensures Count([x], k) == if KindOf(x) == k then 1 else 0
      {
        CountSingle(x, k);
      }
    }
  }

  // ---------------------------------------------------------------------
  // Properties of a run

  /** A request for another path is handed back: the callback is called with
      no error, and nothing is written or emitted. The callback with no
      error happens on no other path. */
  lemma PassThrough(cfg: Config, req: Request, ext: Foreign)
    ensures !Routing.Matches(req.url, cfg.path) ==> Respond(cfg, req, ext) == Run([Callback(None)], Returned)
    ensures Callback(None) in Respond(cfg, req, ext).trace <==> !Routing.Matches(req.url, cfg.path)
  {
    var o := Decide(cfg, req, ext);
    var t := Respond(cfg, req, ext).trace;
    assert o.PassedOn? <==> !Routing.Matches(req.url, cfg.path);
    match o
    case PassedOn =>
    case Rejected(m) =>
      assert t == Rejection(m);
      assert Callback(None) !in t;
    case Aborted(_) =>
      assert t == [];
    case Published(result) =>
      assert Respond(cfg, req, ext) == Publish(req, result);
      PublishShape(req, result);
      assert t == t[..2] + t[2..];
      assert Callback(None) !in t;
  }

  /** The signature header is checked first: without it the request is
      rejected with "No Signature found on request", whatever the other
      headers, the body and the foreign steps are. */
  lemma MissingSignature(cfg: Config, req: Request, ext: Foreign)
    requires Routing.Matches(req.url, cfg.path)
    requires !Truthy(Header(req.headers, SignatureHeader))
    ensures Respond(cfg, req, ext) == Run(Rejection(NoSignature), Returned)
  {
  }

  /** With a signature but no repository slug, the request is rejected with
      "No repo found on request". */
  lemma MissingRepo(cfg: Config, req: Request, ext: Foreign)
    requires Routing.Matches(req.url, cfg.path)
    requires Truthy(Header(req.headers, SignatureHeader))
    requires !Truthy(Header(req.headers, RepoHeader))
    ensures Respond(cfg, req, ext) == Run(Rejection(NoRepo), Returned)
  {
  }

  /** A decoder error is rejected with the decoder's own message. */
  lemma DecodeFailure(cfg: Config, req: Request, ext: Foreign)
    requires Screened(cfg, req)
    requires ext.decodeForm(req).Err?
    ensures Respond(cfg, req, ext) == Run(Rejection(ext.decodeForm(req).error), Returned)
  {
  }

  /** A public key NodeRSA cannot import makes every screened, decoded
      request throw that error, before anything is written. */
  lemma KeyFailure(cfg: Config, req: Request, ext: Foreign)
    requires Screened(cfg, req)
    requires ext.decodeForm(req).Ok? && ext.loadKey(cfg.publicKey).Some?
    ensures Respond(cfg, req, ext) == Run([], Threw(LibraryError(ext.loadKey(cfg.publicKey).value)))
  {
  }

  /** A malformed payload throws out of the handler at handler.js:55: nothing
      is written and the callback is never called. */
  lemma MalformedPayloadThrows(cfg: Config, req: Request, ext: Foreign)
    requires PayloadMalformed(cfg, req, ext)
    ensures Respond(cfg, req, ext) == Run([], Threw(SyntaxError(ParsedPayload(req, ext).error)))
  {
  }

  /** A form without a `payload` field has the text "undefined" parsed,
      which no JSON parser accepts: the run throws, as for any other
      malformed payload. */
  lemma MissingPayload(cfg: Config, req: Request, ext: Foreign)
    requires ReachesParse(cfg, req, ext) && "payload" !in ext.decodeForm(req).value
    requires ext.parseJson("undefined").Err?
    ensures Respond(cfg, req, ext) == Run([], Threw(SyntaxError(ext.parseJson("undefined").error)))
  {
  }

  /** A concrete request that shows it: the form's payload is `{`, which
      `JSON.parse` rejects. */
  lemma MalformedPayloadExample()
    ensures var ext := Foreign(
        r => Ok(map["payload" := "{"]),
        key => None,
        text => Err("Unexpected end of JSON input"),
        (key, message, signature) => true);
      var req := Request("/hook", map[SignatureHeader := "c2ln", RepoHeader := "owner/repo"], []);
      && Respond(Config("/hook", "key"), req, ext) == Run([], Threw(SyntaxError("Unexpected end of JSON input")))
      && IntendedRespond(Config("/hook", "key"), req, ext) == Run(Rejection("Unexpected end of JSON input"), Returned)
  {
  }

  /** A payload that parses but whose signature does not verify is rejected
      with "Signed payload does not match signature". */
  lemma VerifyFailure(cfg: Config, req: Request, ext: Foreign)
    requires ReachesParse(cfg, req, ext) && ParsedPayload(req, ext).Ok?
    requires !ext.verify(cfg.publicKey, ParsedPayload(req, ext).value, req.headers[SignatureHeader])
    ensures Respond(cfg, req, ext) == Run(Rejection(Mismatch), Returned)
  {
  }

  /** The guarded parse of handler.js:59-63 never rejects: once the payload
      parses, the only rejection left is the signature mismatch. */
  lemma GuardedParseUnreachable(cfg: Config, req: Request, ext: Foreign)
    requires ReachesParse(cfg, req, ext) && ParsedPayload(req, ext).Ok?
    ensures Decide(cfg, req, ext) == Rejected(Mismatch) || Decide(cfg, req, ext) == Published(ParsedPayload(req, ext).value)
  {
  }

  /** A verified request is acknowledged and published: 200 and `{"ok":true}`
      are written, then the same event object is emitted on `*` and on its
      event's channel; its event is the classification of the payload and its
      url is the whole request URL, query string included. A `null` payload
      throws at `result.status` after the acknowledgement is written. */
  lemma Accepted(cfg: Config, req: Request, ext: Foreign)
    requires Authentic(cfg, req, ext)
    ensures var result := ParsedPayload(req, ext).value;
      var run := Respond(cfg, req, ext);
      && (result.Null? || result.Undefined? ==>
            run == Run(Acknowledgement(), Threw(NullishPropertyRead("status"))))
      && (!(result.Null? || result.Undefined?) ==>
            var e := Classifier.Classify(Own(result, "status"), Own(result, "status_message"));
            var d := EmitData(result, Header(req.headers, HostHeader), req.url, Classifier.Name(e));
            run == Run([WriteHead(200, JsonType), End(OkDocument), Emit("*", d), Emit(Classifier.Name(e), d)],
                       Returned))
  {
  }

  /** Every run writes at most one status line and one body and calls the
      callback at most once; it emits twice or not at all, and never both
      calls the callback and emits. */
  lemma {:induction false} EffectsAtMostOnce(cfg: Config, req: Request, ext: Foreign)
    ensures var t := Respond(cfg, req, ext).trace;
      && Count(t, HeadKind) <= 1 && Count(t, EndKind) <= 1 && Count(t, CallbackKind) <= 1
      && (Count(t, EmitKind) == 0 || Count(t, EmitKind) == 2)
      && (Count(t, CallbackKind) == 1 ==> Count(t, EmitKind) == 0)
      && (Count(t, EmitKind) == 2 <==>
            Respond(cfg, req, ext).exit.Returned? && Count(t, HeadKind) == 1 && Count(t, CallbackKind) == 0)
  {
    match Decide(cfg, req, ext)
    case PassedOn =>
      forall k: Kind { CountSingle(Callback(None), k); }
    case Rejected(m) =>
      RejectionCounts(m);
    case Aborted(_) =>
    case Published(result) =>
      PublishCounts(req, result);
  }

  /** Every rejection writes 400 with the JSON content type, then an error
      body carrying the message, then calls the callback with an error of
      that same message, and emits nothing. */
  lemma RejectionShape(cfg: Config, req: Request, ext: Foreign, msg: string)
    requires Callback(Some(msg)) in Respond(cfg, req, ext).trace
    ensures Respond(cfg, req, ext) == Run(Rejection(msg), Returned)
    ensures var t := Respond(cfg, req, ext).trace;
      && t[0] == WriteHead(400, JsonType)
      && t[1] == End(ErrorDocument(msg))
      && JsonText.ReadErrorBody(Text(t[1].body)) == Some(msg)
      && t[2] == Callback(Some(msg))
  {
    match Decide(cfg, req, ext)
    case PassedOn =>
    case Rejected(m) =>
      assert Respond(cfg, req, ext).trace == Rejection(m);
      JsonText.ErrorBodyRoundTrip(msg);
    case Aborted(_) =>
    case Published(result) =>
      PublishShape(req, result);
  }

  /** Conversely, a run that writes a 400 status is a rejection: the JSON
      content type, an error body and `callback(Error(msg))` with the same
      message come with it, and nothing else happens. */
  lemma BadRequestIsRejection(cfg: Config, req: Request, ext: Foreign, contentType: string)
    requires WriteHead(400, contentType) in Respond(cfg, req, ext).trace
    ensures contentType == JsonType && Decide(cfg, req, ext).Rejected?
    ensures Respond(cfg, req, ext) == Run(Rejection(Decide(cfg, req, ext).message), Returned)
  {
    match Decide(cfg, req, ext)
    case PassedOn =>
    case Rejected(m) =>
    case Aborted(_) =>
    case Published(result) =>
      PublishShape(req, result);
  }

  /** Nothing is emitted unless the 200 acknowledgement was written first. */
  lemma EmitsFollowAcknowledgement(cfg: Config, req: Request, ext: Foreign, i: nat)
    requires i < |Respond(cfg, req, ext).trace| && Respond(cfg, req, ext).trace[i].Emit?
    ensures 2 <= i && Respond(cfg, req, ext).trace[..2] == Acknowledgement()
  {
    match Decide(cfg, req, ext)
    case PassedOn =>
    case Rejected(m) =>
    case Aborted(_) =>
    case Published(result) =>
      PublishShape(req, result);
  }

  /** With the payload parsed once and guarded, a malformed payload is
      rejected with the parser's message, where the handler as written throws. */
  lemma IntendedRejectsMalformedPayload(cfg: Config, req: Request, ext: Foreign)
    requires PayloadMalformed(cfg, req, ext)
    ensures IntendedRespond(cfg, req, ext) == Run(Rejection(ParsedPayload(req, ext).error), Returned)
    ensures Respond(cfg, req, ext).exit.Threw? && Respond(cfg, req, ext).trace == []
  {
  }

  /** On every other request the intended run is the run as written. */
  lemma IntendedAgreesOtherwise(cfg: Config, req: Request, ext: Foreign)
    requires !PayloadMalformed(cfg, req, ext)
    ensures IntendedRespond(cfg, req, ext) == Respond(cfg, req, ext)
  {
  }

  /** In the intended run no parse error escapes: JSON.parse's error is
      always answered with a 400 response. */
  lemma IntendedNeverThrowsSyntaxError(cfg: Config, req: Request, ext: Foreign)
    ensures IntendedRespond(cfg, req, ext).exit.Threw? ==> !IntendedRespond(cfg, req, ext).exit.thrown.SyntaxError?
  {
  }

  // ---------------------------------------------------------------------
  // The examples of test.js

  /** The path `/some/url` ignores `/`, `/some/url/` and `/some`, and serves
      `/some/url?test=param` (test.js:70-82, 115). */
  lemma RequestExamples(key: string, headers: map<string, string>, body: seq<bv8>, ext: Foreign)
    ensures Respond(Config("/some/url", key), Request("/", headers, body), ext).trace == [Callback(None)]
    ensures Respond(Config("/some/url", key), Request("/some/url" + "/", headers, body), ext).trace == [Callback(None)]
    ensures Respond(Config("/some/url", key), Request("/some", headers, body), ext).trace == [Callback(None)]
    ensures Callback(None) !in
      Respond(Config("/some/url", key), Request("/some/url" + "?" + "test=param", headers, body), ext).trace
  {
    Routing.RoutingExamples();
    PassThrough(Config("/some/url", key), Request("/", headers, body), ext);
    PassThrough(Config("/some/url", key), Request("/some/url" + "/", headers, body), ext);
    PassThrough(Config("/some/url", key), Request("/some", headers, body), ext);
    PassThrough(Config("/some/url", key), Request("/some/url" + "?" + "test=param", headers, body), ext);
  }

  // ---------------------------------------------------------------------
  // The handler object

  /** A handler made by `create`. `effects` is everything it has done that
      can be observed, over all the requests it has served. */
  class Handler {
    const options: Config
    var effects: seq<Action>

    constructor (options: Config)
      ensures this.options == options && effects == []
    {
      this.options := options;
      effects := [];
    }

    /** handler.js:30-35. */
    method HasError(msg: string)
      modifies this
      ensures effects == old(effects) + Rejection(msg)
    {
      effects := effects + [WriteHead(400, JsonType)];
      effects := effects + [End(ErrorDocument(msg))];
      effects := effects + [Callback(Some(msg))];
    }

    /** handler.js:25-83, one request. */
    method Handle(req: Request, ext: Foreign) returns (exit: Exit)
      modifies this
      ensures effects == old(effects) + Respond(options, req, ext).trace
      ensures exit == Respond(options, req, ext).exit
    {
      if Routing.PathOf(req.url) != options.path {
        effects := effects + [Callback(None)];
        return Returned;
      }
      var repoSlug := Header(req.headers, RepoHeader);
      var sig := Header(req.headers, SignatureHeader);
      if !Truthy(sig) {
        HasError(NoSignature);
        return Returned;
      }
      if !Truthy(repoSlug) {
        HasError(NoRepo);
        return Returned;
      }
      var decoded := ext.decodeForm(req);
      if decoded.Err? {
        HasError(decoded.error);
        return Returned;
      }
      var data := decoded.value;
      var keyError := ext.loadKey(options.publicKey);
      if keyError.Some? {
        return Threw(LibraryError(keyError.value));
      }
      var signed := ext.parseJson(PayloadText(data));
      if signed.Err? {
        return Threw(SyntaxError(signed.error));
      }
      if !ext.verify(options.publicKey, signed.value, sig.value) {
        HasError(Mismatch);
        return Returned;
      }
      // handler.js:59-63 parses the text line 55 already parsed, so its
      // catch cannot run.
      var parsed := ext.parseJson(PayloadText(data));
      assert parsed == signed;
      var result := parsed.value;
      effects := effects + [WriteHead(200, JsonType)];
      effects := effects + [End(OkDocument)];
      if result.Undefined? || result.Null? {
        return Threw(NullishPropertyRead("status"));
      }
      var event := if IsStrictZero(Own(result, "status")) then Classifier.Success else Classifier.Failure;
      if event == Classifier.Failure && Own(result, "status_message") == Str("Pending") {
        event := Classifier.Start;
      }
      var emitData := EmitData(result, Header(req.headers, HostHeader), req.url, Classifier.Name(event));
      effects := effects + [Emit(Wildcard, emitData)];
      effects := effects + [Emit(Classifier.Name(event), emitData)];
      return Returned;
    }
  }

  /** `create(options)`: a fresh handler, or the exception its checks throw. */
  method Create(options: Value) returns (r: Result<Handler, Thrown>)
    ensures CheckOptions(options).Err? ==> r == Err(CheckOptions(options).error)
    ensures CheckOptions(options).Ok? ==>
      r.Ok? && fresh(r.value) && r.value.options == CheckOptions(options).value && r.value.effects == []
  {
    var checked := CheckOptions(options);
    if checked.Err? {
      return Err(checked.error);
    }
    var h := new Handler(checked.value);
    return Ok(h);
  }
}
