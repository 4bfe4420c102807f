/** The lifecycle event a notification announces (handler.js:68-71). */
module Classifier {
  import opened Wrappers
  import opened JsValues

  datatype Event = Success | Failure | Start

  /** The channel name an event is emitted on. */
  function Name(e: Event): string
  {
    match e
    case Success => "success"
    case Failure => "failure"
    case Start => "start"
  }

  /** The event for a notification's `status` and `status_message`: the
      default is success for a zero status and failure otherwise, and a
      failure whose message is "Pending" is a start. */
  function Classify(status: Value, statusMessage: Value): (e: Event)
    ensures e == Success <==> IsStrictZero(status)
    ensures e == Start <==> !IsStrictZero(status) && statusMessage == Str("Pending")
    ensures e == Failure <==> !IsStrictZero(status) && statusMessage != Str("Pending")
  {
    var event := if IsStrictZero(status) then Success else Failure;
    if event == Failure && statusMessage == Str("Pending") then Start else event
  }

  /** Classifying the parsed payload `result`: reading `result.status` throws
      when the payload is `null` or `undefined`. */
  function ClassifyResult(result: Value): (r: Result<Event, Thrown>)
    ensures r.Err? <==> result.Null? || result.Undefined?
    ensures r.Err? ==> r.error == NullishPropertyRead("status")
    ensures r.Ok? ==> r.value == Classify(Own(result, "status"), Own(result, "status_message"))
  {
    match GetProperty(result, "status")
    case Err(t) => Err(t)
    case Ok(status) => Ok(Classify(status, Own(result, "status_message")))
  }

  /** Channel names tell events apart, and none is the wildcard `*` or the
      `error` channel that throws when nobody listens. */
  lemma NamesDistinct(a: Event, b: Event)
    ensures Name(a) == Name(b) ==> a == b
    ensures Name(a) != "*" && Name(a) != "error"
  {
  }

  /** The payloads of test.js:131, 161 and 187. */
  lemma ClassifyExamples()
    ensures ClassifyResult(Object(map["status" := Number(0.0)])) == Ok(Success)
    ensures ClassifyResult(Object(map["status" := Number(1.0), "status_message" := Str("Pending")])) == Ok(Start)
    ensures ClassifyResult(Object(map["status" := Number(1.0), "status_message" := Str("Broken")])) == Ok(Failure)
  {
  }
}
