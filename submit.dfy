/**
 * The message choice of the submit handler in static/script.js: from what
 * the request came to (a rejection, or a status flag and a body) to the text
 * shown and whether the star burst fires.
 */
module Submit {
  import opened Options
  import opened Js

  /** The response body as res.json() delivers it: parsed, or failing to parse. */
  datatype Body = Unparsable | Parsed(json: Json)

  /** How the fetch of /predict ended: it threw (with a message), or a response came back. */
  datatype Outcome =
    | Rejected(message: string)
    | Responded(ok: bool, body: Body)

  /** What the handler leaves on screen, and whether it calls burst(). */
  datatype Reply = Reply(text: string, celebrate: bool)

  const ErrorPrefix := "Error: "
  const PredictionPrefix := "Prediction: "

  /** `await res.json().catch(() => ({}))`: a body that does not parse reads as an empty object. */
  function BodyValue(b: Body): Json
  {
    match b
    case Unparsable => JObj(map[])
    case Parsed(j) => j
  }

  /** The try block after the body is read, in the source's order of checks. */
  function Decide(ok: bool, json: Json): Completion<Reply>
  {
    if !ok then
      match GetProp(json, "error")
      case Throw(m) => Throw(m)
      case Normal(e) => ErrorReply(TextOr(e, "request failed"))
    else
      match GetProp(json, "prediction")
      case Throw(m) => Throw(m)
      case Normal(p) =>
        if p.Defined? && p.value.JNum? then
          Normal(Reply(PredictionPrefix + NumberText(p.value.n), true))
        else
          match GetProp(json, "error")
          case Throw(m) => Throw(m)
          case Normal(e) => ErrorReply(TextOr(e, "invalid response"))
  }

  /** The error reply for a detail whose conversion to text may itself throw. */
  function ErrorReply(detail: Completion<string>): Completion<Reply>
  {
    match detail
    case Throw(m) => Throw(m)
    case Normal(s) => Normal(Reply(ErrorPrefix + s, false))
  }

  /** The whole handler: anything thrown inside the try block is shown as an error. */
  function SubmitReply(o: Outcome): (r: Reply)
    ensures r.celebrate <==> PredictionOf(o).Some?
    ensures r.celebrate ==> r.text == PredictionPrefix + NumberText(PredictionOf(o).value)
    ensures !r.celebrate ==> |r.text| >= |ErrorPrefix| && r.text[..|ErrorPrefix|] == ErrorPrefix
    ensures o.Rejected? ==> r.text == ErrorPrefix + o.message
    ensures o.Responded? && BodyValue(o.body).JNull? ==>
      r.text == ErrorPrefix + NullReadMessage(if o.ok then "prediction" else "error")
    ensures o.Responded? && !BodyValue(o.body).JNull? && PredictionOf(o).None? ==>
      r.text == ErrorPrefix + ErrorDetail(BodyValue(o.body), if o.ok then "invalid response" else "request failed")
  {
    match o
    case Rejected(m) => Reply(ErrorPrefix + m, false)
    case Responded(ok, body) =>
      match Decide(ok, BodyValue(body))
      case Normal(r) => r
      case Throw(m) => Reply(ErrorPrefix + m, false)
  }

  /** The prediction a successful reply shows: an ok response whose body holds a numeric prediction. */
  function PredictionOf(o: Outcome): Option<int>
  {
    if o.Responded? && o.ok then
      var j := BodyValue(o.body);
      if j.JObj? && "prediction" in j.fields && j.fields["prediction"].JNum?
      then Some(j.fields["prediction"].n) else None
    else None
  }

  /**
   * The detail an error reply shows for a non-null body: the text of a truthy
   * error field, else the fallback; when that text cannot be made, the
   * conversion's TypeError message.
   */
  function ErrorDetail(j: Json, fallback: string): string
  {
    if j.JObj? && "error" in j.fields && Truthy(Defined(j.fields["error"]))
    then Shown(Text(j.fields["error"])) else fallback
  }

  /** A failed status wins over a numeric prediction in the same body. */
  lemma NotOkIgnoresPrediction(fields: map<string, Json>)
    requires "prediction" in fields && fields["prediction"].JNum?
    ensures !SubmitReply(Responded(false, Parsed(JObj(fields)))).celebrate
    ensures SubmitReply(Responded(true, Parsed(JObj(fields)))).celebrate
  {
  }

  /** A body that does not parse is handled exactly as the empty object. */
  lemma UnparsableIsEmptyObject(ok: bool)
    ensures SubmitReply(Responded(ok, Unparsable)) == SubmitReply(Responded(ok, Parsed(JObj(map[]))))
    ensures SubmitReply(Responded(ok, Unparsable)).text ==
      ErrorPrefix + (if ok then "invalid response" else "request failed")
  {
  }

  /** An empty error string is falsy, so the default message is shown instead. */
  lemma EmptyErrorFallsBack(ok: bool, fields: map<string, Json>)
    ensures SubmitReply(Responded(ok, Parsed(JObj(fields["error" := JStr("")])))) ==
            SubmitReply(Responded(ok, Parsed(JObj(fields - {"error"}))))
  {
  }

  /** A digit prediction reads "Prediction: d" and fires the burst. */
  lemma DigitPrediction(d: int, fields: map<string, Json>)
    requires 0 <= d < 10
    ensures SubmitReply(Responded(true, Parsed(JObj(fields["prediction" := JNum(d)])))) ==
            Reply(PredictionPrefix + [DigitChar(d)], true)
  {
    NumberTextRoundTrip(d);
  }

  /** A non-empty error string reaches the screen verbatim, whatever the status. */
  lemma ErrorStringShown(ok: bool, msg: string)
    requires msg != ""
    ensures SubmitReply(Responded(ok, Parsed(JObj(map["error" := JStr(msg)])))) ==
            Reply(ErrorPrefix + msg, false)
  {
  }

  /**
   * An error object with its own "toString" entry cannot be turned into text:
   * the TypeError is caught and shown instead, whatever the status.
   */
  lemma UnprintableErrorShown(ok: bool, inner: map<string, Json>)
    requires "toString" in inner
    ensures SubmitReply(Responded(ok, Parsed(JObj(map["error" := JObj(inner)])))) ==
            Reply(ErrorPrefix + NotPrimitiveMessage, false)
  {
  }
}
