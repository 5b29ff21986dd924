/**
 One exchange with the payment gateway and how the retry loop classifies it.
 What the HTTP client and the JSON deserializer did is given as data (the
 status code, the body text, and what deserialization produced); the
 classification follows the order of the checks in the retry loop.
 */
module Gateway {
  import opened Options

  /** The body the gateway answers with: `{ success, message }`. The message
      is absent when the JSON has none (a C# `null`). */
  datatype GatewayResponse = GatewayResponse(success: bool, message: Option<string>)

  /** Exceptions the retry loop catches, each in its own handler. */
  datatype ThrownException =
    | HttpRequestException   // transport failure
    | TaskCanceledException  // the per-attempt timeout fired
    | OtherException         // anything else thrown inside the attempt

  /** What `JsonSerializer.Deserialize<GatewayResponse>` did with a body. */
  datatype Deserialized =
    | JsonException                      // the body is not valid JSON for the type
    | NullObject                         // the body is the JSON literal `null`
    | Object(response: GatewayResponse)  // a response object

  /** One attempt as the HTTP layer produced it: either an exception, or a
      response with its status code, its body text and the deserializer's
      verdict on that body (consulted only when the code reaches it). */
  datatype RawAttempt =
    | Threw(exception: ThrownException)
    | Responded(statusCode: int, body: string, deserialized: Deserialized)

  /** Why an attempt is not conclusive. */
  datatype TransientCause =
    | NonSuccessStatus
    | EmptyBody
    | MalformedJson
    | NullBody
    | TransportError
    | Timeout
    | UnexpectedError

  /** A classified attempt: worth retrying, or a parsed response that ends
      the loop whatever its `success` flag says. */
  datatype AttemptOutcome = Transient(cause: TransientCause) | Conclusive(response: GatewayResponse)

  /** `HttpResponseMessage.IsSuccessStatusCode`: a 2xx status. */
  predicate IsSuccessStatusCode(statusCode: int) {
    200 <= statusCode <= 299
  }

  /** `char.IsWhiteSpace`: the Unicode space, line and paragraph separators,
      the control characters U+0009 to U+000D, and U+0085. */
  predicate IsWhiteSpace(c: char) {
    || ('\U{0009}' <= c <= '\U{000D}')
    || c == ' ' || c == '\U{0085}' || c == '\U{00A0}' || c == '\U{1680}'
    || ('\U{2000}' <= c <= '\U{200A}')
    || c == '\U{2028}' || c == '\U{2029}' || c == '\U{202F}' || c == '\U{205F}' || c == '\U{3000}'
  }

  /** `string.IsNullOrWhiteSpace` on a body read from the response (which is
      never null): scans for the first character that is not white space. */
  function IsNullOrWhiteSpace(s: string): (blank: bool)
    ensures blank <==> forall i :: 0 <= i < |s| ==> IsWhiteSpace(s[i])
  {
    if |s| == 0 then true
    else if !IsWhiteSpace(s[0]) then false
    else
      var rest := IsNullOrWhiteSpace(s[1..]);
      assert forall i :: 1 <= i < |s| ==> s[i] == s[1..][i - 1];
      rest
  }

  /** The checks of one loop iteration, in the order the code makes them:
      exceptions, then the status code, then a blank body, then the
      deserializer's verdict. */
  function Classify(a: RawAttempt): (o: AttemptOutcome)
    ensures o.Conclusive? <==>
      a.Responded? && IsSuccessStatusCode(a.statusCode) && !IsNullOrWhiteSpace(a.body) && a.deserialized.Object?
    ensures o.Conclusive? ==> o.response == a.deserialized.response
    ensures a == Threw(HttpRequestException) ==> o == Transient(TransportError)
    ensures a == Threw(TaskCanceledException) ==> o == Transient(Timeout)
    ensures a == Threw(OtherException) ==> o == Transient(UnexpectedError)
    ensures a.Responded? && !IsSuccessStatusCode(a.statusCode) ==> o == Transient(NonSuccessStatus)
    ensures a.Responded? && IsSuccessStatusCode(a.statusCode) && IsNullOrWhiteSpace(a.body) ==> o == Transient(EmptyBody)
    ensures a.Responded? && IsSuccessStatusCode(a.statusCode) && !IsNullOrWhiteSpace(a.body) ==>
      && (a.deserialized == JsonException ==> o == Transient(MalformedJson))
      && (a.deserialized == NullObject ==> o == Transient(NullBody))
  {
    match a
    case Threw(HttpRequestException) => Transient(TransportError)
    case Threw(TaskCanceledException) => Transient(Timeout)
    case Threw(OtherException) => Transient(UnexpectedError)
    case Responded(status, body, deserialized) =>
      if !IsSuccessStatusCode(status) then Transient(NonSuccessStatus)
      else if IsNullOrWhiteSpace(body) then Transient(EmptyBody)
      else match deserialized
        case JsonException => Transient(MalformedJson)
        case NullObject => Transient(NullBody)
        case Object(response) => Conclusive(response)
  }

  /** A declined payment is as conclusive as an accepted one: the flag in the
      body never makes an attempt transient. */
  lemma DeclineIsConclusive(status: int, body: string, message: Option<string>)
    requires IsSuccessStatusCode(status) && !IsNullOrWhiteSpace(body)
    ensures Classify(Responded(status, body, Object(GatewayResponse(false, message))))
         == Conclusive(GatewayResponse(false, message))
  {
  }

  /** A blank body is never parsed: whatever the deserializer would have said,
      the attempt is transient. */
  lemma BlankBodyIsNeverParsed(status: int, body: string, d1: Deserialized, d2: Deserialized)
    requires IsNullOrWhiteSpace(body)
    ensures Classify(Responded(status, body, d1)) == Classify(Responded(status, body, d2))
    ensures Classify(Responded(status, body, d1)).Transient?
  {
  }
}
