/**
 * The transport as the providers see it. A call is a value (method, URL,
 * headers, JSON body); the reply is whatever the transport returns for it,
 * so every request function takes the transport as a parameter. The shared
 * part of every blocking request, turning a reply into a result, lives here.
 */
module Http {
  import opened Wrappers
  import opened CoreError
  import opened Json

  /** An opaque `reqwest::Client`. */
  datatype HttpClient = HttpClient(handle: nat)

  datatype Method = GET | POST

  datatype HttpCall = HttpCall(client: HttpClient, verb: Method, url: string, headers: map<string, string>, body: Option<Json>)

  /** Reading the whole body as text, or the transport error that interrupted it. */
  datatype Body = Body(text: string) | BodyReadFailed(detail: string)

  /** `send().await`: a transport failure, or a status and a body. */
  datatype HttpReply = SendFailed(detail: string) | Reply(status: u16, body: Body)

  /** One item of `bytes_stream().eventsource()`: a framing or transport error, or an event's data. */
  datatype SseItem = EventError(message: string) | Event(data: string)

  /**
   * A streaming reply: a transport failure, or a status together with the two
   * ways the body can be read, as text (used for error statuses) or as the
   * sequence of server-sent events it frames.
   */
  datatype StreamReply = StreamSendFailed(detail: string) | StreamReply(status: u16, body: Body, events: seq<SseItem>)

  /** `StatusCode::is_success`: 200 to 299. */
  predicate IsSuccess(status: u16) {
    200 <= status < 300
  }

  /**
   * The tail shared by every blocking request: a transport error is a
   * `RequestError`, a non-success status an `ApiError` carrying the status and
   * the body text verbatim, and a success body is decoded, a decoding failure
   * being a `ParseError`.
   */
  function Receive<T>(reply: HttpReply, parse: string -> Result<T, string>): (r: Result<T, Error>)
    ensures r.Success? <==> reply.Reply? && IsSuccess(reply.status) && reply.body.Body? && parse(reply.body.text).Success?
    ensures r.Success? ==> r.value == parse(reply.body.text).value
    ensures reply.SendFailed? ==> r == Failure(RequestError(reply.detail))
    ensures reply.Reply? && reply.body.BodyReadFailed? ==> r == Failure(RequestError(reply.body.detail))
    ensures reply.Reply? && !IsSuccess(reply.status) && reply.body.Body? ==> r == Failure(ApiError(reply.status, reply.body.text))
    ensures reply.Reply? && IsSuccess(reply.status) && reply.body.Body? && parse(reply.body.text).Failure? ==>
      r == Failure(ParseError(parse(reply.body.text).error))
  {
    match reply
    case SendFailed(d) => Failure(RequestError(d))
    case Reply(status, body) =>
      match body
      case BodyReadFailed(d) => Failure(RequestError(d))
      case Body(text) =>
        if !IsSuccess(status) then Failure(ApiError(status, text))
        else match parse(text)
          case Success(v) => Success(v)
          case Failure(d) => Failure(ParseError(d))
  }

  /**
   * `response.json().await`: as `Receive`, but the decoding is done by the
   * transport library, so a body that does not decode is a `RequestError`.
   */
  function ReceiveJson<T>(reply: HttpReply, parse: string -> Result<T, string>): (r: Result<T, Error>)
    ensures r.Success? <==> Receive(reply, parse).Success?
    ensures r.Success? ==> r == Receive(reply, parse)
    ensures reply.Reply? && IsSuccess(reply.status) && reply.body.Body? && parse(reply.body.text).Failure? ==>
      r == Failure(RequestError(parse(reply.body.text).error))
    ensures !r.Success? ==> !r.error.ParseError?
  {
    match Receive(reply, parse)
    case Failure(ParseError(d)) => Failure(RequestError(d))
    case other => other
  }

  /** A blocking request ends in a transport, status or decoding error and never in any other kind. */
  lemma ReceiveErrorKinds<T>(reply: HttpReply, parse: string -> Result<T, string>)
    ensures Receive(reply, parse).Failure? ==>
      var e := Receive(reply, parse).error;
      e.RequestError? || e.ApiError? || e.ParseError?
    ensures ReceiveJson(reply, parse).Failure? ==>
      var e := ReceiveJson(reply, parse).error;
      e.RequestError? || e.ApiError?
  {
  }

  /** An error status never reaches the decoder: the result is the same whatever `parse` does. */
  lemma ReceiveErrorStatusSkipsParse<T>(status: u16, text: string, p1: string -> Result<T, string>, p2: string -> Result<T, string>)
    requires !IsSuccess(status)
    ensures Receive(Reply(status, Body(text)), p1) == Receive(Reply(status, Body(text)), p2) == Failure(ApiError(status, text))
  {
  }
}
