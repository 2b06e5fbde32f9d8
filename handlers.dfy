/**
 * The two transport adapters over the upstream client, the error writer and the
 * fixed handlers. Each handler returns what it would write (status, content type
 * and body) instead of writing to a response writer.
 *
 * `json.Marshal` is a parameter `marshal` so that the branches taken when it fails
 * are part of the model; `Codec.StdMarshal` is the marshaller the program uses.
 * The upstream is a parameter too: `upstream(currency)` is what the library steps
 * of `GetSpotPrice` yield when asked for that currency.
 */
module Handlers {
  import opened Wrappers
  import opened Json
  import opened Coinbase
  import opened Codec

  const ContentTypeJsonUtf8 := "application/json; charset=UTF-8"
  const ContentTypeJson := "application/json"

  /** The headers of every Lambda reply. */
  const LambdaHeaders: map<string, string> := map["Content-Type" := ContentTypeJson]

  const NotFoundId := "not_found"
  const InvalidRequestMessage := "Invalid request"

  type Marshaller = Response -> Result<Json, string>
  type Upstream = string -> Exchange

  /** A written body: a JSON document, followed by a newline when it was written by a `json.Encoder`. */
  datatype Payload = Payload(doc: Json, trailingNewline: bool)

  /** What an HTTP handler wrote: its status, the Content-Type header if set, and its body if any. */
  datatype HttpReply = HttpReply(status: int, contentType: Option<string>, body: Option<Payload>)

  /** How serving one HTTP request ends: a reply, or a panic that aborts the request. */
  datatype Served = Replied(reply: HttpReply) | Aborted(panic: Panic)

  /** The event a Lambda invocation carries. */
  datatype LambdaEvent = LambdaEvent(currency: string)

  /** The structured reply of a Lambda invocation; `body` is the marshalled envelope. */
  datatype LambdaResponse = LambdaResponse(statusCode: int, headers: map<string, string>, body: Json)

  /** The envelope that reports one error and nothing else. */
  function ErrorEnvelope(e: ResponseError): Response
  {
    Response(None, Some([e]))
  }

  /** The status and envelope both transports render for a call's outcome. */
  datatype Rendering = Rendering(status: int, envelope: Response)

  /**
   * The transport-independent rendering of a completed call: an error as its status
   * with an envelope holding just its inner error, a response as status 200 with the
   * response itself. `None` for a panic or a call that returned neither.
   */
  function Normalize(c: Call<Response, ServiceError>): (n: Option<Rendering>)
    ensures n.Some? <==> c.Returned? && (c.value.Some? || c.err.Some?)
    // an error is rendered under its own status, as an envelope holding only its inner error
    ensures c.Returned? && c.err.Some? ==>
              n == Some(Rendering(c.err.value.statusCode, Response(None, Some([c.err.value.innerError]))))
    // a response without an error is rendered unchanged under status 200
    ensures c.Returned? && c.err.None? && c.value.Some? ==> n == Some(Rendering(StatusOK, c.value.value))
  {
    match c
    case Panicked(_) => None
    case Returned(resp, err) =>
      if err.Some? then Some(Rendering(err.value.statusCode, ErrorEnvelope(err.value.innerError)))
      else if resp.Some? then Some(Rendering(StatusOK, resp.value))
      else None
  }

  /** The codes net/http's `WriteHeader` accepts; it panics on any other. */
  predicate ValidWriteHeaderCode(code: int)
  {
    100 <= code <= 999
  }

  /** The statuses under which net/http writes a body: not 1xx, 204 or 304. */
  predicate BodyAllowed(code: int)
  {
    !(100 <= code <= 199) && code != 204 && code != 304
  }

  /**
   * The 1xx statuses that `WriteHeader` sends as an informational response (Go 1.19
   * and later), after which the first write goes out under an implicit 200.
   */
  predicate Informational(code: int)
  {
    100 <= code <= 199 && code != 101
  }

  /**
   * What reaches the client when a handler sets `contentType`, calls `WriteHeader(code)`
   * and then writes `body`. net/http drops the body where the final status allows none,
   * and drops Content-Type too under 304.
   */
  function Emit(code: int, contentType: Option<string>, body: Payload): (w: HttpReply)
    requires ValidWriteHeaderCode(code)
    ensures w.status == if Informational(code) then StatusOK else code
    ensures w.body.Some? <==> BodyAllowed(w.status)
    ensures w.body.Some? ==> w.body.value == body
    ensures w.contentType == if code == 304 then None else contentType
  {
    if Informational(code) then HttpReply(StatusOK, contentType, Some(body))
    else if code == 304 then HttpReply(code, None, None)
    else if !BodyAllowed(code) then HttpReply(code, contentType, None)
    else HttpReply(code, contentType, Some(body))
  }

  /**
   * `writeError`: the given status and content type with the envelope holding the one
   * error `{id, msg}` and no data, as net/http emits them; when marshalling fails, a
   * bare 500. A status that `WriteHeader` refuses aborts the request.
   */
  function WriteError(marshal: Marshaller, statusCode: int, id: string, msg: string): (s: Served)
    ensures var m := marshal(ErrorEnvelope(ResponseError(id, msg)));
            if m.Err? then
              s == Replied(HttpReply(StatusInternalServerError, None, None))
            else if ValidWriteHeaderCode(statusCode) then
              s == Replied(Emit(statusCode, Some(ContentTypeJsonUtf8), Payload(m.value, false)))
            else
              s == Aborted(InvalidWriteHeaderCode(statusCode))
    ensures Lossless(marshal) && s.Replied? && s.reply.body.Some? ==>
              Decode(s.reply.body.value.doc) == Some(Response(None, Some([ResponseError(id, msg)])))
  {
    match marshal(ErrorEnvelope(ResponseError(id, msg)))
    case Err(_) => Replied(HttpReply(StatusInternalServerError, None, None))
    case Ok(bytes) =>
      if !ValidWriteHeaderCode(statusCode) then Aborted(InvalidWriteHeaderCode(statusCode))
      else Replied(Emit(statusCode, Some(ContentTypeJsonUtf8), Payload(bytes, false)))
  }

  /** `defaultHandler`: every unrouted request gets 404 with the single error `not_found` / `Invalid request`. */
  function DefaultHandler(marshal: Marshaller): (w: HttpReply)
    ensures marshal(ErrorEnvelope(ResponseError(NotFoundId, InvalidRequestMessage))).Ok? ==>
              w.status == StatusNotFound && w.contentType == Some(ContentTypeJsonUtf8) &&
              w.body == Some(Payload(marshal(ErrorEnvelope(ResponseError(NotFoundId, InvalidRequestMessage))).value, false))
    ensures marshal(ErrorEnvelope(ResponseError(NotFoundId, InvalidRequestMessage))).Err? ==>
              w == HttpReply(StatusInternalServerError, None, None)
    ensures Lossless(marshal) && w.body.Some? ==>
              Decode(w.body.value.doc) == Some(Response(None, Some([ResponseError("not_found", "Invalid request")])))
  {
    // 404 is a code WriteHeader accepts, so this never aborts
    WriteError(marshal, StatusNotFound, NotFoundId, InvalidRequestMessage).reply
  }

  /** `healthHandler`: status 200, no header, no body, whatever the upstream's state. */
  function HealthHandler(): (w: HttpReply)
    ensures w.status == StatusOK && w.contentType.None? && w.body.None?
  {
    HttpReply(StatusOK, None, None)
  }

  /**
   * The handler `createSpotPriceHandler` returns, for the currency the router matched.
   * An error is written by `WriteError`; a response is encoded by a `json.Encoder`
   * under the implicit status 200, and an encoding failure leaves the body empty.
   */
  function SpotPriceHandler(upstream: Upstream, marshal: Marshaller, currency: string): (s: Served)
    ensures var c := GetSpotPrice(upstream(currency));
            match c
            case Panicked(p) => s == Aborted(p)
            case Returned(_, err) =>
              var n := Normalize(c).value;
              if marshal(n.envelope).Err? then
                s == Replied(HttpReply(if err.None? then StatusOK else StatusInternalServerError,
                                       if err.None? then Some(ContentTypeJsonUtf8) else None,
                                       None))
              else if ValidWriteHeaderCode(n.status) then
                s == Replied(Emit(n.status, Some(ContentTypeJsonUtf8), Payload(marshal(n.envelope).value, err.None?)))
              else
                // only an error's status can be refused; a response is written under 200
                err.Some? && s == Aborted(InvalidWriteHeaderCode(n.status))
  {
    match GetSpotPrice(upstream(currency))
    case Panicked(p) => Aborted(p)
    case Returned(resp, err) =>
      if err.Some? then
        WriteError(marshal, err.value.statusCode, err.value.innerError.id, err.value.innerError.message)
      else
        // GetSpotPrice returns a response whenever it returns no error
        var encoded := marshal(resp.value);
        Replied(HttpReply(StatusOK, Some(ContentTypeJsonUtf8),
                          if encoded.Ok? then Some(Payload(encoded.value, true)) else None))
  }

  /**
   * The handler `lambdaHandler` returns: the same status and envelope as the HTTP
   * adapter, as a structured reply; a marshalling failure is returned as the
   * invocation's error, never wrapped in an envelope.
   */
  function LambdaHandler(upstream: Upstream, marshal: Marshaller, event: LambdaEvent): (r: Call<LambdaResponse, string>)
    ensures var c := GetSpotPrice(upstream(event.currency));
            match c
            case Panicked(p) => r == Panicked(p)
            case Returned(_, _) =>
              var n := Normalize(c).value;
              match marshal(n.envelope)
              case Ok(body) => r == Returned(Some(LambdaResponse(n.status, LambdaHeaders, body)), None)
              case Err(e) => r == Returned(None, Some(e))
  {
    match GetSpotPrice(upstream(event.currency))
    case Panicked(p) => Panicked(p)
    case Returned(resp, err) =>
      if err.Some? then
        match marshal(ErrorEnvelope(err.value.innerError))
        case Err(e) => Returned(None, Some(e))
        case Ok(b) => Returned(Some(LambdaResponse(err.value.statusCode, LambdaHeaders, b)), None)
      else
        match marshal(resp.value)
        case Err(e) => Returned(None, Some(e))
        case Ok(b) => Returned(Some(LambdaResponse(StatusOK, LambdaHeaders, b)), None)
  }

  /**
   * For the same currency and upstream, the HTTP and Lambda adapters agree. A panic
   * of the client aborts both. Whenever the Lambda adapter replies under a status
   * `WriteHeader` accepts, the HTTP adapter emits that status and document, so under a
   * status that allows a body both carry the same status and the same document; under
   * any other status only the HTTP adapter panics.
   */
  lemma AdaptersAgree(upstream: Upstream, marshal: Marshaller, currency: string)
    ensures var h := SpotPriceHandler(upstream, marshal, currency);
            var l := LambdaHandler(upstream, marshal, LambdaEvent(currency));
            && (h.Aborted? <==>
                  l.Panicked? || (l.Returned? && l.value.Some? && !ValidWriteHeaderCode(l.value.value.statusCode)))
            && (l.Panicked? ==> h == Aborted(l.panic))
            && (l.Returned? && l.value.Some? && ValidWriteHeaderCode(l.value.value.statusCode) ==>
                  h == Replied(Emit(l.value.value.statusCode, Some(ContentTypeJsonUtf8),
                                    Payload(l.value.value.body, l.value.value.statusCode == StatusOK))))
            && (l.Returned? && l.value.Some? && ValidWriteHeaderCode(l.value.value.statusCode) &&
                BodyAllowed(l.value.value.statusCode) ==>
                  h.Replied? && h.reply.status == l.value.value.statusCode &&
                  h.reply.body.Some? && h.reply.body.value.doc == l.value.value.body)
            && (l.Returned? && l.value.Some? && !ValidWriteHeaderCode(l.value.value.statusCode) ==>
                  h == Aborted(InvalidWriteHeaderCode(l.value.value.statusCode)))
            && (l.Returned? && l.err.Some? ==> h.Replied? && h.reply.body.None?)
  {
  }

  /**
   * An upstream error under status 42, which `WriteHeader` refuses: the HTTP adapter
   * panics while the Lambda adapter replies with status 42.
   */
  lemma OddStatusSplitsAdapters(upstream: Upstream, currency: string, e: ResponseError)
    requires upstream(currency) == Received(42, Decoded(ErrorEnvelope(e)))
    ensures SpotPriceHandler(upstream, StdMarshal, currency) == Aborted(InvalidWriteHeaderCode(42))
    ensures LambdaHandler(upstream, StdMarshal, LambdaEvent(currency)).Returned?
    ensures LambdaHandler(upstream, StdMarshal, LambdaEvent(currency)).value.value.statusCode == 42
  {
  }

  /**
   * An upstream error under status 204, which allows no body: the HTTP adapter replies
   * 204 without a body while the Lambda adapter's body reports the error.
   */
  lemma NoContentStatusDropsHttpBody(upstream: Upstream, currency: string, e: ResponseError)
    requires upstream(currency) == Received(204, Decoded(ErrorEnvelope(e)))
    ensures SpotPriceHandler(upstream, StdMarshal, currency) == Replied(HttpReply(204, Some(ContentTypeJsonUtf8), None))
    ensures LambdaHandler(upstream, StdMarshal, LambdaEvent(currency)) ==
            Returned(Some(LambdaResponse(204, LambdaHeaders, Marshal(ErrorEnvelope(e)))), None)
  {
  }

  /**
   * Under `json.Marshal` an HTTP reply that is not aborted carries a body exactly when
   * its status allows one, and a reader of the body recovers the upstream's response
   * on success and exactly the one reported error on failure.
   */
  lemma HttpRepliesReadBack(upstream: Upstream, currency: string)
    ensures var s := SpotPriceHandler(upstream, StdMarshal, currency);
            var c := GetSpotPrice(upstream(currency));
            s.Replied? ==>
              && (s.reply.body.Some? <==> BodyAllowed(s.reply.status))
              && (s.reply.body.Some? && c.err.None? ==> Decode(s.reply.body.value.doc) == c.value)
              && (s.reply.body.Some? && c.err.Some? ==>
                    Decode(s.reply.body.value.doc) == Some(ErrorEnvelope(c.err.value.innerError)))
  {
    var c := GetSpotPrice(upstream(currency));
    if c.Returned? {
      RoundTrip(Normalize(c).value.envelope);
    }
  }

  /**
   * Under `json.Marshal` a Lambda invocation that does not panic always replies, and
   * its body reads back as the envelope the HTTP adapter renders.
   */
  lemma LambdaRepliesReadBack(upstream: Upstream, event: LambdaEvent)
    ensures var r := LambdaHandler(upstream, StdMarshal, event);
            var c := GetSpotPrice(upstream(event.currency));
            r.Returned? ==>
              r.value.Some? && r.err.None? &&
              Decode(r.value.value.body) == Some(Normalize(c).value.envelope)
  {
    var c := GetSpotPrice(upstream(event.currency));
    if c.Returned? {
      RoundTrip(Normalize(c).value.envelope);
    }
  }

  /**
   * When the upstream's body is an OK response, or an error envelope with one error
   * and no data, the HTTP adapter emits exactly the document `json.Marshal` writes
   * for that body, under the upstream's status.
   */
  lemma RelayIsVerbatim(upstream: Upstream, currency: string, status: int, r: Response)
    requires upstream(currency) == Received(status, Decoded(r))
    requires status == StatusOK || (status != StatusOK && r.data.None? && r.errors.Some? && |r.errors.value| == 1)
    ensures SpotPriceHandler(upstream, StdMarshal, currency) ==
            if ValidWriteHeaderCode(status) then
              Replied(Emit(status, Some(ContentTypeJsonUtf8), Payload(Marshal(r), status == StatusOK)))
            else
              Aborted(InvalidWriteHeaderCode(status))
  {
    if status != StatusOK {
      assert r.errors.value == [r.errors.value[0]];
    }
  }

  /** The unrouted-request reply is exactly `{"errors":[{"id":"not_found","message":"Invalid request"}]}`. */
  lemma DefaultHandlerDocument()
    ensures DefaultHandler(StdMarshal) ==
            HttpReply(StatusNotFound, Some(ContentTypeJsonUtf8), Some(Payload(
              JObject([("errors", JArray([JObject([("id", JString("not_found")), ("message", JString("Invalid request"))])]))]),
              false)))
  {
    var e := ResponseError(NotFoundId, InvalidRequestMessage);
    var doc := JObject([("errors", JArray([MarshalError(e)]))]);
    assert MarshalErrors([e]) == [MarshalError(e)];
    assert Marshal(ErrorEnvelope(e)) == doc;
  }
}
