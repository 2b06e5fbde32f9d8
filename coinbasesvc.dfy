/**
 * The upstream client: the envelope types of the spot-price API and the
 * classification `GetSpotPrice` makes of one exchange with the upstream.
 *
 * The library steps of the exchange (building the request, sending it, reading
 * the body, decoding the JSON) are not modelled; what they yielded is the input
 * `Exchange`, and `GetSpotPrice` is the chain of checks the client applies to it.
 */
module Coinbase {
  import opened Wrappers

  const StatusOK := 200
  const StatusNotFound := 404
  const StatusInternalServerError := 500

  /** The id of every error the client fabricates itself. */
  const InternalErrorId := "internal_error"

  /** The `data` member of a successful envelope. `amount` is kept as the upstream's text. */
  datatype ResponseData = ResponseData(base: string, currency: string, amount: string)

  /** One entry of the `errors` member of an envelope. */
  datatype ResponseError = ResponseError(id: string, message: string)

  /** The JSON envelope: both members are pointers with `omitempty`, so either may be absent. */
  datatype Response = Response(data: Option<ResponseData>, errors: Option<seq<ResponseError>>)

  /** The client's single error shape. */
  datatype ServiceError = ServiceError(statusCode: int, innerError: ResponseError)

  /** A run-time panic of Go code. */
  datatype Panic =
    | NilDereference
    | IndexOutOfRange(index: int, length: int)
    /** net/http's `WriteHeader` given a code outside 100-999. */
    | InvalidWriteHeaderCode(code: int)

  /**
   * How a Go call with two results `(*T, *E)` (or `(*T, error)`) ends: it returns
   * both pointers, either of which may be nil, or it panics.
   */
  datatype Call<+T, +E> =
    | Returned(value: Option<T>, err: Option<E>)
    | Panicked(panic: Panic)

  /** What reading and decoding the upstream's body yielded. */
  datatype Body =
    | ReadFailed(msg: string)
    | Malformed(msg: string)
    | Decoded(resp: Response)

  /** What the library steps of one exchange with the upstream yielded, each failure with its description. */
  datatype Exchange =
    | BuildFailed(msg: string)
    | TransportFailed(msg: string)
    | Received(status: int, body: Body)

  /**
   * The description of the failure that ended the exchange before a body was
   * decoded (request construction, transport, body read or JSON decode), if any.
   */
  function LocalFailure(x: Exchange): Option<string>
  {
    match x
    case BuildFailed(msg) => Some(msg)
    case TransportFailed(msg) => Some(msg)
    case Received(_, ReadFailed(msg)) => Some(msg)
    case Received(_, Malformed(msg)) => Some(msg)
    case Received(_, Decoded(_)) => None
  }

  /** The error the client fabricates for a failure of its own. */
  function InternalError(msg: string): ServiceError
  {
    ServiceError(StatusInternalServerError, ResponseError(InternalErrorId, msg))
  }

  /**
   * Classifies one exchange, checking in the source's order: request construction,
   * transport, body read, JSON decode, then the upstream's status. A non-OK status
   * takes the first entry of `errors` without checking that the list is there and
   * non-empty; when it is not, the call panics.
   */
  function GetSpotPrice(x: Exchange): (c: Call<Response, ServiceError>)
    // every return yields exactly one of a response and an error
    ensures c.Returned? ==> (c.value.Some? <==> c.err.None?)
    // each local failure becomes a 500 internal_error carrying its own description, whatever the status
    ensures LocalFailure(x).Some? ==> c == Returned(None, Some(InternalError(LocalFailure(x).value)))
    // an OK status with a decoded body relays that body unchanged
    ensures x.Received? && x.body.Decoded? && x.status == StatusOK ==> c == Returned(Some(x.body.resp), None)
    // a non-OK status with a decoded body reports the upstream's status and its first error, or panics
    ensures x.Received? && x.body.Decoded? && x.status != StatusOK ==>
              match x.body.resp.errors
              case None => c == Panicked(NilDereference)
              case Some(es) =>
                if |es| == 0 then c == Panicked(IndexOutOfRange(0, 0))
                else c == Returned(None, Some(ServiceError(x.status, es[0])))
    // an error never carries the OK status, so the status alone tells success from failure
    ensures c.Returned? && c.err.Some? ==> c.err.value.statusCode != StatusOK
  {
    match x
    case BuildFailed(msg) => Returned(None, Some(InternalError(msg)))
    case TransportFailed(msg) => Returned(None, Some(InternalError(msg)))
    case Received(status, body) =>
      match body
      case ReadFailed(msg) => Returned(None, Some(InternalError(msg)))
      case Malformed(msg) => Returned(None, Some(InternalError(msg)))
      case Decoded(resp) =>
        if status != StatusOK then
          match resp.errors
          case None => Panicked(NilDereference)
          case Some(es) =>
            if |es| == 0 then Panicked(IndexOutOfRange(0, |es|))
            else Returned(None, Some(ServiceError(status, es[0])))
        else
          Returned(Some(resp), None)
  }

  /** A JSON decode failure is reported as an internal error whatever status the upstream sent. */
  lemma ParseFailureBeatsStatus(status: int, msg: string)
    ensures GetSpotPrice(Received(status, Malformed(msg))) == Returned(None, Some(InternalError(msg)))
  {
  }

  /** The call panics exactly when a non-OK reply decodes to an envelope without a first error. */
  lemma PanicsExactlyWithoutFirstError(x: Exchange)
    ensures GetSpotPrice(x).Panicked? <==>
              x.Received? && x.body.Decoded? && x.status != StatusOK &&
              (x.body.resp.errors.None? || |x.body.resp.errors.value| == 0)
  {
  }

  /** On the upstream-error path the `data` member of the body plays no part. */
  lemma UpstreamErrorIgnoresData(status: int, d1: Option<ResponseData>, d2: Option<ResponseData>, es: Option<seq<ResponseError>>)
    requires status != StatusOK
    ensures GetSpotPrice(Received(status, Decoded(Response(d1, es)))) ==
            GetSpotPrice(Received(status, Decoded(Response(d2, es))))
  {
  }

  /** An upstream 404 carrying one error is reported as that status and error (the handler test's case). */
  lemma InvalidCurrencyIsForwarded()
    ensures GetSpotPrice(Received(StatusNotFound, Decoded(Response(None, Some([ResponseError("not_found", "Invalid currency")])))))
            == Returned(None, Some(ServiceError(404, ResponseError("not_found", "Invalid currency"))))
  {
  }
}
