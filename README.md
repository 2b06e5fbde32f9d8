# Coinbase spot-price proxy: outcome classification and rendering

This project models the core of a small proxy in front of the Coinbase spot-price
API. `CoinbaseSvc.GetSpotPrice` performs one exchange with the upstream and
classifies it into a `*Response` envelope or a `*ServiceError`. Two transport
adapters render that outcome. The HTTP handler writes a status, a content type and
a JSON body. The Lambda handler returns a `LambdaResponse{StatusCode, Headers, Body}`
or an invocation error. `writeError`, `defaultHandler` and `healthHandler` are
modelled too.

Everything is pure functions over abstract inputs:

- `Coinbase` (coinbasesvc.dfy) holds the envelope types and the Go call outcome
  `Call = Returned(value?, err?) | Panicked(panic)`. It also holds `GetSpotPrice`
  over an `Exchange`. An `Exchange` is what the library steps yielded:
  `BuildFailed | TransportFailed | Received(status, ReadFailed | Malformed | Decoded(Response))`.
  The status is carried into read and decode failures, so "a decode failure beats
  a non-OK status" is a statement the model can make.
- `Codec` (codec.dfy) lays out the JSON document that `json.Marshal` writes for an
  envelope, following the struct tags and `omitempty`. `Decode` reads a document
  back. Their round trip shows that a body determines its envelope.
- `Handlers` (handlers.dfy) holds the adapters. Each returns the reply it would
  write instead of writing to a `ResponseWriter`.
  - `json.Marshal` is passed in as `marshal`, so the marshal-failure branches can
    be reached. `Codec.StdMarshal` is the real one, and it never fails.
  - The upstream is passed in as `upstream: string -> Exchange`, the exchange
    performed for the requested currency.
- `Wrappers` and `Json` provide `Option`/`Result` and JSON document trees.

The unchecked `(*jsonResp.Errors)[0]` is modelled as written. A non-OK status
whose body has no `errors` member ends in `Panicked(NilDereference)`. An empty
list ends in `Panicked(IndexOutOfRange(0, 0))`. `PanicsExactlyWithoutFirstError`
states exactly when this happens. Both adapters propagate the panic: the HTTP
request is aborted, and the Lambda invocation fails. The code does not guard the
index. A guarded version would return a generic internal error; the model follows
the code.

`writeError` passes the upstream status to net/http's `WriteHeader`, which panics
on a code outside 100-999. The model carries this as `InvalidWriteHeaderCode`:
under such a status the HTTP adapter aborts while the Lambda adapter replies
(`OddStatusSplitsAdapters`). net/http also writes no body under 101, 204 and 304,
drops Content-Type under 304, and sends the other 1xx codes as an informational
response, after which the body goes out under an implicit 200. `Emit` applies
these rules to every reply written after an explicit `WriteHeader`. In practice
the HTTP client skips interim 1xx responses and returns the final one, so the
client never hands `GetSpotPrice` a 100, 102 or 103. Under 204 and 304 it reads an
empty body, so the decode fails and those statuses reach the handlers as internal
errors. `Emit`'s 1xx rules are reached only through exchanges the client does not
produce.

Places where a reader might expect different behaviour:

- The HTTP success body is written by a `json.Encoder`, which appends a newline.
  The Lambda body and `writeError`'s body have none. `Payload.trailingNewline`
  records this, so the bodies agree as documents, not byte for byte.
- Nothing ensures that a `ServiceError`'s id and message are non-empty. They are
  copied from the upstream or from an error's description.

## Model

| member | source | states |
|---|---|---|
| `Coinbase.GetSpotPrice` | coinbasesvc.go:44-86 | Every return gives exactly one of a response and an error. A build, transport, read or decode failure gives `ServiceError{500, "internal_error", description}`. An OK status relays the decoded body unchanged. A non-OK status gives the upstream status and the first listed error, or a nil-dereference or index panic when the list is absent or empty. An error never carries status 200. |
| `Coinbase.ParseFailureBeatsStatus` | coinbasesvc.go:72-78 | A body that does not decode gives the internal error with the decode failure's description, whatever status the upstream sent. |
| `Coinbase.PanicsExactlyWithoutFirstError` | coinbasesvc.go:78-83 | The call panics if and only if the status is non-OK, the body decoded, and `errors` is absent or empty. |
| `Coinbase.UpstreamErrorIgnoresData` | coinbasesvc.go:78-83 | On a non-OK status, the body's `data` member has no effect on the outcome, whether `errors` is present or absent. |
| `Coinbase.InvalidCurrencyIsForwarded` | handlers_test.go:66-70 | An upstream 404 with `[{not_found, Invalid currency}]` becomes `ServiceError{404, not_found, Invalid currency}`. |
| `Codec.Marshal` | coinbasesvc.go:16-30 | The document is an object whose members are the present fields only, `data` before `errors`. `data` appears exactly when the data is present, as `{base, currency, amount}`. `errors` appears exactly when the list is present, as an array of `{id, message}` objects in order. |
| `Codec.StdMarshal` | coinbasesvc.go:16-30 | Marshalling an envelope never fails. |
| `Codec.DecodeErrorsRoundTrip` | coinbasesvc.go:27-30 | Reading back a marshalled error list gives the same errors, in the same order. |
| `Codec.RoundTrip` | coinbasesvc.go:16-30 | Reading back a marshalled envelope gives that envelope. Absent members stay absent, and present ones keep every field. |
| `Codec.MarshalInjective` | coinbasesvc.go:16-30 | Two envelopes with the same document are equal. |
| `Codec.StdMarshalLossless` | coinbasesvc.go:16-30 | Every document `json.Marshal` writes for an envelope reads back as that envelope. |
| `Handlers.Normalize` | handlers.go:41-91 | The status and envelope both adapters render for a completed call. An error gives its own status and an envelope holding only its inner error, with `data` omitted. A response without an error gives status 200 and the response unchanged. A panic gives nothing. |
| `Handlers.Emit` | handlers.go:31-33 | What reaches the client after a Content-Type is set, `WriteHeader(code)` is called and a body is written. An informational 1xx code (not 101) ends under status 200, and any other code under itself. A body is present exactly when that final status allows one, and then it is the body written. Content-Type is dropped under 304 and kept otherwise. |
| `Handlers.WriteError` | handlers.go:21-34 | If marshalling succeeds: the given status, `application/json; charset=UTF-8`, and a body whose envelope is `errors = [{id, msg}]` with `data` omitted, all as `Emit` lets them through. If the status is outside 100-999, `WriteHeader` panics instead. If marshalling fails: status 500 with no content type and no body. |
| `Handlers.DefaultHandler` | handlers.go:36-38 | Status 404, `application/json; charset=UTF-8`, and the marshalled single error `{not_found, Invalid request}` with no trailing newline. If marshalling fails: status 500 with no content type and no body. |
| `Handlers.DefaultHandlerDocument` | handlers.go:36-38 | Under `json.Marshal`, the body is exactly `{"errors":[{"id":"not_found","message":"Invalid request"}]}` with no trailing newline. |
| `Handlers.HealthHandler` | handlers.go:55-57 | Status 200 with no header and no body. |
| `Handlers.SpotPriceHandler` | handlers.go:41-52 | A panic aborts the request. An error is emitted (see `Emit`) with its own status and an envelope holding only its inner error; a status outside 100-999 aborts the request instead. A response is written under the implicit 200 with the upstream envelope unchanged, plus the encoder's newline. A marshal failure leaves the body empty: the status is 500 on the error path and 200 on the success path. |
| `Handlers.LambdaHandler` | handlers.go:59-91 | A panic propagates. Otherwise the reply carries the same status and envelope as the HTTP adapter, with headers `{Content-Type: application/json}`. A marshal failure is returned as `(nil, e)`, never wrapped in an envelope. |
| `Handlers.AdaptersAgree` | handlers.go:41-91 | For the same currency and upstream, a client panic aborts both adapters. Whenever the Lambda adapter replies under a status in 100-999, the HTTP adapter emits that status and document. Under a status that allows a body, both therefore carry the same status and the same document. Under any other status only the HTTP adapter panics. When the Lambda adapter reports a marshal error, the HTTP reply has no body. |
| `Handlers.OddStatusSplitsAdapters` | handlers.go:32 | An upstream error under status 42 aborts the HTTP adapter and yields a Lambda reply with status 42. |
| `Handlers.NoContentStatusDropsHttpBody` | handlers.go:32-33 | An upstream error under status 204 gives an HTTP reply of 204 with no body, while the Lambda reply's body carries the error envelope. |
| `Handlers.HttpRepliesReadBack` | handlers.go:41-52 | Under `json.Marshal`, an HTTP reply that is not aborted has a body exactly when its status allows one. On success the body reads back as the upstream response, and on failure as exactly the one reported error. |
| `Handlers.LambdaRepliesReadBack` | handlers.go:59-91 | Under `json.Marshal`, a Lambda invocation that does not panic always replies, and its body reads back as the envelope the HTTP adapter renders. |
| `Handlers.RelayIsVerbatim` | handlers_test.go:109-113 | If the upstream body is an OK response, or a one-error envelope without data, the HTTP adapter emits `json.Marshal`'s document for that very body, under the upstream status. A status outside 100-999 aborts it instead. |

## Left out

- Handlers.Emit: for a 1xx status other than 101, the informational response that goes out before the implicit 200 is not recorded; only the final reply is. The rules followed are those of Go 1.19 and later; earlier versions send such a code as the final status with no body.

- main.go is not part of this model. That covers `router` (wiring), `apiHandler.ServeHTTP` (a raw `io.Copy` proxy) and `gracefulShutdown` (goroutines, channels and OS signals).
- `NewCoinbaseSvc`, the configured URL and the `http.Client` are not modelled. Building the request, adding the `currency` query parameter (`url.Values.Encode`), sending it and reading the body are library I/O. The `Exchange` input and the `upstream` parameter stand for what those steps yield.
- `Exchange` admits any status, including interim 1xx codes, which net/http's client consumes itself and never returns. It also admits a 101 response with a decoded body, although such a response's body is the raw connection. The model does not narrow `Exchange` to the exchanges the client can produce.
- JSON is modelled as document trees. Bytes, quoting, escaping, whitespace and the library's error texts are not modelled, and error descriptions are opaque strings.
- `Codec.Decode` reads back the documents `Marshal` writes. It does not model `json.Unmarshal`'s leniency: case-insensitive keys, unknown members, later duplicates winning, partial filling on error.
- `Option<seq<ResponseError>>` cannot represent a pointer to a nil slice. Decoding never produces one: `"errors":null` decodes to a nil pointer (`None`, which panics with `NilDereference` on a non-OK status), and `"errors":[]` decodes to `Some([])` (which panics with `IndexOutOfRange(0, 0)`). Only marshalling such a pointer would write `null`, and no handler builds one.
- What happens after a panic is outside the handlers. `net/http` recovers it and drops the connection, and the Lambda runtime reports it as a failed invocation. The model records only `Aborted` or `Panicked`.
- Errors from writes to the `ResponseWriter`, which the source ignores, are not modelled. Neither are the decoding of `LambdaEvent` by the Lambda runtime, the unused `context.Context`, gorilla/mux routing with its `[A-Za-z]{3}` pattern, or the metrics handler.
- Caching, retries and connection pooling are not modelled. The call is stateless, and each handler is a function of its inputs.
