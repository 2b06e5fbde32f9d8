/**
 * The JSON form of the envelope, as the struct tags of the envelope types lay it
 * out: `data` then `errors`, each left out when absent (`omitempty`), `data` as
 * `{"base","currency","amount"}` and each error as `{"id","message"}`.
 *
 * `Decode` reads such a document back; together they show that a reply's body
 * determines the envelope it was written from.
 */
module Codec {
  import opened Wrappers
  import opened Json
  import opened Coinbase

  function MarshalData(d: ResponseData): Json
  {
    JObject([("base", JString(d.base)), ("currency", JString(d.currency)), ("amount", JString(d.amount))])
  }

  function MarshalError(e: ResponseError): Json
  {
    JObject([("id", JString(e.id)), ("message", JString(e.message))])
  }

  /** The elements of the `errors` array, one object per error, in order. */
  function MarshalErrors(es: seq<ResponseError>): (js: seq<Json>)
    ensures |js| == |es|
    ensures forall i :: 0 <= i < |es| ==> js[i] == MarshalError(es[i])
  {
    if es == [] then [] else [MarshalError(es[0])] + MarshalErrors(es[1..])
  }

  /**
   * The document `json.Marshal` writes for an envelope: an object whose members are
   * the present fields only, `data` before `errors`.
   */
  function Marshal(r: Response): (j: Json)
    ensures j.JObject? && |j.members| <= 2
    ensures forall i :: 0 <= i < |j.members| ==> j.members[i].0 == "data" || j.members[i].0 == "errors"
    ensures |j.members| == 2 ==> j.members[0].0 == "data" && j.members[1].0 == "errors"
    ensures Lookup(j.members, "data") == if r.data.Some? then Some(MarshalData(r.data.value)) else None
    ensures Lookup(j.members, "errors") == if r.errors.Some? then Some(JArray(MarshalErrors(r.errors.value))) else None
  {
    JObject(
      (if r.data.Some? then [("data", MarshalData(r.data.value))] else []) +
      (if r.errors.Some? then [("errors", JArray(MarshalErrors(r.errors.value)))] else []))
  }

  /** `json.Marshal` of an envelope: it has no value it cannot encode, so it never fails. */
  function StdMarshal(r: Response): (m: Result<Json, string>)
    ensures m.Ok?
  {
    Ok(Marshal(r))
  }

  /** The value of the first member named `key`. */
  function Lookup(members: seq<(string, Json)>, key: string): (v: Option<Json>)
    ensures v.None? <==> forall i :: 0 <= i < |members| ==> members[i].0 != key
    ensures v.Some? ==> exists i :: 0 <= i < |members| && members[i] == (key, v.value) &&
                                    forall k :: 0 <= k < i ==> members[k].0 != key
  {
    if members == [] then None
    else if members[0].0 == key then Some(members[0].1)
    else Lookup(members[1..], key)
  }

  function DecodeString(j: Option<Json>): Option<string>
  {
    if j.Some? && j.value.JString? then Some(j.value.str) else None
  }

  function DecodeData(j: Json): Option<ResponseData>
  {
    if !j.JObject? then None
    else
      var base := DecodeString(Lookup(j.members, "base"));
      var currency := DecodeString(Lookup(j.members, "currency"));
      var amount := DecodeString(Lookup(j.members, "amount"));
      if base.Some? && currency.Some? && amount.Some? then
        Some(ResponseData(base.value, currency.value, amount.value))
      else None
  }

  function DecodeError(j: Json): Option<ResponseError>
  {
    if !j.JObject? then None
    else
      var id := DecodeString(Lookup(j.members, "id"));
      var message := DecodeString(Lookup(j.members, "message"));
      if id.Some? && message.Some? then Some(ResponseError(id.value, message.value)) else None
  }

  function DecodeErrors(js: seq<Json>): Option<seq<ResponseError>>
  {
    if js == [] then Some([])
    else
      var head := DecodeError(js[0]);
      var tail := DecodeErrors(js[1..]);
      if head.Some? && tail.Some? then Some([head.value] + tail.value) else None
  }

  /** Reads an envelope back from a document; `None` when the document does not have the envelope's shape. */
  function Decode(j: Json): Option<Response>
  {
    if !j.JObject? then None
    else
      var data := Lookup(j.members, "data");
      var errors := Lookup(j.members, "errors");
      var d := if data.None? then Some(None)
               else if DecodeData(data.value).Some? then Some(Some(DecodeData(data.value).value))
               else None;
      var e := if errors.None? then Some(None)
               else if errors.value.JArray? && DecodeErrors(errors.value.elems).Some?
               then Some(Some(DecodeErrors(errors.value.elems).value))
               else None;
      if d.Some? && e.Some? then Some(Response(d.value, e.value)) else None
  }

  lemma DecodeDataRoundTrip(d: ResponseData)
    ensures DecodeData(MarshalData(d)) == Some(d)
  {
    var ms := MarshalData(d).members;
    assert Lookup(ms, "base") == Some(JString(d.base));
    assert Lookup(ms, "currency") == Some(JString(d.currency));
    assert Lookup(ms[2..], "amount") == Some(JString(d.amount));
    assert Lookup(ms[1..], "amount") == Some(JString(d.amount));
  }

  lemma DecodeErrorRoundTrip(e: ResponseError)
    ensures DecodeError(MarshalError(e)) == Some(e)
  {
    var ms := MarshalError(e).members;
    assert Lookup(ms, "id") == Some(JString(e.id));
    assert Lookup(ms, "message") == Some(JString(e.message));
  }

  lemma {:induction false} DecodeErrorsRoundTrip(es: seq<ResponseError>)
    ensures DecodeErrors(MarshalErrors(es)) == Some(es)
  {
    if es != [] {
      DecodeErrorRoundTrip(es[0]);
      DecodeErrorsRoundTrip(es[1..]);
      assert MarshalErrors(es)[1..] == MarshalErrors(es[1..]);
      assert [es[0]] + es[1..] == es;
    }
  }

  /** Reading back what was marshalled gives the envelope itself. */
  lemma RoundTrip(r: Response)
    ensures Decode(Marshal(r)) == Some(r)
  {
    var ms := Marshal(r).members;
    if r.data.Some? {
      DecodeDataRoundTrip(r.data.value);
      assert Lookup(ms, "data") == Some(MarshalData(r.data.value));
    } else {
      assert Lookup(ms, "data") == None;
    }
    if r.errors.Some? {
      DecodeErrorsRoundTrip(r.errors.value);
      assert Lookup(ms, "errors") == Some(JArray(MarshalErrors(r.errors.value)));
    } else {
      assert Lookup(ms, "errors") == None;
    }
  }

  /** Two envelopes with the same document are the same envelope. */
  lemma MarshalInjective(a: Response, b: Response)
    ensures Marshal(a) == Marshal(b) ==> a == b
  {
    RoundTrip(a);
    RoundTrip(b);
  }

  /** A marshaller whose documents read back as the envelope it was given, whenever it succeeds. */
  ghost predicate Lossless(marshal: Response -> Result<Json, string>)
  {
    forall r :: marshal(r).Ok? ==> Decode(marshal(r).value) == Some(r)
  }

  /** `json.Marshal` loses nothing of an envelope. */
  lemma StdMarshalLossless()
    ensures Lossless(StdMarshal)
  {
    forall r: Response ensures Decode(Marshal(r)) == Some(r) {
      RoundTrip(r);
    }
  }
}
