/** Requests and responses of the API handlers. */
module Http {
  import opened Wrappers
  import opened JsValue

  /**
   * A parsed JSON object body: its properties in `Object.keys` order. A parsed object never
   * repeats a name, so the bodies the handlers receive satisfy `DistinctKeys`; the lemmas
   * about bodies assume it where the reading of a repeated name would matter.
   */
  type Fields = seq<(string, Value)>

  /** The names of a parsed body's properties, in order. */
  function Keys(fs: Fields): (ks: seq<string>)
    ensures |ks| == |fs| && forall i :: 0 <= i < |fs| ==> ks[i] == fs[i].0
  {
    seq(|fs|, i requires 0 <= i < |fs| => fs[i].0)
  }

  /** A parsed object has each property once. */
  predicate DistinctKeys(fs: Fields) {
    forall i, j :: 0 <= i < j < |fs| ==> fs[i].0 != fs[j].0
  }

  /** `body.k`: the value of property `k`, `undefined` when absent. */
  function Lookup(fs: Fields, k: string): (r: Option<Value>)
    ensures r.Some? <==> exists i :: 0 <= i < |fs| && fs[i].0 == k
    ensures r.Some? ==> exists i :: 0 <= i < |fs| && fs[i] == (k, r.value)
  {
    if fs == [] then None
    else if fs[0].0 == k then Some(fs[0].1)
    else
      var r := Lookup(fs[1..], k);
      assert r.Some? ==> exists i :: 1 <= i < |fs| && fs[i] == (k, r.value) by {
        if r.Some? {
          var i :| 0 <= i < |fs[1..]| && fs[1..][i] == (k, r.value);
          assert fs[i + 1] == (k, r.value);
        }
      }
      assert (exists i :: 1 <= i < |fs| && fs[i].0 == k) ==> r.Some? by {
        if exists i :: 1 <= i < |fs| && fs[i].0 == k {
          var i :| 1 <= i < |fs| && fs[i].0 == k;
          assert fs[1..][i - 1].0 == k;
        }
      }
      r
  }

  /** An API Gateway proxy event; an absent query string, path or body is `None`. */
  datatype ApiEvent = ApiEvent(
    httpMethod: string,
    query: Option<map<string, string>>,
    path: Option<map<string, string>>,
    body: Option<Fields>)

  /** `params?.k`: a query-string or path parameter, `undefined` when the map or the key is absent. */
  function Param(params: Option<map<string, string>>, k: string): (r: Option<Value>)
    ensures r.Some? <==> params.Some? && k in params.value
    ensures r.Some? ==> r.value == Str(params.value[k])
  {
    if params.Some? && k in params.value then Some(Str(params.value[k])) else None
  }

  /**
   * A response body: a plain text, `{"message": m}`, `{"message": JSON.stringify(v)}`,
   * any other JSON value, or none at all (`JSON.stringify(undefined)`).
   */
  datatype Body = Raw(text: string) | Message(message: Value) | MessageJsonOf(value: Value) | JsonBody(value: Value) | NoBody

  datatype Response = Response(statusCode: int, body: Body)

  /** What a handler invocation ends with: a response, or an exception thrown to the runtime. */
  datatype Outcome = Returned(response: Response) | Threw(error: string)

  /** The confirmation text both the partner inventory and the order worker produce. */
  function PlacedMessage(orderId: string, itemId: string): string {
    "Order Placed for order id " + orderId + " and reference item : " + itemId
  }

  function MessageResponse(status: int, text: string): Response {
    Response(status, Message(Str(text)))
  }
}
