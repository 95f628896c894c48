/**
 * The item availability handler: a validation ladder, a partner lookup, and a signed
 * GET to the partner's inventory endpoint whose failures are reported as "available".
 */
module GetItem {
  import opened Wrappers
  import opened JsText
  import opened JsValue
  import opened Schema
  import opened Http

  /** How the inventory call ended: resolved with the response's data (possibly absent), or rejected. */
  datatype ItemCall = Responded(data: Option<Value>) | CallError

  /** The request the handler sends: its URL and the host it signs for. */
  datatype InventoryQuery = InventoryQuery(url: string, signingHost: string)

  datatype ItemResult = ItemResult(out: Outcome, query: Option<InventoryQuery>)

  /** The four query parameters, in the order the URL lists them. */
  function QueryParts(itemId: string, partner: string, partnerId: string, quantity: string): seq<string> {
    ["itemId=" + itemId, "partner=" + partner, "partnerId=" + partnerId, "quantity=" + quantity]
  }

  /** The inventory URL: the webhook, then `inventory?` and the parameters joined by `&`. */
  function InventoryUrl(webhook: string, itemId: string, partner: string, partnerId: string, quantity: string): string {
    webhook + "inventory?" + Join(QueryParts(itemId, partner, partnerId, quantity), '&')
  }

  /** What the handler answers once the inventory call has ended. */
  function ItemResponse(call: ItemCall): (out: Outcome)
    ensures out.Returned? && (out.response.statusCode == 200 || out.response == Response(400, Raw("Item Not found")))
    ensures out.response.statusCode == 400 <==> call.Responded? && !Present(call.data)
    ensures call.CallError? ==> out.response.body == MessageJsonOf(Obj(map["message" := Str("available")]))
  {
    var itemInfo := if call.Responded? then call.data else Some(Obj(map["message" := Str("available")]));
    if !Present(itemInfo) then Returned(Response(400, Raw("Item Not found")))
    else Returned(Response(200, MessageJsonOf(itemInfo.value)))
  }

  /** All four parameters the handler needs are present and non-empty. */
  predicate ParamsPresent(e: ApiEvent) {
    && Present(Param(e.path, "id")) && Present(Param(e.query, "partner"))
    && Present(Param(e.query, "partnerId")) && Present(Param(e.query, "quantity"))
  }

  /**
   * Answers an availability request. The partner table is read only; a failure of its
   * read and the outcome of the inventory call are inputs.
   */
  function HandleGetItem(event: Option<ApiEvent>, partners: map<string, PartnerRecord>, getFails: bool, call: ItemCall): (r: ItemResult)
    ensures event.None? ==> r == ItemResult(Returned(MessageResponse(404, "Invalid request")), None)
    ensures event.Some? && event.value.httpMethod != "GET" ==> r == ItemResult(Returned(MessageResponse(405, "Method Not Supported")), None)
    ensures event.Some? && event.value.httpMethod == "GET" && event.value.query.None? && event.value.path.None?
            ==> r == ItemResult(Returned(MessageResponse(404, "Invalid parameters")), None)
    ensures event.Some? && event.value.httpMethod == "GET" && !(event.value.query.None? && event.value.path.None?)
            && !ParamsPresent(event.value)
            ==> r == ItemResult(Returned(MessageResponse(404, "invalid request parameters")), None)
    ensures event.Some? && event.value.httpMethod == "GET" && ParamsPresent(event.value) ==>
              var e := event.value;
              var partnerId := e.query.value["partnerId"];
              && (getFails ==> r.out.Threw? && r.query.None?)
              && (!getFails && partnerId !in partners ==> r == ItemResult(Returned(Response(400, Raw("invalid partner configuration"))), None))
              && (!getFails && partnerId in partners && |Split(partners[partnerId].webhook, '/')| < 3 ==> r.out.Threw? && r.query.None?)
              && (!getFails && partnerId in partners && |Split(partners[partnerId].webhook, '/')| >= 3 ==>
                    var webhook := partners[partnerId].webhook;
                    && r.query == Some(InventoryQuery(
                                    InventoryUrl(webhook, e.path.value["id"], e.query.value["partner"], partnerId, e.query.value["quantity"]),
                                    Split(webhook, '/')[2]))
                    && r.out == ItemResponse(call))
  {
    if event.None? then ItemResult(Returned(MessageResponse(404, "Invalid request")), None)
    else
      var e := event.value;
      if e.httpMethod != "GET" then ItemResult(Returned(MessageResponse(405, "Method Not Supported")), None)
      else if e.query.None? && e.path.None? then ItemResult(Returned(MessageResponse(404, "Invalid parameters")), None)
      else if !ParamsPresent(e) then ItemResult(Returned(MessageResponse(404, "invalid request parameters")), None)
      else
        var itemId, partner := e.path.value["id"], e.query.value["partner"];
        var partnerId, quantity := e.query.value["partnerId"], e.query.value["quantity"];
        if getFails then ItemResult(Threw("Failed to get partner info"), None)
        else if partnerId !in partners then ItemResult(Returned(Response(400, Raw("invalid partner configuration"))), None)
        else
          var webhook := partners[partnerId].webhook;
          var host := Split(webhook, '/');
          if |host| < 3 then
            // `host[2]` is undefined, and splitting it throws
            ItemResult(Threw("TypeError: Cannot read properties of undefined (reading 'split')"), None)
          else
            var query := InventoryQuery(InventoryUrl(webhook, itemId, partner, partnerId, quantity), host[2]);
            ItemResult(ItemResponse(call), Some(query))
  }

  /**
   * A partner call never turns into an error status: once the request is sent, the answer
   * is 200, or 400 "Item Not found" when the partner answered with nothing.
   */
  lemma PartnerErrorsAnswered(event: Option<ApiEvent>, partners: map<string, PartnerRecord>, getFails: bool, call: ItemCall)
    ensures var r := HandleGetItem(event, partners, getFails, call);
            r.query.Some? ==> r.out.Returned? && (r.out.response.statusCode == 200 || (call.Responded? && !Present(call.data)))
  {
  }

  /**
   * The signing host is the authority of the webhook URL: for `scheme//host/rest` with no
   * `/` in the scheme or the host, the third `/`-separated segment is the host.
   */
  lemma SigningHost(scheme: string, host: string, rest: string)
    requires '/' !in scheme && '/' !in host
    ensures var parts := Split(scheme + "//" + host + "/" + rest, '/');
            |parts| >= 3 && parts[2] == host
  {
    var w := scheme + "//" + host + "/" + rest;
    assert w == scheme + ['/'] + ("/" + host + "/" + rest);
    SplitAfter(scheme, '/', "/" + host + "/" + rest);
    assert "/" + host + "/" + rest == [] + ['/'] + (host + ['/'] + rest);
    SplitAfter([], '/', host + ['/'] + rest);
    SplitAfter(host, '/', rest);
  }

  /**
   * The query string of the inventory URL splits back into its four parameters, in order,
   * when no value contains `&`.
   */
  lemma QueryParameters(itemId: string, partner: string, partnerId: string, quantity: string)
    requires '&' !in itemId && '&' !in partner && '&' !in partnerId && '&' !in quantity
    ensures Split(Join(QueryParts(itemId, partner, partnerId, quantity), '&'), '&') == QueryParts(itemId, partner, partnerId, quantity)
  {
    var parts := QueryParts(itemId, partner, partnerId, quantity);
    assert forall k :: 0 <= k < |parts| ==> '&' !in parts[k];
    SplitJoin(parts, '&');
  }
}
