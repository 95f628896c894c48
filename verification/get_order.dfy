/** The order read handler: a validation ladder, then a lookup by order id alone. */
module GetOrder {
  import opened Wrappers
  import opened JsValue
  import opened Http
  import opened Store
  import opened Schema

  /**
   * Answers a read request from the order table, which it only reads. A failure of the
   * table read is an input.
   */
  function HandleGetOrder(event: Option<ApiEvent>, orders: map<string, Item>, getFails: bool): (out: Outcome)
    ensures event.None? ==> out == Returned(MessageResponse(404, "Invalid request"))
    ensures event.Some? && event.value.httpMethod != "GET" ==> out == Returned(MessageResponse(405, "Method Not Supported"))
    ensures event.Some? && event.value.httpMethod == "GET" && event.value.query.None?
            ==> out == Returned(MessageResponse(404, "Invalid parameters"))
    ensures event.Some? && event.value.httpMethod == "GET" && event.value.query.Some? && !Present(Param(event.value.path, "id"))
            ==> out == Returned(MessageResponse(404, "invalid request parameters"))
    ensures event.Some? && event.value.httpMethod == "GET" && event.value.query.Some? && Present(Param(event.value.path, "id"))
            ==> var id := event.value.path.value["id"];
                && (getFails ==> out.Threw?)
                && (!getFails && id in orders ==> out == Returned(Response(200, Message(Obj(orders[id])))))
                && (!getFails && id !in orders ==> out == Returned(MessageResponse(200, "Order Data not found")))
  {
    if event.None? then Returned(MessageResponse(404, "Invalid request"))
    else
      var e := event.value;
      if e.httpMethod != "GET" then Returned(MessageResponse(405, "Method Not Supported"))
      else if e.query.None? then Returned(MessageResponse(404, "Invalid parameters"))
      else
        var orderId := Param(e.path, "id");
        if !Present(orderId) then Returned(MessageResponse(404, "invalid request parameters"))
        else if getFails then Threw("Failed to get order info")
        else
          var id := orderId.value.s;
          if id in orders then Returned(Response(200, Message(Obj(orders[id]))))
          else Returned(MessageResponse(200, "Order Data not found"))
  }

  /** A read of the order at `id`, with some query string. */
  function ReadRequest(id: string, query: map<string, string>): ApiEvent {
    ApiEvent("GET", Some(query), Some(map["id" := id]), None)
  }

  /**
   * Read after write: once the tables hold a document under `id`, a read of `id` returns
   * that document, whatever else the table holds and whatever the query string says.
   */
  lemma ReadAfterWrite(t: Tables, id: string, query: map<string, string>)
    requires t.Valid() && id != "" && id in t.orders
    ensures HandleGetOrder(Some(ReadRequest(id, query)), t.orders, false) == Returned(Response(200, Message(Obj(t.orders[id]))))
    ensures Obj(t.orders[id]).fields[OrderKey] == Str(id)
  {
  }

  /**
   * Read after the worker's write: the table the order worker leaves behind once it stores
   * order `o` answers a read of `o`'s id with the stored document, whose `orderId` is that id.
   */
  lemma PlacedOrderReadBack(orders: map<string, Item>, o: Order, query: map<string, string>)
    requires o.orderId != ""
    ensures HandleGetOrder(Some(ReadRequest(o.orderId, query)), orders[o.orderId := OrderItem(o)], false)
            == Returned(Response(200, Message(Obj(OrderItem(o)))))
    ensures OrderItem(o)[OrderKey] == Str(o.orderId)
  {
  }
}
