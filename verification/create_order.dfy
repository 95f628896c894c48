/**
 * The order worker: takes the first record of a queue batch, resolves the partner,
 * fetches the partner token, calls the partner's inventory endpoint and, when the call
 * yields an order id, writes the order document to the order table.
 */
module CreateOrder {
  import opened Wrappers
  import opened JsText
  import opened JsValue
  import opened Schema
  import opened Http
  import opened Store
  import opened ParameterStore

  /** The sales-tax percentage applied to every order. */
  const OrderTax: nat := 8

  const NoRecordsText := "invalid request, missing the parameters  in body"
  const UnknownPartnerText := "invalid partner configuration"
  const NoTokenPathText := "Token path not found in partner configuration"
  const NoTokenText := "Error getting token information from SSM"

  /** One queue message: its id and its (already parsed) order request. */
  datatype SqsRecord = SqsRecord(messageId: string, body: ItemRequest)

  /** A queue event; `records` is `None` when the event has no `Records`. */
  datatype SqsEvent = SqsEvent(records: Option<seq<SqsRecord>>)

  /** The request sent to the partner's inventory endpoint. */
  datatype PartnerRequest = PartnerRequest(verb: string, url: string, authorizationToken: string, data: ItemSchema)

  /** How the partner call ended: a response carrying some `orderId` property, or a failure. */
  datatype CallOutcome = CallOk(orderId: Option<Value>) | CallFailed

  /** The handler's summary of the partner call. */
  datatype OrderInfo = OrderInfo(statusCode: int, message: string, orderId: Option<string>)

  function NotPlacedMessage(itemId: string): string {
    "Order did not place: " + itemId
  }

  /** Turns the partner call's outcome into the summary the handler goes on with. */
  function PlacementInfo(call: CallOutcome, itemId: string): OrderInfo {
    match call
    case CallOk(id) => OrderInfo(200, PlacedMessage(Template(id), itemId), Some(Template(id)))
    case CallFailed => OrderInfo(400, NotPlacedMessage(itemId), None)
  }

  /** The summary carries an order id the handler accepts (`!orderInfo.orderId` is false). */
  predicate HasOrderId(info: OrderInfo) {
    info.orderId.Some? && info.orderId.value != ""
  }

  /**
   * The order document built from a placement: 8% tax on the price, status Completed
   * exactly for a 200 placement, and the customer's email as the only subscriber.
   */
  function OrderRecord(info: OrderInfo, item: ItemSchema, customer: Customer, messageId: string, now: int): (o: Order)
    ensures o.orderId == info.orderId.GetOr("")
    ensures o.subtotal == item.price * 108.0 / 100.0 && o.salestax == "8%"
    ensures o.orderStatus == (if info.statusCode == 200 then Completed else Pending)
    ensures o.statusDescription == Some(info.message)
    ensures o.subscribers == [Customer(customer.email, None)]
    ensures o.partnerId == item.partnerId && o.partner == item.partner && o.price == item.price
    ensures o.product == OrderProduct(item.itemId, item.quantity, item.size)
    ensures o.messageId == Some(messageId) && o.orderDate == now && o.shippingAddress.None?
  {
    Order(
      orderId := info.orderId.GetOr(""),
      partnerId := item.partnerId,
      product := OrderProduct(item.itemId, item.quantity, item.size),
      shippingAddress := None,
      orderDate := now,
      subtotal := item.price + item.price * (OrderTax as real / 100.0),
      price := item.price,
      salestax := IntText(OrderTax) + "%",
      orderStatus := if info.statusCode == 200 then Completed else Pending,
      statusDescription := Some(info.message),
      partner := item.partner,
      subscribers := [Customer(customer.email, None)],
      messageId := Some(messageId))
  }

  /** The first record of the batch, the only one the worker looks at. */
  function FirstRecord(event: SqsEvent): Option<SqsRecord> {
    if event.records.Some? && |event.records.value| > 0 then Some(event.records.value[0]) else None
  }

  /** The order written for record `rec` with order id `orderId`, as the worker promises it. */
  ghost predicate RecordFor(o: Order, rec: SqsRecord, orderId: string, now: int) {
    var item := rec.body.requestedItem;
    && o.orderId == orderId
    && o.partnerId == item.partnerId && o.partner == item.partner
    && o.product == OrderProduct(item.itemId, item.quantity, item.size)
    && o.messageId == Some(rec.messageId) && o.orderDate == now
    && o.price == item.price && o.subtotal == item.price * 108.0 / 100.0 && o.salestax == "8%"
    && o.orderStatus == Completed
    && o.statusDescription == Some(PlacedMessage(orderId, item.itemId))
    && o.subscribers == [Customer(rec.body.customer.email, None)]
    && o.shippingAddress.None?
  }

  /** A successful placement for record `rec` builds the order the worker promises. */
  lemma PlacedRecord(rec: SqsRecord, id: Option<Value>, now: int)
    requires Template(id) != ""
    ensures
      var info := PlacementInfo(CallOk(id), rec.body.requestedItem.itemId);
      RecordFor(OrderRecord(info, rec.body.requestedItem, rec.body.customer, rec.messageId, now), rec, Template(id), now)
  {
  }

  /**
   * The part of the worker after the partner call: summarises the call and, when it
   * yields an order id, stores the order document.
   */
  method PlaceOrder(t: Tables, record: SqsRecord, call: CallOutcome, now: int, putFails: bool)
    returns (out: Outcome, written: Option<Order>)
    requires t.Valid()
    modifies t
    ensures t.Valid() && t.partners == old(t.partners)
    ensures written.None? ==> t.orders == old(t.orders)
    ensures written.Some? ==> t.orders == old(t.orders)[written.value.orderId := OrderItem(written.value)]
    ensures !HasOrderId(PlacementInfo(call, record.body.requestedItem.itemId))
            ==> && out == Returned(Response(400, Raw("order placement failed with message: "
                      + PlacementInfo(call, record.body.requestedItem.itemId).message)))
                && written.None?
    ensures written.Some? <==> call.CallOk? && Template(call.orderId) != "" && !putFails
    ensures call.CallOk? && Template(call.orderId) != "" && putFails ==> out.Threw?
    ensures written.Some? ==> && out == Returned(Response(200, NoBody))
                              && RecordFor(written.value, record, Template(call.orderId), now)
  {
    written := None;
    var requestedItem, customer := record.body.requestedItem, record.body.customer;
    var orderInfo := PlacementInfo(call, requestedItem.itemId);
    if !HasOrderId(orderInfo) {
      out := Returned(Response(400, Raw("order placement failed with message: " + orderInfo.message)));
      return;
    }

    var order := OrderRecord(orderInfo, requestedItem, customer, record.messageId, now);
    PlacedRecord(record, call.orderId, now);
    if putFails {
      out := Threw("Failed to store data in DDB for order info");
      return;
    }
    t.orders := t.orders[order.orderId := OrderItem(order)];
    written := Some(order);
    out := Returned(Response(200, NoBody));
  }

  /**
   * Processes one queue event against the tables. The parameter-store result, the partner
   * call's outcome, the clock and the DynamoDB faults are inputs. Returns the handler's
   * outcome, the partner request it made (if any) and the order it wrote (if any).
   */
  method HandleOrderMessage(t: Tables, event: SqsEvent, partnerGetFails: bool, tokenPath: Option<string>,
                            token: SsmValue, call: CallOutcome, now: int, putFails: bool)
    returns (out: Outcome, request: Option<PartnerRequest>, written: Option<Order>)
    requires t.Valid()
    modifies t
    ensures t.Valid() && t.partners == old(t.partners)
    ensures written.None? ==> t.orders == old(t.orders)
    ensures written.Some? ==> t.orders == old(t.orders)[written.value.orderId := OrderItem(written.value)]
    // a batch without records, or with an empty list of records
    ensures event.records.None? ==> out == Returned(Response(400, Raw(NoRecordsText))) && request.None? && written.None?
    ensures event.records == Some([]) ==> out.Threw? && request.None? && written.None?
    // partner lookup
    ensures FirstRecord(event).Some? && partnerGetFails ==> out.Threw? && request.None? && written.None?
    ensures FirstRecord(event).Some? && !partnerGetFails
            && FirstRecord(event).value.body.requestedItem.partnerId !in old(t.partners)
            ==> out == Returned(Response(400, Raw(UnknownPartnerText))) && request.None? && written.None?
    // token checks, before any partner call
    ensures request.Some? <==>
              && FirstRecord(event).Some? && !partnerGetFails
              && FirstRecord(event).value.body.requestedItem.partnerId in old(t.partners)
              && EnvSet(tokenPath) && !UnusableToken(token)
    ensures FirstRecord(event).Some? && !partnerGetFails
            && FirstRecord(event).value.body.requestedItem.partnerId in old(t.partners)
            ==> (!EnvSet(tokenPath) ==> out == Returned(Response(400, Raw(NoTokenPathText))))
                && (EnvSet(tokenPath) && UnusableToken(token) ==> out == Returned(Response(400, Raw(NoTokenText))))
    // the partner request
    ensures request.Some? ==>
              var item := FirstRecord(event).value.body.requestedItem;
              request.value == PartnerRequest("post", old(t.partners)[item.partnerId].webhook + "inventory",
                                              Trim(TokenString(token)), item)
    // a failed placement writes nothing
    ensures request.Some? && !HasOrderId(PlacementInfo(call, FirstRecord(event).value.body.requestedItem.itemId))
            ==> && out == Returned(Response(400, Raw("order placement failed with message: "
                      + PlacementInfo(call, FirstRecord(event).value.body.requestedItem.itemId).message)))
                && written.None?
    ensures call.CallFailed? ==> written.None?
    // the write
    ensures written.Some? <==> request.Some? && call.CallOk? && Template(call.orderId) != "" && !putFails
    ensures request.Some? && call.CallOk? && Template(call.orderId) != "" && putFails ==> out.Threw?
    ensures written.Some? ==> && out == Returned(Response(200, NoBody))
                              && RecordFor(written.value, FirstRecord(event).value, Template(call.orderId), now)
  {
    request, written := None, None;
    if event.records.None? {
      out := Returned(Response(400, Raw(NoRecordsText)));
      return;
    }
    var records := event.records.value;
    if |records| == 0 {
      // `records[0]` is undefined, and reading its body throws
      out := Threw("TypeError: Cannot read properties of undefined (reading 'body')");
      return;
    }
    var record := records[0];
    var requestedItem, customer := record.body.requestedItem, record.body.customer;

    if partnerGetFails {
      out := Threw("Failed to get partner info");
      return;
    }
    if requestedItem.partnerId !in t.partners {
      out := Returned(Response(400, Raw(UnknownPartnerText)));
      return;
    }
    var partnerInfo := t.partners[requestedItem.partnerId];

    if !EnvSet(tokenPath) {
      out := Returned(Response(400, Raw(NoTokenPathText)));
      return;
    }
    if UnusableToken(token) {
      out := Returned(Response(400, Raw(NoTokenText)));
      return;
    }
    request := Some(PartnerRequest("post", partnerInfo.webhook + "inventory", Trim(TokenString(token)), requestedItem));

    out, written := PlaceOrder(t, record, call, now, putFails);
  }
}
