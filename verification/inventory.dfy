/**
 * The mock partner inventory: one accept/reject policy on (itemId, partner, quantity)
 * shared by the GET availability check and the POST order placement.
 */
module Inventory {
  import opened Wrappers
  import opened JsText
  import opened JsValue
  import opened Schema
  import opened Http

  /** The partner names the inventory knows. */
  const KnownPartners: set<string> := {"Partner1", "Partner2", "Partner3"}

  /** `Number(v)` for a value that may be `undefined` (which converts to NaN, `None`). */
  function NumberOfOpt(v: Option<Value>): Option<real> {
    if v.Some? then NumberOf(v.value) else None
  }

  /**
   * The inventory policy: the item number is below 100, the partner is one of the three
   * partner names (compared as a string, strictly) and the quantity is positive. Every
   * comparison with NaN is false.
   */
  predicate Accepts(itemId: Option<Value>, partner: Option<Value>, quantity: Option<Value>) {
    var n, q := NumberOfOpt(itemId), NumberOfOpt(quantity);
    && n.Some? && n.value < 100.0
    && partner.Some? && partner.value.Str? && partner.value.s in KnownPartners
    && q.Some? && q.value > 0.0
  }

  /** The body of a placement confirmation. */
  function PlacedBody(orderId: string, itemId: Option<Value>): Value {
    Obj(map["statusCode" := Num(200.0),
            "message" := Str(PlacedMessage(orderId, Template(itemId))),
            "orderId" := Str(orderId)])
  }

  /** POST: place an order under the policy; `orderId` is the freshly generated UUID. */
  function PostDecision(itemId: Option<Value>, partner: Option<Value>, quantity: Option<Value>, orderId: string): (r: Response)
    ensures !Present(itemId) || !Present(partner) ==> r == MessageResponse(404, "invalid request")
    ensures r.statusCode == 200 <==> Present(itemId) && Accepts(itemId, partner, quantity)
    ensures r.statusCode == 200 ==> r.body == JsonBody(PlacedBody(orderId, itemId))
    ensures Present(itemId) && Present(partner) && !Accepts(itemId, partner, quantity)
            ==> r == MessageResponse(404, "Order Failed for item - " + Template(itemId))
  {
    if !Present(itemId) || !Present(partner) then MessageResponse(404, "invalid request")
    else if Accepts(itemId, partner, quantity) then Response(200, JsonBody(PlacedBody(orderId, itemId)))
    else MessageResponse(404, "Order Failed for item - " + Template(itemId))
  }

  /** GET: report availability under the same policy. */
  function GetDecision(itemId: Option<Value>, partner: Option<Value>, quantity: Option<Value>): (r: Response)
    ensures !Present(itemId) || !Present(partner) || !Present(quantity) ==> r == MessageResponse(404, "invalid request")
    ensures r == MessageResponse(200, "available") <==> Present(itemId) && Present(quantity) && Accepts(itemId, partner, quantity)
    ensures Present(itemId) && Present(partner) && Present(quantity) && !Accepts(itemId, partner, quantity)
            ==> r == MessageResponse(404, "Not Found")
  {
    if !Present(itemId) || !Present(partner) || !Present(quantity) then MessageResponse(404, "invalid request")
    else if Accepts(itemId, partner, quantity) then MessageResponse(200, "available")
    else MessageResponse(404, "Not Found")
  }

  function HandlePost(body: Fields, orderId: string): Response {
    PostDecision(Lookup(body, "itemId"), Lookup(body, "partner"), Lookup(body, "quantity"), orderId)
  }

  function HandleGet(query: map<string, string>): Response {
    var q := Some(query);
    GetDecision(Param(q, "itemId"), Param(q, "partner"), Param(q, "quantity"))
  }

  /** The handler: dispatch on the method after checking the event, its query string or its body. */
  function Handle(event: Option<ApiEvent>, orderId: string): (r: Response)
    ensures event.None? ==> r == MessageResponse(404, "Invlide request")
    ensures event.Some? && event.value.httpMethod !in {"GET", "POST"} ==> r == MessageResponse(405, "Method Not Supported")
    ensures event.Some? && event.value.httpMethod == "GET" && event.value.query.None?
            ==> r == MessageResponse(404, "Invlid parameters")
    ensures event.Some? && event.value.httpMethod == "POST" && event.value.body.None?
            ==> r == MessageResponse(404, "Invlid body")
    ensures r.statusCode in {200, 404, 405}
  {
    match event
    case None => MessageResponse(404, "Invlide request")
    case Some(e) =>
      if e.httpMethod == "GET" then
        if e.query.None? then MessageResponse(404, "Invlid parameters") else HandleGet(e.query.value)
      else if e.httpMethod == "POST" then
        if e.body.None? then MessageResponse(404, "Invlid body") else HandlePost(e.body.value, orderId)
      else MessageResponse(405, "Method Not Supported")
  }

  /** A parameter given as text, or absent. */
  function TextParam(s: Option<string>): Option<Value> {
    if s.Some? then Some(Str(s.value)) else None
  }

  /** `Number("")` is 0. */
  lemma EmptyIsZero()
    ensures StringToNumber("") == Some(0.0)
  {
    TrimNoSpace("");
  }

  /**
   * GET and POST agree: for the same textual parameters, GET answers "available" exactly
   * when POST places an order, even though only GET insists on a non-empty quantity.
   */
  lemma GetPostAgree(itemId: Option<string>, partner: Option<string>, quantity: Option<string>, orderId: string)
    ensures var i, p, q := TextParam(itemId), TextParam(partner), TextParam(quantity);
            GetDecision(i, p, q) == MessageResponse(200, "available") <==> PostDecision(i, p, q, orderId).statusCode == 200
  {
    EmptyIsZero();
  }

  /**
   * The policy on well-formed requests: an integer item number, a partner name and an
   * integer quantity are available exactly when the item number is below 100 and the
   * quantity is positive.
   */
  lemma WellFormedPolicy(item: int, partner: PartnerName, quantity: int)
    ensures Accepts(Some(Str(IntText(item))), Some(Str(PartnerText(partner))), Some(Str(IntText(quantity))))
            <==> item < 100 && quantity > 0
  {
    IntTextNumber(item);
    IntTextNumber(quantity);
  }

  /** GET on a well-formed query answers "available" or "Not Found" by the policy alone. */
  lemma WellFormedGet(item: int, partner: PartnerName, quantity: int)
    ensures HandleGet(map["itemId" := IntText(item), "partner" := PartnerText(partner), "quantity" := IntText(quantity)])
            == if item < 100 && quantity > 0 then MessageResponse(200, "available") else MessageResponse(404, "Not Found")
  {
    WellFormedPolicy(item, partner, quantity);
    var q := map["itemId" := IntText(item), "partner" := PartnerText(partner), "quantity" := IntText(quantity)];
    assert Param(Some(q), "itemId") == Some(Str(IntText(item)));
    assert Param(Some(q), "partner") == Some(Str(PartnerText(partner)));
    assert Param(Some(q), "quantity") == Some(Str(IntText(quantity)));
  }
}
