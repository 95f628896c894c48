/**
 * The order lookup page: the two-field validator, the request path it builds, and how it
 * routes the answer to either the order view or the message line.
 */
module OrderLookup {
  import opened Wrappers
  import opened JsText
  import opened JsValue
  import opened Schema
  import opened Http
  import opened Store
  import opened GetOrder

  const OrderIdMissing := "Please provide OrderId"
  const PartnerIdMissing := "Please provide PartnerId"

  /** The partner select's options; the first has no value attribute, so its text is its value. */
  const Placeholder := "Select Partner"

  function OptionValue(p: PartnerName): string {
    match p
    case Partner1 => "1"
    case Partner2 => "2"
    case Partner3 => "3"
  }

  /** `validate`: one error per empty field. */
  method Validate(orderId: string, partnerId: string) returns (errors: map<string, string>, ok: bool)
    ensures "orderId" in errors <==> orderId == ""
    ensures "partnerId" in errors <==> partnerId == ""
    ensures "orderId" in errors ==> errors["orderId"] == OrderIdMissing
    ensures "partnerId" in errors ==> errors["partnerId"] == PartnerIdMissing
    ensures errors.Keys <= {"orderId", "partnerId"}
    ensures ok <==> |errors| == 0
    ensures ok <==> orderId != "" && partnerId != ""
  {
    errors := map[];
    if orderId == "" {
      errors := errors["orderId" := OrderIdMissing];
    }
    if partnerId == "" {
      errors := errors["partnerId" := PartnerIdMissing];
    }
    ok := |errors| == 0;
    if !ok {
      assert "orderId" in errors || "partnerId" in errors;
    }
  }

  /** The path requested: `orders/${orderId}?partner=Partner${partnerId}}`, closing brace included. */
  function LookupPath(orderId: string, partnerId: string): string {
    "orders/" + orderId + "?partner=Partner" + partnerId + "}"
  }

  /** The partner parameter the request carries. */
  function PartnerParam(partnerId: string): string {
    "Partner" + partnerId + "}"
  }

  /**
   * The path splits at its `?` into the order's path and the query string, and the query
   * string at its `=` into the name `partner` and the parameter, provided the two inputs
   * hold neither character.
   */
  lemma LookupPathParts(orderId: string, partnerId: string)
    requires '?' !in orderId && '?' !in partnerId && '=' !in partnerId
    ensures Split(LookupPath(orderId, partnerId), '?') == ["orders/" + orderId, "partner=" + PartnerParam(partnerId)]
    ensures Split("partner=" + PartnerParam(partnerId), '=') == ["partner", PartnerParam(partnerId)]
  {
    var front, query := "orders/" + orderId, "partner=" + PartnerParam(partnerId);
    assert '?' !in front && '?' !in query by {
      assert forall i :: 0 <= i < |front| - 7 ==> front[7 + i] == orderId[i];
      assert forall i :: 0 <= i < |query| - 16 ==> query[15 + i] == partnerId[i];
    }
    assert Join([front, query], '?') == LookupPath(orderId, partnerId);
    SplitJoin([front, query], '?');
    var param := PartnerParam(partnerId);
    assert '=' !in param by {
      assert forall i :: 0 <= i < |param| - 8 ==> param[7 + i] == partnerId[i];
    }
    assert Join(["partner", param], '=') == "partner=" + param;
    SplitJoin(["partner", param], '=');
  }

  /**
   * Because of the closing brace the partner parameter is never a partner name, whichever
   * option is chosen; without it, the option values 1, 2 and 3 would name Partner1, Partner2
   * and Partner3.
   */
  lemma PartnerParamNeverAName(partnerId: string, p: PartnerName)
    ensures ParsePartner(PartnerParam(partnerId)).None?
    ensures "Partner" + OptionValue(p) == PartnerText(p)
  {
    var param := PartnerParam(partnerId);
    assert param[|param| - 1] == '}';
  }

  /** Choosing the placeholder option back sets a non-empty partner id, which passes validation. */
  lemma PlaceholderIsNotEmpty()
    ensures Placeholder != ""
    ensures ParsePartner(PartnerParam(Placeholder)).None?
  {
    PartnerParamNeverAName(Placeholder, Partner1);
  }

  /** What the page shows after a lookup answer arrives. */
  datatype View =
    | ShowOrder(order: Value)
    | ShowMessage(message: Option<Value>)
    | Unchanged

  /**
   * The routing of a resolved answer (`None` when the request was rejected): an answer
   * whose `message.orderId` is truthy shows `message` as an order, any other shows
   * `message` as text; reading a property of `undefined` or `null` throws, the error is
   * only logged, and the page stays as it was.
   */
  function Route(response: Option<Value>): (r: View)
    ensures response.None? || response == Some(Null) ==> r == Unchanged
    ensures r.ShowOrder? ==> Member(response, "message") == Got(Some(r.order))
    ensures r.ShowMessage? ==> Member(response, "message") == Got(r.message)
  {
    var message := Member(response, "message");
    if message.TypeError? then Unchanged
    else
      var orderId := Member(message.v, "orderId");
      if orderId.TypeError? then Unchanged
      else if Present(orderId.v) then ShowOrder(message.v.value)
      else ShowMessage(message.v)
  }

  /** The answer to a lookup, as the page receives it: `{"message": m}`. */
  function MessageAnswer(m: Value): Value {
    Obj(map["message" := m])
  }

  /**
   * End to end: a lookup of an order the table holds is answered with that order, which
   * the page shows as an order, whatever partner was chosen.
   */
  lemma StoredOrderShown(t: Tables, orderId: string, partnerId: string)
    requires t.Valid() && orderId != "" && orderId in t.orders
    ensures var out := HandleGetOrder(Some(ReadRequest(orderId, map["partner" := PartnerParam(partnerId)])), t.orders, false);
            && out == Returned(Response(200, Message(Obj(t.orders[orderId]))))
            && Route(Some(MessageAnswer(Obj(t.orders[orderId])))) == ShowOrder(Obj(t.orders[orderId]))
  {
    ReadAfterWrite(t, orderId, map["partner" := PartnerParam(partnerId)]);
    var order := Obj(t.orders[orderId]);
    assert Member(Some(MessageAnswer(order)), "message") == Got(Some(order));
    assert Member(Some(order), "orderId") == Got(Some(Str(orderId)));
  }

  /** A lookup of an unknown order is answered with a text, which the page shows as the message. */
  lemma UnknownOrderMessage(t: Tables, orderId: string, partnerId: string)
    requires orderId != "" && orderId !in t.orders
    ensures var out := HandleGetOrder(Some(ReadRequest(orderId, map["partner" := PartnerParam(partnerId)])), t.orders, false);
            && out == Returned(MessageResponse(200, "Order Data not found"))
            && Route(Some(MessageAnswer(Str("Order Data not found")))) == ShowMessage(Some(Str("Order Data not found")))
  {
    var text := Str("Order Data not found");
    assert Member(Some(MessageAnswer(text)), "message") == Got(Some(text));
    assert IndexKey("orderId").None? by {
      assert !AllDigits("orderId") by {
        assert !IsAsciiDigit("orderId"[0]);
      }
    }
  }

  /** An answer without a `message` leaves the page as it was. */
  lemma AnswerWithoutMessageIgnored(fields: map<string, Value>)
    requires "message" !in fields
    ensures Route(Some(Obj(fields))) == Unchanged
  {
  }

  /** The page's state. */
  class OrderPage {
    var orderId: string
    var partnerId: string
    var errors: map<string, string>
    /** `undefined` is `None`; both start as the empty string. */
    var customerOrder: Option<Value>
    var message: Option<Value>
    /** The paths requested so far. */
    var requested: seq<string>

    constructor()
      ensures orderId == "" && partnerId == "" && errors == map[]
      ensures customerOrder == Some(Str("")) && message == Some(Str("")) && requested == []
    {
      orderId := "";
      partnerId := "";
      errors := map[];
      customerOrder := Some(Str(""));
      message := Some(Str(""));
      requested := [];
    }

    method SetOrderId(v: string)
      modifies this
      ensures orderId == v && partnerId == old(partnerId) && errors == old(errors)
      ensures customerOrder == old(customerOrder) && message == old(message) && requested == old(requested)
    {
      orderId := v;
    }

    method SetPartnerId(v: string)
      modifies this
      ensures partnerId == v && orderId == old(orderId) && errors == old(errors)
      ensures customerOrder == old(customerOrder) && message == old(message) && requested == old(requested)
    {
      partnerId := v;
    }

    /**
     * `handleSubmit`: clears the order and the message, validates, and only when both
     * fields are filled requests the lookup path and routes its answer (`response`).
     */
    method HandleSubmit(response: Option<Value>)
      modifies this
      ensures orderId == old(orderId) && partnerId == old(partnerId)
      ensures "orderId" in errors <==> orderId == ""
      ensures "partnerId" in errors <==> partnerId == ""
      ensures "orderId" in errors ==> errors["orderId"] == OrderIdMissing
      ensures "partnerId" in errors ==> errors["partnerId"] == PartnerIdMissing
      ensures errors.Keys <= {"orderId", "partnerId"}
      ensures orderId == "" || partnerId == "" ==>
                requested == old(requested) && customerOrder == None && message == None
      ensures orderId != "" && partnerId != "" ==>
                && requested == old(requested) + [LookupPath(orderId, partnerId)]
                && customerOrder == (if Route(response).ShowOrder? then Some(Route(response).order) else None)
                && message == (if Route(response).ShowMessage? then Route(response).message else None)
    {
      customerOrder := None;
      message := None;
      var ok;
      errors, ok := Validate(orderId, partnerId);
      if ok {
        requested := requested + [LookupPath(orderId, partnerId)];
        var view := Route(response);
        if view.ShowOrder? {
          customerOrder := Some(view.order);
        } else if view.ShowMessage? {
          message := view.message;
        }
      }
    }
  }
}
