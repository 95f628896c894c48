/**
 * The request models the API gateway validates bodies against: JSON Schema (draft 4)
 * documents using the keywords `type`, `properties`, `required`, `maxLength` and `enum`.
 */
module ApiSchema {
  import opened Wrappers
  import opened JsValue
  import opened Schema

  datatype JsonType = ObjectType | StringType | NumberType

  /**
   * A schema: the type it demands, the properties it constrains, the properties it
   * requires, and for strings an optional length bound and an optional set of allowed values.
   */
  datatype JsonSchema = JsonSchema(
    kind: JsonType,
    properties: seq<Property>,
    required: seq<string>,
    maxLength: Option<nat>,
    allowed: Option<seq<string>>)

  datatype Property = Property(name: string, schema: JsonSchema)

  function Typed(kind: JsonType): JsonSchema {
    JsonSchema(kind, [], [], None, None)
  }

  function BoundedString(max: nat): JsonSchema {
    JsonSchema(StringType, [], [], Some(max), None)
  }

  function ObjectOf(properties: seq<Property>, required: seq<string>): JsonSchema {
    JsonSchema(ObjectType, properties, required, None, None)
  }

  predicate HasType(v: Value, kind: JsonType) {
    match kind
    case ObjectType => v.Obj?
    case StringType => v.Str?
    case NumberType => v.Num?
  }

  /**
   * Draft-4 validation: the value has the type; a string respects the length bound and is
   * one of the allowed values; an object has every required property, and each constrained
   * property it has is valid against that property's schema. Other properties are allowed.
   */
  predicate Valid(v: Value, s: JsonSchema)
    decreases s
  {
    && HasType(v, s.kind)
    && (v.Str? && s.maxLength.Some? ==> |v.s| <= s.maxLength.value)
    && (s.allowed.Some? ==> v.Str? && v.s in s.allowed.value)
    && (v.Obj? ==>
          && (forall i :: 0 <= i < |s.required| ==> s.required[i] in v.fields)
          && (forall i :: 0 <= i < |s.properties| && s.properties[i].name in v.fields ==>
                Valid(v.fields[s.properties[i].name], s.properties[i].schema)))
  }

  const PartnerNames: seq<string> := ["Partner1", "Partner2", "Partner3"]
  const UpdateStatuses: seq<string> := ["Placed", "Pending", "Failed", "Fulfilled"]

  /** The `partner` property, wherever it appears: one of the three partner names. */
  const PartnerSchema := JsonSchema(StringType, [], [], Some(16), Some(PartnerNames))

  const RequestedItemSchema := ObjectOf([
    Property("itemId", BoundedString(64)),
    Property("price", Typed(NumberType)),
    Property("size", Typed(StringType)),
    Property("quantity", Typed(NumberType)),
    Property("sku", Typed(StringType)),
    Property("category", Typed(StringType)),
    Property("partner", PartnerSchema),
    Property("partnerId", Typed(StringType)),
    Property("description", Typed(StringType)),
    Property("color", Typed(StringType))
  ], [])

  const OrderCustomerSchema := ObjectOf([
    Property("email", Typed(StringType)),
    Property("contact", Typed(StringType)),
    Property("address", Typed(StringType))
  ], [])

  /** The body of an order submission; it names no required properties. */
  const CreateOrderSchema := ObjectOf([
    Property("requestedItem", RequestedItemSchema),
    Property("customer", OrderCustomerSchema)
  ], [])

  const GetOrderSchema := ObjectOf([Property("id", Typed(StringType))], [])

  const PostPartnerOrderSchema := ObjectOf([
    Property("itemId", BoundedString(64)),
    Property("sku", BoundedString(64)),
    Property("quantity", Typed(NumberType)),
    Property("partner", PartnerSchema),
    Property("partnerId", Typed(StringType))
  ], ["itemId", "partner", "quantity"])

  const UpdateOrderSchema := ObjectOf([
    Property("id", Typed(StringType)),
    Property("orderStatus", JsonSchema(StringType, [], [], Some(16), Some(UpdateStatuses))),
    Property("partnerId", BoundedString(64))
  ], ["id", "orderStatus", "partnerId"])

  const GetItemSchema := ObjectOf([
    Property("id", Typed(StringType)),
    Property("partner", PartnerSchema)
  ], ["id"])

  /** A string passes the partner property exactly when it names one of the three partners. */
  lemma PartnerProperty(p: string)
    ensures Valid(Str(p), PartnerSchema) <==> ParsePartner(p).Some?
    ensures Valid(Str(p), PartnerSchema) ==> PartnerText(ParsePartner(p).value) == p
  {
  }

  /** Every partner name passes, and nothing but a string does. */
  lemma PartnerPropertyAccepts(p: PartnerName, v: Value)
    ensures Valid(Str(PartnerText(p)), PartnerSchema)
    ensures Valid(v, PartnerSchema) ==> v.Str?
  {
    PartnerProperty(PartnerText(p));
  }

  /** Nothing is required of an order submission: the empty object passes. */
  lemma EmptyOrderPasses()
    ensures Valid(Obj(map[]), CreateOrderSchema)
  {
  }

  /** A requested item with only an item id passes exactly when the id has at most 64 characters. */
  lemma RequestedItemIdBound(itemId: string)
    ensures Valid(Obj(map["requestedItem" := Obj(map["itemId" := Str(itemId)])]), CreateOrderSchema)
            <==> |itemId| <= 64
  {
    var item := Obj(map["itemId" := Str(itemId)]);
    var body := Obj(map["requestedItem" := item]);
    assert "customer" !in body.fields;
    assert Valid(body, CreateOrderSchema) <==> Valid(item, RequestedItemSchema) by {
      assert CreateOrderSchema.properties[0].name == "requestedItem";
    }
    assert Valid(item, RequestedItemSchema) <==> Valid(Str(itemId), BoundedString(64)) by {
      forall i | 1 <= i < |RequestedItemSchema.properties|
        ensures RequestedItemSchema.properties[i].name !in item.fields
      {
      }
      assert RequestedItemSchema.properties[0] == Property("itemId", BoundedString(64));
    }
  }

  /**
   * A partner order body has an item id, a partner and a quantity, of the declared types;
   * the item id, and the sku when given, have at most 64 characters.
   */
  lemma PartnerOrderRequired(v: Value)
    requires Valid(v, PostPartnerOrderSchema)
    ensures v.Obj? && "itemId" in v.fields && "partner" in v.fields && "quantity" in v.fields
    ensures v.fields["itemId"].Str? && |v.fields["itemId"].s| <= 64
    ensures "sku" in v.fields ==> v.fields["sku"].Str? && |v.fields["sku"].s| <= 64
    ensures v.fields["quantity"].Num?
    ensures v.fields["partner"].Str? && ParsePartner(v.fields["partner"].s).Some?
  {
    assert PostPartnerOrderSchema.required[0] == "itemId";
    assert PostPartnerOrderSchema.required[1] == "partner";
    assert PostPartnerOrderSchema.required[2] == "quantity";
    assert PostPartnerOrderSchema.properties[0] == Property("itemId", BoundedString(64));
    assert PostPartnerOrderSchema.properties[1] == Property("sku", BoundedString(64));
    assert PostPartnerOrderSchema.properties[2] == Property("quantity", Typed(NumberType));
    assert PostPartnerOrderSchema.properties[3] == Property("partner", PartnerSchema);
    PartnerProperty(v.fields["partner"].s);
  }

  /** An item lookup body has an `id`, a string. */
  lemma ItemLookupRequired(v: Value)
    requires Valid(v, GetItemSchema)
    ensures v.Obj? && "id" in v.fields && v.fields["id"].Str?
  {
    assert GetItemSchema.required[0] == "id";
    assert GetItemSchema.properties[0] == Property("id", Typed(StringType));
  }

  /**
   * The statuses an update may carry are Placed, Pending, Failed and Fulfilled; of the six
   * order statuses only Pending and Failed are among them, so an update can never set an
   * order to Completed, the status the order worker writes.
   */
  lemma UpdateStatusValues(v: Value)
    requires Valid(v, UpdateOrderSchema)
    ensures v.Obj? && "id" in v.fields && "orderStatus" in v.fields && "partnerId" in v.fields
    ensures v.fields["orderStatus"].Str? && v.fields["orderStatus"].s in UpdateStatuses
    ensures v.fields["partnerId"].Str? && |v.fields["partnerId"].s| <= 64
    ensures forall st: OrderStatus :: v.fields["orderStatus"].s == StatusText(st) ==> st == Pending || st == Failed
  {
    assert UpdateOrderSchema.required[0] == "id";
    assert UpdateOrderSchema.required[1] == "orderStatus";
    assert UpdateOrderSchema.required[2] == "partnerId";
    assert UpdateOrderSchema.properties[1].name == "orderStatus";
    assert UpdateOrderSchema.properties[2] == Property("partnerId", BoundedString(64));
  }
}
