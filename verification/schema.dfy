/**
 * The record shapes and enumerations shared by the order handlers: partner, item,
 * customer and order, and their text forms as stored and sent over the wire.
 */
module Schema {
  import opened Wrappers
  import opened JsValue

  datatype Category = Footware | Apparel | Eyewear
  datatype PartnerName = Partner1 | Partner2 | Partner3
  datatype Size = M | S | L
  datatype Color = Black | White | Blue | Red | Yellow | Pink | Other
  datatype OrderStatus = Pending | InProgress | Delivered | Completed | Failed | Cancelled

  function CategoryText(c: Category): string {
    match c
    case Footware => "Footware"
    case Apparel => "Apparel"
    case Eyewear => "Eyewear"
  }

  /** The enumeration member a string names, if any. */
  function ParseCategory(s: string): (r: Option<Category>)
    ensures r.Some? <==> s in {"Footware", "Apparel", "Eyewear"}
    ensures r.Some? ==> CategoryText(r.value) == s
  {
    if s == "Footware" then Some(Footware)
    else if s == "Apparel" then Some(Apparel)
    else if s == "Eyewear" then Some(Eyewear)
    else None
  }

  function PartnerText(p: PartnerName): string {
    match p
    case Partner1 => "Partner1"
    case Partner2 => "Partner2"
    case Partner3 => "Partner3"
  }

  function ParsePartner(s: string): (r: Option<PartnerName>)
    ensures r.Some? <==> s in {"Partner1", "Partner2", "Partner3"}
    ensures r.Some? ==> PartnerText(r.value) == s
  {
    if s == "Partner1" then Some(Partner1)
    else if s == "Partner2" then Some(Partner2)
    else if s == "Partner3" then Some(Partner3)
    else None
  }

  function SizeText(z: Size): string {
    match z
    case M => "M"
    case S => "S"
    case L => "L"
  }

  function ParseSize(s: string): (r: Option<Size>)
    ensures r.Some? <==> s in {"M", "S", "L"}
    ensures r.Some? ==> SizeText(r.value) == s
  {
    if s == "M" then Some(M)
    else if s == "S" then Some(S)
    else if s == "L" then Some(L)
    else None
  }

  function ColorText(c: Color): string {
    match c
    case Black => "Black"
    case White => "White"
    case Blue => "Blue"
    case Red => "Red"
    case Yellow => "Yellow"
    case Pink => "Pink"
    case Other => "Other"
  }

  function ParseColor(s: string): (r: Option<Color>)
    ensures r.Some? <==> s in {"Black", "White", "Blue", "Red", "Yellow", "Pink", "Other"}
    ensures r.Some? ==> ColorText(r.value) == s
  {
    if s == "Black" then Some(Black)
    else if s == "White" then Some(White)
    else if s == "Blue" then Some(Blue)
    else if s == "Red" then Some(Red)
    else if s == "Yellow" then Some(Yellow)
    else if s == "Pink" then Some(Pink)
    else if s == "Other" then Some(Other)
    else None
  }

  function StatusText(st: OrderStatus): string {
    match st
    case Pending => "Pending"
    case InProgress => "InProgress"
    case Delivered => "Delivered"
    case Completed => "Completed"
    case Failed => "Failed"
    case Cancelled => "Cancelled"
  }

  /** Exactly the six status names denote an order status. */
  function ParseStatus(s: string): (r: Option<OrderStatus>)
    ensures r.Some? <==> s in {"Pending", "InProgress", "Delivered", "Completed", "Failed", "Cancelled"}
    ensures r.Some? ==> StatusText(r.value) == s
  {
    if s == "Pending" then Some(Pending)
    else if s == "InProgress" then Some(InProgress)
    else if s == "Delivered" then Some(Delivered)
    else if s == "Completed" then Some(Completed)
    else if s == "Failed" then Some(Failed)
    else if s == "Cancelled" then Some(Cancelled)
    else None
  }

  /** Every enumeration member's text names it back, so the texts are pairwise distinct. */
  lemma EnumTextsRoundTrip()
    ensures forall c: Category :: ParseCategory(CategoryText(c)) == Some(c)
    ensures forall p: PartnerName :: ParsePartner(PartnerText(p)) == Some(p)
    ensures forall z: Size :: ParseSize(SizeText(z)) == Some(z)
    ensures forall c: Color :: ParseColor(ColorText(c)) == Some(c)
    ensures forall st: OrderStatus :: ParseStatus(StatusText(st)) == Some(st)
  {
  }

  datatype CustomerAddress = CustomerAddress(street: string, city: string, state: string, postalCode: string, country: string)

  /** A customer: the email is mandatory, the address optional. */
  datatype Customer = Customer(email: string, address: Option<CustomerAddress>)

  /** A row of the partner table. */
  datatype PartnerRecord = PartnerRecord(partnerId: string, name: PartnerName, webhook: string, category: string)

  /** A requested item: category, description and color are optional, everything else is required. */
  datatype ItemSchema = ItemSchema(
    itemId: string,
    price: real,
    size: Size,
    quantity: int,
    sku: string,
    category: Option<Category>,
    image: string,
    partner: PartnerName,
    partnerId: string,
    description: Option<string>,
    color: Option<string>)

  /** The message an order submission puts on the queue. */
  datatype ItemRequest = ItemRequest(requestedItem: ItemSchema, customer: Customer)

  /** The product snapshot embedded in an order: exactly item id, quantity and size. */
  datatype OrderProduct = OrderProduct(itemId: string, quantity: int, size: Size)

  datatype Order = Order(
    orderId: string,
    partnerId: string,
    product: OrderProduct,
    shippingAddress: Option<CustomerAddress>,
    orderDate: int,
    subtotal: real,
    price: real,
    salestax: string,
    orderStatus: OrderStatus,
    statusDescription: Option<string>,
    partner: PartnerName,
    subscribers: seq<Customer>,
    messageId: Option<string>)

  function AddressValue(a: CustomerAddress): Value {
    Obj(map["street" := Str(a.street), "city" := Str(a.city), "state" := Str(a.state),
            "postalCode" := Str(a.postalCode), "country" := Str(a.country)])
  }

  function CustomerValue(c: Customer): Value {
    var base := map["email" := Str(c.email)];
    Obj(if c.address.Some? then base["address" := AddressValue(c.address.value)] else base)
  }

  /** An item's attributes with the optional ones that are set. */
  function WithOptional(item: Item, key: string, v: Option<Value>): Item {
    if v.Some? then item[key := v.value] else item
  }

  function OptionalText(s: Option<string>): Option<Value> {
    if s.Some? then Some(Str(s.value)) else None
  }

  /** The attributes every stored order has. */
  function RequiredAttributes(o: Order): Item {
    map[
      "orderId" := Str(o.orderId),
      "partnerId" := Str(o.partnerId),
      "product" := Obj(map["itemId" := Str(o.product.itemId), "quantity" := Num(o.product.quantity as real),
                           "size" := Str(SizeText(o.product.size))]),
      "orderDate" := Num(o.orderDate as real),
      "subtotal" := Num(o.subtotal),
      "price" := Num(o.price),
      "salestax" := Str(o.salestax),
      "orderStatus" := Str(StatusText(o.orderStatus)),
      "partner" := Str(PartnerText(o.partner)),
      "subscribers" := Arr(seq(|o.subscribers|, i requires 0 <= i < |o.subscribers| => CustomerValue(o.subscribers[i])))
    ]
  }

  /** The document an order is stored as; it carries its key as `orderId`. */
  function OrderItem(o: Order): (r: Item)
    ensures "orderId" in r && r["orderId"] == Str(o.orderId)
  {
    var withAddress := WithOptional(RequiredAttributes(o), "shippingAddress",
                                    if o.shippingAddress.Some? then Some(AddressValue(o.shippingAddress.value)) else None);
    var withStatus := WithOptional(withAddress, "statusDescription", OptionalText(o.statusDescription));
    WithOptional(withStatus, "messageId", OptionalText(o.messageId))
  }

  /** The attributes every stored order has. */
  const RequiredKeys: set<string> := {"orderId", "partnerId", "product", "orderDate", "subtotal", "price",
                                      "salestax", "orderStatus", "partner", "subscribers"}

  lemma RequiredAttributeKeys(o: Order)
    ensures RequiredAttributes(o).Keys == RequiredKeys
    ensures "shippingAddress" !in RequiredKeys && "statusDescription" !in RequiredKeys && "messageId" !in RequiredKeys
  {
  }

  /**
   * The shape of a stored order: every required field is an attribute, and shipping
   * address, status description and message id are attributes exactly when they are set.
   */
  lemma OrderItemShape(o: Order)
    ensures var r := OrderItem(o);
            && r.Keys >= RequiredKeys
            && ("shippingAddress" in r <==> o.shippingAddress.Some?)
            && ("statusDescription" in r <==> o.statusDescription.Some?)
            && ("messageId" in r <==> o.messageId.Some?)
  {
    RequiredAttributeKeys(o);
  }

  /** The attribute values the notifier reads from a stored order. */
  lemma OrderItemValues(o: Order)
    ensures var r := OrderItem(o);
            && "partner" in r && r["partner"] == Str(PartnerText(o.partner))
            && "subscribers" in r && r["subscribers"] == RequiredAttributes(o)["subscribers"]
            && (o.statusDescription.Some? ==> "statusDescription" in r && r["statusDescription"] == Str(o.statusDescription.value))
  {
  }
}
