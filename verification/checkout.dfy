/**
 * The checkout page: the shipping-details validator, the request body sent for each cart
 * line, and the page's own state (the submit button's disabled flag, the error messages,
 * the confirmation text and the requests it has posted).
 */
module Checkout {
  import opened Wrappers
  import opened JsText
  import opened JsValue
  import opened JsonText
  import opened Reducers
  import opened ApiSchema
  import opened Schema

  const EmailMissing := "Please provide your Email"
  const AddressMissing := "Please provide Street Address"
  const CityMissing := "Please provide your City"
  const StateMissing := "Please provide your State"
  const PostalCodeMissing := "Please provide your postalCode"
  const PostalCodeFormat := "Zip code must be 5 digits"
  const CountryMissing := "Please provide your Country"
  const Submitted := "Your Order has been submitted Successfully!!!"

  /** The six shipping fields; the errors object is keyed by their names. */
  datatype Field = Email | Address | City | State | PostalCode | Country

  const AllFields: set<Field> := {Email, Address, City, State, PostalCode, Country}

  /** The key a field's error is stored under. */
  function Name(f: Field): string {
    match f
    case Email => "email"
    case Address => "address"
    case City => "city"
    case State => "state"
    case PostalCode => "postalCode"
    case Country => "country"
  }

  /** The shipping detail a field stands for. */
  function FieldValue(d: CustomerDetails, f: Field): string {
    match f
    case Email => d.email
    case Address => d.address
    case City => d.city
    case State => d.state
    case PostalCode => d.postalCode
    case Country => d.country
  }

  function MissingText(f: Field): string {
    match f
    case Email => EmailMissing
    case Address => AddressMissing
    case City => CityMissing
    case State => StateMissing
    case PostalCode => PostalCodeMissing
    case Country => CountryMissing
  }

  /** `/^\d{5}$/`: exactly five ASCII digits. */
  predicate FiveDigits(s: string) {
    |s| == 5 && forall i :: 0 <= i < 5 ==> IsAsciiDigit(s[i])
  }

  /** A field is refused when it is empty, and the postal code also when it is not five digits. */
  predicate Refused(d: CustomerDetails, f: Field) {
    FieldValue(d, f) == "" || (f == PostalCode && !FiveDigits(d.postalCode))
  }

  /** The message a refused field gets. */
  function Message(d: CustomerDetails, f: Field): string {
    if FieldValue(d, f) == "" then MissingText(f) else PostalCodeFormat
  }

  /** The error messages the validator reports, one per refused field. */
  function Errors(d: CustomerDetails): map<Field, string> {
    ErrorsAmong(d, AllFields)
  }

  /** The errors among the given fields. */
  function ErrorsAmong(d: CustomerDetails, checked: set<Field>): map<Field, string> {
    map f | f in checked && Refused(d, f) :: Message(d, f)
  }

  /** Details the validator accepts: every field filled in and a five-digit postal code. */
  predicate Complete(d: CustomerDetails) {
    && d.email != "" && d.address != "" && d.city != "" && d.state != ""
    && d.country != "" && FiveDigits(d.postalCode)
  }

  /**
   * `validate`: fills in the errors field by field and reports whether none was found.
   * Details are strings, so a field is missing exactly when it is empty.
   */
  method Validate(d: CustomerDetails) returns (errors: map<Field, string>, ok: bool)
    ensures errors == Errors(d)
    ensures ok <==> Complete(d)
    ensures ok <==> |errors| == 0
  {
    errors := Require(map[], d, {}, Email);
    errors := Require(errors, d, {Email}, Address);
    errors := Require(errors, d, {Email, Address}, City);
    errors := Require(errors, d, {Email, Address, City}, State);
    errors := RequirePostalCode(errors, d, {Email, Address, City, State});
    errors := Require(errors, d, {Email, Address, City, State, PostalCode}, Country);
    assert {Email, Address, City, State, PostalCode} + {Country} == AllFields;
    ok := |errors| == 0;
    NoErrorsIffComplete(d);
  }

  /** Records the missing-field error of one field other than the postal code when that field is empty. */
  method Require(errors: map<Field, string>, d: CustomerDetails, ghost checked: set<Field>, f: Field)
    returns (r: map<Field, string>)
    requires f != PostalCode && f !in checked && errors == ErrorsAmong(d, checked)
    ensures r == ErrorsAmong(d, checked + {f})
  {
    r := errors;
    if FieldValue(d, f) == "" {
      r := r[f := MissingText(f)];
    }
    Checked(d, checked, f);
  }

  /** The postal code is required, and must be five digits when given. */
  method RequirePostalCode(errors: map<Field, string>, d: CustomerDetails, ghost checked: set<Field>)
    returns (r: map<Field, string>)
    requires PostalCode !in checked && errors == ErrorsAmong(d, checked)
    ensures r == ErrorsAmong(d, checked + {PostalCode})
  {
    r := errors;
    if d.postalCode == "" {
      r := r[PostalCode := PostalCodeMissing];
    } else if !FiveDigits(d.postalCode) {
      r := r[PostalCode := PostalCodeFormat];
    }
    Checked(d, checked, PostalCode);
  }

  /** Checking one more field records its error exactly when it is refused. */
  lemma Checked(d: CustomerDetails, checked: set<Field>, f: Field)
    requires f !in checked
    ensures ErrorsAmong(d, checked + {f}) ==
              if Refused(d, f) then ErrorsAmong(d, checked)[f := Message(d, f)] else ErrorsAmong(d, checked)
  {
  }

  /** The validator finds no error exactly for complete details. */
  lemma NoErrorsIffComplete(d: CustomerDetails)
    ensures |Errors(d)| == 0 <==> Complete(d)
  {
    if !Complete(d) {
      var key :| key in AllFields && Refused(d, key);
      assert key in Errors(d);
    } else {
      assert Errors(d) == map[];
    }
  }

  /**
   * Each field gets its own error exactly when it is refused: the missing-field message when
   * empty, and for a postal code that is filled in but not five digits the format message.
   */
  lemma ErrorsPerField(d: CustomerDetails, key: Field)
    ensures key in Errors(d) <==> FieldValue(d, key) == "" || (key == PostalCode && !FiveDigits(d.postalCode))
    ensures key in Errors(d) && FieldValue(d, key) == "" ==> Errors(d)[key] == MissingText(key)
    ensures key in Errors(d) && FieldValue(d, key) != "" ==> key == PostalCode && Errors(d)[key] == PostalCodeFormat
    ensures Errors(d).Keys <= AllFields
  {
  }

  /**
   * Once the cart is cleared after a submit every field is empty again, so every field is
   * refused until the details are typed in anew.
   */
  lemma ClearedDetailsRefused(s: CartState)
    ensures Errors(CartReducer(s, ClearCart).customerDetails).Keys == AllFields
    ensures !Complete(CartReducer(s, ClearCart).customerDetails)
  {
    var d := CartReducer(s, ClearCart).customerDetails;
    assert d == BlankDetails;
    forall key | key in AllFields ensures key in Errors(d) {
      assert Refused(d, key);
    }
  }

  /** Typing the email changes no other field's error. */
  lemma EmailTypingIsolated(s: CartState, email: string, key: Field)
    requires key != Email
    ensures var d := CartReducer(s, AddEmail(email)).customerDetails;
            && (key in Errors(d) <==> key in Errors(s.customerDetails))
            && (key in Errors(d) ==> Errors(d)[key] == Errors(s.customerDetails)[key])
  {
  }

  /** The pieces of `JSON.stringify` of the address object, keys in the order written. */
  function AddressPieces(d: CustomerDetails): seq<string> {
    ["{\"address\":", Quote(d.address),
     ",\"city\":", Quote(d.city),
     ",\"state\":", Quote(d.state),
     ",\"country\":", Quote(d.country),
     ",\"postalCode\":", Quote(d.postalCode),
     "}"]
  }

  /** The customer's address as the JSON text of its five fields. */
  function AddressJson(d: CustomerDetails): string {
    Concat(AddressPieces(d))
  }

  /** The address text carries each field, escaped, so that it reads back unchanged. */
  lemma AddressJsonFields(d: CustomerDetails)
    ensures forall k :: 0 <= k < 5 ==> Includes(AddressJson(d), AddressPieces(d)[2 * k + 1])
    ensures forall k :: 0 <= k < 5 ==>
      var q := AddressPieces(d)[2 * k + 1];
      |q| >= 2 && Unescape(q[1..|q| - 1]) == Some(FieldValue(d, [Address, City, State, Country, PostalCode][k]))
  {
    forall k | 0 <= k < 5 ensures Includes(AddressJson(d), AddressPieces(d)[2 * k + 1]) {
      ConcatIncludes(AddressPieces(d), 2 * k + 1);
    }
    forall k | 0 <= k < 5
      ensures var q := AddressPieces(d)[2 * k + 1];
              |q| >= 2 && Unescape(q[1..|q| - 1]) == Some(FieldValue(d, [Address, City, State, Country, PostalCode][k]))
    {
      var v := FieldValue(d, [Address, City, State, Country, PostalCode][k]);
      assert AddressPieces(d)[2 * k + 1] == Quote(v);
      var q := Quote(v);
      assert q[1..|q| - 1] == Escape(v);
      EscapeRoundTrip(v);
    }
  }

  /** An optional product field, left out of the body when the product has none. */
  function WithOptional(fields: map<string, Value>, key: string, v: Option<string>): map<string, Value> {
    if v.Some? then fields[key := Str(v.value)] else fields
  }

  /** The `requestedItem` object for a cart line: its quantity is the line's `qty` as it is. */
  function RequestedItem(c: CartItem): Value {
    var base := map[
      "itemId" := Str(c.product.itemId),
      "quantity" := c.qty,
      "partner" := Str(c.product.partner),
      "price" := Num(c.product.price),
      "partnerId" := Str(c.product.partnerId),
      "sku" := Str(c.product.sku)];
    Obj(WithOptional(WithOptional(base, "size", c.product.size), "category", c.product.category))
  }

  function OrderCustomer(d: CustomerDetails): Value {
    Obj(map["address" := Str(AddressJson(d)), "contact" := Str("test"), "email" := Str(d.email)])
  }

  /** The body posted for one cart line. */
  function RequestBody(c: CartItem, d: CustomerDetails): Value {
    Obj(map["requestedItem" := RequestedItem(c), "customer" := OrderCustomer(d)])
  }

  /** One body per cart line, in cart order. */
  function Bodies(cart: seq<CartItem>, d: CustomerDetails): (r: seq<Value>)
    ensures |r| == |cart|
    ensures forall i :: 0 <= i < |cart| ==> r[i] == RequestBody(cart[i], d)
    decreases |cart|
  {
    if cart == [] then [] else Bodies(cart[..|cart| - 1], d) + [RequestBody(cart[|cart| - 1], d)]
  }

  /**
   * Each body carries the line's item id, partner, price and quantity, the contact "test",
   * and the customer's email and address text.
   */
  lemma RequestBodyFields(c: CartItem, d: CustomerDetails)
    ensures var b := RequestBody(c, d);
            && b.Obj? && b.fields.Keys == {"requestedItem", "customer"}
            && b.fields["requestedItem"].Obj?
            && b.fields["requestedItem"].fields["itemId"] == Str(c.product.itemId)
            && b.fields["requestedItem"].fields["quantity"] == c.qty
            && b.fields["requestedItem"].fields["price"] == Num(c.product.price)
            && b.fields["requestedItem"].fields["partner"] == Str(c.product.partner)
            && ("size" in b.fields["requestedItem"].fields <==> c.product.size.Some?)
            && ("category" in b.fields["requestedItem"].fields <==> c.product.category.Some?)
            && b.fields["customer"] == Obj(map["address" := Str(AddressJson(d)), "contact" := Str("test"), "email" := Str(d.email)])
  {
  }

  lemma CustomerPasses(d: CustomerDetails)
    ensures Valid(OrderCustomer(d), OrderCustomerSchema)
  {
    var f := OrderCustomer(d).fields;
    forall i | 0 <= i < |OrderCustomerSchema.properties| && OrderCustomerSchema.properties[i].name in f
      ensures Valid(f[OrderCustomerSchema.properties[i].name], OrderCustomerSchema.properties[i].schema)
    {
    }
  }

  /**
   * The requested item passes its schema exactly when the item id has at most 64
   * characters, the quantity is a number and the partner is one of the three names.
   */
  lemma RequestedItemPasses(c: CartItem)
    ensures Valid(RequestedItem(c), RequestedItemSchema) <==>
              |c.product.itemId| <= 64 && c.qty.Num? && ParsePartner(c.product.partner).Some?
  {
    var f := RequestedItem(c).fields;
    var ps := RequestedItemSchema.properties;
    PartnerProperty(c.product.partner);
    assert ps[0] == Property("itemId", BoundedString(64)) && f["itemId"] == Str(c.product.itemId);
    assert ps[3] == Property("quantity", Typed(NumberType)) && f["quantity"] == c.qty;
    assert ps[6] == Property("partner", PartnerSchema) && f["partner"] == Str(c.product.partner);
    if |c.product.itemId| <= 64 && c.qty.Num? && ParsePartner(c.product.partner).Some? {
      forall i | 0 <= i < |ps| && ps[i].name in f ensures Valid(f[ps[i].name], ps[i].schema) {
        if i != 0 && i != 3 && i != 6 {
          assert ps[i].schema.kind == StringType || ps[i].schema.kind == NumberType;
        }
      }
    }
  }

  /**
   * A body passes the order-submission schema exactly when its requested item does: the
   * item id has at most 64 characters, the quantity is a number and the partner is valid.
   */
  lemma RequestBodyPasses(c: CartItem, d: CustomerDetails)
    ensures Valid(RequestBody(c, d), CreateOrderSchema) <==>
              |c.product.itemId| <= 64 && c.qty.Num? && ParsePartner(c.product.partner).Some?
  {
    var f := RequestBody(c, d).fields;
    var ps := CreateOrderSchema.properties;
    RequestedItemPasses(c);
    CustomerPasses(d);
    assert ps[0] == Property("requestedItem", RequestedItemSchema);
    assert ps[1] == Property("customer", OrderCustomerSchema);
  }

  /**
   * A line whose quantity was changed through the quantity select holds the option's text,
   * so its body is refused by the order-submission schema whatever else it holds.
   */
  lemma ChangedQuantityRefused(cart: seq<CartItem>, itemId: string, text: string, d: CustomerDetails, i: nat)
    requires text != "" && TruthyQuantities(cart)
    requires i < |cart| && cart[i].product.itemId == itemId
    ensures i < |ChangedCart(cart, itemId, Str(text))|
    ensures !Valid(RequestBody(ChangedCart(cart, itemId, Str(text))[i], d), CreateOrderSchema)
  {
    ChangeQtyKeepsLines(cart, itemId, Str(text));
    RequestBodyPasses(ChangedCart(cart, itemId, Str(text))[i], d);
  }

  /** The page's own state. */
  class CheckoutPage {
    /** The submit button's `disabled` flag. */
    var validated: bool
    var errors: map<Field, string>
    var orderStatus: string
    /** The bodies posted so far, in order. */
    var posted: seq<Value>

    constructor()
      ensures validated && errors == map[] && orderStatus == "" && posted == []
    {
      validated := true;
      errors := map[];
      orderStatus := "";
      posted := [];
    }

    /**
     * The effect run whenever the cart changes: `!cart.length < 1` holds for a non-empty
     * cart, which enables the button; nothing disables it again.
     */
    method CartChanged(cart: seq<CartItem>)
      modifies this
      ensures validated == (old(validated) && |cart| == 0)
      ensures errors == old(errors) && orderStatus == old(orderStatus) && posted == old(posted)
    {
      var notLength := if |cart| == 0 then 1 else 0;
      if notLength < 1 {
        validated := false;
      }
    }

    /** `submitOrder`: one POST per cart line. */
    method SubmitOrder(cart: seq<CartItem>, d: CustomerDetails)
      modifies this
      ensures posted == old(posted) + Bodies(cart, d)
      ensures validated == old(validated) && errors == old(errors) && orderStatus == old(orderStatus)
    {
      var i := 0;
      while i < |cart|
        invariant 0 <= i <= |cart|
        invariant posted == old(posted) + Bodies(cart[..i], d)
        invariant validated == old(validated) && errors == old(errors) && orderStatus == old(orderStatus)
      {
        assert cart[..i + 1][..i] == cart[..i];
        posted := posted + [RequestBody(cart[i], d)];
        i := i + 1;
      }
      assert cart[..i] == cart;
    }

    /**
     * `handleSubmit`: validates the details; if they pass, posts the cart, shows the
     * confirmation, clears the cart and the shipping details, and clears the filters.
     */
    method HandleSubmit(s: CartState, f: ProductState) returns (s': CartState, f': ProductState)
      modifies this
      ensures errors == Errors(s.customerDetails)
      ensures validated == old(validated)
      ensures Complete(s.customerDetails) ==>
                && posted == old(posted) + Bodies(s.cart, s.customerDetails)
                && orderStatus == Submitted
                && s' == CartReducer(s, ClearCart) && f' == ProductReducer(f, ClearFilters)
      ensures !Complete(s.customerDetails) ==>
                posted == old(posted) && orderStatus == old(orderStatus) && s' == s && f' == f
    {
      var ok;
      errors, ok := Validate(s.customerDetails);
      s', f' := s, f;
      if ok {
        SubmitOrder(s.cart, s.customerDetails);
        orderStatus := Submitted;
        s' := CartReducer(s, ClearCart);
        f' := ProductReducer(f, ClearFilters);
      }
    }
  }
}
