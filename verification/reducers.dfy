/**
 * The storefront's shared state and its two reducers: the cart reducer (catalogue, cart
 * and shipping details) and the product reducer (sort order and filters).
 */
module Reducers {
  import opened Wrappers
  import opened JsValue
  import opened Subsequence

  /** A catalogue product, with the fields the storefront reads. */
  datatype Product = Product(
    itemId: string,
    name: string,
    sku: string,
    partner: string,
    partnerId: string,
    size: Option<string>,
    category: Option<string>,
    price: real,
    inStock: int,
    fastDelivery: bool,
    ratings: int)

  /**
   * A cart line: the product's fields plus `qty`, which is the number 1 when added and the
   * select's string value once changed.
   */
  datatype CartItem = CartItem(product: Product, qty: Value)

  datatype CustomerDetails = CustomerDetails(
    email: string, address: string, city: string, state: string, postalCode: string, country: string)

  datatype CartState = CartState(products: seq<Product>, cart: seq<CartItem>, customerDetails: CustomerDetails)

  datatype CartAction =
    | AddToCart(product: Product)
    | RemoveFromCart(itemId: string)
    | ChangeCartQty(itemId: string, qty: Value)
    | AddEmail(email: string)
    | AddAddress(address: string)
    | AddCity(city: string)
    | AddState(state: string)
    | AddPostalCode(postalCode: string)
    | AddCountry(country: string)
    | ClearCart
    | OtherCartAction

  /**
   * The product filters; an absent field is `undefined`, as every field but the three
   * flags is after the filters are cleared.
   */
  datatype ProductState = ProductState(
    sort: Option<string>,
    byStock: bool,
    byFastDelivery: bool,
    byRating: int,
    searchQuery: Option<string>,
    searchSkuQuery: Option<string>,
    byPartner: Option<string>,
    searchOrderQuery: Option<string>)

  datatype ProductAction =
    | SortByPrice(order: string)
    | FilterByStock
    | FilterByDelivery
    | FilterByRating(rating: int)
    | FilterByPartner(partner: string)
    | FilterBySearch(query: string)
    | FilterBySearchSku(query: string)
    | LookupOrder(query: string)
    | ClearFilters
    | OtherProductAction

  const BlankDetails := CustomerDetails("", "", "", "", "", "")

  /** The cart state the storefront starts with. */
  function InitialCartState(products: seq<Product>): CartState {
    CartState(products, [], BlankDetails)
  }

  /** The filters the storefront starts with; no sort order is set. */
  const InitialProductState := ProductState(None, false, false, 0, Some(""), Some(""), Some(""), None)

  /** The cart lines whose item id differs from `itemId`, in cart order. */
  function WithoutItem(cart: seq<CartItem>, itemId: string): seq<CartItem>
    decreases |cart|
  {
    if |cart| == 0 then []
    else
      var last := cart[|cart| - 1];
      WithoutItem(cart[..|cart| - 1], itemId) + (if last.product.itemId != itemId then [last] else [])
  }

  /** A line after the quantity change: the matching line takes the new quantity. */
  function SetQty(c: CartItem, itemId: string, qty: Value): CartItem {
    if c.product.itemId == itemId then c.(qty := qty) else c
  }

  /**
   * The CHANGE_CART_QTY filter: every line with the item id takes the new quantity, and a
   * line is kept when its quantity, after that assignment, is truthy.
   */
  function ChangedCart(cart: seq<CartItem>, itemId: string, qty: Value): seq<CartItem>
    decreases |cart|
  {
    if |cart| == 0 then []
    else
      var c := SetQty(cart[|cart| - 1], itemId, qty);
      ChangedCart(cart[..|cart| - 1], itemId, qty) + (if Truthy(c.qty) then [c] else [])
  }

  /**
   * CHANGE_CART_QTY as the storefront runs it: one pass over the cart that assigns the
   * quantity on matching lines and keeps the lines whose quantity is truthy.
   */
  method ChangeQty(cart: seq<CartItem>, itemId: string, qty: Value) returns (kept: seq<CartItem>)
    ensures kept == ChangedCart(cart, itemId, qty)
  {
    kept := [];
    var i := 0;
    while i < |cart|
      invariant 0 <= i <= |cart|
      invariant kept == ChangedCart(cart[..i], itemId, qty)
    {
      var c := cart[i];
      if c.product.itemId == itemId {
        c := c.(qty := qty);
      }
      if Truthy(c.qty) {
        kept := kept + [c];
      }
      assert cart[..i + 1][..i] == cart[..i];
      i := i + 1;
    }
    assert cart[..i] == cart;
  }

  function CartReducer(s: CartState, a: CartAction): CartState {
    match a
    case AddToCart(p) => s.(cart := s.cart + [CartItem(p, Num(1.0))])
    case RemoveFromCart(id) => s.(cart := WithoutItem(s.cart, id))
    case ChangeCartQty(id, q) => s.(cart := ChangedCart(s.cart, id, q))
    case AddEmail(v) => s.(customerDetails := s.customerDetails.(email := v))
    case AddAddress(v) => s.(customerDetails := s.customerDetails.(address := v))
    case AddCity(v) => s.(customerDetails := s.customerDetails.(city := v))
    case AddState(v) => s.(customerDetails := s.customerDetails.(state := v))
    case AddPostalCode(v) => s.(customerDetails := s.customerDetails.(postalCode := v))
    case AddCountry(v) => s.(customerDetails := s.customerDetails.(country := v))
    case ClearCart => s.(cart := [], customerDetails := BlankDetails)
    case OtherCartAction => s
  }

  function ProductReducer(s: ProductState, a: ProductAction): ProductState {
    match a
    case SortByPrice(v) => s.(sort := Some(v))
    case FilterByStock => s.(byStock := !s.byStock)
    case FilterByDelivery => s.(byFastDelivery := !s.byFastDelivery)
    case FilterByRating(r) => s.(byRating := r)
    case FilterByPartner(v) => s.(byPartner := Some(v))
    case FilterBySearch(v) => s.(searchQuery := Some(v))
    case FilterBySearchSku(v) => s.(searchSkuQuery := Some(v))
    case LookupOrder(v) => s.(searchOrderQuery := Some(v))
    case ClearFilters => ProductState(None, false, false, 0, None, None, None, None)
    case OtherProductAction => s
  }

  /** The number of cart lines for an item. */
  function Count(cart: seq<CartItem>, itemId: string): nat
    decreases |cart|
  {
    if |cart| == 0 then 0
    else Count(cart[..|cart| - 1], itemId) + (if cart[|cart| - 1].product.itemId == itemId then 1 else 0)
  }

  /**
   * ADD_TO_CART appends the product with quantity 1 at the end, without merging it with a
   * line the cart already has for the same item; nothing else changes.
   */
  lemma AddToCartAppends(s: CartState, p: Product)
    ensures var r := CartReducer(s, AddToCart(p));
            && |r.cart| == |s.cart| + 1
            && r.cart[..|s.cart|] == s.cart
            && r.cart[|s.cart|] == CartItem(p, Num(1.0))
            && Count(r.cart, p.itemId) == Count(s.cart, p.itemId) + 1
            && r.products == s.products && r.customerDetails == s.customerDetails
  {
    var r := CartReducer(s, AddToCart(p));
    assert r.cart[..|r.cart| - 1] == s.cart;
  }

  /**
   * REMOVE_FROM_CART keeps exactly the lines for other items, in their order, and removes
   * every line for the item.
   */
  lemma RemoveFromCartKeepsOthers(cart: seq<CartItem>, itemId: string)
    ensures forall c :: c in WithoutItem(cart, itemId) <==> c in cart && c.product.itemId != itemId
    ensures IsSubsequence(WithoutItem(cart, itemId), cart)
    ensures Count(WithoutItem(cart, itemId), itemId) == 0
    ensures |WithoutItem(cart, itemId)| == |cart| - Count(cart, itemId)
  {
    WithoutItemMembers(cart, itemId);
    WithoutItemCount(cart, itemId);
  }

  lemma {:induction false} WithoutItemMembers(cart: seq<CartItem>, itemId: string)
    ensures forall c :: c in WithoutItem(cart, itemId) <==> c in cart && c.product.itemId != itemId
    ensures IsSubsequence(WithoutItem(cart, itemId), cart)
    decreases |cart|
  {
    if |cart| > 0 {
      var init := cart[..|cart| - 1];
      var last := cart[|cart| - 1];
      WithoutItemMembers(init, itemId);
      assert cart == init + [last];
      var ri := WithoutItem(init, itemId);
      SubsequenceSnoc(ri, init, last);
      if last.product.itemId != itemId {
        assert WithoutItem(cart, itemId) == ri + [last];
      } else {
        assert WithoutItem(cart, itemId) == ri;
      }
    }
  }

  lemma {:induction false} WithoutItemCount(cart: seq<CartItem>, itemId: string)
    ensures Count(WithoutItem(cart, itemId), itemId) == 0
    ensures |WithoutItem(cart, itemId)| == |cart| - Count(cart, itemId)
    decreases |cart|
  {
    if |cart| > 0 {
      var init := cart[..|cart| - 1];
      var last := cart[|cart| - 1];
      WithoutItemCount(init, itemId);
      var r := WithoutItem(cart, itemId);
      var ri := WithoutItem(init, itemId);
      if last.product.itemId != itemId {
        assert r == ri + [last];
        assert r[..|r| - 1] == ri;
      } else {
        assert r == ri;
      }
    }
  }

  /** Every quantity in the cart is truthy, as it is for lines added and changed to a truthy value. */
  predicate TruthyQuantities(cart: seq<CartItem>) {
    forall i :: 0 <= i < |cart| ==> Truthy(cart[i].qty)
  }

  /**
   * With a truthy new quantity on a cart of truthy quantities, CHANGE_CART_QTY keeps every
   * line in place, sets the quantity of the matching lines and leaves the others as they were.
   */
  lemma {:induction false} ChangeQtyKeepsLines(cart: seq<CartItem>, itemId: string, qty: Value)
    requires Truthy(qty) && TruthyQuantities(cart)
    ensures |ChangedCart(cart, itemId, qty)| == |cart|
    ensures forall i :: 0 <= i < |cart| ==> ChangedCart(cart, itemId, qty)[i] == SetQty(cart[i], itemId, qty)
    decreases |cart|
  {
    if |cart| > 0 {
      var init := cart[..|cart| - 1];
      assert TruthyQuantities(init) by {
        forall i | 0 <= i < |init| ensures Truthy(init[i].qty) {
          assert init[i] == cart[i];
        }
      }
      ChangeQtyKeepsLines(init, itemId, qty);
      assert Truthy(SetQty(cart[|cart| - 1], itemId, qty).qty) by {
        assert Truthy(cart[|cart| - 1].qty);
      }
    }
  }

  /**
   * With a falsy new quantity (the empty string, say) on a cart of truthy quantities,
   * CHANGE_CART_QTY drops the item's lines exactly as REMOVE_FROM_CART does.
   */
  lemma {:induction false} ChangeQtyToFalsyRemoves(cart: seq<CartItem>, itemId: string, qty: Value)
    requires !Truthy(qty) && TruthyQuantities(cart)
    ensures ChangedCart(cart, itemId, qty) == WithoutItem(cart, itemId)
    decreases |cart|
  {
    if |cart| > 0 {
      var init := cart[..|cart| - 1];
      assert TruthyQuantities(init) by {
        forall i | 0 <= i < |init| ensures Truthy(init[i].qty) {
          assert init[i] == cart[i];
        }
      }
      ChangeQtyToFalsyRemoves(init, itemId, qty);
      assert Truthy(cart[|cart| - 1].qty);
    }
  }

  /** Each ADD_CUSTOMER_DETAILS action changes its one field; cart and products stay. */
  lemma CustomerFieldsIsolated(s: CartState, v: string)
    ensures var d := s.customerDetails;
            && CartReducer(s, AddEmail(v)) == CartState(s.products, s.cart, d.(email := v))
            && CartReducer(s, AddAddress(v)) == CartState(s.products, s.cart, d.(address := v))
            && CartReducer(s, AddCity(v)) == CartState(s.products, s.cart, d.(city := v))
            && CartReducer(s, AddState(v)) == CartState(s.products, s.cart, d.(state := v))
            && CartReducer(s, AddPostalCode(v)) == CartState(s.products, s.cart, d.(postalCode := v))
            && CartReducer(s, AddCountry(v)) == CartState(s.products, s.cart, d.(country := v))
    ensures CartReducer(s, AddEmail(v)).customerDetails.email == v
    ensures var r := CartReducer(s, AddPostalCode(v)).customerDetails;
            r.email == s.customerDetails.email && r.address == s.customerDetails.address
            && r.city == s.customerDetails.city && r.state == s.customerDetails.state
            && r.country == s.customerDetails.country && r.postalCode == v
  {
  }

  /**
   * CLEAR_CART empties the cart and blanks all six shipping fields, keeping the catalogue;
   * the result is the initial state over the same catalogue.
   */
  lemma ClearCartResets(s: CartState)
    ensures CartReducer(s, ClearCart) == InitialCartState(s.products)
    ensures CartReducer(s, ClearCart).cart == []
  {
  }

  /** Unknown actions leave both states as they are. */
  lemma UnknownActionsIgnored(s: CartState, f: ProductState)
    ensures CartReducer(s, OtherCartAction) == s
    ensures ProductReducer(f, OtherProductAction) == f
  {
  }

  /** FILTER_BY_STOCK and FILTER_BY_DELIVERY flip their flag, so applying one twice restores the state. */
  lemma TogglesAreInvolutions(f: ProductState)
    ensures ProductReducer(ProductReducer(f, FilterByStock), FilterByStock) == f
    ensures ProductReducer(ProductReducer(f, FilterByDelivery), FilterByDelivery) == f
    ensures ProductReducer(f, FilterByStock).byStock == !f.byStock
    ensures ProductReducer(f, FilterByDelivery).byFastDelivery == !f.byFastDelivery
  {
  }

  /**
   * CLEAR_FILTERS keeps only the three flags, at false, false and 0, whatever came
   * before: sort, partner and both search queries become undefined, unlike the initial state.
   */
  lemma ClearFiltersDropsFields(f: ProductState)
    ensures var r := ProductReducer(f, ClearFilters);
            && !r.byStock && !r.byFastDelivery && r.byRating == 0
            && r.sort.None? && r.byPartner.None? && r.searchQuery.None? && r.searchSkuQuery.None?
            && r.searchOrderQuery.None?
    ensures ProductReducer(f, ClearFilters) != InitialProductState
  {
  }
}
