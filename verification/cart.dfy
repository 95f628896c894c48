/**
 * The cart summary: the total as a left fold over the cart lines, the payable amount
 * with the fixed 8% tax, and the checkout button's state.
 */
module CartSummary {
  import opened Wrappers
  import opened JsText
  import opened JsValue
  import opened Reducers

  const Tax: nat := 8

  /**
   * A sum in JavaScript numbers, with `None` standing for NaN: NaN absorbs every
   * addition it takes part in.
   */
  function Plus(x: Option<real>, y: Option<real>): (r: Option<real>)
    ensures r.Some? <==> x.Some? && y.Some?
  {
    if x.Some? && y.Some? then Some(x.value + y.value) else None
  }

  /** Price times quantity, for a quantity that converts to a number. */
  function Amount(c: CartItem): real {
    c.product.price * NumberOf(c.qty).GetOr(0.0)
  }

  /** One line's amount: price times the quantity converted to a number, NaN if it does not convert. */
  function LineAmount(c: CartItem): Option<real> {
    if NumberOf(c.qty).Some? then Some(Amount(c)) else None
  }

  /** The cart total: a left fold from 0 adding each line's price times its quantity. */
  function Total(cart: seq<CartItem>): Option<real>
    decreases |cart|
  {
    if |cart| == 0 then Some(0.0) else Plus(Total(cart[..|cart| - 1]), LineAmount(cart[|cart| - 1]))
  }

  /** The total of a cart split in two is the sum of the two totals. */
  lemma {:induction false} TotalAppend(a: seq<CartItem>, b: seq<CartItem>)
    ensures Total(a + b) == Plus(Total(a), Total(b))
    decreases |b|
  {
    if |b| == 0 {
      assert a + b == a;
    } else {
      var b' := b[..|b| - 1];
      assert (a + b)[..|a + b| - 1] == a + b';
      assert (a + b)[|a + b| - 1] == b[|b| - 1];
      TotalAppend(a, b');
    }
  }

  /** Price times quantity summed from the front, for a cart whose quantities are numbers. */
  function PriceSum(cart: seq<CartItem>): real
    decreases |cart|
  {
    if |cart| == 0 then 0.0 else Amount(cart[0]) + PriceSum(cart[1..])
  }

  /** Every quantity converts to a number (none is NaN). */
  predicate ConvertibleQuantities(cart: seq<CartItem>) {
    forall i :: 0 <= i < |cart| ==> NumberOf(cart[i].qty).Some?
  }

  /** With convertible quantities the fold is the plain sum of price times quantity. */
  lemma {:induction false} TotalIsPriceSum(cart: seq<CartItem>)
    requires ConvertibleQuantities(cart)
    ensures Total(cart) == Some(PriceSum(cart))
    decreases |cart|
  {
    if |cart| > 0 {
      var rest := cart[1..];
      assert ConvertibleQuantities(rest) by {
        forall i | 0 <= i < |rest| ensures NumberOf(rest[i].qty).Some? {
          assert rest[i] == cart[i + 1];
        }
      }
      TotalIsPriceSum(rest);
      var first := [cart[0]];
      assert cart == first + rest;
      TotalAppend(first, rest);
      assert NumberOf(cart[0].qty).Some?;
      assert first[..|first| - 1] == [] && first[|first| - 1] == cart[0];
      assert Total(first) == Some(0.0 + Amount(cart[0]));
    }
  }

  /** The total is NaN exactly when some quantity does not convert to a number. */
  lemma {:induction false} TotalNaN(cart: seq<CartItem>)
    ensures Total(cart).None? <==> !ConvertibleQuantities(cart)
    decreases |cart|
  {
    if |cart| > 0 {
      TotalNaN(cart[..|cart| - 1]);
      ConvertibleSnoc(cart);
    }
  }

  lemma ConvertibleSnoc(cart: seq<CartItem>)
    requires |cart| > 0
    ensures ConvertibleQuantities(cart) <==>
            ConvertibleQuantities(cart[..|cart| - 1]) && NumberOf(cart[|cart| - 1].qty).Some?
  {
    var init := cart[..|cart| - 1];
    if ConvertibleQuantities(cart) {
      forall i | 0 <= i < |init| ensures NumberOf(init[i].qty).Some? {
        assert init[i] == cart[i];
      }
    }
    if ConvertibleQuantities(init) && NumberOf(cart[|cart| - 1].qty).Some? {
      forall i | 0 <= i < |cart| ensures NumberOf(cart[i].qty).Some? {
        if i < |init| {
          assert init[i] == cart[i];
        }
      }
    }
  }

  /** The amount payable: the total plus the tax percentage of it. */
  function FinalPayable(total: Option<real>): (r: Option<real>)
    ensures r.Some? <==> total.Some?
    ensures r.Some? ==> r.value == total.value * 108.0 / 100.0
  {
    Plus(total, if total.Some? then Some(total.value * (Tax as real / 100.0)) else None)
  }

  /** The checkout button is disabled for an empty cart. */
  predicate CheckoutDisabled(cart: seq<CartItem>) {
    |cart| == 0
  }

  const SubtotalOpen := "Subtotal ("
  const SubtotalClose := ") items"

  /** The summary heading, which shows `cart.length`. */
  function SubtotalLabel(cart: seq<CartItem>): string {
    SubtotalOpen + NatText(|cart|) + SubtotalClose
  }

  /** The number between the heading's brackets reads back as the number of cart lines. */
  lemma ItemCountShown(cart: seq<CartItem>)
    ensures |SubtotalLabel(cart)| > |SubtotalOpen| + |SubtotalClose|
    ensures var heading := SubtotalLabel(cart);
            var shown := heading[|SubtotalOpen|..|heading| - |SubtotalClose|];
            && heading[..|SubtotalOpen|] == SubtotalOpen
            && (forall i :: 0 <= i < |shown| ==> IsAsciiDigit(shown[i]))
            && DigitsValue(shown) == |cart|
  {
    var heading := SubtotalLabel(cart);
    assert heading[|SubtotalOpen|..|heading| - |SubtotalClose|] == NatText(|cart|);
    NatTextValue(|cart|);
  }

  /**
   * Adding a product adds its price to the total, as the new line has quantity 1, and
   * enables checkout; clearing the cart zeroes the total and disables checkout.
   */
  lemma CartActionsOnTotal(s: CartState, p: Product)
    ensures Total(CartReducer(s, AddToCart(p)).cart) == Plus(Total(s.cart), Some(p.price))
    ensures !CheckoutDisabled(CartReducer(s, AddToCart(p)).cart)
    ensures Total(CartReducer(s, ClearCart).cart) == Some(0.0)
    ensures CheckoutDisabled(CartReducer(s, ClearCart).cart)
  {
    var line := CartItem(p, Num(1.0));
    TotalAppend(s.cart, [line]);
    assert [line][..0] == [];
  }

  /**
   * A quantity changed through the select is the option's text, which converts back to
   * its number, so a cart of such lines still totals price times quantity.
   */
  lemma SelectedQuantitiesCount(cart: seq<CartItem>)
    requires forall i :: 0 <= i < |cart| ==> exists n: nat :: cart[i].qty == Str(IntText(n))
    ensures ConvertibleQuantities(cart)
    ensures Total(cart) == Some(PriceSum(cart))
  {
    forall i | 0 <= i < |cart|
      ensures NumberOf(cart[i].qty).Some?
    {
      var n: nat :| cart[i].qty == Str(IntText(n));
      IntTextNumber(n);
    }
    TotalIsPriceSum(cart);
  }
}
