/**
 * The cart page (src/pages/Cart.js): quantity stepping on the rendered lines, the coupon
 * form with its error and success messages, and the order summary composed from the cart
 * session's subtotal, shipping and discount plus an 8% tax.
 */
module CartPage {
  import opened Wrappers
  import opened Text
  import opened Sequences
  import opened CartContext

  // ---------------------------------------------------------------------------------------
  // Quantity stepping

  /** The `+` button: the line's quantity becomes one more than the rendered quantity. */
  function IncrementLine(items: seq<LineItem>, item: LineItem): (r: seq<LineItem>)
    ensures item.quantity >= 0 ==> Ids(r) == Ids(items)
    ensures item.quantity >= 0 ==>
      forall i :: 0 <= i < |r| && r[i].product.id == item.product.id ==> r[i].quantity == item.quantity + 1
  {
    SetQuantity(items, item.product.id, item.quantity + 1)
  }

  /** The `-` button: one less while above 1, otherwise the line is removed. */
  function DecrementLine(items: seq<LineItem>, item: LineItem): (r: seq<LineItem>)
    ensures item.quantity <= 1 ==> item.product.id !in Ids(r)
    ensures item.quantity > 1 ==> Ids(r) == Ids(items)
    ensures item.quantity > 1 ==>
      forall i :: 0 <= i < |r| && r[i].product.id == item.product.id ==> r[i].quantity == item.quantity - 1
  {
    if item.quantity > 1 then SetQuantity(items, item.product.id, item.quantity - 1)
    else Without(items, item.product.id)
  }

  /** Increment on a rendered line raises exactly that line's quantity by 1 and keeps the invariant. */
  lemma {:induction false} IncrementSpec(items: seq<LineItem>, k: nat)
    requires CartInvariant(items) && k < |items|
    ensures IncrementLine(items, items[k]) == items[k := items[k].(quantity := items[k].quantity + 1)]
    ensures ItemCount(IncrementLine(items, items[k]), items[k].product.id) == items[k].quantity + 1
    ensures CartInvariant(IncrementLine(items, items[k]))
  {
    var id, q := items[k].product.id, items[k].quantity + 1;
    assert IncrementLine(items, items[k]) == SetQuantity(items, id, q);
    SetQuantityExisting(items, id, q, k);
    SetQuantitySpec(items, id, q);
  }

  /**
   * Decrement on a rendered line lowers its quantity by 1 when it is above 1, and removes the
   * line when it is 1; the invariant is kept either way.
   */
  lemma {:induction false} DecrementSpec(items: seq<LineItem>, k: nat)
    requires CartInvariant(items) && k < |items|
    ensures items[k].quantity > 1 ==>
      DecrementLine(items, items[k]) == items[k := items[k].(quantity := items[k].quantity - 1)]
    ensures items[k].quantity == 1 ==>
      && items[k].product.id !in Ids(DecrementLine(items, items[k]))
      && ItemCount(DecrementLine(items, items[k]), items[k].product.id) == 0
    ensures CartInvariant(DecrementLine(items, items[k]))
  {
    var id := items[k].product.id;
    if items[k].quantity > 1 {
      SetQuantityExisting(items, id, items[k].quantity - 1, k);
      SetQuantitySpec(items, id, items[k].quantity - 1);
    } else {
      WithoutSpec(items, id);
    }
  }

  // ---------------------------------------------------------------------------------------
  // Order summary

  datatype Summary = Summary(subtotal: real, shipping: real, tax: real, discount: real, total: real)

  function Max(a: real, b: real): real
  {
    if a >= b then a else b
  }

  /** The summary block for a given subtotal and coupon: tax is 8%, the total is floored at 0. */
  function SummaryOf(subtotal: real, active: Option<Coupon>): (s: Summary)
    ensures s.subtotal == subtotal
    ensures s.shipping == CalculateShipping(active, subtotal) && s.discount == CalculateDiscount(active, subtotal)
    ensures s.tax == subtotal * (8.0 / 100.0)
    ensures s.total >= 0.0 && s.total >= s.subtotal + s.shipping + s.tax - s.discount
    ensures s.total == 0.0 || s.total == s.subtotal + s.shipping + s.tax - s.discount
  {
    var shipping := CalculateShipping(active, subtotal);
    var tax := subtotal * (8.0 / 100.0);
    var discount := CalculateDiscount(active, subtotal);
    Summary(subtotal, shipping, tax, discount, Max(0.0, subtotal + shipping + tax - discount))
  }

  /**
   * The summary of the current cart; with well-formed lines and no coupon or a catalogue
   * coupon, the total is never clamped.
   */
  function OrderSummary(items: seq<LineItem>, active: Option<Coupon>): (s: Summary)
    ensures s.subtotal == Subtotal(items)
    ensures && (forall i :: 0 <= i < |items| ==> items[i].product.price >= 0.0 && items[i].quantity >= 0)
            && (active.None? || active.value in Catalog)
            ==> s.total == s.subtotal + s.shipping + s.tax - s.discount
  {
    var subtotal := Subtotal(items);
    if subtotal >= 0.0 && (active.None? || active.value in Catalog) then
      TotalUnclamped(subtotal, active);
      SummaryOf(subtotal, active)
    else
      SummaryOf(subtotal, active)
  }

  /** Tax is 8% of the subtotal alone: no coupon changes it. */
  lemma {:induction false} TaxIgnoresCoupon(subtotal: real, a: Option<Coupon>, b: Option<Coupon>)
    ensures SummaryOf(subtotal, a).tax == SummaryOf(subtotal, b).tax == subtotal * 8.0 / 100.0
  {
  }

  /**
   * For a non-negative subtotal and no coupon or a catalogue coupon the floor at 0 never
   * engages: the total is exactly subtotal + shipping + tax - discount, and at least the shipping
   * plus tax.
   */
  lemma {:induction false} TotalUnclamped(subtotal: real, active: Option<Coupon>)
    requires subtotal >= 0.0 && (active.None? || active.value in Catalog)
    ensures var s := SummaryOf(subtotal, active);
      s.total == s.subtotal + s.shipping + s.tax - s.discount && s.total >= s.shipping + s.tax
  {
    DiscountWithinSubtotal(active, subtotal);
  }

  /** Subtotal 80 with WELCOME15: discount 12, shipping 5, tax 6.4, total 79.4. */
  lemma {:induction false} WorkedExample()
    ensures SummaryOf(80.0, Some(Catalog[3])) == Summary(80.0, 5.0, 6.4, 12.0, 79.4)
  {
  }

  /** The free-shipping progress bar, as a percentage of the $100 threshold. */
  function ShippingProgress(subtotal: real): (r: real)
    ensures subtotal >= 0.0 ==> 0.0 <= r <= 100.0
    ensures subtotal >= 100.0 ==> r == 100.0
    ensures subtotal < 100.0 ==> r == subtotal
  {
    var p := (subtotal / 100.0) * 100.0;
    if p <= 100.0 then p else 100.0
  }

  // ---------------------------------------------------------------------------------------
  // The coupon form

  const BlankCodeError := "Please enter a coupon code"

  /**
   * The banner shown after a coupon is accepted. Its prefix is the text the page source holds:
   * the four characters U+00F0 U+0178 U+017D U+2030 (the party emoji's UTF-8 bytes read back as
   * Windows-1252) and a space.
   */
  const SuccessPrefix := "\U{00F0}\U{0178}\U{017D}\U{2030} "

  function SuccessText(c: Coupon): (r: string)
    ensures |r| > 19 && r[..5] == SuccessPrefix && r[|r| - 14..] == "% off applied!"
    ensures IsDigits(r[5..|r| - 14]) && DigitsValue(r[5..|r| - 14]) == c.discount
  {
    var digits := NatToString(c.discount);
    var r := SuccessPrefix + digits + "% off applied!";
    NatToStringRoundTrip(c.discount);
    assert r[5..|r| - 14] == digits;
    r
  }

  /** The cart page's own state beside the session it renders. */
  class CartView {
    const session: CartSession
    var couponCode: string
    var couponError: string
    var couponSuccess: string

    constructor (s: CartSession)
      ensures session == s && couponCode == "" && couponError == "" && couponSuccess == ""
    {
      session := s;
      couponCode, couponError, couponSuccess := "", "", "";
    }

    method HandleIncrement(item: LineItem)
      modifies session
      ensures session.cartItems == IncrementLine(old(session.cartItems), item)
      ensures session.savedItems == old(session.savedItems) && session.activeCoupon == old(session.activeCoupon)
      ensures old(session.Valid()) ==> session.Valid()
    {
      assert IncrementLine(session.cartItems, item) == SetQuantity(session.cartItems, item.product.id, item.quantity + 1);
      session.UpdateQuantity(item.product.id, item.quantity + 1);
    }

    method HandleDecrement(item: LineItem)
      modifies session
      ensures session.cartItems == DecrementLine(old(session.cartItems), item)
      ensures session.savedItems == old(session.savedItems) && session.activeCoupon == old(session.activeCoupon)
      ensures old(session.Valid()) ==> session.Valid()
    {
      if item.quantity > 1 {
        session.UpdateQuantity(item.product.id, item.quantity - 1);
      } else {
        session.RemoveFromCart(item.product.id);
      }
    }

    /** Typing in the coupon box replaces the text and clears the error. */
    method EditCouponCode(text: string)
      modifies this
      ensures couponCode == text && couponError == "" && couponSuccess == old(couponSuccess)
    {
      couponCode, couponError := text, "";
    }

    /**
     * Apply: a blank or whitespace-only entry only sets the blank-code error; any other entry,
     * untrimmed, goes to applyCoupon, and its result decides the messages.
     */
    method HandleApplyCoupon()
      modifies this`couponCode, this`couponError, this`couponSuccess, session`activeCoupon
      ensures AllWhitespace(old(couponCode)) ==>
        && couponError == BlankCodeError
        && couponCode == old(couponCode) && couponSuccess == old(couponSuccess)
        && session.activeCoupon == old(session.activeCoupon)
      ensures !AllWhitespace(old(couponCode)) ==>
        match ValidateCoupon(old(couponCode), Subtotal(session.cartItems))
        case Success(c) =>
          && session.activeCoupon == Some(c)
          && couponSuccess == SuccessText(c) && couponError == "" && couponCode == ""
        case Failure(e) =>
          && session.activeCoupon == old(session.activeCoupon)
          && couponError == e.Message() && couponSuccess == "" && couponCode == old(couponCode)
      ensures old(session.Valid()) ==> session.Valid()
    {
      // `!couponCode.trim()`, which TrimEmptyIff shows is the whitespace-only test
      if AllWhitespace(couponCode) {
        couponError := BlankCodeError;
      } else {
        var result := session.ApplyCoupon(couponCode);
        if result.Success? {
          couponSuccess, couponError, couponCode := SuccessText(result.value), "", "";
        } else {
          couponError, couponSuccess := result.error.Message(), "";
        }
      }
    }

    /** Remove: the coupon, the entry, the success banner and the error are all cleared. */
    method HandleRemoveCoupon()
      modifies this, session`activeCoupon
      ensures session.activeCoupon == None
      ensures couponCode == "" && couponSuccess == "" && couponError == ""
      ensures old(session.Valid()) ==> session.Valid()
    {
      session.RemoveCoupon();
      couponCode, couponSuccess, couponError := "", "", "";
    }
  }

  /** Whitespace-only entries such as "   " count as blank; "save10" does not. */
  lemma {:induction false} BlankEntryExamples()
    ensures AllWhitespace("   ") && AllWhitespace("")
    ensures !AllWhitespace(" save10")
  {
    assert !IsJsWhitespace(" save10"[1]);
  }
}
