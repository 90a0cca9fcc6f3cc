/**
 * The cart session of the storefront (src/context/CartContext.js): a line-item store keyed by
 * product id, a saved-for-later list, at most one active coupon taken from a fixed catalogue,
 * and the pricing rules derived from them (subtotal, item counts, coupon validation,
 * discount and shipping).
 *
 * The session is a class whose fields the operations replace, as the provider's setters do;
 * each operation's new state is a function of the old one, and the lemmas below state what
 * those functions promise.
 */
module CartContext {
  import opened Wrappers
  import opened Text
  import opened Sequences
  import opened Products

  /** A cart line: the product snapshot, how many of it, and the timestamp of its first add. */
  datatype LineItem = LineItem(product: Product, quantity: int, addedAt: string)

  function LineId(l: LineItem): int
  {
    l.product.id
  }

  /** The product ids of the cart lines, in cart order. */
  function Ids(items: seq<LineItem>): seq<int>
  {
    Keys(items, LineId)
  }

  /** The product ids of the saved-for-later list, in list order. */
  function SavedIds(saved: seq<Product>): seq<int>
  {
    Keys(saved, ProductId)
  }

  /** What every operation keeps: one line per product id, and every quantity at least 1. */
  ghost predicate CartInvariant(items: seq<LineItem>)
  {
    && Distinct(Ids(items))
    && forall i :: 0 <= i < |items| ==> items[i].quantity >= 1
  }

  // ---------------------------------------------------------------------------------------
  // Line-item store

  /** addToCart: one more of a product already present, or a new line with quantity 1 at the end. */
  function AddLine(items: seq<LineItem>, p: Product, addedAt: string): (r: seq<LineItem>)
    ensures Ids(r) == if p.id in Ids(items) then Ids(items) else Ids(items) + [p.id]
  {
    if p.id in Ids(items) then Bumped(items, p.id)
    else
      KeysAppend(items, [LineItem(p, 1, addedAt)], LineId);
      items + [LineItem(p, 1, addedAt)]
  }

  /** The `map` of addToCart: every line with that id gets one more. */
  function Bumped(items: seq<LineItem>, id: int): (r: seq<LineItem>)
    ensures |r| == |items|
    ensures forall i :: 0 <= i < |items| ==>
      r[i] == if items[i].product.id == id then items[i].(quantity := items[i].quantity + 1) else items[i]
    ensures Ids(r) == Ids(items)
  {
    var r := seq(|items|, i requires 0 <= i < |items| =>
      if items[i].product.id == id then items[i].(quantity := items[i].quantity + 1) else items[i]);
    assert Ids(r) == Ids(items);
    r
  }

  /** removeFromCart: every line with that product id is dropped. */
  function Without(items: seq<LineItem>, id: int): (r: seq<LineItem>)
    ensures |r| <= |items|
    ensures forall i :: 0 <= i < |r| ==> r[i].product.id != id
  {
    DropKey(items, LineId, id)
  }

  /** updateQuantity: a quantity of 0 or less removes the line, any other replaces its quantity. */
  function SetQuantity(items: seq<LineItem>, id: int, quantity: int): (r: seq<LineItem>)
    ensures quantity > 0 ==> Ids(r) == Ids(items)
  {
    if quantity <= 0 then Without(items, id)
    else
      var r := seq(|items|, i requires 0 <= i < |items| =>
        if items[i].product.id == id then items[i].(quantity := quantity) else items[i]);
      assert Ids(r) == Ids(items);
      r
  }

  /** saveForLater, on the saved list: the product is appended unless its id is already there. */
  function SaveItem(saved: seq<Product>, p: Product): (r: seq<Product>)
    ensures SavedIds(r) == if p.id in SavedIds(saved) then SavedIds(saved) else SavedIds(saved) + [p.id]
    ensures forall x :: x in saved ==> x in r
  {
    if p.id in SavedIds(saved) then saved
    else
      KeysAppend(saved, [p], ProductId);
      saved + [p]
  }

  /** moveToCart and removeSavedItem, on the saved list: every entry with that id is dropped. */
  function Unsave(saved: seq<Product>, id: int): (r: seq<Product>)
    ensures |r| <= |saved|
    ensures forall i :: 0 <= i < |r| ==> r[i].id != id
  {
    DropKey(saved, ProductId, id)
  }

  // ---------------------------------------------------------------------------------------
  // Getters

  function LineTotal(l: LineItem): real
  {
    l.product.price * l.quantity as real
  }

  /** getCartTotal: the sum of price times quantity over the lines. */
  function Subtotal(items: seq<LineItem>): (r: real)
    ensures (forall i :: 0 <= i < |items| ==> items[i].product.price >= 0.0 && items[i].quantity >= 0) ==> r >= 0.0
  {
    if items == [] then 0.0 else LineTotal(items[0]) + Subtotal(items[1..])
  }

  /** getCartCount: the sum of the quantities, so never fewer than the number of lines. */
  function CartCount(items: seq<LineItem>): (r: int)
    ensures (forall i :: 0 <= i < |items| ==> items[i].quantity >= 1) ==> r >= |items|
  {
    if items == [] then 0 else items[0].quantity + CartCount(items[1..])
  }

  /** getItemCount: the quantity of the first line with that id, or 0 when there is none. */
  function ItemCount(items: seq<LineItem>, id: int): (r: int)
    ensures id !in Ids(items) ==> r == 0
    ensures (forall i :: 0 <= i < |items| ==> items[i].quantity >= 1) ==> (r >= 1 <==> id in Ids(items))
  {
    if items == [] then 0
    else if items[0].product.id == id then items[0].quantity
    else
      assert Ids(items) == [items[0].product.id] + Ids(items[1..]);
      ItemCount(items[1..], id)
  }

  /** One more of a line costs one more unit price. */
  lemma {:induction false} LineTotalBump(l: LineItem)
    ensures LineTotal(l.(quantity := l.quantity + 1)) == LineTotal(l) + l.product.price
  {
    var price, q := l.product.price, l.quantity;
    assert (q + 1) as real == q as real + 1.0;
    assert price * (q as real + 1.0) == price * q as real + price;
  }

  lemma {:induction false} SubtotalBump(items: seq<LineItem>, k: nat)
    requires k < |items|
    ensures Subtotal(items[k := items[k].(quantity := items[k].quantity + 1)]) == Subtotal(items) + items[k].product.price
  {
    SubtotalUpdate(items, k, items[k].(quantity := items[k].quantity + 1));
    LineTotalBump(items[k]);
  }

  lemma {:induction false} SubtotalSingle(l: LineItem)
    ensures Subtotal([l]) == LineTotal(l)
  {
    assert [l][1..] == [];
  }

  lemma {:induction false} SubtotalAppend(items: seq<LineItem>, l: LineItem)
    ensures Subtotal(items + [l]) == Subtotal(items) + LineTotal(l)
  {
    if items != [] {
      assert (items + [l])[1..] == items[1..] + [l];
      SubtotalAppend(items[1..], l);
    } else {
      assert items + [l] == [l];
    }
  }

  lemma {:induction false} CartCountAppend(items: seq<LineItem>, l: LineItem)
    ensures CartCount(items + [l]) == CartCount(items) + l.quantity
  {
    if items != [] {
      assert (items + [l])[1..] == items[1..] + [l];
      CartCountAppend(items[1..], l);
    } else {
      assert items + [l] == [l];
    }
  }

  /** Replacing one line changes the subtotal by the difference of the two line totals. */
  lemma {:induction false} SubtotalUpdate(items: seq<LineItem>, k: nat, l: LineItem)
    requires k < |items|
    ensures Subtotal(items[k := l]) == Subtotal(items) - LineTotal(items[k]) + LineTotal(l)
  {
    if k > 0 {
      assert items[k := l][1..] == items[1..][k - 1 := l];
      SubtotalUpdate(items[1..], k - 1, l);
    } else {
      assert items[k := l][1..] == items[1..];
    }
  }

  /** Replacing one line changes the count by the difference of the two quantities. */
  lemma {:induction false} CartCountUpdate(items: seq<LineItem>, k: nat, l: LineItem)
    requires k < |items|
    ensures CartCount(items[k := l]) == CartCount(items) - items[k].quantity + l.quantity
  {
    if k > 0 {
      assert items[k := l][1..] == items[1..][k - 1 := l];
      CartCountUpdate(items[1..], k - 1, l);
    } else {
      assert items[k := l][1..] == items[1..];
    }
  }

  /** With one line per id, getItemCount of a line's id is that line's quantity. */
  lemma {:induction false} ItemCountAt(items: seq<LineItem>, k: nat)
    requires Distinct(Ids(items)) && k < |items|
    ensures ItemCount(items, items[k].product.id) == items[k].quantity
  {
    if k > 0 {
      DistinctTail(Ids(items));
      assert Ids(items[1..]) == Ids(items)[1..];
      assert Ids(items)[1..][k - 1] == items[k].product.id;
      ItemCountAt(items[1..], k - 1);
    }
  }

  /** Replacing a line by one with the same id leaves every other id's count alone. */
  lemma {:induction false} ItemCountUpdateOther(items: seq<LineItem>, k: nat, l: LineItem, id: int)
    requires k < |items| && l.product.id == items[k].product.id && id != l.product.id
    ensures ItemCount(items[k := l], id) == ItemCount(items, id)
  {
    if k > 0 {
      assert items[k := l][1..] == items[1..][k - 1 := l];
      ItemCountUpdateOther(items[1..], k - 1, l, id);
    }
  }

  // ---------------------------------------------------------------------------------------
  // What the store operations promise

  /** addToCart on a product already in the cart raises that line's quantity by exactly 1 and nothing else. */
  lemma {:induction false} AddLineExisting(items: seq<LineItem>, p: Product, addedAt: string, k: nat)
    requires Distinct(Ids(items)) && k < |items| && items[k].product.id == p.id
    ensures AddLine(items, p, addedAt) == items[k := items[k].(quantity := items[k].quantity + 1)]
  {
    OnlyLineAt(items, k);
    BumpedOnly(items, k);
  }

  /** Line k is the only line with its id. */
  ghost predicate OnlyLine(items: seq<LineItem>, k: nat)
    requires k < |items|
  {
    forall j :: 0 <= j < |items| && items[j].product.id == items[k].product.id ==> j == k
  }

  lemma {:induction false} OnlyLineAt(items: seq<LineItem>, k: nat)
    requires Distinct(Ids(items)) && k < |items|
    ensures OnlyLine(items, k)
  {
    forall j | 0 <= j < |items| && items[j].product.id == items[k].product.id ensures j == k {
      assert Ids(items)[j] == Ids(items)[k];
      DistinctIndices(Ids(items), j, k);
    }
  }

  lemma {:induction false} BumpedOnly(items: seq<LineItem>, k: nat)
    requires k < |items| && OnlyLine(items, k)
    ensures Bumped(items, items[k].product.id) == items[k := items[k].(quantity := items[k].quantity + 1)]
  {
    var r := Bumped(items, items[k].product.id);
    var e := items[k := items[k].(quantity := items[k].quantity + 1)];
    assert forall j :: 0 <= j < |items| ==> r[j] == e[j];
  }

  /** addToCart keeps one line per id and positive quantities. */
  lemma {:induction false} AddLineInvariant(items: seq<LineItem>, p: Product, addedAt: string)
    requires CartInvariant(items)
    ensures CartInvariant(AddLine(items, p, addedAt))
  {
    if p.id !in Ids(items) {
      DistinctAppend(Ids(items), p.id);
    }
  }

  /**
   * addToCart adds exactly one item: the product's count rises by 1, every other count stays,
   * and the subtotal rises by the unit price stored in the cart line (the new product's price
   * when there was no line).
   */
  lemma {:induction false} AddLineCounts(items: seq<LineItem>, p: Product, addedAt: string)
    requires CartInvariant(items)
    ensures ItemCount(AddLine(items, p, addedAt), p.id) == ItemCount(items, p.id) + 1
    ensures forall id :: id != p.id ==> ItemCount(AddLine(items, p, addedAt), id) == ItemCount(items, id)
    ensures CartCount(AddLine(items, p, addedAt)) == CartCount(items) + 1
    ensures p.id !in Ids(items) ==> Subtotal(AddLine(items, p, addedAt)) == Subtotal(items) + p.price
    ensures forall k :: 0 <= k < |items| && items[k].product.id == p.id ==>
      Subtotal(AddLine(items, p, addedAt)) == Subtotal(items) + items[k].product.price
  {
    if p.id in Ids(items) {
      var k :| 0 <= k < |items| && Ids(items)[k] == p.id;
      AddLineCountsExisting(items, p, addedAt, k);
      forall k' | 0 <= k' < |items| && items[k'].product.id == p.id ensures k' == k {
        assert Ids(items)[k'] == Ids(items)[k];
        DistinctIndices(Ids(items), k, k');
      }
    } else {
      AddLineCountsNew(items, p, addedAt);
    }
  }

  lemma {:induction false} AddLineCountsExisting(items: seq<LineItem>, p: Product, addedAt: string, k: nat)
    requires Distinct(Ids(items)) && k < |items| && items[k].product.id == p.id
    ensures ItemCount(AddLine(items, p, addedAt), p.id) == ItemCount(items, p.id) + 1
    ensures forall id :: id != p.id ==> ItemCount(AddLine(items, p, addedAt), id) == ItemCount(items, id)
    ensures CartCount(AddLine(items, p, addedAt)) == CartCount(items) + 1
    ensures Subtotal(AddLine(items, p, addedAt)) == Subtotal(items) + items[k].product.price
  {
    var l := items[k].(quantity := items[k].quantity + 1);
    AddLineExisting(items, p, addedAt, k);
    assert AddLine(items, p, addedAt) == items[k := l];
    BumpItemCounts(items, k);
    assert CartCount(items[k := l]) == CartCount(items) + 1 by {
      CartCountUpdate(items, k, l);
    }
    SubtotalBump(items, k);
  }

  /** Bumping line k raises its id's count by 1 and leaves every other id's count alone. */
  lemma {:induction false} BumpItemCounts(items: seq<LineItem>, k: nat)
    requires Distinct(Ids(items)) && k < |items|
    ensures var r := items[k := items[k].(quantity := items[k].quantity + 1)];
      && ItemCount(r, items[k].product.id) == ItemCount(items, items[k].product.id) + 1
      && forall id :: id != items[k].product.id ==> ItemCount(r, id) == ItemCount(items, id)
  {
    var l := items[k].(quantity := items[k].quantity + 1);
    var r := items[k := l];
    assert Ids(r) == Ids(items) by {
      OnlyLineAt(items, k);
      BumpedOnly(items, k);
    }
    ItemCountAt(items, k);
    ItemCountAt(r, k);
    forall id | id != l.product.id ensures ItemCount(r, id) == ItemCount(items, id) {
      ItemCountUpdateOther(items, k, l, id);
    }
  }

  lemma {:induction false} AddLineCountsNew(items: seq<LineItem>, p: Product, addedAt: string)
    requires p.id !in Ids(items)
    ensures ItemCount(AddLine(items, p, addedAt), p.id) == ItemCount(items, p.id) + 1
    ensures forall id :: id != p.id ==> ItemCount(AddLine(items, p, addedAt), id) == ItemCount(items, id)
    ensures CartCount(AddLine(items, p, addedAt)) == CartCount(items) + 1
    ensures Subtotal(AddLine(items, p, addedAt)) == Subtotal(items) + p.price
  {
    var l := LineItem(p, 1, addedAt);
    assert AddLine(items, p, addedAt) == items + [l];
    ItemCountAppendOwn(items, l);
    forall id | id != p.id ensures ItemCount(items + [l], id) == ItemCount(items, id) {
      ItemCountAppendOther(items, l, id);
    }
    CartCountAppend(items, l);
    SubtotalAppend(items, l);
  }

  lemma {:induction false} ItemCountAppendOwn(items: seq<LineItem>, l: LineItem)
    requires l.product.id !in Ids(items)
    ensures ItemCount(items + [l], l.product.id) == l.quantity
  {
    if items != [] {
      assert (items + [l])[1..] == items[1..] + [l];
      assert Ids(items)[0] == items[0].product.id;
      assert Ids(items[1..]) == Ids(items)[1..];
      ItemCountAppendOwn(items[1..], l);
    } else {
      assert items + [l] == [l];
    }
  }

  lemma {:induction false} ItemCountAppendOther(items: seq<LineItem>, l: LineItem, id: int)
    requires id != l.product.id
    ensures ItemCount(items + [l], id) == ItemCount(items, id)
  {
    if items != [] {
      assert (items + [l])[1..] == items[1..] + [l];
      ItemCountAppendOther(items[1..], l, id);
    } else {
      assert items + [l] == [l];
    }
  }

  /** Starting from an empty cart, addToCart of one product once per timestamp, in order. */
  function AddEach(p: Product, stamps: seq<string>): seq<LineItem>
    decreases |stamps|
  {
    if stamps == [] then [] else AddLine(AddEach(p, stamps[..|stamps| - 1]), p, stamps[|stamps| - 1])
  }

  /** n >= 1 adds of the same product give one line of quantity n, stamped by the first add. */
  lemma {:induction false} RepeatedAdd(p: Product, stamps: seq<string>)
    requires |stamps| >= 1
    ensures AddEach(p, stamps) == [LineItem(p, |stamps|, stamps[0])]
  {
    if |stamps| > 1 {
      var init := stamps[..|stamps| - 1];
      RepeatedAdd(p, init);
      assert init[0] == stamps[0];
      var before := [LineItem(p, |init|, stamps[0])];
      assert Ids(before) == [p.id];
      assert AddLine(before, p, stamps[|stamps| - 1])[0] == LineItem(p, |stamps|, stamps[0]);
    } else {
      assert stamps[..0] == [];
    }
  }

  /** After n adds of one product to an empty cart, its count is n and the subtotal n times its price. */
  lemma {:induction false} RepeatedAddTotals(p: Product, stamps: seq<string>)
    requires |stamps| >= 1
    ensures ItemCount(AddEach(p, stamps), p.id) == |stamps|
    ensures Subtotal(AddEach(p, stamps)) == LineTotal(LineItem(p, |stamps|, stamps[0]))
  {
    RepeatedAdd(p, stamps);
    SubtotalSingle(LineItem(p, |stamps|, stamps[0]));
  }

  /** removeFromCart leaves no line with that id, keeps every other line, and keeps the invariant. */
  lemma {:induction false} WithoutSpec(items: seq<LineItem>, id: int)
    ensures id !in Ids(Without(items, id))
    ensures forall l :: l in items && l.product.id != id ==> l in Without(items, id)
    ensures forall l :: l in Without(items, id) ==> l in items
    ensures id !in Ids(items) ==> Without(items, id) == items
    ensures CartInvariant(items) ==> CartInvariant(Without(items, id))
  {
    assert id !in Ids(Without(items, id)) by {
      DropKeyKeys(items, LineId, id);
      assert id !in multiset(Ids(Without(items, id)));
    }
    if id !in Ids(items) {
      DropKeyAbsent(items, LineId, id);
    }
    if CartInvariant(items) {
      WithoutInvariant(items, id);
    }
  }

  lemma {:induction false} WithoutInvariant(items: seq<LineItem>, id: int)
    requires CartInvariant(items)
    ensures CartInvariant(Without(items, id))
  {
    var r := Without(items, id);
    DropKeyDistinct(items, LineId, id);
    forall i | 0 <= i < |r| ensures r[i].quantity >= 1 {
      assert r[i] in items;
      var j :| 0 <= j < |items| && items[j] == r[i];
    }
  }

  /** updateQuantity with a positive quantity sets (does not add to) the matching line's quantity. */
  lemma {:induction false} SetQuantityExisting(items: seq<LineItem>, id: int, quantity: int, k: nat)
    requires Distinct(Ids(items)) && k < |items| && items[k].product.id == id && quantity > 0
    ensures SetQuantity(items, id, quantity) == items[k := items[k].(quantity := quantity)]
    ensures ItemCount(SetQuantity(items, id, quantity), id) == quantity
  {
    assert Ids(items)[k] == id;
    var r := SetQuantity(items, id, quantity);
    forall j | 0 <= j < |items| && j != k ensures r[j] == items[j] {
      if items[j].product.id == id {
        assert Ids(items)[j] == Ids(items)[k];
        DistinctIndices(Ids(items), j, k);
      }
    }
    assert Ids(r) == Ids(items);
    ItemCountAt(r, k);
  }

  /**
   * updateQuantity: a quantity of 0 or less is removeFromCart, an id not in the cart is a no-op,
   * and the invariant is kept.
   */
  lemma {:induction false} SetQuantitySpec(items: seq<LineItem>, id: int, quantity: int)
    ensures quantity <= 0 ==> SetQuantity(items, id, quantity) == Without(items, id)
    ensures id !in Ids(items) ==> SetQuantity(items, id, quantity) == items
    ensures CartInvariant(items) ==> CartInvariant(SetQuantity(items, id, quantity))
  {
    WithoutSpec(items, id);
    if id !in Ids(items) && quantity > 0 {
      var r := SetQuantity(items, id, quantity);
      forall j | 0 <= j < |items| ensures r[j] == items[j] {
        assert Ids(items)[j] != id;
      }
    }
  }

  /**
   * saveForLater: afterwards the product's id is in the saved list exactly once and nowhere in
   * the cart; the saved list keeps one entry per id.
   */
  lemma {:induction false} SaveForLaterSpec(items: seq<LineItem>, saved: seq<Product>, p: Product)
    requires Distinct(SavedIds(saved))
    ensures multiset(SavedIds(SaveItem(saved, p)))[p.id] == 1
    ensures Distinct(SavedIds(SaveItem(saved, p)))
    ensures p.id !in Ids(Without(items, p.id))
  {
    assert p.id !in Ids(Without(items, p.id)) by {
      WithoutSpec(items, p.id);
    }
    var ids := SavedIds(saved);
    if p.id in ids {
      assert SaveItem(saved, p) == saved;
    } else {
      assert SavedIds(SaveItem(saved, p)) == ids + [p.id] by {
        KeysAppend(saved, [p], ProductId);
      }
      DistinctAppend(ids, p.id);
      assert multiset(ids + [p.id])[p.id] == 1 by {
        assert multiset(ids + [p.id]) == multiset(ids) + multiset{p.id};
      }
    }
  }

  /** moveToCart and removeSavedItem leave no saved entry with that id and keep ids distinct. */
  lemma {:induction false} UnsaveSpec(saved: seq<Product>, id: int)
    requires Distinct(SavedIds(saved))
    ensures id !in SavedIds(Unsave(saved, id))
    ensures Distinct(SavedIds(Unsave(saved, id)))
    ensures forall x :: x in saved && x.id != id ==> x in Unsave(saved, id)
    ensures forall x :: x in Unsave(saved, id) ==> x in saved
    ensures id !in SavedIds(saved) ==> Unsave(saved, id) == saved
  {
    DropKeyDistinct(saved, ProductId, id);
    if id !in SavedIds(saved) {
      DropKeyAbsent(saved, ProductId, id);
    }
  }

  /**
   * saveForLater followed by moveToCart restores the saved list; the product comes back to the
   * cart as a fresh line of quantity 1 at the end.
   */
  lemma {:induction false} SaveThenMove(items: seq<LineItem>, saved: seq<Product>, p: Product, addedAt: string)
    requires p.id !in SavedIds(saved)
    ensures Unsave(SaveItem(saved, p), p.id) == saved
    ensures AddLine(Without(items, p.id), p, addedAt) == Without(items, p.id) + [LineItem(p, 1, addedAt)]
  {
    WithoutSpec(items, p.id);
    DropKeyAbsent(saved, ProductId, p.id);
    DropKeyAppendKey(saved, p, ProductId);
  }

  // ---------------------------------------------------------------------------------------
  // Coupons

  datatype DiscountKind = Percentage | Fixed

  datatype Coupon = Coupon(code: string, discount: nat, kind: DiscountKind, minOrder: nat, freeShipping: bool)

  /** The fixed coupon catalogue. */
  const Catalog: seq<Coupon> := [
    Coupon("SAVE10", 10, Percentage, 0, false),
    Coupon("SAVE20", 20, Percentage, 100, false),
    Coupon("FREESHIP", 10, Fixed, 50, true),
    Coupon("WELCOME15", 15, Percentage, 30, false)
  ]

  /** Why a coupon was refused. */
  datatype CouponError = InvalidCode | MinimumNotMet(minOrder: nat)
  {
    /** The message shown to the shopper. */
    function Message(): (r: string)
      ensures InvalidCode? ==> r == "Invalid coupon code"
      ensures MinimumNotMet? ==> |r| > 27 && r[..18] == "Minimum order of $" && r[|r| - 9..] == " required"
      ensures MinimumNotMet? ==> IsDigits(r[18..|r| - 9]) && DigitsValue(r[18..|r| - 9]) == minOrder
    {
      match this
      case InvalidCode => "Invalid coupon code"
      case MinimumNotMet(m) =>
        var digits := NatToString(m);
        var r := "Minimum order of $" + digits + " required";
        NatToStringRoundTrip(m);
        assert r[18..|r| - 9] == digits;
        r
    }
  }

  /** `coupons.find(c => c.code === code)`. */
  function FindCode(coupons: seq<Coupon>, code: string): (r: Option<Coupon>)
    ensures r.Some? ==> r.value in coupons && r.value.code == code
    ensures r.None? <==> forall c :: c in coupons ==> c.code != code
  {
    if coupons == [] then None
    else if coupons[0].code == code then Some(coupons[0])
    else FindCode(coupons[1..], code)
  }

  /** The catalogue's codes are distinct and already upper-case; percentages are at most 100. */
  lemma {:induction false} CatalogWellFormed()
    ensures forall i, j :: 0 <= i < j < |Catalog| ==> Catalog[i].code != Catalog[j].code
    ensures forall c :: c in Catalog ==> ToUpper(c.code) == c.code
    ensures forall c :: c in Catalog && c.kind == Percentage ==> c.discount <= 100
  {
    assert ToUpper("SAVE10") == "SAVE10";
    assert ToUpper("SAVE20") == "SAVE20";
    assert ToUpper("FREESHIP") == "FREESHIP";
    assert ToUpper("WELCOME15") == "WELCOME15";
  }

  /**
   * validateCoupon: the code is upper-cased and looked up; an unknown code is InvalidCode; a
   * subtotal strictly below the coupon's minimum is MinimumNotMet with that minimum; otherwise
   * the coupon is returned.
   */
  function ValidateCoupon(code: string, subtotal: real): (r: Result<Coupon, CouponError>)
    ensures r.Success? ==> r.value in Catalog && r.value.code == ToUpper(code) && subtotal >= r.value.minOrder as real
    ensures r == Failure(InvalidCode) <==> forall c :: c in Catalog ==> c.code != ToUpper(code)
    ensures r.Failure? && r.error.MinimumNotMet? ==>
      exists c :: c in Catalog && c.code == ToUpper(code) && c.minOrder == r.error.minOrder && subtotal < c.minOrder as real
  {
    match FindCode(Catalog, ToUpper(code))
    case None => Failure(InvalidCode)
    case Some(coupon) =>
      if subtotal < coupon.minOrder as real then Failure(MinimumNotMet(coupon.minOrder)) else Success(coupon)
  }

  /**
   * Acceptance is decided by the minimum alone once the code is known: a subtotal equal to the
   * minimum passes, one strictly below fails; codes match case-insensitively.
   */
  lemma {:induction false} ValidateThreshold(code: string, subtotal: real, c: Coupon)
    requires c in Catalog && c.code == ToUpper(code)
    ensures ValidateCoupon(code, subtotal).Success? <==> subtotal >= c.minOrder as real
    ensures ValidateCoupon(code, subtotal).Success? ==> ValidateCoupon(code, subtotal).value == c
    ensures subtotal < c.minOrder as real ==> ValidateCoupon(code, subtotal) == Failure(MinimumNotMet(c.minOrder))
  {
    CatalogWellFormed();
    var found := FindCode(Catalog, ToUpper(code));
    assert found.Some?;
    var i :| 0 <= i < |Catalog| && Catalog[i] == found.value;
    var j :| 0 <= j < |Catalog| && Catalog[j] == c;
    assert i == j;
  }

  /** Codes are matched after upper-casing: "save10" names SAVE10, which has no minimum. */
  lemma {:induction false} ValidateLowerCase()
    ensures ValidateCoupon("save10", 50.0) == Success(Catalog[0])
  {
    assert ToUpper("save10") == "SAVE10";
  }

  /** "welcome15" names WELCOME15, the last catalogue entry, and a $30 order meets its minimum. */
  lemma {:induction false} ValidateLowerCaseLast()
    ensures ValidateCoupon("welcome15", 30.0) == Success(Catalog[3])
  {
    assert ToUpper("welcome15") == "WELCOME15";
    var w := "WELCOME15";
    assert FindCode(Catalog[3..], w) == Some(Catalog[3]) by {
      assert Catalog[3..][0] == Catalog[3];
    }
    assert FindCode(Catalog[2..], w) == FindCode(Catalog[3..], w) by {
      assert Catalog[2..][0].code[0] != w[0] && Catalog[2..][1..] == Catalog[3..];
    }
    assert FindCode(Catalog[1..], w) == FindCode(Catalog[2..], w) by {
      assert Catalog[1..][0].code[0] != w[0] && Catalog[1..][1..] == Catalog[2..];
    }
    assert FindCode(Catalog, w) == FindCode(Catalog[1..], w) by {
      assert Catalog[0].code[0] != w[0];
    }
  }

  /** SAVE20 on a $50 order is refused with the message naming its $100 minimum. */
  lemma {:induction false} ValidateBelowMinimum()
    ensures ValidateCoupon("SAVE20", 50.0) == Failure(MinimumNotMet(100))
    ensures ValidateCoupon("SAVE20", 50.0).error.Message() == "Minimum order of $100 required"
  {
    assert ValidateCoupon("SAVE20", 50.0) == Failure(MinimumNotMet(100)) by {
      assert ToUpper("SAVE20") == "SAVE20";
      assert Catalog[0].code != "SAVE20" by {
        assert Catalog[0].code[4] != "SAVE20"[4];
      }
      assert FindCode(Catalog[1..], "SAVE20") == Some(Catalog[1]) by {
        assert Catalog[1..][0] == Catalog[1];
      }
      assert FindCode(Catalog, "SAVE20") == FindCode(Catalog[1..], "SAVE20");
    }
    HundredText();
  }

  /** The refusal message for a $100 minimum. */
  lemma {:induction false} HundredText()
    ensures MinimumNotMet(100).Message() == "Minimum order of $100 required"
  {
    MinimumText(100);
    HundredDigits();
  }

  lemma {:induction false} MinimumText(m: nat)
    ensures MinimumNotMet(m).Message() == "Minimum order of $" + NatToString(m) + " required"
  {
  }

  lemma {:induction false} HundredDigits()
    ensures NatToString(100) == "100"
    ensures "Minimum order of $" + NatToString(100) + " required" == "Minimum order of $100 required"
  {
    assert NatToString(1) == "1";
    assert NatToString(10) == "10";
  }

  /** A code outside the catalogue is refused whatever the subtotal. */
  lemma {:induction false} ValidateUnknown()
    ensures ValidateCoupon("SAVE5", 1000.0) == Failure(InvalidCode)
  {
    assert ToUpper("SAVE5") == "SAVE5";
  }

  /** calculateDiscount: none without a coupon, a share of the subtotal, or the fixed amount capped at the subtotal. */
  function CalculateDiscount(active: Option<Coupon>, subtotal: real): (r: real)
    ensures active.None? ==> r == 0.0
    ensures active.Some? && active.value.kind == Fixed ==> r <= subtotal && r <= active.value.discount as real
    ensures active.Some? && active.value.kind == Fixed && subtotal >= active.value.discount as real ==> r == active.value.discount as real
    ensures active.Some? && active.value.kind == Fixed && subtotal < active.value.discount as real ==> r == subtotal
    ensures active.Some? && active.value.kind == Percentage ==> r == subtotal * (active.value.discount as real / 100.0)
  {
    match active
    case None => 0.0
    case Some(c) =>
      if c.kind == Percentage then subtotal * (c.discount as real / 100.0)
      else if c.discount as real <= subtotal then c.discount as real else subtotal
  }

  /** For no coupon or a catalogue coupon, the discount lies between 0 and a non-negative subtotal. */
  lemma {:induction false} DiscountWithinSubtotal(active: Option<Coupon>, subtotal: real)
    requires active.None? || active.value in Catalog
    requires subtotal >= 0.0
    ensures 0.0 <= CalculateDiscount(active, subtotal) <= subtotal
  {
    if active.Some? && active.value.kind == Percentage {
      assert active.value.discount <= 100 by {
        CatalogWellFormed();
      }
      ShareBelow(subtotal, active.value.discount as real / 100.0);
    }
  }

  lemma {:induction false} ShareBelow(x: real, d: real)
    requires x >= 0.0 && 0.0 <= d <= 1.0
    ensures 0.0 <= x * d <= x
  {
    assert x * d <= x * 1.0;
  }

  /** calculateShipping: free with a free-shipping coupon or from $100, $5 from $50, else $10. */
  function CalculateShipping(active: Option<Coupon>, subtotal: real): (r: real)
    ensures r == 0.0 || r == 5.0 || r == 10.0
    ensures (active.Some? && active.value.freeShipping) || subtotal >= 100.0 ==> r == 0.0
    ensures r == 10.0 <==> subtotal < 50.0 && !(active.Some? && active.value.freeShipping)
    ensures r == 5.0 <==> 50.0 <= subtotal < 100.0 && !(active.Some? && active.value.freeShipping)
    ensures r == 0.0 <==> (active.Some? && active.value.freeShipping) || subtotal >= 100.0
  {
    if (active.Some? && active.value.freeShipping) || subtotal >= 100.0 then 0.0
    else if subtotal >= 50.0 then 5.0
    else 10.0
  }

  /** A larger subtotal never costs more shipping. */
  lemma {:induction false} ShippingMonotone(active: Option<Coupon>, a: real, b: real)
    requires a <= b
    ensures CalculateShipping(active, b) <= CalculateShipping(active, a)
  {
  }

  lemma {:induction false} ShippingBoundaries()
    ensures CalculateShipping(None, 49.99) == 10.0
    ensures CalculateShipping(None, 50.0) == 5.0
    ensures CalculateShipping(None, 100.0) == 0.0
    ensures CalculateShipping(Some(Catalog[2]), 10.0) == 0.0
  {
  }

  // ---------------------------------------------------------------------------------------
  // The session

  /** The cart provider's state and its operations. */
  class CartSession {
    var cartItems: seq<LineItem>
    var savedItems: seq<Product>
    var activeCoupon: Option<Coupon>

    /** One line per product, positive quantities, one saved entry per product, a catalogue coupon. */
    ghost predicate Valid()
      reads this
    {
      && CartInvariant(cartItems)
      && Distinct(SavedIds(savedItems))
      && (activeCoupon.None? || activeCoupon.value in Catalog)
    }

    /** A session started from the lists rehydrated from storage, with no coupon. */
    constructor (cart: seq<LineItem>, saved: seq<Product>)
      ensures cartItems == cart && savedItems == saved && activeCoupon == None
      ensures CartInvariant(cart) && Distinct(SavedIds(saved)) ==> Valid()
    {
      cartItems, savedItems, activeCoupon := cart, saved, None;
    }

    method AddToCart(p: Product, addedAt: string)
      modifies this
      ensures cartItems == AddLine(old(cartItems), p, addedAt)
      ensures savedItems == old(savedItems) && activeCoupon == old(activeCoupon)
      ensures old(Valid()) ==> Valid()
    {
      if CartInvariant(cartItems) {
        AddLineInvariant(cartItems, p, addedAt);
      }
      cartItems := AddLine(cartItems, p, addedAt);
    }

    method RemoveFromCart(id: int)
      modifies this
      ensures cartItems == Without(old(cartItems), id)
      ensures savedItems == old(savedItems) && activeCoupon == old(activeCoupon)
      ensures old(Valid()) ==> Valid()
    {
      WithoutSpec(cartItems, id);
      cartItems := Without(cartItems, id);
    }

    method UpdateQuantity(id: int, quantity: int)
      modifies this
      ensures cartItems == SetQuantity(old(cartItems), id, quantity)
      ensures savedItems == old(savedItems) && activeCoupon == old(activeCoupon)
      ensures old(Valid()) ==> Valid()
    {
      SetQuantitySpec(cartItems, id, quantity);
      if quantity <= 0 {
        RemoveFromCart(id);
      } else {
        cartItems := SetQuantity(cartItems, id, quantity);
      }
    }

    method SaveForLater(p: Product)
      modifies this
      ensures savedItems == SaveItem(old(savedItems), p)
      ensures cartItems == Without(old(cartItems), p.id)
      ensures activeCoupon == old(activeCoupon)
      ensures old(Valid()) ==> Valid()
    {
      if Distinct(SavedIds(savedItems)) {
        SaveForLaterSpec(cartItems, savedItems, p);
      }
      savedItems := SaveItem(savedItems, p);
      RemoveFromCart(p.id);
    }

    method MoveToCart(p: Product, addedAt: string)
      modifies this
      ensures cartItems == AddLine(old(cartItems), p, addedAt)
      ensures savedItems == Unsave(old(savedItems), p.id)
      ensures activeCoupon == old(activeCoupon)
      ensures old(Valid()) ==> Valid()
    {
      if Distinct(SavedIds(savedItems)) {
        UnsaveSpec(savedItems, p.id);
      }
      AddToCart(p, addedAt);
      savedItems := Unsave(savedItems, p.id);
    }

    method RemoveSavedItem(id: int)
      modifies this
      ensures savedItems == Unsave(old(savedItems), id)
      ensures cartItems == old(cartItems) && activeCoupon == old(activeCoupon)
      ensures old(Valid()) ==> Valid()
    {
      if Distinct(SavedIds(savedItems)) {
        UnsaveSpec(savedItems, id);
      }
      savedItems := Unsave(savedItems, id);
    }

    /** Empties the cart; the saved list and the active coupon are left as they are. */
    method ClearCart()
      modifies this
      ensures cartItems == []
      ensures savedItems == old(savedItems) && activeCoupon == old(activeCoupon)
      ensures old(Valid()) ==> Valid()
    {
      cartItems := [];
    }

    /** applyCoupon: validates against the current subtotal and changes the coupon only on success. */
    method ApplyCoupon(code: string) returns (result: Result<Coupon, CouponError>)
      modifies this`activeCoupon
      ensures result == ValidateCoupon(code, Subtotal(cartItems))
      ensures activeCoupon == if result.Success? then Some(result.value) else old(activeCoupon)
      ensures old(Valid()) ==> Valid()
    {
      result := ValidateCoupon(code, Subtotal(cartItems));
      if result.Success? {
        activeCoupon := Some(result.value);
      }
    }

    method RemoveCoupon()
      modifies this`activeCoupon
      ensures activeCoupon == None
      ensures old(Valid()) ==> Valid()
    {
      activeCoupon := None;
    }
  }
}
