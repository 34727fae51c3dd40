/**
 * The cart summary card: delivery fee and total, one line per item with its
 * price × quantity, and the controls that forward to the cart store.
 */
module CartSummary {
  import opened Common
  import opened Types
  import CartStore

  const DeliveryPrice: real := 5.99

  /** 5.99 for home delivery, nothing for store pickup. */
  function DeliveryFee(option: DeliveryOption): (r: real)
    ensures r == if option == Delivery then DeliveryPrice else 0.0
    ensures r >= 0.0
  {
    match option
    case Delivery => DeliveryPrice
    case Pickup => 0.0
  }

  /** `cart.subtotal + deliveryFee`. */
  function SummaryTotal(cart: Cart): (r: real)
    ensures r >= cart.subtotal
  {
    cart.subtotal + DeliveryFee(cart.deliveryOption)
  }

  /** Switching the delivery option keeps the subtotal and moves the total by
      exactly the difference of the fees. */
  lemma SwitchingDeliveryMovesTotalByFee(cart: Cart, option: DeliveryOption)
    ensures var c := cart.(deliveryOption := option);
      c.subtotal == cart.subtotal &&
      SummaryTotal(c) - SummaryTotal(cart) == DeliveryFee(option) - DeliveryFee(cart.deliveryOption)
    ensures cart.deliveryOption == Pickup && option == Delivery ==>
      SummaryTotal(cart.(deliveryOption := option)) == SummaryTotal(cart) + 5.99
  {
  }

  /** One rendered line of the item list. */
  datatype Line = Line(productId: string, name: string, category: string, quantity: int, amount: real)

  function LineFor(item: CartItem): (r: Line)
    ensures r.productId == item.productId && r.quantity == item.quantity
    ensures r.amount == item.product.price * item.quantity as real
  {
    Line(item.productId, item.product.name, item.product.category, item.quantity, CartStore.LineTotal(item))
  }

  datatype SummaryView =
    | EmptyState
    | ItemsView(headerCount: nat, lines: seq<Line>, fee: real, total: real)

  /** What the card renders: only the empty state for an empty cart;
      otherwise a header counting distinct items, the lines, the fee and the
      total, with the checkout button. */
  function View(cart: Cart): (r: SummaryView)
    ensures r.EmptyState? <==> |cart.items| == 0
    ensures r.ItemsView? ==> r.headerCount == |cart.items| && |r.lines| == |cart.items|
    ensures r.ItemsView? ==> forall i :: 0 <= i < |cart.items| ==> r.lines[i] == LineFor(cart.items[i])
    ensures r.ItemsView? ==> r.total == SummaryTotal(cart) && r.fee == DeliveryFee(cart.deliveryOption)
  {
    if |cart.items| == 0 then EmptyState
    else
      ItemsView(|cart.items|,
        seq(|cart.items|, i requires 0 <= i < |cart.items| => LineFor(cart.items[i])),
        DeliveryFee(cart.deliveryOption), SummaryTotal(cart))
  }

  /** The lines' amounts add up to the subtotal the store keeps. */
  lemma {:induction false} LinesSumToSubtotal(items: seq<CartItem>)
    ensures CartStore.Subtotal(items) == LinesSum(seq(|items|, i requires 0 <= i < |items| => LineFor(items[i])))
  {
    var lines := seq(|items|, i requires 0 <= i < |items| => LineFor(items[i]));
    if items != [] {
      LinesSumToSubtotal(items[1..]);
      assert lines[1..] == seq(|items[1..]|, i requires 0 <= i < |items[1..]| => LineFor(items[1..][i]));
    }
  }

  function LinesSum(lines: seq<Line>): real {
    if lines == [] then 0.0 else lines[0].amount + LinesSum(lines[1..])
  }

  /** The header counts items, not units: two shakes and one pair of gloves
      make a header of 2 while the units number 3. */
  lemma HeaderCountsDistinctItems()
    ensures var shake := CartItem("1", 2, Product("1", "Premium Protein Shake", "", 8.99, "Supplements", None, true));
      var gloves := CartItem("2", 1, Product("2", "Fitness Gloves", "", 24.99, "Accessories", None, true));
      var cart := Cart([shake, gloves], Pickup, 42.97);
      View(cart).headerCount == 2 && CartStore.TotalQuantity(cart.items) == 3
  {
    var shake := CartItem("1", 2, Product("1", "Premium Protein Shake", "", 8.99, "Supplements", None, true));
    var gloves := CartItem("2", 1, Product("2", "Fitness Gloves", "", 24.99, "Accessories", None, true));
    assert [shake, gloves][1..] == [gloves];
  }

  // ---------------------------------------------------------------------
  // The controls of one line and the delivery radios

  /** `-`: asks the store for one less; at quantity 1 the item is removed. */
  method ClickMinus(store: CartStore.CartStore, item: CartItem)
    requires store.Valid()
    modifies store
    ensures store.Valid()
    ensures store.cart.items == CartStore.UpdateItems(old(store.cart.items), item.productId, item.quantity - 1)
    ensures item.quantity <= 1 ==> store.cart.items == CartStore.RemoveItems(old(store.cart.items), item.productId)
    ensures !store.Settled() && store.cart.subtotal == old(store.cart.subtotal)
  {
    store.UpdateQuantity(item.productId, item.quantity - 1);
  }

  /** `+`: asks the store for one more. */
  method ClickPlus(store: CartStore.CartStore, item: CartItem)
    requires store.Valid()
    modifies store
    ensures store.Valid()
    ensures store.cart.items == CartStore.UpdateItems(old(store.cart.items), item.productId, item.quantity + 1)
    ensures !store.Settled() && store.cart.subtotal == old(store.cart.subtotal)
  {
    store.UpdateQuantity(item.productId, item.quantity + 1);
  }

  /** The bin icon. */
  method ClickRemove(store: CartStore.CartStore, item: CartItem)
    requires store.Valid()
    modifies store
    ensures store.Valid()
    ensures store.cart.items == CartStore.RemoveItems(old(store.cart.items), item.productId)
    ensures !store.Settled() && store.cart.subtotal == old(store.cart.subtotal)
  {
    store.RemoveFromCart(item.productId);
  }

  /** The two radios: the chosen one becomes the option; the subtotal stays. */
  method ChooseDelivery(store: CartStore.CartStore, option: DeliveryOption)
    requires store.Valid()
    modifies store
    ensures store.Valid()
    ensures store.cart == old(store.cart).(deliveryOption := option)
    ensures SummaryTotal(store.cart) == old(store.cart).subtotal + DeliveryFee(option)
    ensures store.Settled() == old(store.Settled())
  {
    store.SetDeliveryOption(option);
  }

  /** For an item on the list, `-` at quantity 1 takes it off the list and `+`
      raises its quantity without adding a line. */
  lemma MinusAndPlusOnAListedItem(items: seq<CartItem>, k: int)
    requires CartStore.DistinctIds(items)
    requires 0 <= k < |items| && items[k].quantity >= 1
    ensures items[k].quantity == 1 ==>
      var r := CartStore.UpdateItems(items, items[k].productId, 0);
      |r| == |items| - 1 && items[k] !in r
    ensures var r := CartStore.UpdateItems(items, items[k].productId, items[k].quantity + 1);
      |r| == |items| && r[k].quantity == items[k].quantity + 1
  {
    var id := items[k].productId;
    if items[k].quantity == 1 {
      RemoveOneDistinct(items, k);
    }
  }

  lemma {:induction false} RemoveOneDistinct(items: seq<CartItem>, k: int)
    requires CartStore.DistinctIds(items)
    requires 0 <= k < |items|
    ensures |CartStore.RemoveItems(items, items[k].productId)| == |items| - 1
    ensures items[k] !in CartStore.RemoveItems(items, items[k].productId)
  {
    var id := items[k].productId;
    var p := (it: CartItem) => it.productId != id;
    var rest := items[1..];
    assert CartStore.DistinctIds(rest) by {
      forall a, b | 0 <= a < b < |rest| ensures rest[a].productId != rest[b].productId {
        assert rest[a] == items[a + 1] && rest[b] == items[b + 1];
      }
    }
    if k == 0 {
      forall x | x in rest ensures p(x) {
        var j :| 0 <= j < |rest| && rest[j] == x;
        assert items[j + 1] == x;
      }
      FilterAllPass(rest, p);
    } else {
      RemoveOneDistinct(rest, k - 1);
      assert rest[k - 1] == items[k];
      assert p(items[0]);
    }
  }
}
