/**
 * The cart page: the order-summary card (unit count, fee, 8% tax, total) and
 * the checkout sequence, whose timer callback ends checkout, shows the
 * success screen and clears the cart.
 */
module CartPage {
  import opened Common
  import opened Types
  import CartStore
  import CartSummary

  const TaxRate: real := 0.08

  /** `cart.subtotal * 0.08`. */
  function Tax(subtotal: real): (r: real)
    ensures subtotal >= 0.0 ==> 0.0 <= r <= subtotal
  {
    subtotal * TaxRate
  }

  /** The page total: subtotal, delivery fee and tax. */
  function PageTotal(cart: Cart): real {
    cart.subtotal + CartSummary.DeliveryFee(cart.deliveryOption) + Tax(cart.subtotal)
  }

  /** The page total is the summary card's total plus the tax, so the two
      totals differ whenever the subtotal is not zero. */
  lemma PageTotalAddsTax(cart: Cart)
    ensures PageTotal(cart) == CartSummary.SummaryTotal(cart) + Tax(cart.subtotal)
    ensures cart.subtotal != 0.0 ==> PageTotal(cart) != CartSummary.SummaryTotal(cart)
  {
  }

  /** The two-product cart with home delivery: 42.97 + 5.99 + 3.4376. */
  lemma ExamplePageTotal()
    ensures PageTotal(Cart([], Delivery, 42.97)) == 52.3976
  {
  }

  /** The "(n items)" next to the subtotal counts units: Σ quantities. */
  function ItemCount(cart: Cart): int {
    CartStore.TotalQuantity(cart.items)
  }

  /** With every line positive, as `AddItemKeepsPositive` and
      `UpdateItemsKeepsPositive` keep a cart filled from the product tiles,
      the unit count is at least the number of lines. */
  lemma {:induction false} ItemCountAtLeastLines(items: seq<CartItem>)
    requires CartStore.PositiveQuantities(items)
    ensures CartStore.TotalQuantity(items) >= |items|
  {
    if items != [] {
      assert items[0].quantity >= 1;
      assert CartStore.PositiveQuantities(items[1..]) by {
        forall i | 0 <= i < |items[1..]| ensures items[1..][i].quantity >= 1 {
          assert items[1..][i] == items[i + 1];
        }
      }
      ItemCountAtLeastLines(items[1..]);
    }
  }

  /** The order-summary card shows only for a non-empty cart. */
  predicate ShowsOrderSummary(cart: Cart) {
    |cart.items| > 0
  }

  /** The page's order-summary card and the cart summary's lines show for
      the same carts, and neither shows once the cart is cleared. */
  lemma OrderSummaryMatchesSummaryCard(cart: Cart)
    ensures ShowsOrderSummary(cart) <==> !CartSummary.View(cart).EmptyState?
    ensures !ShowsOrderSummary(CartStore.EmptyCart)
  {
  }

  /** The page's state around one shared cart store. `pendingTimers` counts
      the checkout timers started and not yet fired. */
  class CheckoutPage {
    const store: CartStore.CartStore
    var isCheckingOut: bool
    var isSuccess: bool
    var pendingTimers: nat

    /** Once the success screen shows, the cart is the empty cart. */
    ghost predicate Valid()
      reads this, store
    {
      store.Valid() && (isSuccess ==> store.cart == CartStore.EmptyCart)
    }

    constructor (store: CartStore.CartStore)
      requires store.Valid()
      ensures Valid()
      ensures this.store == store && !isCheckingOut && !isSuccess && pendingTimers == 0
    {
      this.store := store;
      isCheckingOut := false;
      isSuccess := false;
      pendingTimers := 0;
    }

    /** `handleCheckout`: marks checkout in progress and starts the timer. */
    method HandleCheckout()
      requires Valid()
      requires !isSuccess
      modifies this
      ensures Valid()
      ensures isCheckingOut && !isSuccess && pendingTimers == old(pendingTimers) + 1
    {
      isCheckingOut := true;
      pendingTimers := pendingTimers + 1;
    }

    /** The timer callback: checkout ends, success shows and the cart is
        cleared, delivery option included. */
    method TimerFires()
      requires Valid()
      requires pendingTimers > 0
      modifies this, store
      ensures Valid()
      ensures !isCheckingOut && isSuccess && pendingTimers == old(pendingTimers) - 1
      ensures store.cart == CartStore.EmptyCart
    {
      isCheckingOut := false;
      isSuccess := true;
      store.ClearCart();
      pendingTimers := pendingTimers - 1;
    }

    /** The delivery method printed on the success screen. */
    function SuccessDeliveryMethod(): DeliveryOption
      reads this, store
    {
      store.cart.deliveryOption
    }
  }

  /** Whatever was chosen before checkout, the success screen reads
      `pickup`. */
  lemma SuccessScreenShowsPickup(page: CheckoutPage)
    requires page.Valid() && page.isSuccess
    ensures page.SuccessDeliveryMethod() == Pickup
  {
  }

  /** Checkout from a delivery cart: the option is lost by the time the
      success screen shows it. */
  method CheckoutScenario(store: CartStore.CartStore) returns (shown: DeliveryOption)
    requires store.Valid()
    modifies store
    ensures shown == Pickup
  {
    var page := new CheckoutPage(store);
    store.SetDeliveryOption(Delivery);
    page.HandleCheckout();
    page.TimerFires();
    shown := page.SuccessDeliveryMethod();
  }
}
