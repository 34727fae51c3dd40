/**
 * One product tile of the marketplace: a quantity picker that never goes
 * below one, and an Add to Cart button that hands the quantity to the page,
 * shows "Added!" and resets itself when its one-second timer fires.
 */
module ProductCard {
  import opened Types

  /** `Math.max(1, quantity + change)`. */
  function NextQuantity(quantity: int, change: int): (r: int)
    ensures r >= 1
    ensures r >= quantity + change
    ensures r == quantity + change || r == 1
  {
    if quantity + change > 1 then quantity + change else 1
  }

  /** From any quantity of at least one, `+` then `-` comes back, and `-`
      stops at one. */
  lemma QuantitySteps(q: int)
    requires q >= 1
    ensures NextQuantity(NextQuantity(q, 1), -1) == q
    ensures NextQuantity(q, -1) == if q > 1 then q - 1 else 1
  {
  }

  datatype AddLabel = AddToCart | Added

  class ProductTile {
    const product: Product
    var quantity: int
    var isAdding: bool
    /** The `onAddToCart(productId, quantity)` calls, oldest first. */
    var requests: seq<(string, int)>
    /** Reset timers started and not yet fired. */
    var pendingResets: nat

    /** The quantity is at least one, one reset timer runs exactly while the
        button shows "Added!", and every request names this product with a
        positive quantity. */
    ghost predicate Valid()
      reads this
    {
      quantity >= 1 &&
      pendingResets == (if isAdding then 1 else 0) &&
      forall i :: 0 <= i < |requests| ==> requests[i].0 == product.id && requests[i].1 >= 1
    }

    constructor (product: Product)
      ensures Valid()
      ensures this.product == product && quantity == 1 && !isAdding && requests == []
    {
      this.product := product;
      quantity := 1;
      isAdding := false;
      requests := [];
      pendingResets := 0;
    }

    predicate MinusDisabled()
      reads this
    {
      quantity <= 1
    }

    predicate AddDisabled()
      reads this
    {
      !product.inStock || isAdding
    }

    function Label(): (r: AddLabel)
      reads this
      ensures r == Added <==> isAdding
    {
      if isAdding then Added else AddToCart
    }

    /** The `-` button; it is disabled at one. */
    method ClickMinus()
      requires Valid()
      modifies this
      ensures Valid()
      ensures quantity == if old(quantity) > 1 then old(quantity) - 1 else old(quantity)
      ensures isAdding == old(isAdding) && requests == old(requests) && pendingResets == old(pendingResets)
    {
      if quantity <= 1 {
        return;
      }
      quantity := NextQuantity(quantity, -1);
    }

    /** The `+` button, enabled even while an add is shown. */
    method ClickPlus()
      requires Valid()
      modifies this
      ensures Valid()
      ensures quantity == old(quantity) + 1
      ensures isAdding == old(isAdding) && requests == old(requests) && pendingResets == old(pendingResets)
    {
      quantity := NextQuantity(quantity, 1);
    }

    /** Add to Cart: disabled out of stock and while an add is shown;
        otherwise the current quantity goes to the page and the reset timer
        starts. */
    method ClickAdd()
      requires Valid()
      modifies this
      ensures Valid()
      ensures old(AddDisabled()) ==>
        (isAdding == old(isAdding) && requests == old(requests) && pendingResets == old(pendingResets))
      ensures !old(AddDisabled()) ==>
        (isAdding && requests == old(requests) + [(product.id, old(quantity))] && pendingResets == 1)
      ensures quantity == old(quantity)
    {
      if !product.inStock || isAdding {
        return;
      }
      isAdding := true;
      requests := requests + [(product.id, quantity)];
      pendingResets := pendingResets + 1;
    }

    /** The reset timer fires: the label returns and the picker goes back to
        one, whatever was picked meanwhile. */
    method ResetTimerFires()
      requires Valid() && pendingResets > 0
      modifies this
      ensures Valid()
      ensures !isAdding && quantity == 1 && pendingResets == old(pendingResets) - 1
      ensures requests == old(requests)
    {
      isAdding := false;
      quantity := 1;
      pendingResets := pendingResets - 1;
    }
  }

  /** Pick three, add, and wait: the page receives three and the tile is back
      to one; a second click before the timer does nothing. */
  method AddThreeScenario(p: Product) returns (sent: seq<(string, int)>, after: int)
    requires p.inStock
    ensures sent == [(p.id, 3)] && after == 1
  {
    var tile := new ProductTile(p);
    tile.ClickPlus();
    tile.ClickPlus();
    tile.ClickAdd();
    tile.ClickAdd();
    tile.ResetTimerFires();
    sent := tile.requests;
    after := tile.quantity;
  }

  /** An out-of-stock product never reaches the cart. */
  method OutOfStockScenario(p: Product) returns (sent: seq<(string, int)>)
    requires !p.inStock
    ensures sent == []
  {
    var tile := new ProductTile(p);
    tile.ClickPlus();
    tile.ClickAdd();
    sent := tile.requests;
  }
}
