/**
 * The cart store of `CartContext`: one `cart` value that every operation
 * replaces, a subtotal recomputed from the items after each change, and the
 * pure list transformations the operations are built from.
 */
module CartStore {
  import opened Common
  import opened Types
  import Catalog

  // ---------------------------------------------------------------------
  // Pure list transformations

  /** `mockProducts.find(product => product.id === productId)`. */
  function FindProductById(catalog: seq<Product>, productId: string): (r: Option<Product>)
    ensures r.Some? ==> r.value in catalog && r.value.id == productId
    ensures r.None? <==> forall p :: p in catalog ==> p.id != productId
  {
    Find(catalog, (p: Product) => p.id == productId)
  }

  predicate HasItem(items: seq<CartItem>, productId: string) {
    exists i :: 0 <= i < |items| && items[i].productId == productId
  }

  predicate DistinctIds(items: seq<CartItem>) {
    forall i, j :: 0 <= i < j < |items| ==> items[i].productId != items[j].productId
  }

  /** Each item's product snapshot is the product its id names. */
  predicate SnapshotsAgree(items: seq<CartItem>) {
    forall i :: 0 <= i < |items| ==> items[i].product.id == items[i].productId
  }

  /** `prevCart.items.findIndex(item => item.productId === productId)`. */
  function ItemIndex(items: seq<CartItem>, productId: string): int {
    FindIndex(items, (it: CartItem) => it.productId == productId)
  }

  /** The item list `addToCart` builds once the product was found. */
  function AddItem(items: seq<CartItem>, productId: string, quantity: int, product: Product): seq<CartItem> {
    var i := ItemIndex(items, productId);
    if i >= 0 then items[i := items[i].(quantity := items[i].quantity + quantity)]
    else items + [CartItem(productId, quantity, product)]
  }

  /** `items.filter(item => item.productId !== productId)`. */
  function RemoveItems(items: seq<CartItem>, productId: string): seq<CartItem> {
    Filter(items, (it: CartItem) => it.productId != productId)
  }

  /** `items.map(item => item.productId === productId ? {...item, quantity} : item)`. */
  function SetQuantity(items: seq<CartItem>, productId: string, quantity: int): seq<CartItem> {
    seq(|items|, i requires 0 <= i < |items| =>
      if items[i].productId == productId then items[i].(quantity := quantity) else items[i])
  }

  /** The item list `updateQuantity` produces. */
  function UpdateItems(items: seq<CartItem>, productId: string, quantity: int): seq<CartItem> {
    if quantity <= 0 then RemoveItems(items, productId) else SetQuantity(items, productId, quantity)
  }

  function LineTotal(item: CartItem): real {
    item.product.price * item.quantity as real
  }

  /** Σ product.price × quantity (the `reduce` at lines 38-41). */
  function Subtotal(items: seq<CartItem>): real {
    if items == [] then 0.0 else LineTotal(items[0]) + Subtotal(items[1..])
  }

  /** Σ quantity: the count the cart badge and the cart page show. */
  function TotalQuantity(items: seq<CartItem>): int {
    if items == [] then 0 else items[0].quantity + TotalQuantity(items[1..])
  }

  const EmptyCart: Cart := Cart([], Pickup, 0.0)

  // ---------------------------------------------------------------------
  // What the operations promise

  lemma ItemIndexFindsItem(items: seq<CartItem>, productId: string)
    ensures ItemIndex(items, productId) >= 0 <==> HasItem(items, productId)
    ensures DistinctIds(items) ==> forall j :: 0 <= j < |items| ==>
      (items[j].productId == productId <==> j == ItemIndex(items, productId))
  {
  }

  /** Adding an id already in the cart adds `quantity` to that item only:
      same length, same order, same ids and snapshots. */
  lemma AddItemExisting(items: seq<CartItem>, productId: string, quantity: int, product: Product)
    requires DistinctIds(items)
    requires HasItem(items, productId)
    ensures var r := AddItem(items, productId, quantity, product);
      |r| == |items| &&
      forall j :: 0 <= j < |items| ==>
        r[j].productId == items[j].productId && r[j].product == items[j].product &&
        r[j].quantity == items[j].quantity + (if items[j].productId == productId then quantity else 0)
  {
    ItemIndexFindsItem(items, productId);
  }

  /** Adding a new id appends exactly one item at the end. */
  lemma AddItemNew(items: seq<CartItem>, productId: string, quantity: int, product: Product)
    requires !HasItem(items, productId)
    ensures var r := AddItem(items, productId, quantity, product);
      |r| == |items| + 1 && r[..|items|] == items && r[|items|] == CartItem(productId, quantity, product)
  {
    ItemIndexFindsItem(items, productId);
  }

  lemma AddItemKeepsDistinct(items: seq<CartItem>, productId: string, quantity: int, product: Product)
    requires DistinctIds(items)
    ensures DistinctIds(AddItem(items, productId, quantity, product))
  {
    ItemIndexFindsItem(items, productId);
  }

  lemma RemoveItemsKeepsDistinct(items: seq<CartItem>, productId: string)
    requires DistinctIds(items)
    ensures DistinctIds(RemoveItems(items, productId))
  {
    var r := RemoveItems(items, productId);
    FilterIsSubsequence(items, (it: CartItem) => it.productId != productId);
    SubsequenceKeepsDistinct(r, items);
  }

  lemma {:induction false} SubsequenceKeepsDistinct(a: seq<CartItem>, b: seq<CartItem>)
    requires IsSubsequence(a, b)
    requires DistinctIds(b)
    ensures DistinctIds(a)
    decreases |b|
  {
    if a != [] {
      assert DistinctIds(b[1..]) by {
        forall i, j | 0 <= i < j < |b[1..]| ensures b[1..][i].productId != b[1..][j].productId {
          assert b[1..][i] == b[i + 1] && b[1..][j] == b[j + 1];
        }
      }
      if a[0] == b[0] {
        SubsequenceKeepsDistinct(a[1..], b[1..]);
        SubsequenceMembers(a[1..], b[1..]);
        forall j | 1 <= j < |a| ensures a[0].productId != a[j].productId {
          assert a[j] == a[1..][j - 1];
          assert a[j] in b[1..];
          var k :| 0 <= k < |b[1..]| && b[1..][k] == a[j];
          assert b[k + 1] == a[j];
        }
      } else {
        SubsequenceKeepsDistinct(a, b[1..]);
      }
    }
  }

  lemma UpdateItemsKeepsDistinct(items: seq<CartItem>, productId: string, quantity: int)
    requires DistinctIds(items)
    ensures DistinctIds(UpdateItems(items, productId, quantity))
  {
    if quantity <= 0 {
      RemoveItemsKeepsDistinct(items, productId);
    }
  }

  /** `removeFromCart` drops exactly the items with that id and keeps the rest
      in order; it changes nothing when the id is absent. */
  lemma RemoveItemsSpec(items: seq<CartItem>, productId: string)
    ensures var r := RemoveItems(items, productId);
      IsSubsequence(r, items) &&
      (forall it :: it in r <==> it in items && it.productId != productId) &&
      (!HasItem(items, productId) ==> r == items)
  {
    var keep := (it: CartItem) => it.productId != productId;
    FilterIsSubsequence(items, keep);
    if !HasItem(items, productId) {
      FilterAllPass(items, keep);
    }
  }

  /** `updateQuantity` with a positive quantity never inserts or removes: it
      sets the quantity of the matching items and nothing else. */
  lemma SetQuantitySpec(items: seq<CartItem>, productId: string, quantity: int)
    requires quantity > 0
    ensures var r := UpdateItems(items, productId, quantity);
      |r| == |items| &&
      forall j :: 0 <= j < |items| ==>
        r[j].productId == items[j].productId && r[j].product == items[j].product &&
        r[j].quantity == (if items[j].productId == productId then quantity else items[j].quantity)
  {
  }

  /** A non-positive quantity is a removal. */
  lemma UpdateNonPositiveIsRemove(items: seq<CartItem>, productId: string, quantity: int)
    requires quantity <= 0
    ensures UpdateItems(items, productId, quantity) == RemoveItems(items, productId)
    ensures forall it :: it in UpdateItems(items, productId, quantity) ==> it.productId != productId
  {
  }

  lemma {:induction false} SubtotalAppend(items: seq<CartItem>, item: CartItem)
    ensures Subtotal(items + [item]) == Subtotal(items) + LineTotal(item)
  {
    if items != [] {
      assert (items + [item])[1..] == items[1..] + [item];
      SubtotalAppend(items[1..], item);
    }
  }

  /** Replacing one item moves the subtotal by the change of its line total. */
  lemma {:induction false} SubtotalUpdate(items: seq<CartItem>, i: int, item: CartItem)
    requires 0 <= i < |items|
    ensures Subtotal(items[i := item]) == Subtotal(items) - LineTotal(items[i]) + LineTotal(item)
  {
    if i > 0 {
      assert items[i := item][1..] == items[1..][i - 1 := item];
      SubtotalUpdate(items[1..], i - 1, item);
    }
  }

  /** Adding `quantity` of a product raises the subtotal by price × quantity,
      with the price of the snapshot already in the cart when there is one. */
  lemma AddItemSubtotal(items: seq<CartItem>, productId: string, quantity: int, product: Product)
    ensures var i := ItemIndex(items, productId);
      Subtotal(AddItem(items, productId, quantity, product)) ==
        Subtotal(items) + (if i >= 0 then items[i].product.price else product.price) * quantity as real
  {
    var i := ItemIndex(items, productId);
    if i >= 0 {
      var old_ := items[i];
      var new_ := old_.(quantity := old_.quantity + quantity);
      assert AddItem(items, productId, quantity, product) == items[i := new_];
      SubtotalUpdate(items, i, new_);
      var price, a, b := old_.product.price, old_.quantity as real, quantity as real;
      assert LineTotal(new_) == price * (a + b);
      assert price * (a + b) == price * a + price * b;
    } else {
      SubtotalAppend(items, CartItem(productId, quantity, product));
    }
  }

  /** With distinct ids, removing an id takes exactly its line off the subtotal. */
  lemma {:induction false} RemoveItemsSubtotal(items: seq<CartItem>, productId: string)
    requires DistinctIds(items)
    ensures var i := ItemIndex(items, productId);
      Subtotal(RemoveItems(items, productId)) == Subtotal(items) - (if i >= 0 then LineTotal(items[i]) else 0.0)
  {
    var keep := (it: CartItem) => it.productId != productId;
    if items != [] {
      assert DistinctIds(items[1..]) by {
        forall a, b | 0 <= a < b < |items[1..]| ensures items[1..][a].productId != items[1..][b].productId {
          assert items[1..][a] == items[a + 1] && items[1..][b] == items[b + 1];
        }
      }
      RemoveItemsSubtotal(items[1..], productId);
      if items[0].productId == productId {
        assert !HasItem(items[1..], productId) by {
          forall k | 0 <= k < |items[1..]| ensures items[1..][k].productId != productId {
            assert items[1..][k] == items[k + 1];
          }
        }
        ItemIndexFindsItem(items[1..], productId);
        FilterAllPass(items[1..], keep);
        assert Filter(items, keep) == items[1..];
      } else {
        assert Filter(items, keep) == [items[0]] + Filter(items[1..], keep);
        assert Subtotal([items[0]] + Filter(items[1..], keep)) == LineTotal(items[0]) + Subtotal(Filter(items[1..], keep)) by {
          assert ([items[0]] + Filter(items[1..], keep))[1..] == Filter(items[1..], keep);
        }
      }
    }
  }

  lemma AddItemKeepsSnapshots(items: seq<CartItem>, productId: string, quantity: int, product: Product)
    requires SnapshotsAgree(items)
    requires product.id == productId
    ensures SnapshotsAgree(AddItem(items, productId, quantity, product))
  {
  }

  lemma UpdateItemsKeepsSnapshots(items: seq<CartItem>, productId: string, quantity: int)
    requires SnapshotsAgree(items)
    ensures SnapshotsAgree(UpdateItems(items, productId, quantity))
  {
    var r := UpdateItems(items, productId, quantity);
    if quantity <= 0 {
      forall i | 0 <= i < |r| ensures r[i].product.id == r[i].productId {
        assert r[i] in r;
      }
    }
  }

  /** Every line holds at least one unit. */
  predicate PositiveQuantities(items: seq<CartItem>) {
    forall i :: 0 <= i < |items| ==> items[i].quantity >= 1
  }

  /** `addToCart` does not check the quantity; adding a positive quantity,
      as the product tile always does, keeps every line positive. */
  lemma AddItemKeepsPositive(items: seq<CartItem>, productId: string, quantity: int, product: Product)
    requires PositiveQuantities(items) && quantity >= 1
    ensures PositiveQuantities(AddItem(items, productId, quantity, product))
  {
  }

  /** `updateQuantity` keeps every line positive for any quantity: a
      quantity of 0 or less removes the line instead. */
  lemma UpdateItemsKeepsPositive(items: seq<CartItem>, productId: string, quantity: int)
    requires PositiveQuantities(items)
    ensures PositiveQuantities(UpdateItems(items, productId, quantity))
  {
    var r := UpdateItems(items, productId, quantity);
    if quantity <= 0 {
      forall i | 0 <= i < |r| ensures r[i].quantity >= 1 {
        assert r[i] in items;
        var j :| 0 <= j < |items| && items[j] == r[i];
      }
    }
  }

  // ---------------------------------------------------------------------
  // The store

  /** The store. The handlers only replace the items; the subtotal is
      recomputed by the effect on `cart.items`, which runs after the render
      that already shows the new items. `subtotalStale` marks that window. */
  class CartStore {
    var cart: Cart
    var subtotalStale: bool

    /** Ids are distinct, each item carries its own product, and outside the
        window before the effect the subtotal is the one derived from the
        items. */
    ghost predicate Valid()
      reads this
    {
      DistinctIds(cart.items) && SnapshotsAgree(cart.items) &&
      (!subtotalStale ==> cart.subtotal == Subtotal(cart.items))
    }

    /** The effect has run since the items last changed. */
    predicate Settled()
      reads this
    {
      !subtotalStale
    }

    constructor ()
      ensures Valid() && Settled()
      ensures cart == EmptyCart
    {
      cart := EmptyCart;
      subtotalStale := false;
    }

    /** The effect that recomputes the subtotal whenever the items change. */
    method RecomputeSubtotal()
      requires Valid()
      modifies this
      ensures Valid() && Settled()
      ensures cart == old(cart).(subtotal := Subtotal(old(cart).items))
    {
      cart := cart.(subtotal := Subtotal(cart.items));
      subtotalStale := false;
    }

    method AddToCart(productId: string, quantity: int)
      requires Valid()
      modifies this
      ensures Valid()
      ensures var found := FindProductById(Catalog.MockProducts, productId);
        if found.None? then cart == old(cart) && subtotalStale == old(subtotalStale)
        else cart == old(cart).(items := AddItem(old(cart).items, productId, quantity, found.value)) &&
             subtotalStale
    {
      var product := FindProductById(Catalog.MockProducts, productId);
      if product.None? {
        return;
      }
      AddFound(productId, quantity, product.value);
    }

    /** The `setCart` of `addToCart` once `product` was found for the id. */
    method AddFound(productId: string, quantity: int, product: Product)
      requires Valid() && product.id == productId
      modifies this
      ensures Valid()
      ensures cart == old(cart).(items := AddItem(old(cart).items, productId, quantity, product))
      ensures subtotalStale
    {
      AddItemKeepsDistinct(cart.items, productId, quantity, product);
      AddItemKeepsSnapshots(cart.items, productId, quantity, product);
      cart := cart.(items := AddItem(cart.items, productId, quantity, product));
      subtotalStale := true;
    }

    method RemoveFromCart(productId: string)
      requires Valid()
      modifies this
      ensures Valid()
      ensures cart == old(cart).(items := RemoveItems(old(cart).items, productId))
      ensures subtotalStale
    {
      RemoveItemsKeepsDistinct(cart.items, productId);
      UpdateItemsKeepsSnapshots(cart.items, productId, 0);
      cart := cart.(items := RemoveItems(cart.items, productId));
      subtotalStale := true;
    }

    method UpdateQuantity(productId: string, quantity: int)
      requires Valid()
      modifies this
      ensures Valid()
      ensures cart == old(cart).(items := UpdateItems(old(cart).items, productId, quantity))
      ensures subtotalStale
    {
      if quantity <= 0 {
        RemoveFromCart(productId);
        return;
      }
      UpdateItemsKeepsDistinct(cart.items, productId, quantity);
      UpdateItemsKeepsSnapshots(cart.items, productId, quantity);
      cart := cart.(items := SetQuantity(cart.items, productId, quantity));
      subtotalStale := true;
    }

    /** Only the delivery option changes; the items are untouched, so the
        subtotal effect does not run. */
    method SetDeliveryOption(option: DeliveryOption)
      requires Valid()
      modifies this
      ensures Valid()
      ensures cart == old(cart).(deliveryOption := option) && subtotalStale == old(subtotalStale)
    {
      cart := cart.(deliveryOption := option);
    }

    /** `clearCart` writes the subtotal 0 together with the empty items, so
        the effect that follows finds nothing to change. */
    method ClearCart()
      modifies this
      ensures Valid() && Settled()
      ensures cart == EmptyCart
    {
      cart := EmptyCart;
      subtotalStale := false;
    }
  }

  /** One `addToCart` followed by the effect it triggers: between the two
      the old subtotal still shows; after the effect the subtotal is the one
      of the new items, which `AddItemSubtotal` relates to the old one. */
  method AddToCartThenEffect(store: CartStore, productId: string, quantity: int)
      returns (shownBetween: real)
    requires store.Valid() && store.Settled()
    modifies store
    ensures shownBetween == old(store.cart.subtotal)
    ensures store.Valid() && store.Settled()
    ensures var found := FindProductById(Catalog.MockProducts, productId);
      found.Some? ==> store.cart.items == AddItem(old(store.cart.items), productId, quantity, found.value)
    ensures store.cart.subtotal == Subtotal(store.cart.items)
  {
    store.AddToCart(productId, quantity);
    shownBetween := store.cart.subtotal;
    store.RecomputeSubtotal();
  }

  // ---------------------------------------------------------------------
  // The two-product example: 8.99 × 2 + 24.99 × 1

  lemma ExampleSubtotal()
    ensures var shake := Catalog.MockProducts[0];
      var gloves := Catalog.MockProducts[1];
      var items := AddItem(AddItem([], "1", 2, shake), "2", 1, gloves);
      items == [CartItem("1", 2, shake), CartItem("2", 1, gloves)] &&
      Subtotal(items) == 42.97
  {
    var shake := Catalog.MockProducts[0];
    var gloves := Catalog.MockProducts[1];
    AddItemNew([], "1", 2, shake);
    var one := AddItem([], "1", 2, shake);
    assert !HasItem(one, "2");
    AddItemNew(one, "2", 1, gloves);
    var items := [CartItem("1", 2, shake), CartItem("2", 1, gloves)];
    assert Subtotal(items[1..]) == LineTotal(items[1]) + Subtotal(items[1..][1..]);
    assert items[1..][1..] == [];
  }
}
