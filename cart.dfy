// The browser-persisted shopping cart (lib/cart.ts): a list of
// {product, quantity} rows kept under one localStorage key, with a
// `cartUpdated` event after every write.
module Cart {
  import opened Common
  import opened Products

  datatype CartItem = CartItem(product: Product, quantity: int)

  function LineTotal(item: CartItem): int
  {
    item.product.priceCents * item.quantity
  }

  /** getCartTotal: price × quantity summed over the rows, left to right from 0. */
  function Total(cart: seq<CartItem>): int
  {
    if cart == [] then 0 else Total(cart[..|cart| - 1]) + LineTotal(cart[|cart| - 1])
  }

  /** getCartItemCount: the quantities summed over the rows. */
  function ItemCount(cart: seq<CartItem>): int
  {
    if cart == [] then 0 else ItemCount(cart[..|cart| - 1]) + cart[|cart| - 1].quantity
  }

  /** The same sums taken from the front: the first row's share plus the rest's. */
  lemma {:induction false} TotalsFromFront(cart: seq<CartItem>)
    requires cart != []
    ensures Total(cart) == LineTotal(cart[0]) + Total(cart[1..])
    ensures ItemCount(cart) == cart[0].quantity + ItemCount(cart[1..])
  {
    var n := |cart|;
    if n > 1 {
      TotalsFromFront(cart[..n - 1]);
      assert cart[..n - 1][1..] == cart[1..][..n - 2];
      assert cart[..n - 1][0] == cart[0];
    } else {
      assert cart[1..] == [];
    }
  }

  /** The cart invariant: no two rows share a product id. */
  predicate UniqueIds(cart: seq<CartItem>)
  {
    forall i, j :: 0 <= i < j < |cart| ==> cart[i].product.id != cart[j].product.id
  }

  predicate HasRow(cart: seq<CartItem>, id: string)
  {
    exists i :: 0 <= i < |cart| && cart[i].product.id == id
  }

  /** The row `cart.find(item => item.product.id === id)` returns: the first one with that id. */
  function FindRow(cart: seq<CartItem>, id: string): (r: Option<nat>)
    ensures r.Some? ==> r.value < |cart| && cart[r.value].product.id == id &&
                        forall i :: 0 <= i < r.value ==> cart[i].product.id != id
    ensures r.None? <==> !HasRow(cart, id)
  {
    if cart == [] then None
    else if cart[0].product.id == id then Some(0)
    else
      match FindRow(cart[1..], id)
      case Some(k) => Some(k + 1)
      case None =>
        assert forall i :: 1 <= i < |cart| ==> cart[i] == cart[1..][i - 1];
        None
  }

  /** The rows after `cart[k].quantity = q`. */
  function WithQuantity(cart: seq<CartItem>, k: nat, q: int): (r: seq<CartItem>)
    requires k < |cart|
    ensures |r| == |cart| && r[k] == CartItem(cart[k].product, q)
    ensures forall i :: 0 <= i < |cart| && i != k ==> r[i] == cart[i]
  {
    cart[k := cart[k].(quantity := q)]
  }

  /** The rows addToCart saves: the matching row grows by `quantity`, or a new row goes at the end. */
  function Added(cart: seq<CartItem>, product: Product, quantity: int): seq<CartItem>
  {
    var found := FindRow(cart, product.id);
    if found.Some? then WithQuantity(cart, found.value, cart[found.value].quantity + quantity)
    else cart + [CartItem(product, quantity)]
  }

  /** `cart.filter(item => item.product.id !== id)` */
  function Removed(cart: seq<CartItem>, id: string): (r: seq<CartItem>)
    ensures forall i :: 0 <= i < |r| ==> r[i].product.id != id && r[i] in cart
    ensures forall item :: item in cart && item.product.id != id ==> item in r
    ensures Subsequence(r, cart)
  {
    if cart == [] then []
    else if cart[0].product.id == id then Removed(cart[1..], id)
    else
      var rest := Removed(cart[1..], id);
      assert ([cart[0]] + rest)[1..] == rest;
      [cart[0]] + rest
  }

  // ---------------------------------------------------------------------------
  // Properties of the row operations

  /** Adding keeps "one row per product id". */
  lemma AddedKeepsUniqueIds(cart: seq<CartItem>, product: Product, quantity: int)
    requires UniqueIds(cart)
    ensures UniqueIds(Added(cart, product, quantity))
  {
  }

  /** Adding an id already present changes no row count; otherwise exactly one row is appended. */
  lemma AddedShape(cart: seq<CartItem>, product: Product, quantity: int)
    ensures var r := Added(cart, product, quantity);
      if HasRow(cart, product.id) then
        |r| == |cart| &&
        (forall i :: 0 <= i < |cart| ==> r[i].product == cart[i].product) &&
        (forall i :: 0 <= i < |cart| && i != FindRow(cart, product.id).value ==> r[i] == cart[i]) &&
        r[FindRow(cart, product.id).value].quantity == cart[FindRow(cart, product.id).value].quantity + quantity
      else
        r == cart + [CartItem(product, quantity)]
  {
  }

  /**
   * Changing one row's quantity by d, and nothing else, moves the total by
   * that row's price × d and the item count by d.
   */
  lemma {:induction false} ChangedRowTotals(cart: seq<CartItem>, r: seq<CartItem>, k: nat, d: int)
    requires k < |cart| && |r| == |cart|
    requires r[k].product == cart[k].product && r[k].quantity == cart[k].quantity + d
    requires forall i :: 0 <= i < |cart| && i != k ==> r[i] == cart[i]
    ensures Total(r) == Total(cart) + cart[k].product.priceCents * d
    ensures ItemCount(r) == ItemCount(cart) + d
  {
    var n := |cart|;
    var p := cart[k].product.priceCents;
    if k == n - 1 {
      assert r[..n - 1] == cart[..n - 1];
      assert p * (cart[k].quantity + d) == p * cart[k].quantity + p * d;
    } else {
      ChangedRowTotals(cart[..n - 1], r[..n - 1], k, d);
    }
  }

  /**
   * Adding q units of a product raises the total by price × q and the item
   * count by q. A row already in the cart keeps the product it was stored
   * with, so the price that counts is the stored row's, which is the
   * argument's as long as the row carries the same price.
   */
  lemma AddedTotals(cart: seq<CartItem>, product: Product, quantity: int)
    requires forall i :: 0 <= i < |cart| && cart[i].product.id == product.id ==>
               cart[i].product.priceCents == product.priceCents
    ensures Total(Added(cart, product, quantity)) == Total(cart) + product.priceCents * quantity
    ensures ItemCount(Added(cart, product, quantity)) == ItemCount(cart) + quantity
  {
    AddedShape(cart, product, quantity);
    var found := FindRow(cart, product.id);
    if found.Some? {
      var k := found.value;
      assert cart[k].product.priceCents == product.priceCents;
      ChangedRowTotals(cart, Added(cart, product, quantity), k, quantity);
    } else {
      AppendedTotals(cart, CartItem(product, quantity));
    }
  }

  /** Moving one row's quantity by d (as updateQuantity does, to a new value) moves the totals by price × d and by d. */
  lemma WithQuantityTotals(cart: seq<CartItem>, k: nat, d: int)
    requires k < |cart|
    ensures Total(WithQuantity(cart, k, cart[k].quantity + d)) == Total(cart) + cart[k].product.priceCents * d
    ensures ItemCount(WithQuantity(cart, k, cart[k].quantity + d)) == ItemCount(cart) + d
  {
    ChangedRowTotals(cart, WithQuantity(cart, k, cart[k].quantity + d), k, d);
  }

  /** Appending a row adds its line total and its quantity. */
  lemma AppendedTotals(cart: seq<CartItem>, item: CartItem)
    ensures Total(cart + [item]) == Total(cart) + LineTotal(item)
    ensures ItemCount(cart + [item]) == ItemCount(cart) + item.quantity
  {
    assert (cart + [item])[..|cart|] == cart;
  }

  /** Removing an id that no row carries leaves the cart as it was. */
  lemma {:induction false} RemovedAbsent(cart: seq<CartItem>, id: string)
    requires !HasRow(cart, id)
    ensures Removed(cart, id) == cart
  {
    if cart != [] {
      assert !HasRow(cart[1..], id) by {
        forall i | 0 <= i < |cart[1..]| ensures cart[1..][i].product.id != id {
          assert cart[1..][i] == cart[i + 1];
        }
      }
      RemovedAbsent(cart[1..], id);
    }
  }

  /** Removing keeps "one row per product id". */
  lemma {:induction false} RemovedKeepsUniqueIds(cart: seq<CartItem>, id: string)
    requires UniqueIds(cart)
    ensures UniqueIds(Removed(cart, id))
  {
    if cart != [] {
      RemovedKeepsUniqueIds(cart[1..], id);
      var rest := Removed(cart[1..], id);
      if cart[0].product.id != id {
        forall j | 0 <= j < |rest| ensures rest[j].product.id != cart[0].product.id {
          assert rest[j] in cart[1..];
        }
      }
    }
  }

  /** The quantities in a cart made of positive rows add up to at least the number of rows. */
  lemma {:induction false} ItemCountAtLeastRows(cart: seq<CartItem>)
    requires forall i :: 0 <= i < |cart| ==> cart[i].quantity >= 1
    ensures ItemCount(cart) >= |cart|
  {
    if cart != [] {
      ItemCountAtLeastRows(cart[..|cart| - 1]);
    }
  }

  // ---------------------------------------------------------------------------
  // The persisted store

  /**
   * The cart as lib/cart.ts keeps it: `stored` is the value under the
   * "protocol-zero-cart" key (None when the key is absent), and
   * `notifications` counts the `cartUpdated` events dispatched so far.
   * `hasWindow` is false when the code runs outside a browser.
   */
  class CartStore {
    const hasWindow: bool
    var stored: Option<seq<CartItem>>
    var notifications: nat

    ghost predicate Valid()
      reads this
    {
      stored.Some? ==> UniqueIds(stored.value)
    }

    constructor (hasWindow: bool)
      ensures this.hasWindow == hasWindow && stored == None && notifications == 0
      ensures Valid()
    {
      this.hasWindow := hasWindow;
      stored := None;
      notifications := 0;
    }

    /** getCart: the stored rows, or the empty list with nothing stored or no window. */
    function GetCart(): (cart: seq<CartItem>)
      reads this
      ensures !hasWindow || stored.None? ==> cart == []
      ensures hasWindow && stored.Some? ==> cart == stored.value
    {
      if !hasWindow then [] else match stored case Some(c) => c case None => []
    }

    /** saveCart: persist, then notify; nothing at all without a window. */
    method SaveCart(cart: seq<CartItem>)
      modifies this
      ensures hasWindow ==> stored == Some(cart) && notifications == old(notifications) + 1
      ensures !hasWindow ==> stored == old(stored) && notifications == old(notifications)
    {
      if !hasWindow {
        return;
      }
      stored := Some(cart);
      notifications := notifications + 1;
    }

    method AddToCart(product: Product, quantity: int := 1)
      requires Valid()
      modifies this
      ensures Valid()
      ensures hasWindow ==> stored == Some(Added(old(GetCart()), product, quantity)) &&
                            notifications == old(notifications) + 1
      ensures !hasWindow ==> stored == old(stored) && notifications == old(notifications)
    {
      var cart := GetCart();
      var existing := FindRow(cart, product.id);
      if existing.Some? {
        var k := existing.value;
        cart := cart[k := cart[k].(quantity := cart[k].quantity + quantity)];
      } else {
        cart := cart + [CartItem(product, quantity)];
      }
      AddedKeepsUniqueIds(GetCart(), product, quantity);
      SaveCart(cart);
    }

    method RemoveFromCart(productId: string)
      requires Valid()
      modifies this
      ensures Valid()
      ensures hasWindow ==> stored == Some(Removed(old(GetCart()), productId)) &&
                            notifications == old(notifications) + 1
      ensures !hasWindow ==> stored == old(stored) && notifications == old(notifications)
    {
      var cart := GetCart();
      var updatedCart := Removed(cart, productId);
      RemovedKeepsUniqueIds(cart, productId);
      SaveCart(updatedCart);
    }

    /**
     * updateQuantity: nothing happens for an id not in the cart (no write,
     * no event); a quantity of 0 or less removes the row; otherwise the
     * row's quantity is overwritten.
     */
    method UpdateQuantity(productId: string, quantity: int)
      requires Valid()
      modifies this
      ensures Valid()
      ensures !HasRow(old(GetCart()), productId) ==> stored == old(stored) && notifications == old(notifications)
      ensures HasRow(old(GetCart()), productId) && quantity <= 0 ==>
                stored == Some(Removed(old(GetCart()), productId)) && notifications == old(notifications) + 1
      ensures HasRow(old(GetCart()), productId) && quantity > 0 ==>
                stored == Some(WithQuantity(old(GetCart()), FindRow(old(GetCart()), productId).value, quantity)) &&
                notifications == old(notifications) + 1
    {
      var cart := GetCart();
      var item := FindRow(cart, productId);
      if item.Some? {
        if quantity <= 0 {
          RemoveFromCart(productId);
        } else {
          var k := item.value;
          cart := cart[k := cart[k].(quantity := quantity)];
          SaveCart(cart);
        }
      }
    }

    /** clearCart: drop the key, then notify; nothing at all without a window. */
    method ClearCart()
      requires Valid()
      modifies this
      ensures Valid()
      ensures hasWindow ==> GetCart() == [] && stored == None && notifications == old(notifications) + 1
      ensures !hasWindow ==> stored == old(stored) && notifications == old(notifications)
    {
      if !hasWindow {
        return;
      }
      stored := None;
      notifications := notifications + 1;
    }
  }
}
