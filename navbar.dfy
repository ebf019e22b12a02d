/**
 * The navigation bar of the client: the cart badge counts the units in the
 * cart (a reduce over the line quantities) and is shown only to a signed-in
 * user with a positive count. The stored token becomes a flag and the cart
 * fetch a parameter.
 */
module Navbar {
  import opened Wrappers
  import opened Types

  /** The reference sum: the quantities of all lines added up. */
  function QuantitySum(items: seq<CartItem>): int
    decreases |items|
  {
    if items == [] then 0 else QuantitySum(items[..|items| - 1]) + items[|items| - 1].quantity
  }

  /** `reduce((total, item) => total + item.quantity, acc)`. */
  function ReduceCount(acc: int, items: seq<CartItem>): int
    decreases |items|
  {
    if items == [] then acc else ReduceCount(acc + items[0].quantity, items[1..])
  }

  /** The badge count of a fetched cart. */
  function CartItemsCount(cart: Cart): (count: int)
    ensures cart.cartItems == [] ==> count == 0
  {
    ReduceCount(0, cart.cartItems)
  }

  lemma {:induction false} QuantitySumCons(item: CartItem, items: seq<CartItem>)
    ensures QuantitySum([item] + items) == item.quantity + QuantitySum(items)
    decreases |items|
  {
    if items != [] {
      var init := items[..|items| - 1];
      assert ([item] + items)[..|items|] == [item] + init;
      QuantitySumCons(item, init);
    }
  }

  lemma {:induction false} ReduceCountIsQuantitySum(acc: int, items: seq<CartItem>)
    ensures ReduceCount(acc, items) == acc + QuantitySum(items)
    decreases |items|
  {
    if items != [] {
      ReduceCountIsQuantitySum(acc + items[0].quantity, items[1..]);
      assert items == [items[0]] + items[1..];
      QuantitySumCons(items[0], items[1..]);
    }
  }

  /** The badge count is the number of units over all lines. */
  lemma CountIsQuantitySum(cart: Cart)
    ensures CartItemsCount(cart) == QuantitySum(cart.cartItems)
  {
    ReduceCountIsQuantitySum(0, cart.cartItems);
  }

  /** The bar state: whether a token is stored, and the count shown. */
  class NavbarView {
    var hasToken: bool
    var cartItemsCount: int

    constructor (hasToken: bool)
      ensures this.hasToken == hasToken && cartItemsCount == 0
    {
      this.hasToken := hasToken;
      cartItemsCount := 0;
    }

    /** The badge is rendered inside the signed-in branch, and only for a positive count. */
    predicate ShowsBadge()
      reads this
    {
      hasToken && cartItemsCount > 0
    }

    /**
     * The effect run on a token change: with a token the cart is fetched and
     * counted (a failed fetch keeps the count); without one the count is 0 and
     * nothing is fetched.
     */
    method RefreshCount(response: Option<Cart>) returns (fetched: bool)
      modifies this
      ensures fetched == hasToken && hasToken == old(hasToken)
      ensures !hasToken ==> cartItemsCount == 0 && !ShowsBadge()
      ensures hasToken && response.Some? ==> cartItemsCount == QuantitySum(response.value.cartItems)
      ensures hasToken && response.None? ==> cartItemsCount == old(cartItemsCount)
    {
      if hasToken {
        fetched := true;
        if response.Some? {
          cartItemsCount := CartItemsCount(response.value);
          CountIsQuantitySum(response.value);
        }
      } else {
        fetched := false;
        cartItemsCount := 0;
      }
    }

    /** `handleLogout`: the token is removed, so the badge disappears. */
    method Logout()
      modifies this
      ensures !hasToken && cartItemsCount == old(cartItemsCount)
      ensures !ShowsBadge()
    {
      hasToken := false;
    }
  }

  /** Once a signed-in user's cart is counted, the badge shows exactly when the cart holds some units. */
  lemma BadgeShownForCart(view: NavbarView, cart: Cart)
    requires view.hasToken && view.cartItemsCount == CartItemsCount(cart)
    ensures view.ShowsBadge() <==> QuantitySum(cart.cartItems) > 0
    ensures cart.cartItems == [] ==> !view.ShowsBadge()
  {
    CountIsQuantitySum(cart);
  }
}
