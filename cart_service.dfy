/**
 * The cart service: per-user carts keyed by email, a product directory, and
 * the current (authenticated) user whose wallet checkout debits.
 */
module CartService {
  import opened Types
  import opened ApiErrors
  import Users

  /** Some line of the cart holds the product with this id. */
  predicate HasProduct(items: seq<CartItem>, productId: string) {
    exists k :: 0 <= k < |items| && items[k].product.id == productId
  }

  /** The cart invariant: at most one line per product id. */
  ghost predicate UniqueProducts(items: seq<CartItem>) {
    forall i, j :: 0 <= i < j < |items| ==> items[i].product.id != items[j].product.id
  }

  /** No cart holds two lines for one product. */
  ghost predicate AllUnique(carts: map<string, Cart>) {
    forall email :: email in carts ==> UniqueProducts(carts[email].cartItems)
  }

  /** Every product of the directory is stored under its own id. */
  ghost predicate DirectoryConsistent(products: map<string, Product>) {
    forall id :: id in products ==> products[id].id == id
  }

  /**
   * Index of the last line holding `productId`, or -1 when no line does:
   * the result of the search loop, which does not stop at the first match.
   */
  function LastIndexOf(items: seq<CartItem>, productId: string): (k: int)
    ensures -1 <= k < |items|
    ensures k == -1 <==> !HasProduct(items, productId)
    ensures k != -1 ==> items[k].product.id == productId
    ensures k != -1 ==> forall j :: k < j < |items| ==> items[j].product.id != productId
    decreases |items|
  {
    if items == [] then -1
    else if items[|items| - 1].product.id == productId then |items| - 1
    else LastIndexOf(items[..|items| - 1], productId)
  }

  /** Under the invariant, the line found is the only line holding the product. */
  lemma LineIsUnique(items: seq<CartItem>, productId: string, j: int)
    requires UniqueProducts(items)
    requires 0 <= j < |items| && items[j].product.id == productId
    ensures LastIndexOf(items, productId) == j
  {
  }

  /** The index-search loop repeated in add, update and delete. */
  method FindLine(items: seq<CartItem>, productId: string) returns (index: int)
    ensures index == LastIndexOf(items, productId)
    ensures index == -1 <==> forall k :: 0 <= k < |items| ==> items[k].product.id != productId
  {
    index := -1;
    for i := 0 to |items|
      invariant index == LastIndexOf(items[..i], productId)
    {
      assert items[..i + 1][..i] == items[..i];
      if productId == items[i].product.id {
        index := i;
      }
    }
    assert items[..|items|] == items;
  }

  /** What one line charges at checkout. */
  function LineCharge(item: CartItem): int {
    item.product.cost * item.quantity
  }

  /** The checkout total: the sum of cost times quantity, accumulated from the first line on. */
  function Total(items: seq<CartItem>): (total: int)
    ensures items == [] ==> total == 0
    ensures (forall k :: 0 <= k < |items| ==> items[k].product.cost >= 0 && items[k].quantity >= 0) ==> total >= 0
    decreases |items|
  {
    if items == [] then 0 else Total(items[..|items| - 1]) + LineCharge(items[|items| - 1])
  }

  lemma {:induction false} TotalAppend(items: seq<CartItem>, item: CartItem)
    ensures Total(items + [item]) == Total(items) + LineCharge(item)
  {
    assert (items + [item])[..|items|] == items;
  }

  /** The total peeled from the front, as a left-to-right reduce sees it. */
  lemma {:induction false} TotalCons(item: CartItem, items: seq<CartItem>)
    ensures Total([item] + items) == LineCharge(item) + Total(items)
    decreases |items|
  {
    if items == [] {
      assert [item] + items == [] + [item];
      TotalAppend([], item);
    } else {
      var init := items[..|items| - 1];
      var last := items[|items| - 1];
      assert [item] + items == ([item] + init) + [last];
      assert items == init + [last];
      TotalCons(item, init);
      TotalAppend([item] + init, last);
      TotalAppend(init, last);
    }
  }

  /** A two-line cart, 10 x 2 and 5 x 1, totals 25. */
  lemma TotalExample(a: Product, b: Product)
    requires a.cost == 10 && b.cost == 5
    ensures Total([CartItem(a, 2), CartItem(b, 1)]) == 25
  {
    TotalAppend([], CartItem(a, 2));
    assert [] + [CartItem(a, 2)] == [CartItem(a, 2)];
    TotalAppend([CartItem(a, 2)], CartItem(b, 1));
    assert [CartItem(a, 2)] + [CartItem(b, 1)] == [CartItem(a, 2), CartItem(b, 1)];
  }

  /** The summing loop of checkout. */
  method CheckoutTotal(items: seq<CartItem>) returns (total: int)
    ensures total == Total(items)
  {
    total := 0;
    for i := 0 to |items|
      invariant total == Total(items[..i])
    {
      assert items[..i + 1][..i] == items[..i];
      total := total + items[i].product.cost * items[i].quantity;
    }
    assert items[..|items|] == items;
  }

  /** The lines of the cart stored under `email`, none when there is no cart. */
  function ItemsOf(carts: map<string, Cart>, email: string): seq<CartItem> {
    if email in carts then carts[email].cartItems else []
  }

  class CartService {
    var carts: map<string, Cart>
    const products: map<string, Product>
    const defaultAddress: string
    var user: Users.User

    /** The directory is consistent and no cart holds two lines for one product. */
    ghost predicate Valid()
      reads this
    {
      && DirectoryConsistent(products)
      && AllUnique(carts)
    }

    constructor (products: map<string, Product>, defaultAddress: string, user: Users.User, carts: map<string, Cart>)
      ensures this.products == products && this.defaultAddress == defaultAddress
      ensures this.user == user && this.carts == carts
      ensures DirectoryConsistent(products) && AllUnique(carts) ==> Valid()
    {
      this.products := products;
      this.defaultAddress := defaultAddress;
      this.user := user;
      this.carts := carts;
    }

    /** The current user's cart, or NotFound when they have none. */
    method GetCartByUser() returns (r: Outcome<Cart>)
      ensures user.email !in carts <==> r.Err?
      ensures r.Err? ==> r.error == NotFoundError("User does not have a cart")
      ensures r.Ok? ==> r.value == carts[user.email]
    {
      if user.email !in carts {
        r := Err(NotFoundError("User does not have a cart"));
        return;
      }
      r := Ok(carts[user.email]);
    }

    /**
     * Creates the cart when there is none, then rejects a product already
     * in the cart (BadRequest) or missing from the directory (NotFound), and
     * otherwise appends one line. The created cart stays even on failure.
     */
    method AddProductToCart(productId: string, quantity: int) returns (r: Outcome<Cart>)
      modifies this
      ensures user == old(user)
      ensures var email := user.email;
              var before := ItemsOf(old(carts), email);
              && (HasProduct(before, productId) ==>
                    r == Err(BadRequestError("Product already in the cart"))
                    && carts == old(carts)[email := Cart(before)])
              && (!HasProduct(before, productId) && productId !in products ==>
                    r == Err(NotFoundError("Product does not exist in database"))
                    && carts == old(carts)[email := Cart(before)])
              && (!HasProduct(before, productId) && productId in products ==>
                    carts == old(carts)[email := Cart(before + [CartItem(products[productId], quantity)])]
                    && r == Ok(carts[email]))
      ensures old(Valid()) ==> Valid()
    {
      var email := user.email;
      if email !in carts {
        carts := carts[email := Cart([])];
      }
      var items := carts[email].cartItems;
      var productIndex := FindLine(items, productId);
      if productIndex == -1 {
        if productId !in products {
          r := Err(NotFoundError("Product does not exist in database"));
          return;
        }
        var line := CartItem(products[productId], quantity);
        carts := carts[email := Cart(items + [line])];
        r := Ok(carts[email]);
      } else {
        r := Err(BadRequestError("Product already in the cart"));
      }
    }

    /**
     * Rejects with NotFound when there is no cart, when the product is not in
     * the directory, or when it is not in the cart (in that order); otherwise
     * overwrites the quantity of its line with exactly `quantity` (0 included).
     */
    method UpdateProductInCart(productId: string, quantity: int) returns (r: Outcome<Cart>)
      modifies this
      ensures user == old(user)
      ensures var email := user.email;
              var before := ItemsOf(old(carts), email);
              var k := LastIndexOf(before, productId);
              && (email !in old(carts) ==>
                    r == Err(NotFoundError("User does not have a cart")) && carts == old(carts))
              && (email in old(carts) && productId !in products ==>
                    r == Err(NotFoundError("Product does not exist")) && carts == old(carts))
              && (email in old(carts) && productId in products && !HasProduct(before, productId) ==>
                    r == Err(NotFoundError("Product not in cart")) && carts == old(carts))
              && (email in old(carts) && productId in products && HasProduct(before, productId) ==>
                    carts == old(carts)[email := Cart(before[k := before[k].(quantity := quantity)])]
                    && r == Ok(carts[email]))
      ensures old(Valid()) ==> Valid()
    {
      var email := user.email;
      if email !in carts {
        r := Err(NotFoundError("User does not have a cart"));
        return;
      }
      if productId !in products {
        r := Err(NotFoundError("Product does not exist"));
        return;
      }
      var items := carts[email].cartItems;
      var productIndex := FindLine(items, productId);
      if productIndex == -1 {
        r := Err(NotFoundError("Product not in cart"));
        return;
      }
      var updated := items[productIndex := items[productIndex].(quantity := quantity)];
      assert forall j :: 0 <= j < |updated| ==> updated[j].product == items[j].product;
      carts := carts[email := Cart(updated)];
      r := Ok(carts[email]);
    }

    /**
     * Rejects with NotFound when there is no cart or the product is not in
     * it (the directory is never consulted); otherwise splices its line out.
     */
    method DeleteProductInCart(productId: string) returns (r: Outcome<()>)
      modifies this
      ensures user == old(user)
      ensures var email := user.email;
              var before := ItemsOf(old(carts), email);
              var k := LastIndexOf(before, productId);
              && (email !in old(carts) ==>
                    r == Err(NotFoundError("User does nt have a cart")) && carts == old(carts))
              && (email in old(carts) && !HasProduct(before, productId) ==>
                    r == Err(NotFoundError("Product does not exist for this user")) && carts == old(carts))
              && (email in old(carts) && HasProduct(before, productId) ==>
                    r == Ok(()) && carts == old(carts)[email := Cart(Splice(before, k))])
      ensures old(Valid()) ==> Valid()
    {
      var email := user.email;
      if email !in carts {
        r := Err(NotFoundError("User does nt have a cart"));
        return;
      }
      var items := carts[email].cartItems;
      var productIndex := FindLine(items, productId);
      if productIndex == -1 {
        r := Err(NotFoundError("Product does not exist for this user"));
        return;
      }
      var remaining := Splice(items, productIndex);
      SpliceKeepsUnique(items, productIndex);
      if Valid() {
        StoreKeepsUnique(carts, email, Cart(remaining));
      }
      carts := carts[email := Cart(remaining)];
      r := Ok(());
    }

    /**
     * Rejects with NotFound when there is no cart, then with BadRequest for
     * an empty cart, an unset address and an insufficient balance (in that
     * order); otherwise debits the total from the wallet and empties the cart.
     */
    method Checkout() returns (r: Outcome<()>)
      modifies this
      ensures user.email == old(user.email)
      ensures var email := user.email;
              var before := ItemsOf(old(carts), email);
              && (email !in old(carts) ==>
                    r == Err(NotFoundError("User does not have a cart")))
              && (email in old(carts) && before == [] ==>
                    r == Err(BadRequestError("Cart is empty")))
              && (email in old(carts) && before != [] && old(user.address) == defaultAddress ==>
                    r == Err(BadRequestError("Address not set")))
              && (email in old(carts) && before != [] && old(user.address) != defaultAddress
                    && Total(before) > old(user.walletMoney) ==>
                    r == Err(BadRequestError("Insufficient balance")))
              && (r.Ok? <==>
                    (email in old(carts) && before != [] && old(user.address) != defaultAddress
                     && Total(before) <= old(user.walletMoney)))
              && (r.Err? ==> user == old(user) && carts == old(carts))
              && (r.Ok? ==>
                    r == Ok(())
                    && user == old(user).(walletMoney := old(user.walletMoney) - Total(before))
                    && carts == old(carts)[email := Cart([])])
      ensures old(Valid()) ==> Valid()
    {
      var email := user.email;
      if email !in carts {
        r := Err(NotFoundError("User does not have a cart"));
        return;
      }
      var items := carts[email].cartItems;
      if |items| == 0 {
        r := Err(BadRequestError("Cart is empty"));
        return;
      }
      if user.address == defaultAddress {
        r := Err(BadRequestError("Address not set"));
        return;
      }
      var total := CheckoutTotal(items);
      if total > user.walletMoney {
        r := Err(BadRequestError("Insufficient balance"));
        return;
      }
      user := user.(walletMoney := user.walletMoney - total);
      carts := carts[email := Cart([])];
      r := Ok(());
    }
  }

  /** `splice(k, 1)`: the lines without line `k`, the others in order. */
  function Splice(items: seq<CartItem>, k: int): (rest: seq<CartItem>)
    requires 0 <= k < |items|
    ensures |rest| == |items| - 1
    ensures forall i :: 0 <= i < k ==> rest[i] == items[i]
    ensures forall i :: k <= i < |rest| ==> rest[i] == items[i + 1]
  {
    items[..k] + items[k + 1..]
  }

  /** The two-line cart checked out by a user whose address is set, with a wallet of 100 and with one of 20. */
  method CheckoutExample(a: Product, b: Product)
    returns (rich: Outcome<()>, richWallet: int, richLines: seq<CartItem>,
             poor: Outcome<()>, poorWallet: int, poorLines: seq<CartItem>)
    requires a.cost == 10 && b.cost == 5
    ensures rich == Ok(()) && richWallet == 75 && richLines == []
    ensures poor == Err(BadRequestError("Insufficient balance")) && poorWallet == 20
    ensures poorLines == [CartItem(a, 2), CartItem(b, 1)]
  {
    var email := "alice@example.com";
    var lines := [CartItem(a, 2), CartItem(b, 1)];
    TotalExample(a, b);
    var alice := Users.User(0, "Alice", email, "secret", "12 Main Street", 100);
    var service := new CartService(map[], "ADDRESS_NOT_SET", alice, map[email := Cart(lines)]);
    assert alice.address[0] != "ADDRESS_NOT_SET"[0];
    assert service.user.address != service.defaultAddress;
    rich := service.Checkout();
    richWallet := service.user.walletMoney;
    richLines := service.carts[email].cartItems;
    var shortOfMoney := alice.(walletMoney := 20);
    service := new CartService(map[], "ADDRESS_NOT_SET", shortOfMoney, map[email := Cart(lines)]);
    poor := service.Checkout();
    poorWallet := service.user.walletMoney;
    poorLines := service.carts[email].cartItems;
  }

  /** Splicing one line out of a cart keeps the lines unique. */
  lemma SpliceKeepsUnique(items: seq<CartItem>, k: int)
    requires 0 <= k < |items|
    ensures UniqueProducts(items) ==> UniqueProducts(Splice(items, k))
  {
    var rest := items[..k] + items[k + 1..];
    assert forall i :: 0 <= i < |rest| ==> rest[i] == items[if i < k then i else i + 1];
  }

  /** Storing a cart with unique lines keeps every cart's lines unique. */
  lemma StoreKeepsUnique(carts: map<string, Cart>, email: string, cart: Cart)
    requires AllUnique(carts)
    requires UniqueProducts(cart.cartItems)
    ensures AllUnique(carts[email := cart])
  {
  }
}
