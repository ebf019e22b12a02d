/**
 * The cart page of the client: the total it shows (a reduce over the lines),
 * the per-line subtotals, the empty-cart view, and the confirm-before-zero
 * rule of the quantity buttons. `confirm()` is a boolean input and server
 * responses are parameters.
 */
module CartPage {
  import opened Wrappers
  import opened Types
  import CartService

  /** The subtotal shown on one line. */
  function Subtotal(item: CartItem): int {
    item.product.cost * item.quantity
  }

  /** The subtotals shown, line by line. */
  function Subtotals(items: seq<CartItem>): (s: seq<int>)
    ensures |s| == |items|
    ensures forall k :: 0 <= k < |items| ==> s[k] == Subtotal(items[k])
  {
    seq(|items|, k requires 0 <= k < |items| => Subtotal(items[k]))
  }

  function SumOf(xs: seq<int>): int {
    if xs == [] then 0 else xs[0] + SumOf(xs[1..])
  }

  /** `reduce((total, item) => total + cost * quantity, acc)`. */
  function ReduceTotal(acc: int, items: seq<CartItem>): int
    decreases |items|
  {
    if items == [] then acc else ReduceTotal(acc + Subtotal(items[0]), items[1..])
  }

  /** The total shown: 0 for no cart or an empty cart, else the reduce from 0. */
  function CalculateTotal(cart: Option<Cart>): (total: int)
    ensures cart.None? || cart.value.cartItems == [] ==> total == 0
  {
    if cart.None? || |cart.value.cartItems| == 0 then 0
    else ReduceTotal(0, cart.value.cartItems)
  }

  lemma {:induction false} ReduceIsCheckoutTotal(acc: int, items: seq<CartItem>)
    ensures ReduceTotal(acc, items) == acc + CartService.Total(items)
    decreases |items|
  {
    if items != [] {
      ReduceIsCheckoutTotal(acc + Subtotal(items[0]), items[1..]);
      assert items == [items[0]] + items[1..];
      CartService.TotalCons(items[0], items[1..]);
    }
  }

  /** The total the page shows is the total checkout charges. */
  lemma CalculateTotalIsCheckoutTotal(cart: Cart)
    ensures CalculateTotal(Some(cart)) == CartService.Total(cart.cartItems)
  {
    ReduceIsCheckoutTotal(0, cart.cartItems);
  }

  lemma {:induction false} ReduceIsSumOfSubtotals(acc: int, items: seq<CartItem>)
    ensures ReduceTotal(acc, items) == acc + SumOf(Subtotals(items))
    decreases |items|
  {
    if items != [] {
      ReduceIsSumOfSubtotals(acc + Subtotal(items[0]), items[1..]);
      assert Subtotals(items)[1..] == Subtotals(items[1..]);
    }
  }

  /** The total shown is the sum of the subtotals shown beside the lines. */
  lemma CalculateTotalIsSumOfSubtotals(cart: Cart)
    ensures CalculateTotal(Some(cart)) == SumOf(Subtotals(cart.cartItems))
  {
    ReduceIsSumOfSubtotals(0, cart.cartItems);
  }

  /**
   * The condition under which a loaded page shows the empty-cart view instead
   * of the lines; it is the same guard under which `calculateTotal` gives 0.
   */
  predicate ShowsEmptyView(cart: Option<Cart>)
    ensures ShowsEmptyView(cart) ==> CalculateTotal(cart) == 0
  {
    cart.None? || |cart.value.cartItems| == 0
  }

  /** What the page renders: the spinner, the empty-cart view, or the lines with the order summary. */
  datatype Screen = Spinner | EmptyCart | Summary(lines: seq<CartItem>, total: int)

  datatype QuantityButton = Minus | Plus | Trash

  /** The quantity each button of a line asks for. */
  function RequestedQuantity(button: QuantityButton, quantity: int): (q: int)
    ensures button == Trash ==> q == 0
    ensures button == Minus ==> q < quantity
    ensures button == Plus ==> q > quantity
    ensures q == 0 <==> button == Trash || (button == Minus && quantity == 1) || (button == Plus && quantity == -1)
  {
    match button
    case Minus => quantity - 1
    case Plus => quantity + 1
    case Trash => 0
  }

  datatype UpdateRequest = UpdateRequest(productId: string, quantity: int)

  /** The request a quantity change sends: none when 0 is declined, otherwise the quantity as asked. */
  function UpdateFor(productId: string, quantity: int, confirmed: bool): (sent: Option<UpdateRequest>)
    ensures sent.None? <==> quantity == 0 && !confirmed
    ensures sent.Some? ==> sent.value == UpdateRequest(productId, quantity)
  {
    if quantity == 0 && !confirmed then None else Some(UpdateRequest(productId, quantity))
  }

  /**
   * `handleUpdateQuantity`: a request for quantity 0 is sent only when the
   * user confirms; any other quantity is always sent, unchanged.
   */
  method HandleUpdateQuantity(productId: string, quantity: int, confirmed: bool) returns (sent: Option<UpdateRequest>)
    ensures sent == UpdateFor(productId, quantity, confirmed)
    ensures sent.None? <==> quantity == 0 && !confirmed
    ensures sent.Some? ==> sent.value == UpdateRequest(productId, quantity)
  {
    if quantity == 0 {
      if !confirmed {
        return None;
      }
    }
    sent := Some(UpdateRequest(productId, quantity));
  }

  /**
   * A button press sends nothing exactly when the user declines and the
   * button asks for 0: trash, minus on 1, or plus on -1.
   */
  lemma ButtonSendsUpdate(button: QuantityButton, productId: string, quantity: int, confirmed: bool)
    ensures var sent := UpdateFor(productId, RequestedQuantity(button, quantity), confirmed);
      && (sent.None? <==>
            !confirmed && (button == Trash || (button == Minus && quantity == 1) || (button == Plus && quantity == -1)))
      && (sent.Some? ==> sent.value == UpdateRequest(productId, RequestedQuantity(button, quantity)))
  {
  }

  /** Minus on the last unit, like trash, sends its request exactly when the user confirms. */
  lemma MinusOnLastUnitNeedsConfirmation(productId: string, quantity: int, confirmed: bool)
    ensures UpdateFor(productId, RequestedQuantity(Minus, 1), confirmed).Some? <==> confirmed
    ensures UpdateFor(productId, RequestedQuantity(Trash, quantity), confirmed).Some? <==> confirmed
  {
  }

  /** The page state: the fetched cart and the loading flag. */
  class CartView {
    var cart: Option<Cart>
    var loading: bool

    constructor ()
      ensures cart == None && loading
    {
      cart := None;
      loading := true;
    }

    /** `fetchCart`: a fetched cart replaces the shown one; a failure keeps it. Loading ends either way. */
    method FetchCart(response: Option<Cart>)
      modifies this
      ensures !loading
      ensures response.Some? ==> cart == response
      ensures response.None? ==> cart == old(cart)
    {
      if response.Some? {
        cart := response;
      }
      loading := false;
    }

    /**
     * The screen for the current state: the spinner while loading, then the
     * empty-cart view, and only otherwise the lines with the order summary,
     * whose total is the total checkout charges.
     */
    function Rendered(): (screen: Screen)
      reads this
      ensures screen == Spinner <==> loading
      ensures screen == EmptyCart <==> !loading && (cart.None? || cart.value.cartItems == [])
      ensures screen.Summary? ==>
        && cart.Some? && cart.value.cartItems != []
        && screen.lines == cart.value.cartItems
        && screen.total == CartService.Total(cart.value.cartItems)
    {
      if loading then Spinner
      else if ShowsEmptyView(cart) then EmptyCart
      else
        CalculateTotalIsCheckoutTotal(cart.value);
        Summary(cart.value.cartItems, CalculateTotal(cart))
    }
  }
}
