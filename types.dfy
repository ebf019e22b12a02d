/**
 * The shared data model of the client and the server: a product of the
 * directory, a cart line (an embedded snapshot of a product and a quantity)
 * and a cart. Costs and quantities are integers.
 */
module Types {
  datatype Product = Product(
    id: string,
    name: string,
    category: string,
    cost: int,
    rating: int,
    image: string)

  datatype CartItem = CartItem(product: Product, quantity: int)

  datatype Cart = Cart(cartItems: seq<CartItem>)
}
