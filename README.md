# QKart cart and account logic in Dafny

QKart is a small shopping application: a React client for browsing products,
managing a cart and checking out, and an Express/MongoDB server holding users,
products and carts. This project models its logic:

- the **cart service** (`server/services/cart.service.js`) as a class holding
  the carts (a map from email to a cart, a cart being a sequence of
  `(product, quantity)` lines), the product directory (a map from id to
  product), the default address and the current user. Its five operations
  return `Ok` or `Err(ApiError)`, and each has a contract stating the order of
  its guards, the exact new state and the preservation of the invariant "at
  most one line per product id". The search loop shared by add, update and
  delete (`FindLine`) and the summing loop of checkout (`CheckoutTotal`) are
  methods proved against the specification functions `LastIndexOf` and `Total`;
- the **user account store** (`server/services/user.service.js`) as a class
  over a map from user id to record, with unique emails as its invariant;
- the **error value** (`server/utils/ApiError.js`) as a function building a
  record of `statusCode`, `status` and `message`;
- the **client computations**: the cart page's total, subtotals, empty view and
  confirm-before-zero rule (`frontend/src/pages/Cart.tsx`), the product filter,
  the category list and the page state (`frontend/src/pages/Products.tsx`), and
  the cart badge (`frontend/src/components/Navbar.tsx`). Each `reduce` is
  modelled as a left fold and proved equal to an independent reference sum. In
  particular, the total the cart page shows is proved equal to the total
  checkout charges.

Files: `wrappers.dfy` (Option), `types.dfy` (the shared types of
`frontend/src/types.ts`), `api_error.dfy`, `user_service.dfy`,
`cart_service.dfy`, `cart_page.dfy`, `products_page.dfy`, `navbar.dfy`.

Points of the code worth knowing:

- `addProductToCart` checks for a duplicate line *before* it looks the product
  up. A product that is already in the cart but missing from the directory is
  therefore rejected with BadRequest, not NotFound.
- `updateProductInCart` also fails with NotFound when the product is missing
  from the directory, even if a line for it is in the cart. It stores a
  quantity of 0 verbatim.
- `checkout` saves the user and the cart separately; the model makes it one
  transition.
- The line search keeps the *last* matching index, because the loop does not
  break. Under the cart invariant there is only one match
  (`CartService.LineIsUnique`).

`defaultAddress` stands for the configured `config.default_address` sentinel,
whose value the model leaves open; user ids are a counter in place of
database-assigned ids.

## Model

| member | source | states |
|---|---|---|
| `ApiErrors.NewApiError` | server/utils/ApiError.js:3-5 | the message is kept; a truthy code is kept, and a missing or zero code becomes 500; the status is `Fail` exactly when the raw argument is in 400..499 |
| `ApiErrors.StatusAgreesWithCode` | server/utils/ApiError.js:4-5 | the status is `Fail` exactly when the stored status code is 4xx, although it is computed from the raw argument |
| `ApiErrors.MissingCodeIsServerError` | server/utils/ApiError.js:4-5 | a missing or zero code gives status code 500 and status `Error` |
| `ApiErrors.NotFoundError` | server/services/cart.service.js:10 | a NotFound error carries 404, `Fail` and the message |
| `ApiErrors.BadRequestError` | server/services/cart.service.js:44 | a BadRequest error carries 400, `Fail` and the message |
| `Users.FromBody` | server/services/user.service.js:13 | the new record copies every field of the body and gets the new id |
| `Users.UserStore.CreateUser` | server/services/user.service.js:8-15 | a taken email gives BadRequest and leaves the table and the counter unchanged; otherwise exactly one record, built from the body, is added under a new id, and afterwards the email is taken; uniqueness of emails is preserved, and the new record is then the only one with that email |
| `Users.UserStore.GetUserByEmail` | server/services/user.service.js:17-19 | none exactly when no record has the email, otherwise a record of the table with that email (the one under its id); the table is not changed |
| `Users.UserStore.GetUserById` | server/services/user.service.js:21-23 | none exactly when the id is absent, otherwise the record under that id; the table is not changed |
| `Users.UserStore.SetAddress` | server/services/user.service.js:25-29 | returns exactly the new address; the record's address becomes it, and no other field and no other record changes |
| `CartService.LastIndexOf` | server/services/cart.service.js:31-36 | -1 exactly when no line holds the product; otherwise a matching line with no match after it |
| `CartService.LineIsUnique` | server/services/cart.service.js:31-36 | when no two lines share a product id, any matching line is the one the search returns |
| `CartService.FindLine` | server/services/cart.service.js:31-36 | the loop returns the last matching index, and -1 exactly when no line holds the product |
| `CartService.Total` | server/services/cart.service.js:111-114 | 0 for no lines, and never negative when costs and quantities are not |
| `CartService.CheckoutTotal` | server/services/cart.service.js:111-114 | the loop returns the sum of cost times quantity over the lines |
| `CartService.TotalExample` | server/services/cart.service.js:111-119 | a two-line cart, 10 x 2 and 5 x 1, totals 25 |
| `CartService.CheckoutExample` | server/services/cart.service.js:97-125 | a two-line cart, 10 x 2 and 5 x 1, checked out by a user whose address is set: with a wallet of 100 it succeeds, leaving 75 and an empty cart; with a wallet of 20 it fails with "Insufficient balance", leaving 20 and the lines |
| `CartService.Splice` | server/services/cart.service.js:91 | one line fewer; the lines before the removed one and after it keep their order |
| `CartService.SpliceKeepsUnique` | server/services/cart.service.js:91 | splicing one line out keeps the lines unique |
| `CartService.CartService.GetCartByUser` | server/services/cart.service.js:7-13 | NotFound exactly when the user has no cart, otherwise that cart |
| `CartService.CartService.AddProductToCart` | server/services/cart.service.js:15-49 | a missing cart is created first and stays even on failure; a product already in the cart gives BadRequest, a product missing from the directory gives NotFound, and neither changes the lines; otherwise exactly one line, the directory's product with the quantity, is appended; the invariant is preserved |
| `CartService.CartService.UpdateProductInCart` | server/services/cart.service.js:51-75 | NotFound for no cart, then for a product missing from the directory, then for a product not in the cart, each with nothing changed; otherwise only the matching line's quantity becomes exactly the given value (0 included); the invariant is preserved |
| `CartService.CartService.DeleteProductInCart` | server/services/cart.service.js:77-95 | NotFound for no cart or a product not in the cart, without consulting the directory; otherwise exactly the matching line is removed and the others keep their order; the invariant is preserved |
| `CartService.CartService.Checkout` | server/services/cart.service.js:97-125 | NotFound for no cart, then BadRequest for an empty cart, the default address, and a total above the wallet, in that order; it succeeds exactly when none applies (a total equal to the wallet passes); after a failure the user and the carts are unchanged; after a success the result is `Ok`, the wallet is debited by the total and the cart's lines are empty |
| `CartPage.Subtotals` | frontend/src/pages/Cart.tsx:108 | one subtotal per line, cost times quantity |
| `CartPage.CalculateTotal` | frontend/src/pages/Cart.tsx:57-62 | 0 for no cart and for a cart without lines |
| `CartPage.CalculateTotalIsCheckoutTotal` | frontend/src/pages/Cart.tsx:59-61 | the total the page shows equals the total checkout charges |
| `CartPage.CalculateTotalIsSumOfSubtotals` | frontend/src/pages/Cart.tsx:94-108 | the total equals the sum of the subtotals shown beside the lines |
| `CartPage.RequestedQuantity` | frontend/src/pages/Cart.tsx:115-132 | trash asks for 0, minus for less, plus for more; 0 is asked exactly by trash, by minus on 1 and by plus on -1 |
| `CartPage.UpdateFor` | frontend/src/pages/Cart.tsx:31-37 | nothing is sent exactly when the quantity is 0 and the user declines; otherwise the request carries the product and the quantity unchanged |
| `CartPage.ButtonSendsUpdate` | frontend/src/pages/Cart.tsx:115-132 | a button press sends nothing exactly when the user declines and the button asks for 0 (trash, minus on 1, plus on -1); otherwise it sends the quantity the button asks for |
| `CartPage.MinusOnLastUnitNeedsConfirmation` | frontend/src/pages/Cart.tsx:115 | minus on quantity 1, like trash, sends its request exactly when the user confirms |
| `CartPage.HandleUpdateQuantity` | frontend/src/pages/Cart.tsx:29-37 | sends the request `UpdateFor` decides: nothing exactly when the quantity is 0 and the user declines, otherwise the product and the quantity unchanged |
| `CartPage.CartView.constructor` | frontend/src/pages/Cart.tsx:10-11 | the page starts with no cart and loading |
| `CartPage.CartView.FetchCart` | frontend/src/pages/Cart.tsx:17-27 | a fetched cart replaces the shown one, a failed fetch keeps it, and loading ends either way |
| `CartPage.ShowsEmptyView` | frontend/src/pages/Cart.tsx:72 | the empty-cart view shows exactly for no cart or a cart without lines (its definition); under that same guard `calculateTotal` gives 0 |
| `CartPage.CartView.Rendered` | frontend/src/pages/Cart.tsx:64-161 | the spinner exactly while loading; once loaded, the empty-cart view exactly for no cart or no lines; otherwise the lines and the order summary, whose total is the total checkout charges |
| `ProductsPage.ToLower` | frontend/src/pages/Products.tsx:40 | same length, each character lowercased (ASCII) |
| `ProductsPage.FilterProducts` | frontend/src/pages/Products.tsx:39-43 | a product is kept exactly when its lowercased name includes the lowercased query and the category is "all" or its own; each matching product is kept as many times as it occurs and every other product is dropped; the result is an order-preserving subsequence of the products |
| `ProductsPage.ClearedFiltersShowAll` | frontend/src/pages/Products.tsx:123-126 | an empty query with category "all" shows every product, in order |
| `ProductsPage.CategoriesOf` | frontend/src/pages/Products.tsx:25 | one category per product, in order |
| `ProductsPage.Dedup` | frontend/src/pages/Products.tsx:26 | the values of the input, each exactly once |
| `ProductsPage.DedupKeepsFirstOccurrenceOrder` | frontend/src/pages/Products.tsx:26 | the values come in the order of their first occurrence |
| `ProductsPage.UniqueCategories` | frontend/src/pages/Products.tsx:25-27 | "all" first, then each product category exactly once; every product's category is in the list |
| `ProductsPage.CategoriesInFirstOccurrenceOrder` | frontend/src/pages/Products.tsx:25-26 | the categories after "all" come in order of first occurrence among the products |
| `ProductsPage.ProductsView.constructor` | frontend/src/pages/Products.tsx:11-16 | the page starts with no products, loading, an empty query, category "all", filters hidden and categories ["all"] |
| `ProductsPage.ProductsView.Shown` | frontend/src/pages/Products.tsx:39-43 | the products shown are those of the state that match its query and category, with their multiplicities, in order |
| `ProductsPage.ProductsView.FetchProducts` | frontend/src/pages/Products.tsx:19-34 | fetched data replaces the products and the categories; a failure keeps both; loading ends |
| `ProductsPage.ProductsView.SetSearchQuery` | frontend/src/pages/Products.tsx:72 | only the query changes |
| `ProductsPage.ProductsView.SelectCategory` | frontend/src/pages/Products.tsx:93 | only the selected category changes |
| `ProductsPage.ProductsView.ToggleFilters` | frontend/src/pages/Products.tsx:78 | only the filter panel's visibility flips |
| `ProductsPage.ProductsView.ClearFilters` | frontend/src/pages/Products.tsx:123-126 | the query becomes empty and the category "all", nothing else changes, and every product is shown |
| `Navbar.CartItemsCount` | frontend/src/components/Navbar.tsx:25-28 | an empty cart counts 0 |
| `Navbar.CountIsQuantitySum` | frontend/src/components/Navbar.tsx:25-28 | the badge count equals the sum of the quantities over all lines |
| `Navbar.NavbarView.constructor` | frontend/src/components/Navbar.tsx:10-11 | the bar starts with the stored token's presence and a count of 0 |
| `Navbar.NavbarView.ShowsBadge` | frontend/src/components/Navbar.tsx:66-71 | its definition: the badge is rendered exactly for a signed-in user whose count is positive; the claims about it are in `BadgeShownForCart`, `RefreshCount` and `Logout` |
| `Navbar.BadgeShownForCart` | frontend/src/components/Navbar.tsx:25-28 | once a signed-in user's cart is counted, the badge shows exactly when the cart's quantities add up to more than 0, and never for an empty cart |
| `Navbar.NavbarView.RefreshCount` | frontend/src/components/Navbar.tsx:13-34 | with a token the cart is fetched and the count becomes the sum of its quantities (a failed fetch keeps it); without one nothing is fetched, the count is 0 and no badge shows |
| `Navbar.NavbarView.Logout` | frontend/src/components/Navbar.tsx:36-39 | the token is gone, so the badge is not shown |

## Left out

- Persistence: `findOne`, `save` and `Cart.create` become updates of in-memory maps. A failing `Cart.create` (cart.service.js:24-26) is not modelled. The payment option stored in a new cart is not modelled either.
- The checkout saves the user and the cart separately, so the two can get out of step. The model makes them one transition.
- Concurrent requests: there is no isolation between them, so two simultaneous adds could both pass the duplicate check. Only sequential behaviour is modelled.
- Server bootstrap, routing, CORS and passport/JWT authentication. The current user of the cart service is the `user` field. Writing the debited user back to the account table is that field's update.
- bcrypt hashing (commented out in the source) and `User.isEmailTaken` are not modelled. The email check is "some record of the table has this email". The user schema's defaults and the database's ObjectId generation are not part of this model: ids are a counter.
- `Users.UserStore.SetAddress` requires the id to be in the table. This stands for "the user document was loaded", which is how the source is always called.
- JavaScript's loose `==` between the requested product id and a line's `_id` becomes string equality. NaN as a status code is not modelled.
- Floating-point costs and formatting (`toFixed`, `toLocaleString`) are not modelled. Costs, quantities and wallet balances are unbounded integers.
- React rendering, navigation, toasts, `localStorage` and `confirm()` are left out. `confirm` is a boolean input. The stored token is a flag. Server responses are `Option` parameters, with `None` for a failed request.
- `handleCheckout` in Cart.tsx only calls the server, shows a toast and refetches the cart. Checkout itself is `CartService.CartService.Checkout` and the refetch is `FetchCart`.
- zod form schemas in the login and registration pages, and the purely presentational pages and components.
- `toLowerCase` covers ASCII letters only; Unicode case mapping is not modelled.
- A product whose category is literally "all" makes "all" appear twice in the category list. The model has the same behaviour: only the categories after the first "all" are distinct.
