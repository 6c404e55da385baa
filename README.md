# Cart store of the storefront client

This project models the cart store of a storefront web client, `CartProvider`
in `frontend/src/context/CartContext.js`, and proves properties of it in Dafny.

The store holds a cart `{ items: [...] }`. Each line item pairs a product
snapshot with a quantity. The store also holds a `loading` flag and reads the
signed-in user from the authentication context. It has five mutations:

- `fetchCart` does nothing without a user. With a user, it replaces the cart
  by the server's snapshot, and clears `loading` whatever the outcome.
- `addToCart` calls the server first and ignores the response body. Once the
  call has succeeded, it updates the cart locally. A product already in the
  cart has its quantity raised. A new product gets a partial line holding only
  its id.
- `updateCartItem` and `removeFromCart` replace the cart by the server's
  snapshot.
- `clearCart` empties the cart whatever the server sent back.

It has two derived queries, `getCartTotal` and `getCartItemCount`, both
`reduce` folds over the items. An effect runs on mount and on every user
change: it fetches when a user is present and resets the cart to empty when
none is.

Layout:

- `cart_items.dfy`, module `CartItems`: the line-item data model and the pure
  computations. These are the lookup (`Find`, for `items.find`), the local
  reconciliation of the add path (`BumpQuantity` for the `map`, `AddLocal`) and
  the two folds (`ItemCount`, `Total`). The module also holds the lemmas about
  them and about sequences of adds (`AddAll`).
- `cart_store.dfy`, module `CartStore`: class `CartProvider` with fields `cart`,
  `loading` and `user`, one method per mutation and one for the user effect.
  Three client scenarios (`SnapshotScenario`, `RejectedAddScenario`,
  `RepeatedAddScenario`) show what a caller concludes from the contracts.

Modelling choices:

- Every awaited server call becomes a parameter `response: Response<T>`.
  `Ok(body)` means the call resolved. `Err(message)` means it threw, carrying
  `error.response.data.message` when the server sent one. The add and clear
  paths take a body of any type `B`, because their code never reads it.
- Prices are whole cents, `Option<int>`. The partial product on the add path
  has no price.
- The JavaScript total would be `NaN` once any line lacks a price. Here
  `Total` returns `Option<int>`, and `None` stands for `NaN`. `Plus` lets
  `None` absorb, as `NaN` does in a sum.
- The error text is `message || fallback`, so an empty message also falls
  back to the fixed string (`ErrorText`).
- The `map` on the existing-item path raises every line with the matching
  id. The model keeps that. Only when ids are unique (`UniqueIds`) does exactly
  one line change (`AddExisting`).
- The folds recurse on the last element, in the order `Array.prototype.reduce`
  uses.
- The user is an `Option<UserId>` field. The effect is the method
  `UserChanged`; the constructor gives the state before the first effect runs.
- Quantities are unbounded integers. The store does not check them; the
  1 to 10 bound belongs to the product pages.

Two behaviours of the code are kept as they are:

- A line without a price makes `getCartTotal` NaN, not 0. `Total` returns
  `None` then, and `AddNewTotal` proves that every local add of a new product
  makes the total undefined.
- Nothing stops a fetch that resolves after sign-out from filling the cart
  again. That interleaving is left out (see below).

## Model

| member | source | states |
|---|---|---|
| `CartItems.Find` | frontend/src/context/CartContext.js:42 | the lookup finds the first line whose product id matches, and finds none exactly when no line matches |
| `CartItems.BumpQuantity` | frontend/src/context/CartContext.js:46-50 | the `map` keeps length, order and every product snapshot; a line for the product gains the added quantity, and every other line keeps its quantity |
| `CartItems.AddExisting` | frontend/src/context/CartContext.js:42-51 | with unique ids, adding a product already in the cart raises that one line's quantity by exactly the added amount; every other line, the order and the length stay unchanged |
| `CartItems.AddNew` | frontend/src/context/CartContext.js:52-61 | adding a product not in the cart appends exactly one line `{ product: { id }, quantity }` at the end and keeps every earlier line |
| `CartItems.AddLocalKeepsUnique` | frontend/src/context/CartContext.js:42-61 | the local add path keeps at most one line per product id |
| `CartItems.AddLocalItemCount` | frontend/src/context/CartContext.js:42-61 | with unique ids, a successful add raises the item count by exactly the added quantity, on both paths |
| `CartItems.AddLocalQuantityOf` | frontend/src/context/CartContext.js:42-61 | with unique ids, a successful add changes the quantity held of the added product by the added amount, and of every other product not at all |
| `CartItems.AddExistingTotal` | frontend/src/context/CartContext.js:42-51 | adding a product already in the cart raises the total by its price times the added quantity; a total that is NaN stays NaN |
| `CartItems.AddNewTotal` | frontend/src/context/CartContext.js:52-61 | adding a product not in the cart makes the total NaN, because the appended snapshot has no price |
| `CartItems.AddAllInvariant` | frontend/src/context/CartContext.js:34-71 | any sequence of successful adds to a cart with unique ids keeps ids unique and raises the item count by the sum of the added quantities |
| `CartItems.AddAllFresh` | frontend/src/context/CartContext.js:52-61 | adds of distinct products the cart does not hold append one partial line each, in call order, so the cart gains one line per distinct id |
| `CartItems.AddAllQuantityOf` | frontend/src/context/CartContext.js:34-71 | after any sequence of successful adds, the quantity held of a product is the old quantity plus every quantity requested for it |
| `CartItems.AddLocalHolds` | frontend/src/context/CartContext.js:42-61 | after a successful add the cart holds a line for the added product and still holds one for every product it held before |
| `CartItems.AddAllHolds` | frontend/src/context/CartContext.js:34-71 | after any sequence of successful adds the cart holds a line for every product that was requested or already held |
| `CartItems.AddAllLine` | frontend/src/context/CartContext.js:42-61 | with unique ids, any line after a sequence of successful adds is the only one for its product, and its quantity is the old quantity plus every quantity requested for that product |
| `CartItems.RepeatedAdds` | frontend/src/context/CartContext.js:42-61 | with unique ids, after repeated adds every product requested or held has exactly one line, whose quantity is the old quantity plus the sum of all quantities requested for that product |
| `CartItems.ItemCountAppend` | frontend/src/context/CartContext.js:118-120 | the item count of two concatenated lists of lines is the sum of their counts (0 for the empty cart) |
| `CartItems.ItemCountPermutation` | frontend/src/context/CartContext.js:118-120 | the item count does not change when the lines are reordered |
| `CartItems.TotalAppend` | frontend/src/context/CartContext.js:112-116 | the total of two concatenated lists of lines is the NaN-aware sum of their totals (0 for the empty cart) |
| `CartItems.TotalDefined` | frontend/src/context/CartContext.js:112-116 | the total is a number exactly when every line carries a price, and NaN otherwise |
| `CartItems.TotalPermutation` | frontend/src/context/CartContext.js:112-116 | the total does not change when the lines are reordered |
| `CartStore.ErrorText` | frontend/src/context/CartContext.js:65-69 | the error of a failed mutation is the server's message or the fixed fallback, is the message whenever that is non-empty, and is never empty when the fallback is not |
| `CartStore.CartProvider.constructor` | frontend/src/context/CartContext.js:16-17 | the store starts with an empty cart and `loading` false |
| `CartStore.CartProvider.FetchCart` | frontend/src/context/CartContext.js:20-32 | a no-op without a user; with one, the cart becomes the snapshot on success and is unchanged on failure, and `loading` is false afterwards either way |
| `CartStore.CartProvider.AddToCart` | frontend/src/context/CartContext.js:34-71 | on success the cart becomes the local add of the product, ids stay unique and the count rises by the quantity; on failure the cart is unchanged and the error is the server message or "Failed to add to cart" |
| `CartStore.CartProvider.UpdateCartItem` | frontend/src/context/CartContext.js:73-84 | on success the cart is the server's snapshot exactly; on failure the cart is unchanged and the error is the server message or "Failed to update cart" |
| `CartStore.CartProvider.RemoveFromCart` | frontend/src/context/CartContext.js:86-97 | on success the cart is the server's snapshot exactly; on failure the cart is unchanged and the error is the server message or "Failed to remove from cart" |
| `CartStore.CartProvider.ClearCart` | frontend/src/context/CartContext.js:99-110 | on success the cart is empty whatever the response body, so total and count are 0; on failure the cart is unchanged and the error is the server message or "Failed to clear cart" |
| `CartStore.CartProvider.UserChanged` | frontend/src/context/CartContext.js:122-128 | when the user goes away the cart is reset to empty; when a user is present the cart is fetched as `FetchCart` states |

## Left out

- HTTP calls through `axios`, their URLs and response framing: each is an outcome parameter.
- The diagnostic log line of a failed fetch (`console.error`): it is output only.
- Asynchronous interleaving: every method runs to completion. So the `loading` value `true` that a concurrent reader sees during a fetch is not modelled. Neither is the race where a fetch started before sign-out resolves afterwards and fills the cart again.
- In `addToCart`, the lookup reads the `cart` of the render that created that `addToCart` function, while the update applies to the latest cart. The model assumes every call's lookup sees the latest cart, as it does when each call uses the `addToCart` of the latest render. A handler that awaits two adds of the same new product through one `addToCart` value reads the stale cart twice and appends two lines for that id. The model does not capture that duplicate, and the uniqueness lemmas hold only under this assumption.
- React context, hooks and re-rendering, including `useCart` throwing outside a provider.
- Product snapshot fields other than id and price (name, image, brand): the store never reads them.
- Cart fields other than `items`: the add path spreads them unchanged, fetch, update and remove replace the whole cart by the server's object, and `clearCart` replaces it by `{ items: [] }`. The model's cart has only `items`.
- Error payloads whose `message` is not a string.
- The pages and components that call the store, and currency formatting and tax in the checkout page. These are presentation.
- The fetch triggered by the user effect is modelled by its outcome only. Whether the effect actually runs, which happens on mount and on every change of `user`, is up to the caller of `UserChanged`.
