/** The cart store (`CartProvider`): the cart and the loading flag it holds,
    its five mutations and the reaction to the signed-in user changing. Every
    server call is replaced by its outcome, passed in as a `Response`. */
module CartStore {
  import opened CartItems

  type UserId = int

  /** What an awaited server call produced: the response body, or a failure
      carrying `error.response.data.message` when the server sent one. */
  datatype Response<T> = Ok(body: T) | Err(message: Option<string>)

  /** The `{ success, error }` object the mutations resolve to. */
  datatype Outcome = Success | Failure(error: string)

  const AddFallback := "Failed to add to cart"
  const UpdateFallback := "Failed to update cart"
  const RemoveFallback := "Failed to remove from cart"
  const ClearFallback := "Failed to clear cart"

  /** `message || fallback`: the error a failed mutation reports is the
      server's message or the fixed fallback, the message whenever it is
      non-empty, and never empty once the fallback is not. */
  function ErrorText(message: Option<string>, fallback: string): (r: string)
    ensures r == fallback || message == Some(r)
    ensures message.Some? && message.value != "" ==> r == message.value
    ensures fallback != "" ==> r != ""
  {
    if message.Some? && message.value != "" then message.value else fallback
  }

  class CartProvider {
    var cart: Cart
    var loading: bool
    /** The signed-in user as the authentication context supplies it. */
    var user: Option<UserId>

    /** The state before the first effect runs: an empty cart, not loading. */
    constructor (user: Option<UserId>)
      ensures cart == EmptyCart && !loading && this.user == user
    {
      cart := EmptyCart;
      loading := false;
      this.user := user;
    }

    /** `getCartTotal()`; `None` is the NaN a line without a price produces. */
    function GetCartTotal(): Option<int>
      reads this
    {
      Total(cart.items)
    }

    /** `getCartItemCount()`. */
    function GetCartItemCount(): int
      reads this
    {
      ItemCount(cart.items)
    }

    /** `fetchCart()`: without a user nothing happens; with one, a successful
        fetch replaces the cart by the server's snapshot, a failed one leaves
        it, and the loading flag is cleared either way. */
    method FetchCart(response: Response<Cart>)
      modifies this`cart, this`loading
      ensures user.None? ==> cart == old(cart) && loading == old(loading)
      ensures user.Some? ==> !loading
      ensures user.Some? && response.Ok? ==> cart == response.body
      ensures user.Some? && response.Err? ==> cart == old(cart)
    {
      if user.None? {
        return;
      }
      loading := true;
      if response.Ok? {
        cart := response.body;
      }
      loading := false;
    }

    /** `addToCart(productId, quantity = 1)`: the server call comes first and
        its body is not used; only once it succeeded is the cart updated
        locally, bumping the product's line or appending a partial one. */
    method AddToCart<B>(productId: ProductId, response: Response<B>, quantity: int := 1) returns (r: Outcome)
      modifies this`cart
      ensures response.Ok? ==> r == Success && cart == Cart(AddLocal(old(cart.items), productId, quantity))
      ensures response.Ok? && UniqueIds(old(cart.items)) ==>
        UniqueIds(cart.items) && GetCartItemCount() == old(GetCartItemCount()) + quantity
      ensures response.Err? ==> cart == old(cart) && r == Failure(ErrorText(response.message, AddFallback))
    {
      if response.Err? {
        return Failure(ErrorText(response.message, AddFallback));
      }
      if UniqueIds(cart.items) {
        AddLocalKeepsUnique(cart.items, productId, quantity);
        AddLocalItemCount(cart.items, productId, quantity);
      }
      var existing := Find(cart.items, productId);
      if existing.Some? {
        cart := cart.(items := BumpQuantity(cart.items, productId, quantity));
      } else {
        cart := cart.(items := cart.items + [PartialItem(productId, quantity)]);
      }
      r := Success;
    }

    /** `updateCartItem(productId, quantity)`: the server's snapshot replaces
        the cart; a failure leaves it. */
    method UpdateCartItem(productId: ProductId, quantity: int, response: Response<Cart>) returns (r: Outcome)
      modifies this`cart
      ensures response.Ok? ==> r == Success && cart == response.body
      ensures response.Err? ==> cart == old(cart) && r == Failure(ErrorText(response.message, UpdateFallback))
    {
      match response
      case Ok(snapshot) =>
        cart := snapshot;
        r := Success;
      case Err(message) =>
        r := Failure(ErrorText(message, UpdateFallback));
    }

    /** `removeFromCart(productId)`: the server's snapshot replaces the cart;
        a failure leaves it. */
    method RemoveFromCart(productId: ProductId, response: Response<Cart>) returns (r: Outcome)
      modifies this`cart
      ensures response.Ok? ==> r == Success && cart == response.body
      ensures response.Err? ==> cart == old(cart) && r == Failure(ErrorText(response.message, RemoveFallback))
    {
      match response
      case Ok(snapshot) =>
        cart := snapshot;
        r := Success;
      case Err(message) =>
        r := Failure(ErrorText(message, RemoveFallback));
    }

    /** `clearCart()`: on success the cart is emptied whatever the server sent
        back; a failure leaves it. */
    method ClearCart<B>(response: Response<B>) returns (r: Outcome)
      modifies this`cart
      ensures response.Ok? ==> r == Success && cart == EmptyCart
      ensures response.Ok? ==> GetCartTotal() == Some(0) && GetCartItemCount() == 0
      ensures response.Err? ==> cart == old(cart) && r == Failure(ErrorText(response.message, ClearFallback))
    {
      if response.Err? {
        return Failure(ErrorText(response.message, ClearFallback));
      }
      cart := EmptyCart;
      r := Success;
    }

    /** The effect run on mount and whenever the user changes: with a user the
        cart is fetched (`response` is what that fetch gets), without one it is
        reset to empty. */
    method UserChanged(newUser: Option<UserId>, response: Response<Cart>)
      modifies this
      ensures user == newUser
      ensures newUser.None? ==> cart == EmptyCart && loading == old(loading)
      ensures newUser.Some? ==> !loading
      ensures newUser.Some? && response.Ok? ==> cart == response.body
      ensures newUser.Some? && response.Err? ==> cart == old(cart)
    {
      user := newUser;
      if newUser.Some? {
        FetchCart(response);
      } else {
        cart := EmptyCart;
      }
    }
  }

  // ---------------------------------------------------------------------------
  // Client scenarios: what a caller can conclude from the contracts alone
  // ---------------------------------------------------------------------------

  /** A fetched snapshot with P1 (10.00) x 2 and P2 (5.00) x 1 counts 3 items
      and totals 25.00; clearing and signing out both leave an empty cart. */
  method SnapshotScenario() {
    var store := new CartProvider(Some(1));
    var p1 := LineItem(Product(1, Some(1000)), 2);
    var p2 := LineItem(Product(2, Some(500)), 1);
    store.UserChanged(Some(1), Ok(Cart([p1, p2])));
    assert store.cart.items == [p1, p2] == [] + [p1] + [p2];
    assert [p2] == [] + [p2] + [];
    ItemCountAround([], p1, [p2]);
    ItemCountAround([], p2, []);
    TotalAround([], p1, [p2]);
    TotalAround([], p2, []);
    assert store.GetCartItemCount() == 3;
    assert store.GetCartTotal() == Some(2500);
    var r := store.ClearCart(Ok(()));
    assert store.GetCartItemCount() == 0 && store.GetCartTotal() == Some(0);
    store.UserChanged(None, Err(None));
    assert store.cart == EmptyCart;
  }

  /** A rejected add reports the server's message, or the fallback when the
      message is empty, and leaves the cart as it was. */
  method RejectedAddScenario(u: UserId) {
    var store := new CartProvider(Some(u));
    var r := store.AddToCart<()>(7, Err(Some("Out of stock")), 2);
    assert r == Failure("Out of stock") && store.cart == EmptyCart;
    r := store.AddToCart<()>(7, Err(Some("")), 2);
    assert r == Failure("Failed to add to cart") && store.cart == EmptyCart;
  }

  /** Local adds of P1 x 2, P2 x 1 (default quantity) and P1 x 3 leave two
      partial lines, P1 x 5 then P2 x 1, and a total that is NaN. */
  method RepeatedAddScenario(u: UserId) {
    var store := new CartProvider(Some(u));
    var r := store.AddToCart(1, Ok(()), 2);
    assert store.cart.items == [PartialItem(1, 2)] by {
      AddNew([], 1, 2);
    }
    r := store.AddToCart(2, Ok(()));
    assert store.cart.items == [PartialItem(1, 2), PartialItem(2, 1)] by {
      AddNew([PartialItem(1, 2)], 2, 1);
    }
    r := store.AddToCart(1, Ok(()), 3);
    assert store.cart.items == [PartialItem(1, 5), PartialItem(2, 1)] by {
      AddExisting([PartialItem(1, 2), PartialItem(2, 1)], 1, 3, 0);
    }
    assert store.GetCartTotal() == None by {
      AddNewTotal([PartialItem(1, 5)], 2, 1);
    }
  }
}
