/**
 * The cart state of lib/cart-context.tsx.  `CartProvider` holds the cart
 * snapshot, the loading and drawer flags, and the cart id kept in
 * `localStorage` under "shopify_cart_id".  Each transition builds the request
 * it sends to /api/cart; how that `fetch` ended is an input.
 */
module CartContext {
  import opened Wrappers
  import opened Types
  import opened CartRoute
  import opened JsText

  const CART_ID_KEY := "shopify_cart_id"

  /**
   * How a `fetch` to /api/cart ended for the context: an OK response with
   * the body's `cart` (null or absent is None), a non-OK response, or a
   * thrown error (network failure or unreadable body).
   */
  datatype FetchResult = Ok(cart: Option<Cart>) | NotOk | Failed

  /** What the context receives from a response of the cart route. */
  function ResultOfResponse(r: Response): FetchResult {
    if r.status == 200 && r.body.CartBody? then Ok(r.body.cart) else NotOk
  }

  /**
   * What the route's answers mean to the context: a found or missing cart
   * arrives as an OK answer, so only a missing cart (not a failed upstream
   * call) makes `loadCart` forget the stored id.
   */
  lemma RouteAnswersAsSeen(cartId: Option<string>, body: Body, found: Option<Cart>, error: Thrown)
    ensures StringTruthy(cartId) ==> ResultOfResponse(Get(cartId, Returned(found))) == Ok(found)
    ensures ResultOfResponse(Get(cartId, Threw(error))) == NotOk
    ensures body.Json? && Dispatch(body.request).Success? ==> ResultOfResponse(Post(body, Returned(found))) == Ok(found)
    ensures ResultOfResponse(Post(body, Threw(error))) == NotOk
    ensures body.Json? && Dispatch(body.request).Failure? ==> ResultOfResponse(Post(body, Returned(found))) == NotOk
  {
  }

  /** The body `addItem` posts: `add` with the stored id when there is one, `create` otherwise. */
  function AddRequest(stored: Option<string>, variantId: string, quantity: int): CartRequest {
    CartRequest(if StringTruthy(stored) then "add" else "create", stored, Some([NewLine(variantId, quantity)]), None)
  }

  function UpdateRequest(cartId: string, lineId: string, quantity: int): CartRequest {
    CartRequest("update", Some(cartId), Some([LineChange(lineId, quantity)]), None)
  }

  function RemoveRequest(cartId: string, lineId: string): CartRequest {
    CartRequest("remove", Some(cartId), None, Some([lineId]))
  }

  /**
   * The route accepts every request the context sends (given a non-empty
   * cart id for updates and removals) and makes the matching upstream call;
   * `addItem` creates a cart exactly when no id is stored.
   */
  lemma ContextRequestsAccepted(stored: Option<string>, variantId: string, quantity: int, cartId: string, lineId: string)
    ensures Dispatch(AddRequest(stored, variantId, quantity)) ==
      Success(if StringTruthy(stored) then AddToCart(stored.value, Some([NewLine(variantId, quantity)]))
              else CreateCart(Some([NewLine(variantId, quantity)])))
    ensures cartId != "" ==>
      Dispatch(UpdateRequest(cartId, lineId, quantity)) == Success(UpdateCart(cartId, Some([LineChange(lineId, quantity)])))
    ensures cartId != "" ==>
      Dispatch(RemoveRequest(cartId, lineId)) == Success(RemoveFromCart(cartId, [lineId]))
  {
  }

  /** The server answered with the cart it was asked about (or with no cart, or not at all). */
  predicate Echoes(result: FetchResult, cartId: string) {
    result.Ok? && result.cart.Some? ==> result.cart.value.id == cartId
  }

  class CartProvider {
    var cart: Option<Cart>
    var storedCartId: Option<string>   // localStorage[CART_ID_KEY]
    var isLoading: bool
    var isCartOpen: bool

    /** A held snapshot is the cart whose id is stored. */
    predicate Coherent()
      reads this
    {
      cart.Some? ==> storedCartId == Some(cart.value.id)
    }

    /** Mounting the provider over whatever id the browser has stored. */
    constructor (stored: Option<string>)
      ensures cart == None && storedCartId == stored && isLoading && !isCartOpen
      ensures Coherent()
    {
      cart := None;
      storedCartId := stored;
      isLoading := true;
      isCartOpen := false;
    }

    /**
     * `loadCart` on mount: fetches the stored id when there is one; an OK
     * answer with a cart sets it, with no cart or a thrown error forgets
     * the id, a non-OK answer keeps it; loading ends either way.
     */
    method LoadCart(result: FetchResult) returns (fetched: Option<string>)
      modifies this`cart, this`storedCartId, this`isLoading
      ensures fetched == (if StringTruthy(old(storedCartId)) then old(storedCartId) else None)
      ensures !isLoading
      ensures fetched.None? || result.NotOk? ==> cart == old(cart) && storedCartId == old(storedCartId)
      ensures fetched.Some? && result.Ok? && result.cart.Some? ==> cart == result.cart && storedCartId == old(storedCartId)
      ensures fetched.Some? && (result.Failed? || (result.Ok? && result.cart.None?)) ==>
        cart == old(cart) && storedCartId == None
      ensures old(cart).None? && (fetched.Some? ==> Echoes(result, fetched.value)) ==> Coherent()
    {
      fetched := None;
      var cartId := storedCartId;
      if StringTruthy(cartId) {
        fetched := cartId;
        match result
        case Ok(c) =>
          if c.Some? {
            cart := c;
          } else {
            storedCartId := None;
          }
        case NotOk =>
        case Failed =>
          storedCartId := None;
      }
      isLoading := false;
    }

    /**
     * `addItem(variantId, quantity = 1)`: posts `add` or `create` according
     * to the stored id (not the held cart); an OK answer replaces the cart,
     * stores its id and opens the drawer; a failure changes nothing.
     */
    method AddItem(variantId: string, quantity: Option<int>, result: FetchResult) returns (request: CartRequest)
      modifies this`cart, this`storedCartId, this`isCartOpen
      ensures request == AddRequest(old(storedCartId), variantId, quantity.GetOr(1))
      ensures request.action == "add" <==> StringTruthy(old(storedCartId))
      ensures result.Ok? && result.cart.Some? ==>
        cart == result.cart && storedCartId == Some(result.cart.value.id) && isCartOpen
      // an OK answer without a cart: `setCart` runs, then reading its id throws
      ensures result.Ok? && result.cart.None? ==>
        cart == None && storedCartId == old(storedCartId) && isCartOpen == old(isCartOpen)
      ensures !result.Ok? ==> cart == old(cart) && storedCartId == old(storedCartId) && isCartOpen == old(isCartOpen)
      ensures old(Coherent()) ==> Coherent()
    {
      var cartId := storedCartId;
      request := AddRequest(cartId, variantId, quantity.GetOr(1));
      match result
      case Ok(c) =>
        cart := c;
        if c.Some? {
          storedCartId := Some(c.value.id);
          isCartOpen := true;
        }
      case NotOk =>
      case Failed =>
    }

    /** `updateItem(lineId, quantity)`: nothing without a cart; else posts `update` for the held cart. */
    method UpdateItem(lineId: string, quantity: int, result: FetchResult) returns (request: Option<CartRequest>)
      modifies this`cart
      ensures old(cart).None? ==> request.None? && cart == old(cart)
      ensures old(cart).Some? ==> request == Some(UpdateRequest(old(cart).value.id, lineId, quantity))
      ensures old(cart).Some? && result.Ok? ==> cart == result.cart
      ensures old(cart).Some? && !result.Ok? ==> cart == old(cart)
      ensures old(Coherent()) && (old(cart).Some? ==> Echoes(result, old(cart).value.id)) ==> Coherent()
    {
      request := None;
      if cart.Some? {
        request := Some(UpdateRequest(cart.value.id, lineId, quantity));
        if result.Ok? {
          cart := result.cart;
        }
      }
    }

    /** `removeItem(lineId)`: nothing without a cart; else posts `remove` for the held cart. */
    method RemoveItem(lineId: string, result: FetchResult) returns (request: Option<CartRequest>)
      modifies this`cart
      ensures old(cart).None? ==> request.None? && cart == old(cart)
      ensures old(cart).Some? ==> request == Some(RemoveRequest(old(cart).value.id, lineId))
      ensures old(cart).Some? && result.Ok? ==> cart == result.cart
      ensures old(cart).Some? && !result.Ok? ==> cart == old(cart)
      ensures old(Coherent()) && (old(cart).Some? ==> Echoes(result, old(cart).value.id)) ==> Coherent()
    {
      request := None;
      if cart.Some? {
        request := Some(RemoveRequest(cart.value.id, lineId));
        if result.Ok? {
          cart := result.cart;
        }
      }
    }

    method OpenCart()
      modifies this`isCartOpen
      ensures isCartOpen
    {
      isCartOpen := true;
    }

    method CloseCart()
      modifies this`isCartOpen
      ensures !isCartOpen
    {
      isCartOpen := false;
    }
  }

  /** The drawer's minus button: remove the line at quantity 1, else lower it by one. */
  datatype LineAction = RemoveLine(lineId: string) | SetQuantity(lineId: string, quantity: int)

  function DecrementAction(line: CartLine): (r: LineAction)
    ensures r.lineId == line.id
    ensures r.RemoveLine? <==> line.quantity == 1
    ensures r.SetQuantity? ==> r.quantity == line.quantity - 1
    ensures line.quantity >= 1 && r.SetQuantity? ==> r.quantity >= 1
  {
    if line.quantity == 1 then RemoveLine(line.id) else SetQuantity(line.id, line.quantity - 1)
  }
}
