/**
 * The cart API facade of app/api/cart/route.ts.  Each handler validates its
 * request, makes at most one upstream cart call and turns the call's outcome
 * into a JSON response.  Upstream calls are not executed: `Dispatch` names
 * the call the handler makes, and its outcome is an input of `Post`/`Get`.
 */
module CartRoute {
  import opened Wrappers
  import opened Types
  import opened JsText

  /** A line in a request: a new merchandise line, or a quantity change of a cart line. */
  datatype LineInput = NewLine(merchandiseId: string, quantity: int) | LineChange(id: string, quantity: int)

  /** The fields `POST` reads from the JSON body; a missing string field is "". */
  datatype CartRequest = CartRequest(
    action: string,
    cartId: Option<string>,
    lines: Option<seq<LineInput>>,
    lineIds: Option<seq<string>>)

  /** The body as `request.json()` sees it. */
  datatype Body = Json(request: CartRequest) | Malformed(error: Thrown)

  /** What a `catch` receives: an `Error` with its message, or any other thrown value. */
  datatype Thrown = ErrorObject(message: string) | OtherValue

  /** The upstream cart operations of lib/shopify. */
  datatype UpstreamCall =
    | GetCart(cartId: string)
    | CreateCart(lines: Option<seq<LineInput>>)
    | AddToCart(cartId: string, lines: Option<seq<LineInput>>)
    | UpdateCart(cartId: string, lines: Option<seq<LineInput>>)
    | RemoveFromCart(cartId: string, lineIds: seq<string>)

  /** How the upstream call ended: it returned a cart (or null), or it threw. */
  datatype Outcome = Returned(cart: Option<Cart>) | Threw(error: Thrown)

  datatype ResponseBody = CartBody(cart: Option<Cart>) | ErrorBody(error: string)

  datatype Response = Response(status: int, body: ResponseBody)

  /** The upstream call `POST` makes for a request, or the 400 message when it makes none. */
  function Dispatch(req: CartRequest): (r: Result<UpstreamCall, string>)
    ensures r.Failure? <==>
      || req.action !in {"create", "add", "update", "remove"}
      || (req.action == "update" && !StringTruthy(req.cartId))
      || (req.action == "remove" && (!StringTruthy(req.cartId) || req.lineIds.None?))
    ensures r.Success? && r.value.CreateCart? <==> req.action == "create" || (req.action == "add" && !StringTruthy(req.cartId))
    ensures r.Success? && !r.value.CreateCart? ==> StringTruthy(req.cartId) && r.value.cartId == req.cartId.value
    ensures r.Success? ==> !r.value.GetCart?
    ensures r.Success? && r.value.RemoveFromCart? ==> req.lineIds == Some(r.value.lineIds)
    ensures r.Success? && !r.value.RemoveFromCart? && !r.value.GetCart? ==> r.value.lines == req.lines
    ensures r.Success? ==> (r.value.AddToCart? <==> req.action == "add" && StringTruthy(req.cartId))
    ensures r.Success? ==> (r.value.UpdateCart? <==> req.action == "update")
    ensures r.Success? ==> (r.value.RemoveFromCart? <==> req.action == "remove")
    ensures req.action !in {"create", "add", "update", "remove"} ==> r == Failure("Invalid action")
    ensures req.action == "update" && !StringTruthy(req.cartId) ==> r == Failure("Cart ID is required for update")
    ensures req.action == "remove" && (!StringTruthy(req.cartId) || req.lineIds.None?) ==>
      r == Failure("Cart ID and line IDs are required for remove")
  {
    match req.action
    case "create" => Success(CreateCart(req.lines))
    case "add" =>
      if !StringTruthy(req.cartId) then Success(CreateCart(req.lines))
      else Success(AddToCart(req.cartId.value, req.lines))
    case "update" =>
      if !StringTruthy(req.cartId) then Failure("Cart ID is required for update")
      else Success(UpdateCart(req.cartId.value, req.lines))
    case "remove" =>
      if !StringTruthy(req.cartId) || req.lineIds.None? then Failure("Cart ID and line IDs are required for remove")
      else Success(RemoveFromCart(req.cartId.value, req.lineIds.value))
    case _ => Failure("Invalid action")
  }

  /** The message of the `catch` in `POST`. */
  function ErrorMessage(e: Thrown): string {
    if e.ErrorObject? then e.message else "Cart operation failed"
  }

  /** `POST /api/cart`, given the outcome of the upstream call it makes. */
  function Post(body: Body, outcome: Outcome): (r: Response)
    ensures r.status in {200, 400, 500}
    ensures r.status == 400 <==> body.Json? && Dispatch(body.request).Failure?
    ensures r.status == 400 ==> r.body == ErrorBody(Dispatch(body.request).error)
    ensures r.status == 200 <==> body.Json? && Dispatch(body.request).Success? && outcome.Returned?
    ensures r.status == 200 ==> r.body == CartBody(outcome.cart)
    ensures r.status == 500 && body.Malformed? ==> r.body == ErrorBody(ErrorMessage(body.error))
    ensures r.status == 500 && body.Json? ==> r.body == ErrorBody(ErrorMessage(outcome.error))
  {
    match body
    case Malformed(e) => Response(500, ErrorBody(ErrorMessage(e)))
    case Json(req) =>
      match Dispatch(req)
      case Failure(message) => Response(400, ErrorBody(message))
      case Success(_) =>
        match outcome
        case Returned(cart) => Response(200, CartBody(cart))
        case Threw(e) => Response(500, ErrorBody(ErrorMessage(e)))
  }

  /** The upstream call `GET` makes: none without a cart id. */
  function GetDispatch(cartId: Option<string>): (r: Option<UpstreamCall>)
    ensures r.Some? <==> StringTruthy(cartId)
    ensures r.Some? ==> r.value == GetCart(cartId.value)
  {
    if StringTruthy(cartId) then Some(GetCart(cartId.value)) else None
  }

  /** `GET /api/cart?cartId=…`, given the outcome of `getCart`. */
  function Get(cartId: Option<string>, outcome: Outcome): (r: Response)
    ensures !StringTruthy(cartId) ==> r == Response(400, ErrorBody("Cart ID is required"))
    ensures StringTruthy(cartId) && outcome.Threw? ==> r == Response(500, ErrorBody("Failed to get cart"))
    ensures StringTruthy(cartId) && outcome.Returned? ==> r == Response(200, CartBody(outcome.cart))
  {
    if GetDispatch(cartId).None? then Response(400, ErrorBody("Cart ID is required"))
    else match outcome
      case Returned(cart) => Response(200, CartBody(cart))
      case Threw(_) => Response(500, ErrorBody("Failed to get cart"))
  }
}
