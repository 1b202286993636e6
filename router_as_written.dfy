/** The router package exactly as its files stand. `routers/payments.py` and
    `routers/cart.py` call `uuid.uuid4()` without importing `uuid`, and
    `routers/cart.py` calls `datetime.now(...)` without importing `datetime`.
    Each of those calls raises a NameError when it is reached, before the
    handler's commit, so nothing it staged is written. The monolithic server
    imports both modules; the rest of this model follows it. In
    `routers/orders.py` the order summary's own `except Exception` also
    catches the 404 it raises for a missing order; the rest of this model
    answers that 404. */
module RouterAsWritten {
  import opened Common
  import opened Store
  import opened CardValidation
  import opened CartRoutes
  import opened Payments
  import opened Orders

  /** What FastAPI answers when a handler raises something other than an
      `HTTPException`. */
  const UnhandledError := HttpError(500, "Internal Server Error")

  // ------------------------------------------------------------------
  // routers/payments.py
  // ------------------------------------------------------------------

  /** `process_payment` as written. A user without a cart reaches the missing
      `uuid` inside `_get_or_create_cart`; an approved payment reaches it when
      building the transaction row. Both are caught by the handler's `except`,
      which rolls back and answers with the generic error. The tables never
      change. */
  function ProcessPaymentAsWritten(carts: seq<Cart>, items: seq<CartItem>, products: seq<Product>,
                                   userId: string, req: PaymentRequest, now: DateTime,
                                   approved: bool): (r: PaymentResponse)
    ensures !r.success && r.transactionId.None?
  {
    match FindCartOf(carts, userId)
    case None => PaymentResponse(false, None, Some(InternalErrorMessage))
    case Some(k) =>
      var total := CartTotal(EnrichLines(LinesOfCart(items, carts[k].id), products));
      match PaymentRejection(total, req, now)
      case Some(reason) => PaymentResponse(false, None, Some(RejectionMessage(reason)))
      case None =>
        if approved then PaymentResponse(false, None, Some(InternalErrorMessage))
        else PaymentResponse(false, None, Some(DeclinedMessage))
  }

  /** The discrepancy: a user with a cart, paying its exact total with a valid
      card that the issuer approves, is told "Error interno del servidor" and
      nothing is recorded, where the intended handler records the payment
      whenever the order it names exists (or none is named). */
  lemma ApprovedPaymentFailsAsWritten(carts: seq<Cart>, items: seq<CartItem>, products: seq<Product>,
                                      orders: seq<Order>, transactions: seq<PaymentTransaction>,
                                      userId: string, req: PaymentRequest, now: DateTime,
                                      token: string, rowId: string)
    requires ValidDateTime(now) && FindCartOf(carts, userId).Some?
    requires PaymentRejection(UserCartTotal(carts, items, products, userId), req, now).None?
    ensures ProcessPaymentAsWritten(carts, items, products, userId, req, now, true)
         == PaymentResponse(false, None, Some(InternalErrorMessage))
    ensures var e := PaymentEffectOf(orders, transactions, UserCartTotal(carts, items, products, userId),
                                     userId, req, now, true, token, rowId,
                                     CommitRaises(orders, req.orderId, false));
      && (e.response.success <==> !OrderReferenceDangles(orders, req.orderId))
      && (e.response.success ==> |e.transactions| == |transactions| + 1)
  {
  }

  /** Apart from the approval itself, the router answers as intended once the
      user has a cart: the same rejections in the same order, and the same
      decline. */
  lemma AsWrittenAgreesBeforeApproval(carts: seq<Cart>, items: seq<CartItem>, products: seq<Product>,
                                      orders: seq<Order>, transactions: seq<PaymentTransaction>,
                                      userId: string, req: PaymentRequest, now: DateTime,
                                      token: string, rowId: string)
    requires ValidDateTime(now) && FindCartOf(carts, userId).Some?
    ensures var e := PaymentEffectOf(orders, transactions, UserCartTotal(carts, items, products, userId),
                                     userId, req, now, false, token, rowId, false);
      ProcessPaymentAsWritten(carts, items, products, userId, req, now, false) == e.response
  {
  }

  /** `create_checkout_session` as written: the total loop runs, then building
      the order row raises; the handler rolls back and answers 500. */
  function CheckoutAsWritten(reqs: seq<CartItemRequest>, products: seq<Product>): (r: Result<CheckoutResponse>)
    ensures r == Failure(CheckoutError)
  {
    Failure(CheckoutError)
  }

  // ------------------------------------------------------------------
  // routers/cart.py
  // ------------------------------------------------------------------

  /** `get_cart` as written: a user without a cart reaches the missing `uuid`
      in `_get_or_create_cart` and the request fails unhandled; a user with one
      gets the enriched view, as intended. */
  function GetCartAsWritten(carts: seq<Cart>, items: seq<CartItem>, products: seq<Product>,
                            userId: string): (r: Result<EnrichedCart>)
    ensures r.Failure? <==> FindCartOf(carts, userId).None?
    ensures r.Failure? ==> r.error == UnhandledError
    ensures r.Success? ==>
      && r.value.userId == userId
      && r.value == EnrichedCartOf(carts[FindCartOf(carts, userId).value], items, products)
  {
    match FindCartOf(carts, userId)
    case None => Failure(UnhandledError)
    case Some(k) => Success(EnrichedCartOf(carts[k], items, products))
  }

  /** `add_cart_item` as written: after the product check, a user without a
      cart reaches the missing `uuid` in `_get_or_create_cart`; a user with one
      reaches either the missing `uuid` (new line) or the missing `datetime`
      (merged line). No commit has happened at that point. */
  function AddCartItemAsWritten(carts: seq<Cart>, items: seq<CartItem>, products: seq<Product>,
                                userId: string, req: CartItemRequest): (r: Result<EnrichedCart>)
    ensures r.Failure?
    ensures FindActiveProduct(products, req.productId).Some? <==> r == Failure(UnhandledError)
  {
    if FindActiveProduct(products, req.productId).None? then Failure(ProductNotFound)
    else Failure(UnhandledError)
  }

  /** `update_cart_item` as written: a missing line still gives the 404, but
      any update of an existing line reaches the missing `datetime` first. */
  function UpdateCartItemAsWritten(carts: seq<Cart>, items: seq<CartItem>, products: seq<Product>,
                                   userId: string, productId: string): (r: Result<EnrichedCart>)
    ensures r.Failure?
    ensures r == Failure(ItemNotFound) <==>
      FindCartOf(carts, userId).Some? &&
      FindLine(items, carts[FindCartOf(carts, userId).value].id, productId).None?
  {
    match FindCartOf(carts, userId)
    case None => Failure(UnhandledError)
    case Some(k) =>
      if FindLine(items, carts[k].id, productId).None? then Failure(ItemNotFound)
      else Failure(UnhandledError)
  }

  /** `delete_cart_item` as written: only the no-op path (no line for the
      product in an existing cart) answers normally. */
  function DeleteCartItemAsWritten(carts: seq<Cart>, items: seq<CartItem>, products: seq<Product>,
                                   userId: string, productId: string): (r: Result<EnrichedCart>)
    ensures r.Success? <==>
      FindCartOf(carts, userId).Some? &&
      FindLine(items, carts[FindCartOf(carts, userId).value].id, productId).None?
  {
    match FindCartOf(carts, userId)
    case None => Failure(UnhandledError)
    case Some(k) =>
      if FindLine(items, carts[k].id, productId).None?
      then Success(EnrichedCartOf(carts[k], items, products))
      else Failure(UnhandledError)
  }

  /** The discrepancy: adding an active product fails as written, where the
      intended handler adds `max(1, quantity)` units to the user's cart. */
  lemma AddFailsAsWritten(carts: seq<Cart>, items: seq<CartItem>, products: seq<Product>,
                          userId: string, req: CartItemRequest, now: DateTime,
                          newCartId: string, newLineId: string)
    requires FindActiveProduct(products, req.productId).Some?
    ensures AddCartItemAsWritten(carts, items, products, userId, req) == Failure(UnhandledError)
    ensures var t := TablesAfterAdd(carts, items, userId, req, now, newCartId, newLineId);
      FindCartOf(t.carts, userId).Some? &&
      var cartId := t.carts[FindCartOf(t.carts, userId).value].id;
      QuantityOf(t.items, cartId, req.productId) == QuantityOf(items, cartId, req.productId) + Max(1, req.quantity)
  {
    var carts1 := CartsWithCartFor(carts, userId, newCartId, now);
    CartsWithCartForSpec(carts, userId, newCartId, now);
    var k := FindCartOf(carts1, userId).value;
    FindCartTouch(carts, userId, newCartId, now, k);
    TouchCartWellFormedId(carts1, k, now);
    AddEffect(items, carts1[k].id, req, newLineId, carts1[k].id, req.productId);
  }

  lemma TouchCartWellFormedId(carts: seq<Cart>, k: nat, now: DateTime)
    requires k < |carts|
    ensures TouchCart(carts, k, now)[k].id == carts[k].id
  {
  }

  /** The discrepancy: deleting a product the cart holds fails as written and
      the line stays, where the intended handler removes it. */
  lemma DeleteFailsAsWritten(carts: seq<Cart>, items: seq<CartItem>, products: seq<Product>,
                             userId: string, productId: string, k: nat)
    requires LinesWellFormed(items)
    requires FindCartOf(carts, userId) == Some(k)
    requires FindLine(items, carts[k].id, productId).Some?
    ensures DeleteCartItemAsWritten(carts, items, products, userId, productId) == Failure(UnhandledError)
    ensures LineFor(LinesAfterDelete(items, carts[k].id, productId), carts[k].id, productId).None?
  {
    DeleteEffect(items, carts[k].id, productId, carts[k].id, productId);
  }

  // ------------------------------------------------------------------
  // routers/orders.py
  // ------------------------------------------------------------------

  /** `get_order_summary` as written: `HTTPException` is an `Exception`, so the
      404 raised for a missing order is caught by the handler's own
      `except Exception` and answered as the generic 500. */
  function GetOrderSummaryAsWritten(orders: seq<Order>, orderItems: seq<OrderItem>, products: seq<Product>,
                                    userId: string, orderId: string): (r: Result<OrderSummary>)
    ensures r.Failure? ==> r.error == SummaryError
  {
    match FindOrderOf(orders, orderId, userId)
    case None => Failure(SummaryError)
    case Some(k) => Success(SummaryOf(orders[k], orderId, orderItems, products))
  }

  /** As written, asking for an order the caller does not own answers 500
      where the intended handler answers 404 "Pedido no encontrado"; for an
      order the caller owns the two agree. */
  lemma MissingOrderAnswers500AsWritten(orders: seq<Order>, orderItems: seq<OrderItem>, products: seq<Product>,
                                        userId: string, orderId: string)
    ensures var w := GetOrderSummaryAsWritten(orders, orderItems, products, userId, orderId);
      var i := OrderSummaryResult(orders, orderItems, products, userId, orderId);
      && (i.Failure? ==> w.Failure? && w.error.status == 500 && i.error.status == 404)
      && (i.Success? ==> w == i)
  {
  }

  /** With no orders at all, every summary request shows the discrepancy. */
  lemma NoOrdersAnswers500AsWritten(orderItems: seq<OrderItem>, products: seq<Product>, userId: string, orderId: string)
    ensures GetOrderSummaryAsWritten([], orderItems, products, userId, orderId) == Failure(SummaryError)
    ensures OrderSummaryResult([], orderItems, products, userId, orderId) == Failure(OrderNotFound)
  {
  }
}
