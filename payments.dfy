/** The payment router and its copy in the monolithic server: the ordered
    rejection pipeline of a payment attempt, the authorization step, the rows an
    approved payment writes, card pre-validation, and checkout, which freezes a
    total into a pending order. */
module Payments {
  import opened Common
  import opened Store
  import opened CardValidation
  import opened CartRoutes

  // ------------------------------------------------------------------
  // Requests and responses
  // ------------------------------------------------------------------

  datatype PaymentCard = PaymentCard(
    cardNumber: string,
    expiryDate: string,
    cvv: string,
    cardholderName: string,
    country: string)

  /** `PaymentRequest`: `currency` defaults to "COP" and `order_id` is optional. */
  datatype PaymentRequest = PaymentRequest(
    email: string,
    card: PaymentCard,
    amount: real,
    currency: string,
    orderId: Option<string>)

  datatype PaymentResponse = PaymentResponse(success: bool, transactionId: Option<string>, error: Option<string>)

  datatype CardValidationResponse = CardValidationResponse(valid: bool, cardType: Option<string>, error: Option<string>)

  /** The reasons a payment is turned down before authorization, in the order
      they are checked. */
  datatype Rejection = AmountMismatch | InvalidCardNumber | InvalidExpiry | InvalidCvv

  function RejectionMessage(r: Rejection): string {
    match r
    case AmountMismatch => "El monto no coincide con el carrito actual"
    case InvalidCardNumber => "Número de tarjeta inválido"
    case InvalidExpiry => "Fecha de expiración inválida o tarjeta expirada"
    case InvalidCvv => "CVV inválido"
  }

  const DeclinedMessage := "Tarjeta rechazada por el banco emisor"
  const InternalErrorMessage := "Error interno del servidor"

  // ------------------------------------------------------------------
  // The rejection pipeline
  // ------------------------------------------------------------------

  /** The card checks shared by `validate_card` and `process_payment`: the
      number, then the expiry date, then the CVV; the first failing one names
      the rejection. */
  function CardRejection(cardNumber: string, expiry: string, cvv: string, now: DateTime): (r: Option<Rejection>)
    ensures r.None? <==> IsLuhnValid(cardNumber) && ValidateExpiryDate(expiry, now) && ValidCvv(cvv)
    ensures r == Some(InvalidCardNumber) <==> !IsLuhnValid(cardNumber)
    ensures r == Some(InvalidExpiry) <==> IsLuhnValid(cardNumber) && !ValidateExpiryDate(expiry, now)
    ensures r == Some(InvalidCvv) <==>
      IsLuhnValid(cardNumber) && ValidateExpiryDate(expiry, now) && !ValidCvv(cvv)
  {
    if !IsLuhnValid(cardNumber) then Some(InvalidCardNumber)
    else if !ValidateExpiryDate(expiry, now) then Some(InvalidExpiry)
    else if !ValidCvv(cvv) then Some(InvalidCvv)
    else None
  }

  /** The amount test: the request may differ from the live cart total by at
      most 0.01, compared over the reals rather than in binary floating
      point. */
  predicate AmountMatches(amount: real, cartTotal: int) {
    Abs(amount - cartTotal as real) <= 0.01
  }

  /** The static checks of `process_payment`: the amount check comes before any
      card check, so a wrong amount is reported whatever the card. */
  function PaymentRejection(cartTotal: int, req: PaymentRequest, now: DateTime): (r: Option<Rejection>)
    ensures r == Some(AmountMismatch) <==> !AmountMatches(req.amount, cartTotal)
    ensures r.None? <==>
      && AmountMatches(req.amount, cartTotal)
      && IsLuhnValid(req.card.cardNumber)
      && ValidateExpiryDate(req.card.expiryDate, now)
      && ValidCvv(req.card.cvv)
    ensures AmountMatches(req.amount, cartTotal) ==>
      r == CardRejection(req.card.cardNumber, req.card.expiryDate, req.card.cvv, now)
  {
    if !AmountMatches(req.amount, cartTotal) then Some(AmountMismatch)
    else CardRejection(req.card.cardNumber, req.card.expiryDate, req.card.cvv, now)
  }

  /** `validate_card`: the card checks without any cart, answering with the
      brand only when all three pass. With digits read as ASCII digits only,
      nothing it calls can raise, so its `except` branch is unreachable in
      this model. */
  function ValidateCard(cardNumber: string, expiry: string, cvv: string, now: DateTime): (r: CardValidationResponse)
    ensures r.valid <==> IsLuhnValid(cardNumber) && ValidateExpiryDate(expiry, now) && ValidCvv(cvv)
    ensures r.valid ==> r.cardType == Some(BrandName(CardType(cardNumber))) && r.error.None?
    ensures !r.valid ==> r.cardType.None? && r.error.Some?
  {
    match CardRejection(cardNumber, expiry, cvv, now)
    case Some(reason) => CardValidationResponse(false, None, Some(RejectionMessage(reason)))
    case None => CardValidationResponse(true, Some(BrandName(CardType(cardNumber))), None)
  }

  /** Once the amount matches, pre-validating the card predicts the payment
      pipeline exactly: the same verdict and the same error text. */
  lemma ValidateCardAgreesWithPayment(cartTotal: int, req: PaymentRequest, now: DateTime)
    requires AmountMatches(req.amount, cartTotal)
    ensures var v := ValidateCard(req.card.cardNumber, req.card.expiryDate, req.card.cvv, now);
      var p := PaymentRejection(cartTotal, req, now);
      && (v.valid <==> p.None?)
      && (p.Some? ==> v.error == Some(RejectionMessage(p.value)))
  {
  }

  // ------------------------------------------------------------------
  // Authorization and the rows an approval writes
  // ------------------------------------------------------------------

  /** How one payment attempt ends. `Failed` is the `except` branch: the
      persistence layer raised while the approval was being committed. */
  datatype Outcome = Rejected(reason: Rejection) | Declined | Approved | Failed

  /** The attempt's outcome. `approved` is the simulated issuer's answer
      (`random() > 0.3`) and `commitFails` whether the final commit raises;
      both are consulted only after every static check passed. */
  function PaymentOutcome(cartTotal: int, req: PaymentRequest, now: DateTime,
                          approved: bool, commitFails: bool): (o: Outcome)
    ensures o == Approved <==>
      && AmountMatches(req.amount, cartTotal)
      && IsLuhnValid(req.card.cardNumber)
      && ValidateExpiryDate(req.card.expiryDate, now)
      && ValidCvv(req.card.cvv)
      && approved && !commitFails
    ensures o.Rejected? <==> PaymentRejection(cartTotal, req, now).Some?
    ensures o.Rejected? ==> o.reason == PaymentRejection(cartTotal, req, now).value
    ensures o == Declined <==> PaymentRejection(cartTotal, req, now).None? && !approved
    ensures o == Failed <==> PaymentRejection(cartTotal, req, now).None? && approved && commitFails
  {
    match PaymentRejection(cartTotal, req, now)
    case Some(reason) => Rejected(reason)
    case None => if !approved then Declined else if commitFails then Failed else Approved
  }

  /** `TXN_<%Y%m%d>_<%H%M%S>_<token>`: each field sits at a fixed position,
      zero-padded to its width. */
  function TransactionCode(now: DateTime, token: string): (c: string)
    requires ValidDateTime(now)
    ensures |c| == 20 + |token|
    ensures c[..4] == "TXN_" && c[12] == '_' && c[19] == '_' && c[20..] == token
    ensures c[4..8] == PadDecimal(now.year, 4)
    ensures c[8..10] == PadDecimal(now.month, 2) && c[10..12] == PadDecimal(now.day, 2)
    ensures c[13..15] == PadDecimal(now.hour, 2) && c[15..17] == PadDecimal(now.minute, 2)
    ensures c[17..19] == PadDecimal(now.second, 2)
  {
    assert Pow10(2) == 100 && Pow10(4) == 10000;
    PadDecimalLength(now.year, 4); PadDecimalLength(now.month, 2); PadDecimalLength(now.day, 2);
    PadDecimalLength(now.hour, 2); PadDecimalLength(now.minute, 2); PadDecimalLength(now.second, 2);
    "TXN_" + PadDecimal(now.year, 4) + PadDecimal(now.month, 2) + PadDecimal(now.day, 2)
      + "_" + PadDecimal(now.hour, 2) + PadDecimal(now.minute, 2) + PadDecimal(now.second, 2)
      + "_" + token
  }

  /** `secrets.token_hex(4)`: eight lower-case hexadecimal digits. */
  predicate IsHexToken(t: string) {
    |t| == 8 && forall i :: 0 <= i < |t| ==> ('0' <= t[i] <= '9' || 'a' <= t[i] <= 'f')
  }

  /** A transaction code has a fixed layout, and the timestamp in it reads back
      as the current UTC time to the second. */
  lemma TransactionCodeLayout(now: DateTime, token: string)
    requires ValidDateTime(now) && IsHexToken(token)
    ensures var c := TransactionCode(now, token);
      && |c| == 28
      && c[..4] == "TXN_" && c[12] == '_' && c[19] == '_' && c[20..] == token
      && DecimalValue(c[4..8]) == now.year
      && DecimalValue(c[8..10]) == now.month && DecimalValue(c[10..12]) == now.day
      && DecimalValue(c[13..15]) == now.hour && DecimalValue(c[15..17]) == now.minute
      && DecimalValue(c[17..19]) == now.second
  {
    PadDecimalRoundTrip(now.year, 4); PadDecimalRoundTrip(now.month, 2); PadDecimalRoundTrip(now.day, 2);
    PadDecimalRoundTrip(now.hour, 2); PadDecimalRoundTrip(now.minute, 2); PadDecimalRoundTrip(now.second, 2);
  }

  /** `card_number[-4:]`: the last four characters of the number as typed,
      or all of it when it is shorter. */
  function LastFour(s: string): (r: string)
    ensures |r| == if |s| < 4 then |s| else 4
    ensures r == s[|s| - |r|..]
  {
    if |s| <= 4 then s else s[|s| - 4..]
  }

  /** The row an approved payment inserts. */
  function ApprovedTransaction(rowId: string, code: string, userId: string, req: PaymentRequest,
                               now: DateTime): PaymentTransaction
  {
    PaymentTransaction(rowId, code, req.email, userId, req.amount, req.currency,
                       LastFour(req.card.cardNumber), BrandName(CardType(req.card.cardNumber)),
                       TransactionCompleted, req.orderId, now)
  }

  /** The order table after an approval: `if payment_request.order_id:` skips a
      missing or empty id; otherwise the first order with that id (whoever owns
      it) becomes "paid" and records the transaction code. An id that does not
      resolve changes nothing. */
  function OrdersAfterApproval(orders: seq<Order>, orderId: Option<string>, code: string): (r: seq<Order>)
    ensures |r| == |orders|
    ensures forall i :: 0 <= i < |r| ==>
      && r[i].id == orders[i].id && r[i].userId == orders[i].userId
      && r[i].totalAmount == orders[i].totalAmount && r[i].createdAt == orders[i].createdAt
    ensures (orderId.None? || orderId.value == "" || FindOrder(orders, orderId.value).None?) ==> r == orders
    ensures orderId.Some? && orderId.value != "" && FindOrder(orders, orderId.value).Some? ==>
      var k := FindOrder(orders, orderId.value).value;
      && r[k].status == Paid && r[k].paymentSessionId == Some(code)
      && forall i :: 0 <= i < |r| && i != k ==> r[i] == orders[i]
  {
    if orderId.None? || orderId.value == "" then orders
    else match FindOrder(orders, orderId.value)
      case None => orders
      case Some(k) => orders[k := orders[k].(status := Paid, paymentSessionId := Some(code))]
  }

  /** With distinct order ids, the order that becomes "paid" is the one whose
      id was given, and every other order keeps its row. */
  lemma ApprovalPaysNamedOrder(orders: seq<Order>, id: string, code: string, k: nat)
    requires OrderIdsDistinct(orders) && id != "" && k < |orders| && orders[k].id == id
    ensures var r := OrdersAfterApproval(orders, Some(id), code);
      && r[k].status == Paid && r[k].paymentSessionId == Some(code)
      && (forall i :: 0 <= i < |r| && i != k ==> r[i] == orders[i])
      && OrderIdsDistinct(r)
  {
    var j := FindOrder(orders, id).value;
    assert orders[j].id == id;
    assert j == k;
  }

  // ------------------------------------------------------------------
  // process_payment
  // ------------------------------------------------------------------

  /** The response and the two tables after one payment attempt. */
  datatype PaymentEffect = PaymentEffect(response: PaymentResponse, orders: seq<Order>,
                                         transactions: seq<PaymentTransaction>)

  /** What a payment attempt against a cart whose live total is `cartTotal`
      answers and writes. Only an approval that commits writes anything: one
      completed transaction is appended and the referenced order is paid. A
      rejection, a decline or a failed commit leaves both tables as they were. */
  function PaymentEffectOf(orders: seq<Order>, transactions: seq<PaymentTransaction>, cartTotal: int,
                           userId: string, req: PaymentRequest, now: DateTime,
                           approved: bool, token: string, rowId: string, commitFails: bool): (e: PaymentEffect)
    requires ValidDateTime(now)
    ensures e.response.success <==> PaymentOutcome(cartTotal, req, now, approved, commitFails) == Approved
    ensures e.response.success ==>
      && |e.transactions| == |transactions| + 1
      && e.transactions[..|transactions|] == transactions
      && var t := e.transactions[|transactions|];
      && t.status == TransactionCompleted
      && t.transactionId == TransactionCode(now, token) && e.response.transactionId == Some(t.transactionId)
      && t.cardLastFour == LastFour(req.card.cardNumber)
      && t.cardType == BrandName(CardType(req.card.cardNumber))
      && t.amount == req.amount && t.userId == userId && t.orderId == req.orderId
      && t == ApprovedTransaction(rowId, t.transactionId, userId, req, now)
      && e.orders == OrdersAfterApproval(orders, req.orderId, t.transactionId)
    ensures !e.response.success ==>
      e.orders == orders && e.transactions == transactions && e.response.transactionId.None?
    ensures e.response.success <==> e.response.error.None?
    ensures !AmountMatches(req.amount, cartTotal) ==>
      e.response.error == Some(RejectionMessage(AmountMismatch))
    ensures PaymentRejection(cartTotal, req, now).Some? ==>
      e.response.error == Some(RejectionMessage(PaymentRejection(cartTotal, req, now).value))
    ensures PaymentOutcome(cartTotal, req, now, approved, commitFails) == Declined ==>
      e.response.error == Some(DeclinedMessage)
    ensures PaymentOutcome(cartTotal, req, now, approved, commitFails) == Failed ==>
      e.response.error == Some(InternalErrorMessage)
  {
    match PaymentOutcome(cartTotal, req, now, approved, commitFails)
    case Rejected(reason) =>
      PaymentEffect(PaymentResponse(false, None, Some(RejectionMessage(reason))), orders, transactions)
    case Declined =>
      PaymentEffect(PaymentResponse(false, None, Some(DeclinedMessage)), orders, transactions)
    case Failed =>
      PaymentEffect(PaymentResponse(false, None, Some(InternalErrorMessage)), orders, transactions)
    case Approved =>
      var code := TransactionCode(now, token);
      PaymentEffect(PaymentResponse(true, Some(code), None),
                    OrdersAfterApproval(orders, req.orderId, code),
                    transactions + [ApprovedTransaction(rowId, code, userId, req, now)])
  }

  /** The live total of the user's cart, as `process_payment` recomputes it. */
  function UserCartTotal(carts: seq<Cart>, items: seq<CartItem>, products: seq<Product>, userId: string): int {
    match FindCartOf(carts, userId)
    case Some(k) => CartTotal(EnrichLines(LinesOfCart(items, carts[k].id), products))
    case None => 0
  }

  /** Whether the transaction row breaks `payment_transactions.order_id →
      orders.id`: a non-NULL order id, the empty string included, that names
      no order. InnoDB refuses such a row when the approval is committed
      (backend/routers/payments.py:118), so that commit is certain to raise. */
  predicate OrderReferenceDangles(orders: seq<Order>, orderId: Option<string>) {
    orderId.Some? && FindOrder(orders, orderId.value).None?
  }

  /** Whether the approval's commit raises: a failure from outside
      (`commitFails`) or the foreign key the transaction row breaks. */
  predicate CommitRaises(orders: seq<Order>, orderId: Option<string>, commitFails: bool) {
    commitFails || OrderReferenceDangles(orders, orderId)
  }

  /** `process_payment`. The user's cart is found or created (and that creation
      is committed at once); its live total is compared with the amount, then
      the card is checked, then the issuer decides. */
  method ProcessPayment(db: Database, userId: string, req: PaymentRequest, now: DateTime,
                        newCartId: string, approved: bool, token: string, rowId: string,
                        commitFails: bool) returns (r: PaymentResponse)
    requires ValidDateTime(now)
    modifies db`carts, db`orders, db`transactions
    ensures db.carts == CartsWithCartFor(old(db.carts), userId, newCartId, now)
    ensures var e := PaymentEffectOf(old(db.orders), old(db.transactions),
                                     UserCartTotal(db.carts, db.cartItems, db.products, userId),
                                     userId, req, now, approved, token, rowId,
                                     CommitRaises(old(db.orders), req.orderId, commitFails));
      r == e.response && db.orders == e.orders && db.transactions == e.transactions
    ensures old(db.Valid()) && FreshCartId(old(db.carts), newCartId) ==> db.Valid()
  {
    ghost var carts0 := db.carts;
    ghost var wasValid := db.Valid() && FreshCartId(carts0, newCartId);
    var k := GetOrCreateCart(db, userId, newCartId, now);
    if wasValid {
      CartsWithCartForWellFormed(carts0, userId, newCartId, now);
    }
    r := PayWithCart(db, userId, k, req, now, approved, token, rowId, commitFails);
  }

  /** `process_payment` once the user's cart `k` is known: its live enriched
      total becomes the amount check's reference, then the payment settles. */
  method PayWithCart(db: Database, userId: string, k: nat, req: PaymentRequest, now: DateTime,
                     approved: bool, token: string, rowId: string, commitFails: bool)
    returns (r: PaymentResponse)
    requires ValidDateTime(now) && FindCartOf(db.carts, userId) == Some(k)
    modifies db`orders, db`transactions
    ensures var e := PaymentEffectOf(old(db.orders), old(db.transactions),
                                     UserCartTotal(db.carts, db.cartItems, db.products, userId),
                                     userId, req, now, approved, token, rowId,
                                     CommitRaises(old(db.orders), req.orderId, commitFails));
      r == e.response && db.orders == e.orders && db.transactions == e.transactions
    ensures OrderIdsDistinct(old(db.orders)) ==> OrderIdsDistinct(db.orders)
    ensures TransactionsReferenceOrders(old(db.orders), old(db.transactions)) ==>
      TransactionsReferenceOrders(db.orders, db.transactions)
  {
    var enriched := EnrichCart(db, db.carts[k]);
    var cartTotal := CartTotal(enriched.items);
    assert cartTotal == UserCartTotal(db.carts, db.cartItems, db.products, userId);
    r := SettlePayment(db, cartTotal, userId, req, now, approved, token, rowId, commitFails);
  }

  /** The part of `process_payment` after the cart total is known: the checks
      in order, the issuer's answer, and on approval the transaction row and
      the order's status change, committed together. */
  method SettlePayment(db: Database, cartTotal: int, userId: string, req: PaymentRequest, now: DateTime,
                       approved: bool, token: string, rowId: string, commitFails: bool)
    returns (r: PaymentResponse)
    requires ValidDateTime(now)
    modifies db`orders, db`transactions
    ensures var e := PaymentEffectOf(old(db.orders), old(db.transactions), cartTotal,
                                     userId, req, now, approved, token, rowId,
                                     CommitRaises(old(db.orders), req.orderId, commitFails));
      r == e.response && db.orders == e.orders && db.transactions == e.transactions
    ensures OrderIdsDistinct(old(db.orders)) ==> OrderIdsDistinct(db.orders)
    ensures TransactionsReferenceOrders(old(db.orders), old(db.transactions)) ==>
      TransactionsReferenceOrders(db.orders, db.transactions)
  {
    if !AmountMatches(req.amount, cartTotal) {
      return PaymentResponse(false, None, Some(RejectionMessage(AmountMismatch)));
    }
    var numberOk := ValidateCardNumber(req.card.cardNumber);
    if !numberOk {
      return PaymentResponse(false, None, Some(RejectionMessage(InvalidCardNumber)));
    }
    if !ValidateExpiryDate(req.card.expiryDate, now) {
      return PaymentResponse(false, None, Some(RejectionMessage(InvalidExpiry)));
    }
    var cvv := req.card.cvv;
    if !(3 <= |cvv| <= 4 && IsDigitString(cvv)) {
      return PaymentResponse(false, None, Some(RejectionMessage(InvalidCvv)));
    }
    if !approved {
      return PaymentResponse(false, None, Some(DeclinedMessage));
    }
    if commitFails || OrderReferenceDangles(db.orders, req.orderId) {
      // db.rollback(): the staged transaction row and order update are discarded.
      return PaymentResponse(false, None, Some(InternalErrorMessage));
    }
    r := RecordApproval(db, userId, req, now, token, rowId);
  }

  /** The writes of an approved payment: the completed transaction row and the
      referenced order's status change. */
  method RecordApproval(db: Database, userId: string, req: PaymentRequest, now: DateTime,
                        token: string, rowId: string) returns (r: PaymentResponse)
    requires ValidDateTime(now) && !OrderReferenceDangles(db.orders, req.orderId)
    modifies db`orders, db`transactions
    ensures var code := TransactionCode(now, token);
      && r == PaymentResponse(true, Some(code), None)
      && db.orders == OrdersAfterApproval(old(db.orders), req.orderId, code)
      && db.transactions == old(db.transactions) + [ApprovedTransaction(rowId, code, userId, req, now)]
    ensures OrderIdsDistinct(old(db.orders)) ==> OrderIdsDistinct(db.orders)
    ensures TransactionsReferenceOrders(old(db.orders), old(db.transactions)) ==>
      TransactionsReferenceOrders(db.orders, db.transactions)
  {
    var code := TransactionCode(now, token);
    var row := ApprovedTransaction(rowId, code, userId, req, now);
    PaymentKeepsOrderIds(db.orders, req.orderId, code);
    if TransactionsReferenceOrders(db.orders, db.transactions) {
      ApprovalKeepsReferences(db.orders, db.transactions, row, req.orderId, code);
    }
    db.transactions := db.transactions + [row];
    MarkOrderPaid(db, req.orderId, code);
    r := PaymentResponse(true, Some(code), None);
  }

  /** The status change of the order a payment names, if it resolves. */
  method MarkOrderPaid(db: Database, orderId: Option<string>, code: string)
    modifies db`orders
    ensures db.orders == OrdersAfterApproval(old(db.orders), orderId, code)
  {
    if orderId.Some? && orderId.value != "" {
      var found := FindOrder(db.orders, orderId.value);
      if found.Some? {
        var k := found.value;
        db.orders := db.orders[k := db.orders[k].(status := Paid, paymentSessionId := Some(code))];
      }
    }
  }

  /** A payment attempt keeps the database's invariants: the order table's ids
      are untouched by the status change. */
  lemma PaymentKeepsOrderIds(orders: seq<Order>, orderId: Option<string>, code: string)
    ensures OrderIdsDistinct(orders) ==> OrderIdsDistinct(OrdersAfterApproval(orders, orderId, code))
  {
    var r := OrdersAfterApproval(orders, orderId, code);
    assert forall i :: 0 <= i < |r| ==> r[i].id == orders[i].id;
  }

  /** A transaction row that names no order is never recorded: the payment
      fails and both tables are as before. Once every check passed and the
      issuer approved, the answer is the generic error. */
  lemma DanglingOrderNeverRecorded(orders: seq<Order>, transactions: seq<PaymentTransaction>, cartTotal: int,
                                   userId: string, req: PaymentRequest, now: DateTime,
                                   approved: bool, token: string, rowId: string, commitFails: bool)
    requires ValidDateTime(now) && OrderReferenceDangles(orders, req.orderId)
    ensures var e := PaymentEffectOf(orders, transactions, cartTotal, userId, req, now, approved,
                                     token, rowId, CommitRaises(orders, req.orderId, commitFails));
      && !e.response.success && e.orders == orders && e.transactions == transactions
      && (PaymentRejection(cartTotal, req, now).None? && approved ==>
            e.response.error == Some(InternalErrorMessage))
  {
  }

  /** Payment keeps every transaction's order reference resolvable. */
  lemma PaymentKeepsReferences(orders: seq<Order>, transactions: seq<PaymentTransaction>, cartTotal: int,
                               userId: string, req: PaymentRequest, now: DateTime,
                               approved: bool, token: string, rowId: string, commitFails: bool)
    requires ValidDateTime(now) && TransactionsReferenceOrders(orders, transactions)
    ensures var e := PaymentEffectOf(orders, transactions, cartTotal, userId, req, now, approved,
                                     token, rowId, CommitRaises(orders, req.orderId, commitFails));
      TransactionsReferenceOrders(e.orders, e.transactions)
  {
    var e := PaymentEffectOf(orders, transactions, cartTotal, userId, req, now, approved,
                             token, rowId, CommitRaises(orders, req.orderId, commitFails));
    if e.response.success {
      var code := TransactionCode(now, token);
      ApprovalKeepsReferences(orders, transactions, ApprovedTransaction(rowId, code, userId, req, now),
                              req.orderId, code);
    }
  }

  /** The rows an approval writes keep the references resolvable, provided
      the new row's order id resolves. */
  lemma ApprovalKeepsReferences(orders: seq<Order>, transactions: seq<PaymentTransaction>,
                                t: PaymentTransaction, orderId: Option<string>, code: string)
    requires TransactionsReferenceOrders(orders, transactions)
    requires t.orderId == orderId && !OrderReferenceDangles(orders, orderId)
    ensures TransactionsReferenceOrders(OrdersAfterApproval(orders, orderId, code), transactions + [t])
  {
    var after := OrdersAfterApproval(orders, orderId, code);
    var all := transactions + [t];
    forall i | 0 <= i < |all| && all[i].orderId.Some?
      ensures FindOrder(after, all[i].orderId.value).Some?
    {
      FindOrderSameIds(orders, after, all[i].orderId.value);
      if i < |transactions| {
        assert all[i] == transactions[i];
      }
    }
  }

  // ------------------------------------------------------------------
  // create_checkout_session
  // ------------------------------------------------------------------

  /** What one requested line adds to the checkout total: the product's current
      price times the requested quantity when the product exists (active or
      not), and nothing when it does not. */
  function RequestedLineTotal(products: seq<Product>): CartItemRequest -> int {
    (q: CartItemRequest) =>
      match FindProduct(products, q.productId)
      case Some(k) => products[k].price * q.quantity
      case None => 0
  }

  function Resolvable(products: seq<Product>): CartItemRequest -> bool {
    (q: CartItemRequest) => FindProduct(products, q.productId).Some?
  }

  lemma {:induction false} SumOfZeros<T>(s: seq<T>, f: T -> int)
    requires forall i :: 0 <= i < |s| ==> f(s[i]) == 0
    ensures Sum(s, f) == 0
  {
    if s != [] {
      SumOfZeros(s[..|s| - 1], f);
    }
  }

  /** The checkout total: price × quantity summed over the requested lines. */
  function CheckoutTotal(reqs: seq<CartItemRequest>, products: seq<Product>): int {
    Sum(reqs, RequestedLineTotal(products))
  }

  /** The checkout total is the sum of price × quantity over the requested
      lines whose product exists; unresolved lines add nothing. */
  lemma CheckoutTotalOverResolvable(reqs: seq<CartItemRequest>, products: seq<Product>)
    ensures CheckoutTotal(reqs, products) ==
      Sum(Filter(reqs, Resolvable(products)), RequestedLineTotal(products))
  {
    var p := Resolvable(products);
    var q := (x: CartItemRequest) => !p(x);
    SumFilterSplit(reqs, p, q, RequestedLineTotal(products));
    SumOfZeros(Filter(reqs, q), RequestedLineTotal(products));
  }



  /** The total loop of `create_checkout_session`. */
  method ComputeCheckoutTotal(db: Database, reqs: seq<CartItemRequest>) returns (total: int)
    ensures total == CheckoutTotal(reqs, db.products)
  {
    total := 0;
    var i := 0;
    while i < |reqs|
      invariant 0 <= i <= |reqs|
      invariant total == CheckoutTotal(reqs[..i], db.products)
    {
      assert reqs[..i + 1][..i] == reqs[..i];
      var product := FindProduct(db.products, reqs[i].productId);
      if product.Some? {
        total := total + db.products[product.value].price * reqs[i].quantity;
      }
      i := i + 1;
    }
    assert reqs[..|reqs|] == reqs;
  }

  /** The request a cart line becomes when the cart is sent to checkout. */
  function RequestOf(line: CartItem): CartItemRequest {
    CartItemRequest(line.productId, line.quantity, line.prescriptionFile)
  }

  function RequestsOf(lines: seq<CartItem>): (r: seq<CartItemRequest>)
    ensures |r| == |lines| && forall i :: 0 <= i < |lines| ==> r[i] == RequestOf(lines[i])
  {
    if lines == [] then [] else RequestsOf(lines[..|lines| - 1]) + [RequestOf(lines[|lines| - 1])]
  }

  /** Checking out exactly the cart's lines freezes the cart's live total. */
  lemma {:induction false} CheckoutOfCartIsCartTotal(lines: seq<CartItem>, products: seq<Product>)
    ensures CheckoutTotal(RequestsOf(lines), products) == CartTotal(EnrichLines(lines, products))
  {
    CartTotalIsLiveTotal(lines, products);
    CheckoutSumMatches(lines, products);
  }

  lemma {:induction false} CheckoutSumMatches(lines: seq<CartItem>, products: seq<Product>)
    ensures Sum(RequestsOf(lines), RequestedLineTotal(products)) == Sum(lines, LiveLineTotal(products))
  {
    if lines != [] {
      CheckoutSumMatches(lines[..|lines| - 1], products);
      var r := RequestsOf(lines);
      assert r[..|r| - 1] == RequestsOf(lines[..|lines| - 1]);
    }
  }

  /** Paying exactly the frozen total of a checkout of the cart passes the
      amount check, as long as no price changed in between. */
  lemma FrozenTotalPassesAmountCheck(carts: seq<Cart>, items: seq<CartItem>, products: seq<Product>,
                                     userId: string, k: nat, req: PaymentRequest)
    requires FindCartOf(carts, userId) == Some(k)
    requires req.amount == CheckoutTotal(RequestsOf(LinesOfCart(items, carts[k].id)), products) as real
    ensures AmountMatches(req.amount, UserCartTotal(carts, items, products, userId))
  {
    CheckoutOfCartIsCartTotal(LinesOfCart(items, carts[k].id), products);
  }

  /** The 0.01 tolerance with whole-peso totals: an amount a hundredth short of
      17000 is still accepted, two hundredths short is not. */
  lemma AmountToleranceExample()
    ensures AmountMatches(16999.99, 17000)
    ensures !AmountMatches(16999.98, 17000)
  {
  }

  /** The rows checkout inserts for the order's lines: one per requested line,
      whether or not its product exists, with the quantity as requested. */
  function NewOrderItems(orderId: string, reqs: seq<CartItemRequest>, ids: seq<string>): (r: seq<OrderItem>)
    requires |ids| == |reqs|
    ensures |r| == |reqs|
    ensures forall i :: 0 <= i < |r| ==>
      && r[i].id == ids[i] && r[i].orderId == orderId
      && r[i].productId == reqs[i].productId && r[i].quantity == reqs[i].quantity
      && r[i].prescriptionFile == reqs[i].prescriptionFile
  {
    if reqs == [] then []
    else NewOrderItems(orderId, reqs[..|reqs| - 1], ids[..|ids| - 1])
         + [OrderItem(ids[|ids| - 1], orderId, reqs[|reqs| - 1].productId,
                      reqs[|reqs| - 1].quantity, reqs[|reqs| - 1].prescriptionFile)]
  }

  /** The loop of `create_checkout_session` that stages one order line per
      requested line. */
  method BuildOrderItems(orderId: string, reqs: seq<CartItemRequest>, ids: seq<string>)
    returns (added: seq<OrderItem>)
    requires |ids| == |reqs|
    ensures added == NewOrderItems(orderId, reqs, ids)
  {
    added := [];
    var i := 0;
    while i < |reqs|
      invariant 0 <= i <= |reqs|
      invariant added == NewOrderItems(orderId, reqs[..i], ids[..i])
    {
      assert reqs[..i + 1][..i] == reqs[..i] && ids[..i + 1][..i] == ids[..i];
      var item := reqs[i];
      added := added + [OrderItem(ids[i], orderId, item.productId, item.quantity, item.prescriptionFile)];
      i := i + 1;
    }
    assert reqs[..|reqs|] == reqs && ids[..|ids|] == ids;
  }

  datatype CheckoutResponse = CheckoutResponse(orderId: string, totalAmount: int, currency: string, status: string)

  /** Where a checkout's persistence can raise: at the commit of the order row
      or at the later commit of its lines. */
  datatype CheckoutFault = NoFault | OrderCommitFails | ItemsCommitFails

  const CheckoutError := HttpError(500, "Error al crear sesión de checkout")

  /** Whether every requested product exists, as `order_items.product_id →
      products.id` (backend/models.py:75) demands of the lines checkout stages. */
  predicate ProductsResolve(reqs: seq<CartItemRequest>, products: seq<Product>) {
    forall i :: 0 <= i < |reqs| ==> FindProduct(products, reqs[i].productId).Some?
  }

  /** The fault a checkout actually meets. Without a failure from outside, a
      requested product that does not exist breaks the foreign key, so the
      lines' commit (backend/routers/payments.py:181) is certain to raise. */
  function CheckoutFaultMet(fault: CheckoutFault, reqs: seq<CartItemRequest>, products: seq<Product>): (f: CheckoutFault)
    ensures f == NoFault <==> fault == NoFault && ProductsResolve(reqs, products)
    ensures f == OrderCommitFails <==> fault == OrderCommitFails
    ensures fault == NoFault && !ProductsResolve(reqs, products) ==> f == ItemsCommitFails
  {
    if fault == NoFault && !ProductsResolve(reqs, products) then ItemsCommitFails else fault
  }

  /** Lines staged for products that all exist keep the order lines' product
      references resolvable. */
  lemma NewOrderItemsReferenceProducts(orderItems: seq<OrderItem>, products: seq<Product>,
                                       orderId: string, reqs: seq<CartItemRequest>, ids: seq<string>)
    requires |ids| == |reqs|
    requires OrderItemsReferenceProducts(orderItems, products) && ProductsResolve(reqs, products)
    ensures OrderItemsReferenceProducts(orderItems + NewOrderItems(orderId, reqs, ids), products)
  {
    var added := NewOrderItems(orderId, reqs, ids);
    var all := orderItems + added;
    forall i | 0 <= i < |all|
      ensures FindProduct(products, all[i].productId).Some?
    {
      if i >= |orderItems| {
        assert all[i] == added[i - |orderItems|];
      }
    }
  }

  /** The order row checkout creates: the frozen total, "pending", no session. */
  function PendingOrder(id: string, userId: string, total: int, now: DateTime): Order {
    Order(id, userId, total, Pending, None, now)
  }

  /** The commit of a new order row. */
  method InsertOrder(db: Database, o: Order)
    modifies db`orders
    ensures db.orders == old(db.orders) + [o]
    ensures OrderIdsDistinct(old(db.orders)) && FreshOrderId(old(db.orders), o.id) ==> OrderIdsDistinct(db.orders)
    ensures TransactionsReferenceOrders(old(db.orders), db.transactions) ==>
      TransactionsReferenceOrders(db.orders, db.transactions)
  {
    if TransactionsReferenceOrders(db.orders, db.transactions) {
      AppendOrderKeepsReferences(db.orders, o, db.transactions);
    }
    db.orders := db.orders + [o];
  }

  /** The commit of the staged order lines. */
  method InsertOrderLines(db: Database, added: seq<OrderItem>, orderId: string,
                          reqs: seq<CartItemRequest>, ids: seq<string>)
    requires |ids| == |reqs| && added == NewOrderItems(orderId, reqs, ids)
    requires ProductsResolve(reqs, db.products)
    modifies db`orderItems
    ensures db.orderItems == old(db.orderItems) + added
    ensures OrderItemsReferenceProducts(old(db.orderItems), db.products) ==>
      OrderItemsReferenceProducts(db.orderItems, db.products)
  {
    if OrderItemsReferenceProducts(db.orderItems, db.products) {
      NewOrderItemsReferenceProducts(db.orderItems, db.products, orderId, reqs, ids);
    }
    db.orderItems := db.orderItems + added;
  }

  /** `create_checkout_session`. The order row is committed before its lines,
      so a failure while committing the lines leaves a pending order without
      lines behind; a failure at the first commit leaves nothing. */
  method CreateCheckoutSession(db: Database, userId: string, reqs: seq<CartItemRequest>, now: DateTime,
                               newOrderId: string, newItemIds: seq<string>, fault: CheckoutFault)
    returns (r: Result<CheckoutResponse>)
    requires |newItemIds| == |reqs|
    modifies db`orders, db`orderItems
    ensures var order := PendingOrder(newOrderId, userId, CheckoutTotal(reqs, db.products), now);
      var met := CheckoutFaultMet(fault, reqs, db.products);
      && (met == OrderCommitFails ==>
            r == Failure(CheckoutError) && db.orders == old(db.orders) && db.orderItems == old(db.orderItems))
      && (met == ItemsCommitFails ==>
            r == Failure(CheckoutError) && db.orders == old(db.orders) + [order]
            && db.orderItems == old(db.orderItems))
      && (met == NoFault ==>
            && r == Success(CheckoutResponse(newOrderId, order.totalAmount, "COP", "pending"))
            && db.orders == old(db.orders) + [order]
            && db.orderItems == old(db.orderItems) + NewOrderItems(newOrderId, reqs, newItemIds))
    ensures old(db.Valid()) && FreshOrderId(old(db.orders), newOrderId) ==> db.Valid()
  {
    var total := ComputeCheckoutTotal(db, reqs);
    var met := CheckoutFaultMet(fault, reqs, db.products);
    if met == OrderCommitFails {
      return Failure(CheckoutError);
    }
    InsertOrder(db, PendingOrder(newOrderId, userId, total, now));
    var added := BuildOrderItems(newOrderId, reqs, newItemIds);
    if met == ItemsCommitFails {
      // The order row is already committed; the lines' commit raises.
      return Failure(CheckoutError);
    }
    InsertOrderLines(db, added, newOrderId, reqs, newItemIds);
    r := Success(CheckoutResponse(newOrderId, total, "COP", "pending"));
  }
}
