/** The backend's tables (products, carts, cart lines, orders, order lines and
    payment transactions) as one in-memory database whose handlers replace rows
    in place, together with the queries (`.filter(...).first()`) they run. */
module Store {
  import opened Common

  datatype Product = Product(
    id: string,
    name: string,
    description: string,
    price: int,                 // whole pesos (COP)
    category: string,
    stock: int,
    imageUrl: Option<string>,
    requiresPrescription: bool,
    active: bool)

  datatype Cart = Cart(id: string, userId: string, updatedAt: DateTime)

  datatype CartItem = CartItem(
    id: string,
    cartId: string,
    productId: string,
    quantity: int,
    prescriptionFile: Option<string>)

  /** The `status` column of an order: the handlers write "pending" and "paid";
      any other text stored there is carried as it is. */
  datatype OrderStatus = Pending | Paid | OtherStatus(text: string)

  function StatusLabel(s: OrderStatus): string {
    match s
    case Pending => "pending"
    case Paid => "paid"
    case OtherStatus(text) => text
  }

  datatype Order = Order(
    id: string,
    userId: string,
    totalAmount: int,
    status: OrderStatus,
    paymentSessionId: Option<string>,
    createdAt: DateTime)

  datatype OrderItem = OrderItem(
    id: string,
    orderId: string,
    productId: string,
    quantity: int,
    prescriptionFile: Option<string>)

  datatype TransactionStatus = TransactionPending | TransactionCompleted

  datatype PaymentTransaction = PaymentTransaction(
    id: string,
    transactionId: string,
    email: string,
    userId: string,
    amount: real,
    currency: string,
    cardLastFour: string,
    cardType: string,
    status: TransactionStatus,
    orderId: Option<string>,
    createdAt: DateTime)

  /** `CartItemModel`: one requested line of an add-to-cart or a checkout. */
  datatype CartItemRequest = CartItemRequest(productId: string, quantity: int, prescriptionFile: Option<string>)

  /** An HTTP error a handler raises: status code and `detail`. */
  datatype HttpError = HttpError(status: int, detail: string)

  datatype Result<+T> = Success(value: T) | Failure(error: HttpError)

  // ------------------------------------------------------------------
  // Queries
  // ------------------------------------------------------------------

  /** `query(Product).filter(Product.id == id).first()` */
  function FindProduct(products: seq<Product>, id: string): (r: Option<nat>)
    ensures r.Some? ==> r.value < |products| && products[r.value].id == id
    ensures r.None? <==> forall k :: 0 <= k < |products| ==> products[k].id != id
  {
    FindIndex(products, (p: Product) => p.id == id)
  }

  /** The same query with `Product.active == True` added. */
  function FindActiveProduct(products: seq<Product>, id: string): (r: Option<nat>)
    ensures r.Some? ==> r.value < |products| && products[r.value].id == id && products[r.value].active
    ensures r.None? <==> forall k :: 0 <= k < |products| ==> !(products[k].id == id && products[k].active)
  {
    FindIndex(products, (p: Product) => p.id == id && p.active)
  }

  /** `query(Cart).filter(Cart.user_id == userId).first()` */
  function FindCartOf(carts: seq<Cart>, userId: string): (r: Option<nat>)
    ensures r.Some? ==> r.value < |carts| && carts[r.value].userId == userId
    ensures r.None? <==> forall k :: 0 <= k < |carts| ==> carts[k].userId != userId
  {
    FindIndex(carts, (c: Cart) => c.userId == userId)
  }

  /** The cart line query on `cart_id` and `product_id` together. */
  function FindLine(items: seq<CartItem>, cartId: string, productId: string): (r: Option<nat>)
    ensures r.Some? ==> r.value < |items| && items[r.value].cartId == cartId && items[r.value].productId == productId
    ensures r.Some? ==> forall k :: 0 <= k < r.value ==> !(items[k].cartId == cartId && items[k].productId == productId)
    ensures r.None? <==> forall k :: 0 <= k < |items| ==> !(items[k].cartId == cartId && items[k].productId == productId)
  {
    FindIndex(items, (l: CartItem) => l.cartId == cartId && l.productId == productId)
  }

  /** `query(Order).filter(Order.id == id).first()` */
  function FindOrder(orders: seq<Order>, id: string): (r: Option<nat>)
    ensures r.Some? ==> r.value < |orders| && orders[r.value].id == id
    ensures r.None? <==> forall k :: 0 <= k < |orders| ==> orders[k].id != id
  {
    FindIndex(orders, (o: Order) => o.id == id)
  }

  /** The order query on `id` and `user_id` together. */
  function FindOrderOf(orders: seq<Order>, id: string, userId: string): (r: Option<nat>)
    ensures r.Some? ==> r.value < |orders| && orders[r.value].id == id && orders[r.value].userId == userId
    ensures r.None? <==> forall k :: 0 <= k < |orders| ==> !(orders[k].id == id && orders[k].userId == userId)
  {
    FindIndex(orders, (o: Order) => o.id == id && o.userId == userId)
  }

  // ------------------------------------------------------------------
  // Invariants the handlers keep
  // ------------------------------------------------------------------

  /** Every line holds at least one unit, and no cart holds two lines for one product. */
  predicate LinesWellFormed(items: seq<CartItem>) {
    && (forall k :: 0 <= k < |items| ==> items[k].quantity >= 1)
    && (forall i, j :: 0 <= i < j < |items| ==>
          !(items[i].cartId == items[j].cartId && items[i].productId == items[j].productId))
  }

  /** Each user owns at most one cart, and cart ids are distinct. */
  predicate CartsWellFormed(carts: seq<Cart>) {
    forall i, j :: 0 <= i < j < |carts| ==> carts[i].userId != carts[j].userId && carts[i].id != carts[j].id
  }

  predicate OrderIdsDistinct(orders: seq<Order>) {
    forall i, j :: 0 <= i < j < |orders| ==> orders[i].id != orders[j].id
  }

  /** A uuid: distinct from every id already stored in the table it goes into. */
  predicate FreshCartId(carts: seq<Cart>, id: string) {
    forall k :: 0 <= k < |carts| ==> carts[k].id != id
  }

  predicate FreshOrderId(orders: seq<Order>, id: string) {
    forall k :: 0 <= k < |orders| ==> orders[k].id != id
  }

  /** The lookup returns the first matching line, whichever that is. */
  lemma FindLineIs(items: seq<CartItem>, cartId: string, productId: string, k: nat)
    requires k < |items| && items[k].cartId == cartId && items[k].productId == productId
    requires forall i :: 0 <= i < k ==> !(items[i].cartId == cartId && items[i].productId == productId)
    ensures FindLine(items, cartId, productId) == Some(k)
  {
  }

  /** In a well-formed list, a matching line is the one the lookup returns. */
  lemma FindLineUnique(items: seq<CartItem>, cartId: string, productId: string, k: nat)
    requires LinesWellFormed(items)
    requires k < |items| && items[k].cartId == cartId && items[k].productId == productId
    ensures FindLine(items, cartId, productId) == Some(k)
  {
    FindLineIs(items, cartId, productId, k);
  }

  /** `payment_transactions.order_id` references `orders.id`
      (backend/models.py:91): NULL is allowed, any other value names an order. */
  predicate TransactionsReferenceOrders(orders: seq<Order>, transactions: seq<PaymentTransaction>) {
    forall i :: 0 <= i < |transactions| && transactions[i].orderId.Some? ==>
      FindOrder(orders, transactions[i].orderId.value).Some?
  }

  /** `order_items.product_id` references `products.id` (backend/models.py:75). */
  predicate OrderItemsReferenceProducts(orderItems: seq<OrderItem>, products: seq<Product>) {
    forall i :: 0 <= i < |orderItems| ==> FindProduct(products, orderItems[i].productId).Some?
  }

  /** Two order tables with the same ids position by position resolve the
      same ids. */
  lemma FindOrderSameIds(a: seq<Order>, b: seq<Order>, id: string)
    requires |a| == |b| && forall i :: 0 <= i < |a| ==> a[i].id == b[i].id
    ensures FindOrder(a, id).Some? <==> FindOrder(b, id).Some?
  {
    if FindOrder(a, id).Some? {
      assert b[FindOrder(a, id).value].id == id;
    }
    if FindOrder(b, id).Some? {
      assert a[FindOrder(b, id).value].id == id;
    }
  }

  /** Appending a row keeps every id that already resolved resolvable. */
  lemma FindOrderAppend(orders: seq<Order>, o: Order, id: string)
    requires FindOrder(orders, id).Some?
    ensures FindOrder(orders + [o], id).Some?
  {
    var k := FindOrder(orders, id).value;
    assert (orders + [o])[k].id == id;
  }

  /** A new order row keeps the transactions' references resolvable. */
  lemma AppendOrderKeepsReferences(orders: seq<Order>, o: Order, transactions: seq<PaymentTransaction>)
    requires TransactionsReferenceOrders(orders, transactions)
    ensures TransactionsReferenceOrders(orders + [o], transactions)
  {
    forall i | 0 <= i < |transactions| && transactions[i].orderId.Some?
      ensures FindOrder(orders + [o], transactions[i].orderId.value).Some?
    {
      FindOrderAppend(orders, o, transactions[i].orderId.value);
    }
  }

  /** The database the handlers share. Each table is a sequence of rows in
      insertion order, which is the order `.all()` and `.first()` see. */
  class Database {
    var products: seq<Product>
    var carts: seq<Cart>
    var cartItems: seq<CartItem>
    var orders: seq<Order>
    var orderItems: seq<OrderItem>
    var transactions: seq<PaymentTransaction>

    ghost predicate Valid()
      reads this
    {
      && CartsWellFormed(carts) && LinesWellFormed(cartItems) && OrderIdsDistinct(orders)
      && TransactionsReferenceOrders(orders, transactions)
      && OrderItemsReferenceProducts(orderItems, products)
    }

    /** A store with a catalogue and no customer data yet. */
    constructor (catalogue: seq<Product>)
      ensures products == catalogue
      ensures carts == [] && cartItems == [] && orders == [] && orderItems == [] && transactions == []
      ensures Valid()
    {
      products := catalogue;
      carts := [];
      cartItems := [];
      orders := [];
      orderItems := [];
      transactions := [];
    }
  }
}
