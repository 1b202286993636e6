/** The order router: a user's order list, newest first, reporting each
    order's frozen total, and the pre-payment summary of one order, which
    recomputes the total from live prices. Both only read the tables. */
module Orders {
  import opened Common
  import opened Store
  import opened Payments

  // ------------------------------------------------------------------
  // Newest first
  // ------------------------------------------------------------------

  /** `order_by(Order.created_at.desc())`: no order is created later than one
      listed before it. */
  predicate NewestFirst(s: seq<Order>) {
    forall i, j :: 0 <= i < j < |s| ==> !Before(s[i].createdAt, s[j].createdAt)
  }

  /** Places `o` before the first order not created after it. */
  function Insert(o: Order, s: seq<Order>): (r: seq<Order>)
    ensures multiset(r) == multiset(s) + multiset{o}
  {
    if s == [] || !Before(o.createdAt, s[0].createdAt) then [o] + s
    else
      assert s == [s[0]] + s[1..];
      [s[0]] + Insert(o, s[1..])
  }

  /** The orders sorted by creation time, newest first (ties, which the
      database leaves in no particular order, keep their relative order
      reversed). */
  function SortNewestFirst(s: seq<Order>): (r: seq<Order>)
    ensures multiset(r) == multiset(s)
    ensures NewestFirst(r)
  {
    if s == [] then []
    else
      assert s == [s[0]] + s[1..];
      var rest := SortNewestFirst(s[1..]);
      InsertNewestFirst(s[0], rest);
      Insert(s[0], rest)
  }

  /** "Not earlier than" chains. */
  lemma NotBeforeTransitive(a: DateTime, b: DateTime, c: DateTime)
    requires !Before(a, b) && !Before(b, c)
    ensures !Before(a, c)
  {
    BeforeTotal(a, b);
    if Before(b, a) && Before(a, c) {
      BeforeTransitive(b, a, c);
    }
  }

  lemma BeforeAsymmetric(a: DateTime, b: DateTime)
    requires Before(a, b)
    ensures !Before(b, a)
  {
    if Before(b, a) {
      BeforeTransitive(a, b, a);
      BeforeIrreflexive(a);
    }
  }

  /** No order of `s` was created after `t`. */
  predicate NoneAfter(t: DateTime, s: seq<Order>) {
    forall k :: 0 <= k < |s| ==> !Before(t, s[k].createdAt)
  }

  lemma ConsNewestFirst(x: Order, s: seq<Order>)
    requires NewestFirst(s) && NoneAfter(x.createdAt, s)
    ensures NewestFirst([x] + s)
  {
    var r := [x] + s;
    forall i, j | 0 <= i < j < |r| ensures !Before(r[i].createdAt, r[j].createdAt) {
      assert r[j] == s[j - 1];
      if i > 0 {
        assert r[i] == s[i - 1];
      }
    }
  }

  lemma {:induction false} InsertNoneAfter(t: DateTime, o: Order, s: seq<Order>)
    requires !Before(t, o.createdAt) && NoneAfter(t, s)
    ensures NoneAfter(t, Insert(o, s))
  {
    if s != [] && Before(o.createdAt, s[0].createdAt) {
      InsertNoneAfter(t, o, s[1..]);
      var rest := Insert(o, s[1..]);
      forall k | 0 <= k < |[s[0]] + rest| ensures !Before(t, ([s[0]] + rest)[k].createdAt) {
        if k > 0 {
          assert ([s[0]] + rest)[k] == rest[k - 1];
        }
      }
    } else {
      forall k | 0 <= k < |[o] + s| ensures !Before(t, ([o] + s)[k].createdAt) {
        if k > 0 {
          assert ([o] + s)[k] == s[k - 1];
        }
      }
    }
  }

  lemma {:induction false} InsertNewestFirst(o: Order, s: seq<Order>)
    requires NewestFirst(s)
    ensures NewestFirst(Insert(o, s))
  {
    if s == [] {
    } else if !Before(o.createdAt, s[0].createdAt) {
      forall k | 0 <= k < |s| ensures !Before(o.createdAt, s[k].createdAt) {
        if k > 0 {
          NotBeforeTransitive(o.createdAt, s[0].createdAt, s[k].createdAt);
        }
      }
      ConsNewestFirst(o, s);
    } else {
      var tail := s[1..];
      assert NewestFirst(tail) && NoneAfter(s[0].createdAt, tail) by {
        assert forall k :: 0 <= k < |tail| ==> tail[k] == s[k + 1];
      }
      InsertNewestFirst(o, tail);
      BeforeAsymmetric(o.createdAt, s[0].createdAt);
      InsertNoneAfter(s[0].createdAt, o, tail);
      ConsNewestFirst(s[0], Insert(o, tail));
    }
  }

  // ------------------------------------------------------------------
  // get_user_orders
  // ------------------------------------------------------------------

  /** One entry of an order's `items` in the listing. */
  datatype OrderLine = OrderLine(productId: string, quantity: int, prescriptionFile: Option<string>,
                                 name: string, price: int)

  /** `OrderResponse` */
  datatype OrderView = OrderView(
    id: string,
    userId: string,
    items: seq<OrderLine>,
    totalAmount: int,
    status: OrderStatus,
    paymentSessionId: Option<string>,
    createdAt: DateTime)

  function OfUser(userId: string): Order -> bool {
    (o: Order) => o.userId == userId
  }

  function OfOrder(orderId: string): OrderItem -> bool {
    (i: OrderItem) => i.orderId == orderId
  }

  /** `query(OrderItem).filter(OrderItem.order_id == orderId).all()` */
  function ItemsOfOrder(orderItems: seq<OrderItem>, orderId: string): seq<OrderItem> {
    Filter(orderItems, OfOrder(orderId))
  }

  function ItemHasProduct(products: seq<Product>): OrderItem -> bool {
    (i: OrderItem) => FindProduct(products, i.productId).Some?
  }

  /** The listed lines of an order: its items whose product still exists, in
      order, with that product's name and current price. */
  function ListedLines(items: seq<OrderItem>, products: seq<Product>): seq<OrderLine> {
    if items == [] then []
    else
      var last := items[|items| - 1];
      ListedLines(items[..|items| - 1], products) +
        match FindProduct(products, last.productId)
        case Some(k) => [OrderLine(last.productId, last.quantity, last.prescriptionFile,
                                   products[k].name, products[k].price)]
        case None => []
  }

  /** The listing drops exactly the items whose product is gone, keeping the
      others in order with their own quantity. */
  lemma {:induction false} ListedLinesSpec(items: seq<OrderItem>, products: seq<Product>)
    ensures var kept := Filter(items, ItemHasProduct(products));
      var r := ListedLines(items, products);
      && |r| == |kept|
      && forall i :: 0 <= i < |r| ==>
           r[i].productId == kept[i].productId && r[i].quantity == kept[i].quantity
           && r[i].prescriptionFile == kept[i].prescriptionFile
  {
    if items != [] {
      var init, last := items[..|items| - 1], items[|items| - 1];
      ListedLinesSpec(init, products);
      assert Filter(items, ItemHasProduct(products)) ==
        Filter(init, ItemHasProduct(products)) + (if ItemHasProduct(products)(last) then [last] else []);
    }
  }

  function ViewOf(o: Order, orderItems: seq<OrderItem>, products: seq<Product>): OrderView {
    OrderView(o.id, o.userId, ListedLines(ItemsOfOrder(orderItems, o.id), products),
              o.totalAmount, o.status, o.paymentSessionId, o.createdAt)
  }

  function Views(orders: seq<Order>, orderItems: seq<OrderItem>, products: seq<Product>): (r: seq<OrderView>)
    ensures |r| == |orders| && forall i :: 0 <= i < |r| ==> r[i] == ViewOf(orders[i], orderItems, products)
  {
    if orders == [] then []
    else Views(orders[..|orders| - 1], orderItems, products) + [ViewOf(orders[|orders| - 1], orderItems, products)]
  }

  /** The caller's orders, newest first. */
  function UserOrderRows(orders: seq<Order>, userId: string): seq<Order> {
    SortNewestFirst(Filter(orders, OfUser(userId)))
  }

  /** Sorting neither adds nor drops an order: the rows are the caller's. */
  lemma UserOrderRowsOwned(orders: seq<Order>, userId: string)
    ensures var rows := UserOrderRows(orders, userId);
      && |rows| == |Filter(orders, OfUser(userId))|
      && forall i :: 0 <= i < |rows| ==> rows[i].userId == userId
  {
    var rows := UserOrderRows(orders, userId);
    assert |multiset(rows)| == |rows|;
    forall i | 0 <= i < |rows| ensures rows[i].userId == userId {
      assert rows[i] in multiset(rows);
    }
  }

  /** What `get_user_orders` answers: one entry per order of the caller and
      of no one else, newest first. */
  function UserOrders(orders: seq<Order>, orderItems: seq<OrderItem>, products: seq<Product>,
                      userId: string): (r: seq<OrderView>)
    ensures |r| == |Filter(orders, OfUser(userId))|
    ensures forall i :: 0 <= i < |r| ==> r[i].userId == userId
    ensures forall i, j :: 0 <= i < j < |r| ==> !Before(r[i].createdAt, r[j].createdAt)
  {
    UserOrderRowsOwned(orders, userId);
    Views(UserOrderRows(orders, userId), orderItems, products)
  }

  /** The listing holds exactly the caller's orders, each once, newest first,
      each reporting the total stored at checkout rather than a recomputed one. */
  lemma UserOrdersSpec(orders: seq<Order>, orderItems: seq<OrderItem>, products: seq<Product>, userId: string)
    ensures var rows := UserOrderRows(orders, userId);
      var r := UserOrders(orders, orderItems, products, userId);
      && multiset(rows) == multiset(Filter(orders, OfUser(userId)))
      && (forall o :: o in rows <==> o in orders && o.userId == userId)
      && NewestFirst(rows)
      && |r| == |rows|
      && forall i :: 0 <= i < |r| ==>
           && r[i].userId == userId
           && r[i].id == rows[i].id
           && r[i].totalAmount == rows[i].totalAmount
           && r[i].status == rows[i].status
  {
    var rows := UserOrderRows(orders, userId);
    UserOrderRowsOwned(orders, userId);
    forall o ensures o in rows <==> o in orders && o.userId == userId {
      assert o in rows <==> o in multiset(rows);
    }
  }

  /** The inner loop of `get_user_orders`: the listed lines of one order. */
  method ListOrderLines(db: Database, orderId: string) returns (lines: seq<OrderLine>)
    ensures lines == ListedLines(ItemsOfOrder(db.orderItems, orderId), db.products)
  {
    var items := ItemsOfOrder(db.orderItems, orderId);
    lines := [];
    var i := 0;
    while i < |items|
      invariant 0 <= i <= |items|
      invariant lines == ListedLines(items[..i], db.products)
    {
      assert items[..i + 1][..i] == items[..i];
      var item := items[i];
      var product := FindProduct(db.products, item.productId);
      if product.Some? {
        var p := db.products[product.value];
        lines := lines + [OrderLine(item.productId, item.quantity, item.prescriptionFile, p.name, p.price)];
      }
      i := i + 1;
    }
    assert items[..|items|] == items;
  }

  /** `get_user_orders` */
  method GetUserOrders(db: Database, userId: string) returns (r: seq<OrderView>)
    ensures r == UserOrders(db.orders, db.orderItems, db.products, userId)
  {
    var rows := UserOrderRows(db.orders, userId);
    r := [];
    var i := 0;
    while i < |rows|
      invariant 0 <= i <= |rows|
      invariant r == Views(rows[..i], db.orderItems, db.products)
    {
      assert rows[..i + 1][..i] == rows[..i];
      var order := rows[i];
      var lines := ListOrderLines(db, order.id);
      r := r + [OrderView(order.id, order.userId, lines, order.totalAmount, order.status,
                          order.paymentSessionId, order.createdAt)];
      i := i + 1;
    }
    assert rows[..|rows|] == rows;
  }

  // ------------------------------------------------------------------
  // get_order_summary
  // ------------------------------------------------------------------

  /** One entry of the summary's `items`. */
  datatype SummaryLine = SummaryLine(id: string, name: string, description: string, quantity: int,
                                     price: int, total: int, imageUrl: Option<string>)

  datatype OrderSummary = OrderSummary(orderId: string, items: seq<SummaryLine>, totalAmount: int,
                                       currency: string, status: OrderStatus)

  /** The 404 the handler raises for an order the caller cannot see. */
  const OrderNotFound := HttpError(404, "Pedido no encontrado")

  /** What the handler's blanket `except Exception` answers. */
  const SummaryError := HttpError(500, "Error al obtener resumen del pedido")

  /** The summary line of one order line; none when its product is gone. */
  function SummaryLineFor(item: OrderItem, products: seq<Product>): seq<SummaryLine> {
    match FindProduct(products, item.productId)
    case Some(k) =>
      var p := products[k];
      [SummaryLine(item.productId, p.name, p.description, item.quantity, p.price,
                   p.price * item.quantity, p.imageUrl)]
    case None => []
  }

  /** The summary's lines, each carrying its product's current price and
      price × quantity as its total. */
  function SummaryLines(items: seq<OrderItem>, products: seq<Product>): (r: seq<SummaryLine>)
    ensures forall i :: 0 <= i < |r| ==> r[i].total == r[i].price * r[i].quantity
  {
    if items == [] then []
    else SummaryLines(items[..|items| - 1], products) + SummaryLineFor(items[|items| - 1], products)
  }

  function LineTotal(l: SummaryLine): int { l.total }

  /** An order line's value at today's price; 0 when its product is gone. */
  function LiveItemTotal(products: seq<Product>): OrderItem -> int {
    (i: OrderItem) =>
      match FindProduct(products, i.productId)
      case Some(k) => products[k].price * i.quantity
      case None => 0
  }

  lemma SummaryLineForTotal(item: OrderItem, products: seq<Product>)
    ensures Sum(SummaryLineFor(item, products), LineTotal) == LiveItemTotal(products)(item)
  {
    var t := SummaryLineFor(item, products);
    if t != [] {
      assert t[..0] == [];
    }
  }

  /** The summary's lines add up to the order's value at live prices, its
      vanished products counting 0. */
  lemma {:induction false} SummaryLinesTotal(items: seq<OrderItem>, products: seq<Product>)
    ensures Sum(SummaryLines(items, products), LineTotal) == Sum(items, LiveItemTotal(products))
  {
    if items != [] {
      var init, last := items[..|items| - 1], items[|items| - 1];
      SummaryLinesTotal(init, products);
      SumAppend(SummaryLines(init, products), SummaryLineFor(last, products), LineTotal);
      SummaryLineForTotal(last, products);
    }
  }

  /** The summary the handler builds for an order found for the caller: its
      id, the order's status, "COP", and a total recomputed from today's
      prices over the order's lines, vanished products counting 0, rather
      than the total frozen at checkout. */
  function SummaryOf(o: Order, orderId: string, orderItems: seq<OrderItem>, products: seq<Product>): (r: OrderSummary)
    ensures r.orderId == orderId && r.currency == "COP" && r.status == o.status
    ensures r.totalAmount == Sum(ItemsOfOrder(orderItems, orderId), LiveItemTotal(products))
  {
    var lines := SummaryLines(ItemsOfOrder(orderItems, orderId), products);
    SummaryLinesTotal(ItemsOfOrder(orderItems, orderId), products);
    OrderSummary(orderId, lines, Sum(lines, LineTotal), "COP", o.status)
  }

  /** What `get_order_summary` answers: the 404 when no order has both the
      id and the caller as owner (someone else's order is as missing as an
      unknown one), and otherwise that order's summary. */
  function OrderSummaryResult(orders: seq<Order>, orderItems: seq<OrderItem>, products: seq<Product>,
                              userId: string, orderId: string): (r: Result<OrderSummary>)
    ensures r.Failure? <==> forall k :: 0 <= k < |orders| ==> !(orders[k].id == orderId && orders[k].userId == userId)
    ensures r.Failure? ==> r.error == OrderNotFound
    ensures r.Success? ==>
      exists k :: 0 <= k < |orders| && orders[k].id == orderId && orders[k].userId == userId &&
        r.value.status == orders[k].status
    ensures r.Success? ==>
      && r.value.orderId == orderId && r.value.currency == "COP"
      && r.value.totalAmount == Sum(ItemsOfOrder(orderItems, orderId), LiveItemTotal(products))
  {
    match FindOrderOf(orders, orderId, userId)
    case None => Failure(OrderNotFound)
    case Some(k) => Success(SummaryOf(orders[k], orderId, orderItems, products))
  }

  /** `get_order_summary`: the order is looked up by id and owner together,
      then its lines are priced at today's prices. */
  method GetOrderSummary(db: Database, userId: string, orderId: string) returns (r: Result<OrderSummary>)
    ensures r == OrderSummaryResult(db.orders, db.orderItems, db.products, userId, orderId)
  {
    var found := FindOrderOf(db.orders, orderId, userId);
    if found.None? {
      return Failure(OrderNotFound);
    }
    var order := db.orders[found.value];
    var items := ItemsOfOrder(db.orderItems, orderId);
    var lines: seq<SummaryLine> := [];
    var total := 0;
    var i := 0;
    while i < |items|
      invariant 0 <= i <= |items|
      invariant lines == SummaryLines(items[..i], db.products)
      invariant total == Sum(lines, LineTotal)
    {
      assert items[..i + 1][..i] == items[..i];
      var item := items[i];
      var product := FindProduct(db.products, item.productId);
      if product.Some? {
        var p := db.products[product.value];
        var itemTotal := p.price * item.quantity;
        total := total + itemTotal;
        var line := SummaryLine(item.productId, p.name, p.description, item.quantity, p.price, itemTotal, p.imageUrl);
        SumAppend(lines, [line], LineTotal);
        assert [line][..0] == [];
        lines := lines + [line];
      }
      i := i + 1;
    }
    assert items[..|items|] == items;
    r := Success(OrderSummary(orderId, lines, total, "COP", order.status));
  }

  /** No order line refers to this id yet (it is a fresh uuid). */
  predicate NoItemsFor(orderItems: seq<OrderItem>, orderId: string) {
    forall i :: 0 <= i < |orderItems| ==> orderItems[i].orderId != orderId
  }

  lemma {:induction false} NewOrderItemsLiveTotal(orderId: string, reqs: seq<CartItemRequest>, ids: seq<string>,
                                                  products: seq<Product>)
    requires |ids| == |reqs|
    ensures Sum(NewOrderItems(orderId, reqs, ids), LiveItemTotal(products)) == CheckoutTotal(reqs, products)
  {
    if reqs != [] {
      NewOrderItemsLiveTotal(orderId, reqs[..|reqs| - 1], ids[..|ids| - 1], products);
      var r := NewOrderItems(orderId, reqs, ids);
      assert r[..|r| - 1] == NewOrderItems(orderId, reqs[..|reqs| - 1], ids[..|ids| - 1]);
    }
  }

  /** Right after checkout, and for as long as no price changes, the summary's
      live total equals the total frozen into the order. */
  lemma SummaryOfFreshCheckout(order: Order, orderItems: seq<OrderItem>, reqs: seq<CartItemRequest>,
                               ids: seq<string>, products: seq<Product>)
    requires |ids| == |reqs| && NoItemsFor(orderItems, order.id)
    requires order.totalAmount == CheckoutTotal(reqs, products)
    ensures SummaryOf(order, order.id, orderItems + NewOrderItems(order.id, reqs, ids), products).totalAmount
         == order.totalAmount
  {
    var added := NewOrderItems(order.id, reqs, ids);
    FilterAppend(orderItems, added, OfOrder(order.id));
    FilterNone(orderItems, OfOrder(order.id));
    FilterAll(added, OfOrder(order.id));
    assert ItemsOfOrder(orderItems + added, order.id) == added;
    SummaryLinesTotal(added, products);
    NewOrderItemsLiveTotal(order.id, reqs, ids, products);
  }
}
