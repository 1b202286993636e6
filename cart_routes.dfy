/** The cart router: the lazily created per-user cart, its enriched view, and
    the add / update / delete handlers that change its lines in place. */
module CartRoutes {
  import opened Common
  import opened Store

  // ------------------------------------------------------------------
  // The user's cart
  // ------------------------------------------------------------------

  /** The cart table after `_get_or_create_cart`: unchanged when the user has a
      cart, otherwise extended by a fresh one stamped with the current time. */
  function CartsWithCartFor(carts: seq<Cart>, userId: string, newCartId: string, now: DateTime): seq<Cart> {
    if FindCartOf(carts, userId).Some? then carts else carts + [Cart(newCartId, userId, now)]
  }

  /** A cart is created only when the user has none, and afterwards the user has
      one: the existing cart is kept as it is, a new one is appended. */
  lemma CartsWithCartForSpec(carts: seq<Cart>, userId: string, newCartId: string, now: DateTime)
    ensures var after := CartsWithCartFor(carts, userId, newCartId, now);
      && FindCartOf(after, userId).Some?
      && (FindCartOf(carts, userId).Some? ==> after == carts)
      && (FindCartOf(carts, userId).None? ==>
            after == carts + [Cart(newCartId, userId, now)] && FindCartOf(after, userId) == Some(|carts|))
  {
    var after := CartsWithCartFor(carts, userId, newCartId, now);
    if FindCartOf(carts, userId).None? {
      assert after[|carts|].userId == userId;
    }
  }

  /** Asking again finds the cart the first call made or found. */
  lemma CartsWithCartForIdempotent(carts: seq<Cart>, userId: string, id1: string, id2: string, t1: DateTime, t2: DateTime)
    ensures var once := CartsWithCartFor(carts, userId, id1, t1);
      CartsWithCartFor(once, userId, id2, t2) == once
  {
    CartsWithCartForSpec(carts, userId, id1, t1);
  }

  /** With a fresh id, one cart per user and distinct cart ids survive. */
  lemma CartsWithCartForWellFormed(carts: seq<Cart>, userId: string, newCartId: string, now: DateTime)
    requires CartsWellFormed(carts) && FreshCartId(carts, newCartId)
    ensures CartsWellFormed(CartsWithCartFor(carts, userId, newCartId, now))
  {
  }

  /** `cart.updated_at = datetime.now(timezone.utc)` */
  function TouchCart(carts: seq<Cart>, k: nat, now: DateTime): (r: seq<Cart>)
    requires k < |carts|
    ensures |r| == |carts| && r[k] == carts[k].(updatedAt := now)
    ensures forall i :: 0 <= i < |carts| && i != k ==> r[i] == carts[i]
  {
    carts[k := carts[k].(updatedAt := now)]
  }

  /** Changing a timestamp does not change who owns which cart. */
  lemma TouchCartWellFormed(carts: seq<Cart>, k: nat, now: DateTime)
    requires k < |carts| && CartsWellFormed(carts)
    ensures CartsWellFormed(TouchCart(carts, k, now))
    ensures FindCartOf(TouchCart(carts, k, now), carts[k].userId) == Some(k)
  {
    var r := TouchCart(carts, k, now);
    assert forall i :: 0 <= i < |carts| ==> r[i].userId == carts[i].userId && r[i].id == carts[i].id;
  }

  /** `_get_or_create_cart`: the index of the user's cart after the call. The new
      cart is committed at once, whatever the calling handler does next. */
  method GetOrCreateCart(db: Database, userId: string, newCartId: string, now: DateTime) returns (k: nat)
    modifies db`carts
    ensures db.carts == CartsWithCartFor(old(db.carts), userId, newCartId, now)
    ensures FindCartOf(db.carts, userId) == Some(k)
  {
    CartsWithCartForSpec(db.carts, userId, newCartId, now);
    var found := FindCartOf(db.carts, userId);
    if found.Some? {
      k := found.value;
    } else {
      db.carts := db.carts + [Cart(newCartId, userId, now)];
      k := |db.carts| - 1;
    }
  }

  // ------------------------------------------------------------------
  // The enriched view
  // ------------------------------------------------------------------

  /** One entry of `_enrich_cart`'s `items` list. */
  datatype EnrichedItem = EnrichedItem(
    productId: string,
    quantity: int,
    prescriptionFile: Option<string>,
    name: string,
    price: int,
    imageUrl: Option<string>,
    requiresPrescription: bool,
    id: string)

  datatype EnrichedCart = EnrichedCart(id: string, userId: string, items: seq<EnrichedItem>, updatedAt: DateTime)

  function InCart(cartId: string): CartItem -> bool {
    (l: CartItem) => l.cartId == cartId
  }

  /** `query(CartItem).filter(CartItem.cart_id == cart.id).all()` */
  function LinesOfCart(items: seq<CartItem>, cartId: string): seq<CartItem> {
    Filter(items, InCart(cartId))
  }

  /** Whether the line's product is still in the catalogue (active or not). */
  function HasProduct(products: seq<Product>): CartItem -> bool {
    (l: CartItem) => FindProduct(products, l.productId).Some?
  }

  function Enrich(line: CartItem, p: Product): EnrichedItem {
    EnrichedItem(line.productId, line.quantity, line.prescriptionFile,
                 p.name, p.price, p.imageUrl, p.requiresPrescription, line.productId)
  }

  /** The entries the loop of `_enrich_cart` appends, in line order. */
  function EnrichLines(lines: seq<CartItem>, products: seq<Product>): seq<EnrichedItem> {
    if lines == [] then []
    else
      var last := lines[|lines| - 1];
      EnrichLines(lines[..|lines| - 1], products) +
        match FindProduct(products, last.productId)
        case Some(k) => [Enrich(last, products[k])]
        case None => []
  }

  /** `_enrich_cart`: the cart's header and the entries of its lines. */
  function EnrichedCartOf(cart: Cart, items: seq<CartItem>, products: seq<Product>): EnrichedCart {
    EnrichedCart(cart.id, cart.userId, EnrichLines(LinesOfCart(items, cart.id), products), cart.updatedAt)
  }

  /** The view `_enrich_cart` answers carries the cart's own id, owner and
      modification time, and one entry per line of that cart (of no other
      cart) whose product exists, in order, built from that line and product. */
  lemma EnrichedCartView(cart: Cart, items: seq<CartItem>, products: seq<Product>)
    ensures var v := EnrichedCartOf(cart, items, products);
      var kept := Filter(LinesOfCart(items, cart.id), HasProduct(products));
      && v.id == cart.id && v.userId == cart.userId && v.updatedAt == cart.updatedAt
      && |v.items| == |kept|
      && forall i :: 0 <= i < |v.items| ==>
           && kept[i].cartId == cart.id
           && FindProduct(products, kept[i].productId).Some?
           && v.items[i] == Enrich(kept[i], products[FindProduct(products, kept[i].productId).value])
  {
    var lines := LinesOfCart(items, cart.id);
    EnrichLinesSpec(lines, products);
    var kept := Filter(lines, HasProduct(products));
    forall i | 0 <= i < |kept| ensures kept[i].cartId == cart.id {
      assert kept[i] in lines;
    }
  }

  /** `_enrich_cart` keeps exactly the lines whose product exists, in order, each
      carrying that product's details and `id` equal to its `product_id`. */
  lemma {:induction false} EnrichLinesSpec(lines: seq<CartItem>, products: seq<Product>)
    ensures var kept := Filter(lines, HasProduct(products));
      var r := EnrichLines(lines, products);
      && |r| == |kept|
      && forall i :: 0 <= i < |r| ==>
           FindProduct(products, kept[i].productId).Some? &&
           r[i] == Enrich(kept[i], products[FindProduct(products, kept[i].productId).value])
  {
    if lines != [] {
      var init, last := lines[..|lines| - 1], lines[|lines| - 1];
      EnrichLinesSpec(init, products);
      var kept0 := Filter(init, HasProduct(products));
      assert Filter(lines, HasProduct(products)) ==
        kept0 + (if HasProduct(products)(last) then [last] else []);
    }
  }

  /** When every product still exists, nothing is dropped and the view lists
      the lines one for one. */
  lemma EnrichAllResolvable(lines: seq<CartItem>, products: seq<Product>)
    requires forall i :: 0 <= i < |lines| ==> FindProduct(products, lines[i].productId).Some?
    ensures |EnrichLines(lines, products)| == |lines|
    ensures forall i :: 0 <= i < |lines| ==>
      EnrichLines(lines, products)[i].productId == lines[i].productId &&
      EnrichLines(lines, products)[i].quantity == lines[i].quantity
  {
    FilterAll(lines, HasProduct(products));
    EnrichLinesSpec(lines, products);
  }

  lemma EnrichLinesStep(lines: seq<CartItem>, i: nat, products: seq<Product>)
    requires i < |lines|
    ensures EnrichLines(lines[..i + 1], products) == EnrichLines(lines[..i], products) +
      match FindProduct(products, lines[i].productId)
      case Some(k) => [Enrich(lines[i], products[k])]
      case None => []
  {
    assert lines[..i + 1][..i] == lines[..i];
  }

  /** `_enrich_cart` */
  method EnrichCart(db: Database, cart: Cart) returns (r: EnrichedCart)
    ensures r == EnrichedCartOf(cart, db.cartItems, db.products)
  {
    var lines := LinesOfCart(db.cartItems, cart.id);
    var enriched: seq<EnrichedItem> := [];
    var i := 0;
    while i < |lines|
      invariant 0 <= i <= |lines|
      invariant enriched == EnrichLines(lines[..i], db.products)
    {
      var item := lines[i];
      EnrichLinesStep(lines, i, db.products);
      var product := FindProduct(db.products, item.productId);
      if product.Some? {
        enriched := enriched + [Enrich(item, db.products[product.value])];
      }
      i := i + 1;
    }
    assert lines[..|lines|] == lines;
    r := EnrichedCart(cart.id, cart.userId, enriched, cart.updatedAt);
  }

  /** `get_cart`: the view of the user's cart, created empty on first use. */
  method GetCart(db: Database, userId: string, newCartId: string, now: DateTime) returns (r: EnrichedCart)
    modifies db`carts
    ensures db.carts == CartsWithCartFor(old(db.carts), userId, newCartId, now)
    ensures FindCartOf(db.carts, userId).Some? && r.userId == userId
    ensures r == EnrichedCartOf(db.carts[FindCartOf(db.carts, userId).value], db.cartItems, db.products)
  {
    var k := GetOrCreateCart(db, userId, newCartId, now);
    r := EnrichCart(db, db.carts[k]);
  }

  // ------------------------------------------------------------------
  // Totals
  // ------------------------------------------------------------------

  function ItemTotal(e: EnrichedItem): int { e.price * e.quantity }

  /** `sum(item["price"] * item["quantity"] for item in enriched_cart["items"])` */
  function CartTotal(items: seq<EnrichedItem>): int { Sum(items, ItemTotal) }

  /** A line's value at the current catalogue price; 0 when the product is gone. */
  function LiveLineTotal(products: seq<Product>): CartItem -> int {
    (l: CartItem) =>
      match FindProduct(products, l.productId)
      case Some(k) => products[k].price * l.quantity
      case None => 0
  }

  /** The total of the enriched view is the sum of price × quantity over all the
      cart's lines at live prices: lines whose product is gone add nothing. */
  lemma {:induction false} CartTotalIsLiveTotal(lines: seq<CartItem>, products: seq<Product>)
    ensures CartTotal(EnrichLines(lines, products)) == Sum(lines, LiveLineTotal(products))
  {
    if lines != [] {
      var init, last := lines[..|lines| - 1], lines[|lines| - 1];
      CartTotalIsLiveTotal(init, products);
      var tail := match FindProduct(products, last.productId)
        case Some(k) => [Enrich(last, products[k])]
        case None => [];
      SumAppend(EnrichLines(init, products), tail, ItemTotal);
      assert Sum(tail, ItemTotal) == LiveLineTotal(products)(last) by {
        if tail != [] {
          assert tail[..0] == [];
        }
      }
    }
  }

  /** An empty cart totals 0. */
  lemma EmptyCartTotal(products: seq<Product>)
    ensures CartTotal(EnrichLines([], products)) == 0
  {
  }

  // ------------------------------------------------------------------
  // Line lookups used to state the handlers' effects
  // ------------------------------------------------------------------

  /** The line the cart holds for a product, if any. */
  function LineFor(items: seq<CartItem>, cartId: string, productId: string): (r: Option<CartItem>)
    ensures r.Some? ==> r.value.cartId == cartId && r.value.productId == productId
  {
    match FindLine(items, cartId, productId)
    case Some(k) => Some(items[k])
    case None => None
  }

  /** How many units of a product the cart holds (0 without a line). */
  function QuantityOf(items: seq<CartItem>, cartId: string, productId: string): int {
    match LineFor(items, cartId, productId)
    case Some(line) => line.quantity
    case None => 0
  }

  function RemoveAt<T>(s: seq<T>, k: nat): (r: seq<T>)
    requires k < |s|
    ensures |r| == |s| - 1
    ensures forall i :: 0 <= i < k ==> r[i] == s[i]
    ensures forall i :: k <= i < |r| ==> r[i] == s[i + 1]
  {
    s[..k] + s[k + 1..]
  }

  /** Replacing one line by a line with the same key leaves every other key's
      lookup as it was, and makes the key's lookup return the new line. */
  lemma LineForReplace(items: seq<CartItem>, k: nat, line: CartItem, cartId: string, productId: string)
    requires k < |items| && FindLine(items, line.cartId, line.productId) == Some(k)
    ensures LineFor(items[k := line], cartId, productId) ==
      if cartId == line.cartId && productId == line.productId then Some(line)
      else LineFor(items, cartId, productId)
  {
    var after := items[k := line];
    if cartId == line.cartId && productId == line.productId {
      FindLineIs(after, cartId, productId, k);
    } else {
      match FindLine(items, cartId, productId)
      case Some(j) =>
        FindLineIs(after, cartId, productId, j);
      case None =>
    }
  }

  /** Appending a line for a key that had none: only that key's lookup changes. */
  lemma LineForAppend(items: seq<CartItem>, line: CartItem, cartId: string, productId: string)
    requires FindLine(items, line.cartId, line.productId).None?
    ensures LineFor(items + [line], cartId, productId) ==
      if cartId == line.cartId && productId == line.productId then Some(line)
      else LineFor(items, cartId, productId)
  {
    var after := items + [line];
    if cartId == line.cartId && productId == line.productId {
      FindLineIs(after, cartId, productId, |items|);
    } else {
      match FindLine(items, cartId, productId)
      case Some(j) =>
        FindLineIs(after, cartId, productId, j);
      case None =>
        assert FindLine(after, cartId, productId).None?;
    }
  }

  /** Removing a line from a well-formed list: its key is no longer found, and
      every other key's lookup still returns the same line. */
  lemma LineForRemove(items: seq<CartItem>, k: nat, cartId: string, productId: string)
    requires LinesWellFormed(items) && k < |items|
    ensures LineFor(RemoveAt(items, k), cartId, productId) ==
      if cartId == items[k].cartId && productId == items[k].productId then None
      else LineFor(items, cartId, productId)
  {
    var after := RemoveAt(items, k);
    if cartId == items[k].cartId && productId == items[k].productId {
      forall i | 0 <= i < |items| && i != k
        ensures !(items[i].cartId == cartId && items[i].productId == productId)
      {
      }
      RemoveAtKeyAbsent(items, k, cartId, productId);
    } else {
      match FindLine(items, cartId, productId)
      case Some(j) =>
        if j < k {
          FindLineIs(after, cartId, productId, j);
        } else {
          FindLineIs(after, cartId, productId, j - 1);
        }
      case None =>
        RemoveAtKeyAbsent(items, k, cartId, productId);
    }
  }

  /** A key that no line but line `k` holds is absent once line `k` is removed. */
  lemma RemoveAtKeyAbsent(items: seq<CartItem>, k: nat, cartId: string, productId: string)
    requires k < |items|
    requires forall i :: 0 <= i < |items| && i != k ==> !(items[i].cartId == cartId && items[i].productId == productId)
    ensures FindLine(RemoveAt(items, k), cartId, productId).None?
  {
    var after := RemoveAt(items, k);
    forall i | 0 <= i < |after| ensures !(after[i].cartId == cartId && after[i].productId == productId) {
      if i >= k {
        assert after[i] == items[i + 1];
      }
    }
  }

  lemma RemoveAtWellFormed(items: seq<CartItem>, k: nat)
    requires LinesWellFormed(items) && k < |items|
    ensures LinesWellFormed(RemoveAt(items, k))
  {
    var r := RemoveAt(items, k);
    forall i, j | 0 <= i < j < |r|
      ensures !(r[i].cartId == r[j].cartId && r[i].productId == r[j].productId)
    {
      var i', j' := if i < k then i else i + 1, if j < k then j else j + 1;
      assert r[i] == items[i'] && r[j] == items[j'] && i' < j';
    }
  }

  // ------------------------------------------------------------------
  // add_cart_item
  // ------------------------------------------------------------------

  /** The cart lines after adding `req` to cart `cartId`: an existing line for
      the product gains `max(1, quantity)`, otherwise a line with that quantity
      and the request's prescription file is appended. */
  function LinesAfterAdd(items: seq<CartItem>, cartId: string, req: CartItemRequest, newLineId: string): seq<CartItem> {
    match FindLine(items, cartId, req.productId)
    case Some(k) => items[k := items[k].(quantity := items[k].quantity + Max(1, req.quantity))]
    case None => items + [CartItem(newLineId, cartId, req.productId, Max(1, req.quantity), req.prescriptionFile)]
  }

  /** Merge or insert, the cart gains exactly `max(1, quantity)` units of the
      product; every other (cart, product) line is untouched. */
  lemma AddEffect(items: seq<CartItem>, cartId: string, req: CartItemRequest, newLineId: string, c: string, p: string)
    ensures QuantityOf(LinesAfterAdd(items, cartId, req, newLineId), cartId, req.productId)
         == QuantityOf(items, cartId, req.productId) + Max(1, req.quantity)
    ensures !(c == cartId && p == req.productId) ==>
      LineFor(LinesAfterAdd(items, cartId, req, newLineId), c, p) == LineFor(items, c, p)
  {
    match FindLine(items, cartId, req.productId)
    case Some(k) =>
      var line := items[k].(quantity := items[k].quantity + Max(1, req.quantity));
      LineForReplace(items, k, line, cartId, req.productId);
      LineForReplace(items, k, line, c, p);
    case None =>
      var line := CartItem(newLineId, cartId, req.productId, Max(1, req.quantity), req.prescriptionFile);
      LineForAppend(items, line, cartId, req.productId);
      LineForAppend(items, line, c, p);
  }

  /** Merging keeps the existing line's prescription file; only a new line takes
      the request's. */
  lemma AddPrescriptionFile(items: seq<CartItem>, cartId: string, req: CartItemRequest, newLineId: string)
    ensures var after := LineFor(LinesAfterAdd(items, cartId, req, newLineId), cartId, req.productId);
      && after.Some?
      && after.value.prescriptionFile ==
           match LineFor(items, cartId, req.productId)
           case Some(line) => line.prescriptionFile
           case None => req.prescriptionFile
  {
    match FindLine(items, cartId, req.productId)
    case Some(k) =>
      var line := items[k].(quantity := items[k].quantity + Max(1, req.quantity));
      LineForReplace(items, k, line, cartId, req.productId);
    case None =>
      var line := CartItem(newLineId, cartId, req.productId, Max(1, req.quantity), req.prescriptionFile);
      LineForAppend(items, line, cartId, req.productId);
  }

  /** Adding keeps one line per product and every quantity at least 1. */
  lemma AddWellFormed(items: seq<CartItem>, cartId: string, req: CartItemRequest, newLineId: string)
    requires LinesWellFormed(items)
    ensures LinesWellFormed(LinesAfterAdd(items, cartId, req, newLineId))
  {
    var after := LinesAfterAdd(items, cartId, req, newLineId);
    match FindLine(items, cartId, req.productId)
    case Some(k) =>
      assert forall i :: 0 <= i < |items| ==>
        after[i].cartId == items[i].cartId && after[i].productId == items[i].productId;
    case None =>
      assert forall i :: 0 <= i < |items| ==> after[i] == items[i];
  }

  /** The outcome of `add_cart_item` on the tables it changes. */
  datatype CartTables = CartTables(carts: seq<Cart>, items: seq<CartItem>)

  /** What `add_cart_item` leaves in the cart tables once the product check
      passed: the user's cart (found or created), touched, and the merged lines. */
  function TablesAfterAdd(carts: seq<Cart>, items: seq<CartItem>, userId: string, req: CartItemRequest,
                          now: DateTime, newCartId: string, newLineId: string): CartTables
  {
    var carts1 := CartsWithCartFor(carts, userId, newCartId, now);
    CartsWithCartForSpec(carts, userId, newCartId, now);
    var k := FindCartOf(carts1, userId).value;
    CartTables(TouchCart(carts1, k, now), LinesAfterAdd(items, carts1[k].id, req, newLineId))
  }

  const ProductNotFound := HttpError(404, "Product not found")
  const ItemNotFound := HttpError(404, "Item not found in cart")

  /** The merge-or-insert step of `add_cart_item` on the line table. */
  method MergeLine(db: Database, cartId: string, req: CartItemRequest, newLineId: string)
    modifies db`cartItems
    ensures db.cartItems == LinesAfterAdd(old(db.cartItems), cartId, req, newLineId)
  {
    match FindLine(db.cartItems, cartId, req.productId) {
      case Some(j) =>
        var existing := db.cartItems[j];
        db.cartItems := db.cartItems[j := existing.(quantity := existing.quantity + Max(1, req.quantity))];
      case None =>
        db.cartItems := db.cartItems + [CartItem(newLineId, cartId, req.productId, Max(1, req.quantity), req.prescriptionFile)];
    }
  }

  /** The tables `add_cart_item` writes keep one cart per user, distinct cart
      ids, one line per product and positive quantities. */
  lemma TablesAfterAddWellFormed(carts: seq<Cart>, items: seq<CartItem>, userId: string, req: CartItemRequest,
                                 now: DateTime, newCartId: string, newLineId: string)
    requires CartsWellFormed(carts) && LinesWellFormed(items) && FreshCartId(carts, newCartId)
    ensures var t := TablesAfterAdd(carts, items, userId, req, now, newCartId, newLineId);
      CartsWellFormed(t.carts) && LinesWellFormed(t.items)
  {
    var carts1 := CartsWithCartFor(carts, userId, newCartId, now);
    CartsWithCartForSpec(carts, userId, newCartId, now);
    CartsWithCartForWellFormed(carts, userId, newCartId, now);
    var k := FindCartOf(carts1, userId).value;
    TouchCartWellFormed(carts1, k, now);
    AddWellFormed(items, carts1[k].id, req, newLineId);
  }

  /** The writes of `add_cart_item` once the product check passed: find or
      create the cart, merge the line, touch the cart. Returns the cart's index. */
  method AddToCart(db: Database, userId: string, req: CartItemRequest, now: DateTime,
                   newCartId: string, newLineId: string) returns (k: nat)
    modifies db`carts, db`cartItems
    ensures CartTables(db.carts, db.cartItems)
         == TablesAfterAdd(old(db.carts), old(db.cartItems), userId, req, now, newCartId, newLineId)
    ensures FindCartOf(db.carts, userId) == Some(k)
    ensures CartsWellFormed(old(db.carts)) && LinesWellFormed(old(db.cartItems)) && FreshCartId(old(db.carts), newCartId)
      ==> CartsWellFormed(db.carts) && LinesWellFormed(db.cartItems)
  {
    ghost var carts0, items0 := db.carts, db.cartItems;
    k := GetOrCreateCart(db, userId, newCartId, now);
    var cart := db.carts[k];
    MergeLine(db, cart.id, req, newLineId);
    db.carts := TouchCart(db.carts, k, now);
    TablesAfterAddAt(carts0, items0, userId, req, now, newCartId, newLineId, k);
    if CartsWellFormed(carts0) && LinesWellFormed(items0) && FreshCartId(carts0, newCartId) {
      TablesAfterAddWellFormed(carts0, items0, userId, req, now, newCartId, newLineId);
    }
  }

  /** `add_cart_item` */
  method AddCartItem(db: Database, userId: string, req: CartItemRequest, now: DateTime,
                     newCartId: string, newLineId: string) returns (r: Result<EnrichedCart>)
    modifies db`carts, db`cartItems
    ensures FindActiveProduct(db.products, req.productId).None? ==>
      r == Failure(ProductNotFound) && db.carts == old(db.carts) && db.cartItems == old(db.cartItems)
    ensures FindActiveProduct(db.products, req.productId).Some? ==>
      && CartTables(db.carts, db.cartItems)
           == TablesAfterAdd(old(db.carts), old(db.cartItems), userId, req, now, newCartId, newLineId)
      && FindCartOf(db.carts, userId).Some?
      && r == Success(EnrichedCartOf(db.carts[FindCartOf(db.carts, userId).value], db.cartItems, db.products))
    ensures old(db.Valid()) && FreshCartId(old(db.carts), newCartId) ==> db.Valid()
  {
    var product := FindActiveProduct(db.products, req.productId);
    if product.None? {
      return Failure(ProductNotFound);
    }
    var k := AddToCart(db, userId, req, now, newCartId, newLineId);
    var view := EnrichCart(db, db.carts[k]);
    r := Success(view);
  }

  /** The tables of `TablesAfterAdd` written out for the index `k` of the
      user's cart, which stays at `k` once touched. */
  lemma TablesAfterAddAt(carts: seq<Cart>, items: seq<CartItem>, userId: string, req: CartItemRequest,
                         now: DateTime, newCartId: string, newLineId: string, k: nat)
    requires FindCartOf(CartsWithCartFor(carts, userId, newCartId, now), userId) == Some(k)
    ensures var carts1 := CartsWithCartFor(carts, userId, newCartId, now);
      var t := TablesAfterAdd(carts, items, userId, req, now, newCartId, newLineId);
      && k < |carts1|
      && t.carts == TouchCart(carts1, k, now)
      && t.items == LinesAfterAdd(items, carts1[k].id, req, newLineId)
      && FindCartOf(t.carts, userId) == Some(k)
  {
    FindCartTouch(carts, userId, newCartId, now, k);
  }

  /** Touching the user's cart does not move it. */
  lemma FindCartTouch(carts: seq<Cart>, userId: string, newCartId: string, now: DateTime, k: nat)
    requires FindCartOf(CartsWithCartFor(carts, userId, newCartId, now), userId) == Some(k)
    ensures FindCartOf(TouchCart(CartsWithCartFor(carts, userId, newCartId, now), k, now), userId) == Some(k)
  {
    var c1 := CartsWithCartFor(carts, userId, newCartId, now);
    var c2 := TouchCart(c1, k, now);
    assert forall i :: 0 <= i < |c1| ==> c2[i].userId == c1[i].userId;
  }

  // ------------------------------------------------------------------
  // update_cart_item
  // ------------------------------------------------------------------

  /** `int(payload.get("quantity", 1))`, with a negative value clamped to 0. */
  function RequestedQuantity(payload: Option<int>): (q: int)
    ensures q >= 0
    ensures payload.None? ==> q == 1
    ensures payload.Some? ==> q == Max(0, payload.value)
  {
    var q := if payload.Some? then payload.value else 1;
    if q < 0 then 0 else q
  }

  /** The lines after setting line `k` to `quantity`: 0 deletes it. */
  function LinesAfterUpdate(items: seq<CartItem>, k: nat, quantity: int): seq<CartItem>
    requires k < |items|
  {
    if quantity == 0 then RemoveAt(items, k) else items[k := items[k].(quantity := quantity)]
  }

  /** The updated line holds exactly the new quantity, or is gone at 0; every
      other (cart, product) line is untouched, and the lines stay well formed. */
  lemma UpdateEffect(items: seq<CartItem>, k: nat, quantity: int, c: string, p: string)
    requires LinesWellFormed(items) && k < |items| && quantity >= 0
    ensures LinesWellFormed(LinesAfterUpdate(items, k, quantity))
    ensures QuantityOf(LinesAfterUpdate(items, k, quantity), items[k].cartId, items[k].productId) == quantity
    ensures quantity == 0 ==> LineFor(LinesAfterUpdate(items, k, quantity), items[k].cartId, items[k].productId).None?
    ensures !(c == items[k].cartId && p == items[k].productId) ==>
      LineFor(LinesAfterUpdate(items, k, quantity), c, p) == LineFor(items, c, p)
  {
    FindLineUnique(items, items[k].cartId, items[k].productId, k);
    if quantity == 0 {
      RemoveAtWellFormed(items, k);
      LineForRemove(items, k, items[k].cartId, items[k].productId);
      LineForRemove(items, k, c, p);
    } else {
      var line := items[k].(quantity := quantity);
      LineForReplace(items, k, line, items[k].cartId, items[k].productId);
      LineForReplace(items, k, line, c, p);
      var after := items[k := line];
      assert forall i :: 0 <= i < |items| ==>
        after[i].cartId == items[i].cartId && after[i].productId == items[i].productId;
    }
  }

  /** `update_cart_item`. The user's cart is created first, so it stays even when
      the 404 for a missing line follows. */
  method UpdateCartItem(db: Database, userId: string, productId: string, payload: Option<int>,
                        now: DateTime, newCartId: string) returns (r: Result<EnrichedCart>)
    modifies db`carts, db`cartItems
    ensures var carts1 := CartsWithCartFor(old(db.carts), userId, newCartId, now);
      FindCartOf(carts1, userId).Some? &&
      var k := FindCartOf(carts1, userId).value;
      match FindLine(old(db.cartItems), carts1[k].id, productId)
      case None =>
        r == Failure(ItemNotFound) && db.carts == carts1 && db.cartItems == old(db.cartItems)
      case Some(j) =>
        && db.carts == TouchCart(carts1, k, now)
        && db.cartItems == LinesAfterUpdate(old(db.cartItems), j, RequestedQuantity(payload))
        && r == Success(EnrichedCartOf(db.carts[k], db.cartItems, db.products))
    ensures old(db.Valid()) && FreshCartId(old(db.carts), newCartId) ==> db.Valid()
  {
    var quantity := RequestedQuantity(payload);
    ghost var carts0 := db.carts;
    ghost var wasValid := db.Valid() && FreshCartId(carts0, newCartId);
    var k := GetOrCreateCart(db, userId, newCartId, now);
    if wasValid {
      CartsWithCartForWellFormed(carts0, userId, newCartId, now);
    }
    var found := FindLine(db.cartItems, db.carts[k].id, productId);
    if found.None? {
      return Failure(ItemNotFound);
    }
    SetLineQuantity(db, k, found.value, quantity, now);
    var view := EnrichCart(db, db.carts[k]);
    r := Success(view);
  }

  /** The writes of `update_cart_item` once the line is found: set line `j`
      to `quantity` (deleting it at 0) and touch cart `k`. */
  method SetLineQuantity(db: Database, k: nat, j: nat, quantity: int, now: DateTime)
    requires k < |db.carts| && j < |db.cartItems| && quantity >= 0
    modifies db`carts, db`cartItems
    ensures db.carts == TouchCart(old(db.carts), k, now)
    ensures db.cartItems == LinesAfterUpdate(old(db.cartItems), j, quantity)
    ensures CartsWellFormed(old(db.carts)) && LinesWellFormed(old(db.cartItems)) ==>
      CartsWellFormed(db.carts) && LinesWellFormed(db.cartItems)
  {
    if CartsWellFormed(db.carts) && LinesWellFormed(db.cartItems) {
      UpdateEffect(db.cartItems, j, quantity, db.cartItems[j].cartId, db.cartItems[j].productId);
      TouchCartWellFormed(db.carts, k, now);
    }
    if quantity == 0 {
      db.cartItems := RemoveAt(db.cartItems, j);
    } else {
      db.cartItems := db.cartItems[j := db.cartItems[j].(quantity := quantity)];
    }
    db.carts := TouchCart(db.carts, k, now);
  }

  // ------------------------------------------------------------------
  // delete_cart_item
  // ------------------------------------------------------------------

  /** The lines after `delete_cart_item`: the product's line is removed when
      there is one, otherwise nothing changes. */
  function LinesAfterDelete(items: seq<CartItem>, cartId: string, productId: string): seq<CartItem> {
    match FindLine(items, cartId, productId)
    case Some(j) => RemoveAt(items, j)
    case None => items
  }

  /** Deleting leaves the cart without the product, touches no other line, keeps
      the lines well formed, and deleting again changes nothing. */
  lemma DeleteEffect(items: seq<CartItem>, cartId: string, productId: string, c: string, p: string)
    requires LinesWellFormed(items)
    ensures var after := LinesAfterDelete(items, cartId, productId);
      && LinesWellFormed(after)
      && LineFor(after, cartId, productId).None?
      && (!(c == cartId && p == productId) ==> LineFor(after, c, p) == LineFor(items, c, p))
      && LinesAfterDelete(after, cartId, productId) == after
  {
    match FindLine(items, cartId, productId)
    case Some(j) =>
      RemoveAtWellFormed(items, j);
      LineForRemove(items, j, cartId, productId);
      LineForRemove(items, j, c, p);
    case None =>
  }

  /** What `delete_cart_item` leaves in the cart tables: the user's cart
      (found or created), touched only when a line goes, and the lines without
      the product's. */
  function TablesAfterDelete(carts: seq<Cart>, items: seq<CartItem>, userId: string, productId: string,
                             now: DateTime, newCartId: string): CartTables
  {
    var carts1 := CartsWithCartFor(carts, userId, newCartId, now);
    CartsWithCartForSpec(carts, userId, newCartId, now);
    var k := FindCartOf(carts1, userId).value;
    var cartId := carts1[k].id;
    CartTables(if FindLine(items, cartId, productId).Some? then TouchCart(carts1, k, now) else carts1,
               LinesAfterDelete(items, cartId, productId))
  }

  /** `delete_cart_item`: always answers with the view of the user's cart; the
      cart's `updated_at` changes only when a line was deleted. */
  method DeleteCartItem(db: Database, userId: string, productId: string, now: DateTime,
                        newCartId: string) returns (r: EnrichedCart)
    modifies db`carts, db`cartItems
    ensures CartTables(db.carts, db.cartItems)
         == TablesAfterDelete(old(db.carts), old(db.cartItems), userId, productId, now, newCartId)
    ensures FindCartOf(db.carts, userId).Some?
    ensures r == EnrichedCartOf(db.carts[FindCartOf(db.carts, userId).value], db.cartItems, db.products)
    ensures old(db.Valid()) && FreshCartId(old(db.carts), newCartId) ==> db.Valid()
  {
    var k := DeleteFromCart(db, userId, productId, now, newCartId);
    r := EnrichCart(db, db.carts[k]);
  }

  /** The writes of `delete_cart_item`: find or create the cart, then drop the
      product's line. Returns the cart's index. */
  method DeleteFromCart(db: Database, userId: string, productId: string, now: DateTime,
                        newCartId: string) returns (k: nat)
    modifies db`carts, db`cartItems
    ensures CartTables(db.carts, db.cartItems)
         == TablesAfterDelete(old(db.carts), old(db.cartItems), userId, productId, now, newCartId)
    ensures FindCartOf(db.carts, userId) == Some(k)
    ensures CartsWellFormed(old(db.carts)) && LinesWellFormed(old(db.cartItems)) && FreshCartId(old(db.carts), newCartId)
      ==> CartsWellFormed(db.carts) && LinesWellFormed(db.cartItems)
  {
    ghost var carts0, items0 := db.carts, db.cartItems;
    k := GetOrCreateCart(db, userId, newCartId, now);
    if CartsWellFormed(carts0) && FreshCartId(carts0, newCartId) {
      CartsWithCartForWellFormed(carts0, userId, newCartId, now);
    }
    DropLine(db, k, productId, now);
    TablesAfterDeleteAt(carts0, items0, userId, productId, now, newCartId, k);
  }

  /** The tables of `TablesAfterDelete` written out for the index `k` of the
      user's cart, which stays at `k` whether or not it is touched. */
  lemma TablesAfterDeleteAt(carts: seq<Cart>, items: seq<CartItem>, userId: string, productId: string,
                            now: DateTime, newCartId: string, k: nat)
    requires FindCartOf(CartsWithCartFor(carts, userId, newCartId, now), userId) == Some(k)
    ensures var carts1 := CartsWithCartFor(carts, userId, newCartId, now);
      var t := TablesAfterDelete(carts, items, userId, productId, now, newCartId);
      && k < |carts1|
      && t.carts == (if FindLine(items, carts1[k].id, productId).Some? then TouchCart(carts1, k, now) else carts1)
      && t.items == LinesAfterDelete(items, carts1[k].id, productId)
      && FindCartOf(t.carts, userId) == Some(k)
  {
    FindCartTouch(carts, userId, newCartId, now, k);
  }

  /** The writes of `delete_cart_item` on cart `k`: remove the product's line
      if there is one, and touch the cart only then. */
  method DropLine(db: Database, k: nat, productId: string, now: DateTime)
    requires k < |db.carts|
    modifies db`carts, db`cartItems
    ensures db.cartItems == LinesAfterDelete(old(db.cartItems), old(db.carts)[k].id, productId)
    ensures db.carts == (if FindLine(old(db.cartItems), old(db.carts)[k].id, productId).Some?
                         then TouchCart(old(db.carts), k, now) else old(db.carts))
    ensures CartsWellFormed(old(db.carts)) && LinesWellFormed(old(db.cartItems)) ==>
      CartsWellFormed(db.carts) && LinesWellFormed(db.cartItems)
  {
    var cartId := db.carts[k].id;
    var found := FindLine(db.cartItems, cartId, productId);
    if CartsWellFormed(db.carts) && LinesWellFormed(db.cartItems) {
      DeleteEffect(db.cartItems, cartId, productId, cartId, productId);
      TouchCartWellFormed(db.carts, k, now);
    }
    if found.Some? {
      db.cartItems := RemoveAt(db.cartItems, found.value);
      db.carts := TouchCart(db.carts, k, now);
    }
  }
}
