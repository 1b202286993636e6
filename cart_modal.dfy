/** The cart dialog (`CartModal`): the total it shows, the requests its
    quantity buttons send to the cart router, and the snapshot it leaves in
    local storage for the payment page. */
module CartModal {
  import opened Common
  import opened Store
  import opened CartRoutes
  import opened Payments
  import opened OrderData
  import PublicPaymentPage

  /** The `cart` prop: absent, an object without `items`, or a cart view. */
  datatype ModalCart = Missing | WithoutItems | Shown(items: seq<EnrichedItem>)

  /** `getTotalPrice`: 0 without a cart or its items, otherwise the sum of
      price × quantity over the items. */
  function GetTotalPrice(cart: ModalCart): (total: int)
    ensures !cart.Shown? ==> total == 0
    ensures cart.Shown? && cart.items == [] ==> total == 0
  {
    match cart
    case Shown(items) => Sum(items, ItemTotal)
    case _ => 0
  }

  /** Shown the server's view of the user's cart, the dialog totals exactly
      what `process_payment` will require the payment amount to match. */
  lemma ModalTotalIsServerTotal(carts: seq<Cart>, items: seq<CartItem>, products: seq<Product>, userId: string)
    requires FindCartOf(carts, userId).Some?
    ensures var view := EnrichedCartOf(carts[FindCartOf(carts, userId).value], items, products);
      GetTotalPrice(Shown(view.items)) == UserCartTotal(carts, items, products, userId)
  {
  }

  // ------------------------------------------------------------------
  // Quantity buttons
  // ------------------------------------------------------------------

  /** What the dialog sends to the cart router. */
  datatype CartRequest =
    | PutQuantity(productId: string, quantity: int)
    | DeleteLine(productId: string)

  /** `updateQuantity`: a quantity of 0 or less is sent as a removal and the
      PUT is never issued. */
  function UpdateQuantity(productId: string, newQuantity: int): (r: CartRequest)
    ensures r.productId == productId
    ensures r.DeleteLine? <==> newQuantity <= 0
    ensures r.PutQuantity? ==> r.quantity == newQuantity && r.quantity >= 1
  {
    if newQuantity <= 0 then DeleteLine(productId) else PutQuantity(productId, newQuantity)
  }

  /** `item.product_id || item.id`, the key the buttons use. */
  function KeyOf(item: EnrichedItem): string {
    if item.productId != "" then item.productId else item.id
  }

  /** The − button: on a line holding one unit (or fewer) it removes the
      line; on any other line it asks for one unit fewer. */
  function Decrement(item: EnrichedItem): (r: CartRequest)
    ensures item.quantity <= 1 ==> r == DeleteLine(KeyOf(item))
    ensures item.quantity > 1 ==> r == PutQuantity(KeyOf(item), item.quantity - 1)
  {
    UpdateQuantity(KeyOf(item), item.quantity - 1)
  }

  /** The + button: on any line of a well-formed cart (quantity at least 1)
      it asks for one unit more. */
  function Increment(item: EnrichedItem): (r: CartRequest)
    ensures item.quantity >= 0 ==> r == PutQuantity(KeyOf(item), item.quantity + 1)
    ensures item.quantity < 0 ==> r == DeleteLine(KeyOf(item))
  {
    UpdateQuantity(KeyOf(item), item.quantity + 1)
  }

  /** The cart lines after the router handles a request for cart `cartId`
      (a PUT for a product without a line is the 404 and changes nothing).
      From well-formed lines, a DELETE leaves the cart without the product, a
      PUT on an existing line leaves it holding the quantity clamped at 0, and
      every other line keeps its quantity. */
  function LinesAfterRequest(items: seq<CartItem>, cartId: string, req: CartRequest): (r: seq<CartItem>)
    ensures LinesWellFormed(items) ==> LinesWellFormed(r)
    ensures LinesWellFormed(items) && req.DeleteLine? ==> LineFor(r, cartId, req.productId).None?
    ensures LinesWellFormed(items) && req.PutQuantity? && FindLine(items, cartId, req.productId).Some? ==>
      QuantityOf(r, cartId, req.productId) == Max(0, req.quantity)
    ensures req.PutQuantity? && FindLine(items, cartId, req.productId).None? ==> r == items
    ensures LinesWellFormed(items) ==> forall c, p :: !(c == cartId && p == req.productId) ==>
      LineFor(r, c, p) == LineFor(items, c, p)
  {
    match req
    case DeleteLine(p) =>
      if LinesWellFormed(items) then
        DeleteEffectAll(items, cartId, p);
        LinesAfterDelete(items, cartId, p)
      else LinesAfterDelete(items, cartId, p)
    case PutQuantity(p, q) =>
      match FindLine(items, cartId, p)
      case Some(j) =>
        if LinesWellFormed(items) then
          UpdateEffectAll(items, j, RequestedQuantity(Some(q)));
          LinesAfterUpdate(items, j, RequestedQuantity(Some(q)))
        else LinesAfterUpdate(items, j, RequestedQuantity(Some(q)))
      case None => items
  }

  /** The effect of a delete, for every other line at once. */
  lemma DeleteEffectAll(items: seq<CartItem>, cartId: string, productId: string)
    requires LinesWellFormed(items)
    ensures var after := LinesAfterDelete(items, cartId, productId);
      && LinesWellFormed(after) && LineFor(after, cartId, productId).None?
      && forall c, p :: !(c == cartId && p == productId) ==> LineFor(after, c, p) == LineFor(items, c, p)
  {
    DeleteEffect(items, cartId, productId, cartId, productId);
    forall c, p | !(c == cartId && p == productId)
      ensures LineFor(LinesAfterDelete(items, cartId, productId), c, p) == LineFor(items, c, p)
    {
      DeleteEffect(items, cartId, productId, c, p);
    }
  }

  /** The effect of setting line `k`, for every other line at once. */
  lemma UpdateEffectAll(items: seq<CartItem>, k: nat, quantity: int)
    requires LinesWellFormed(items) && k < |items| && quantity >= 0
    ensures var after := LinesAfterUpdate(items, k, quantity);
      && LinesWellFormed(after)
      && QuantityOf(after, items[k].cartId, items[k].productId) == quantity
      && forall c, p :: !(c == items[k].cartId && p == items[k].productId) ==>
           LineFor(after, c, p) == LineFor(items, c, p)
  {
    UpdateEffect(items, k, quantity, items[k].cartId, items[k].productId);
    forall c, p | !(c == items[k].cartId && p == items[k].productId)
      ensures LineFor(LinesAfterUpdate(items, k, quantity), c, p) == LineFor(items, c, p)
    {
      UpdateEffect(items, k, quantity, c, p);
    }
  }

  /** Routing a non-positive quantity to DELETE changes nothing the server
      would not have done anyway: a PUT of that quantity clamps it to 0 and
      deletes the same line, and for a product without a line both leave the
      lines as they are. */
  lemma RoutingAgreesWithServer(items: seq<CartItem>, cartId: string, productId: string, newQuantity: int)
    ensures LinesAfterRequest(items, cartId, UpdateQuantity(productId, newQuantity)) ==
            LinesAfterRequest(items, cartId, PutQuantity(productId, newQuantity))
  {
  }

  // ------------------------------------------------------------------
  // Checkout snapshot
  // ------------------------------------------------------------------

  /** `{items: cart.items, total: getTotalPrice()}`, written to local storage
      by "Proceder al pago", which the dialog only offers for a cart with
      items. */
  datatype Snapshot = Snapshot(items: seq<EnrichedItem>, total: int)

  function CheckoutSnapshot(items: seq<EnrichedItem>): (s: Snapshot)
    ensures s.items == items && s.total == GetTotalPrice(Shown(items))
  {
    Snapshot(items, GetTotalPrice(Shown(items)))
  }

  /** How an item of the snapshot reads back after `JSON.parse`. */
  function RawOf(item: EnrichedItem): RawItem {
    RawItem(Some(item.productId), Some(item.id), Some(item.name), Some(item.quantity), Some(item.price))
  }

  function RawsOf(items: seq<EnrichedItem>): (r: seq<RawItem>)
    ensures |r| == |items| && forall i :: 0 <= i < |r| ==> r[i] == RawOf(items[i])
  {
    if items == [] then [] else RawsOf(items[..|items| - 1]) + [RawOf(items[|items| - 1])]
  }

  /** The stored text as the payment page parses it. */
  function StoredOf(s: Snapshot): StoredCart {
    Parsed(Some(RawsOf(s.items)), Some(s.total))
  }

  lemma {:induction false} PanelLinesTotal(items: seq<EnrichedItem>)
    requires forall i :: 0 <= i < |items| ==> items[i].quantity >= 1
    ensures ItemsTotal(PublicPaymentPage.LinesOf(RawsOf(items))) == Sum(items, ItemTotal)
  {
    if items != [] {
      var init := items[..|items| - 1];
      PanelLinesTotal(init);
      assert RawsOf(items)[..|items| - 1] == RawsOf(init);
      assert PublicPaymentPage.LinesOf(RawsOf(items))[..|items| - 1] == PublicPaymentPage.LinesOf(RawsOf(init));
    }
  }

  /** The payment page (public copy) loads the snapshot line for line, with
      each line keyed by its product, and displays the dialog's total whether
      or not it has an items list: the lines' sum, which the redraw shows, is
      that total, and so is the stored total or its fallback shown without
      the redraw. */
  lemma SnapshotReachesPaymentPage(items: seq<EnrichedItem>)
    requires forall i :: 0 <= i < |items| ==> items[i].quantity >= 1 && items[i].productId != ""
    ensures var s := CheckoutSnapshot(items);
      var lines := PublicPaymentPage.LinesOf(RawsOf(items));
      && Loadable(StoredOf(s))
      && |lines| == |items|
      && (forall i :: 0 <= i < |lines| ==>
            lines[i].id == Some(items[i].productId) && lines[i].quantity == items[i].quantity
            && lines[i].price == items[i].price)
      && ItemsTotal(lines) == s.total
      && OrInt(StoredOf(s).total, ItemsTotal(lines)) == s.total
  {
    PanelLinesTotal(items);
  }
}
