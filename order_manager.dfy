/** The payment page's order panel (`OrderManager`). It reads the cart the
    catalogue page left in local storage, keeps the list of lines it shows and
    displays their total. The two copies of the page differ in how they read
    the stored cart, so each has its own class. */
module OrderData {
  import opened Common

  /** One element of the stored cart's `items` array. A field that is absent
      or `null` is `None`. */
  datatype RawItem = RawItem(
    productId: Option<string>,
    id: Option<string>,
    name: Option<string>,
    quantity: Option<int>,
    price: Option<int>)

  /** What `localStorage.getItem('cart')` and `JSON.parse` yield: nothing (or
      the empty string), text that does not parse, a `null` document, or an
      object whose `items` may or may not be an array. */
  datatype StoredCart =
    | NoCart
    | Unparsable
    | NullCart
    | Parsed(items: Option<seq<RawItem>>, total: Option<int>)

  /** A line of the panel: `{id, name, quantity, price}`. */
  datatype Line = Line(id: Option<string>, name: string, quantity: int, price: int)

  /** `s || fallback` on a string: the empty string is falsy. */
  function OrString(s: Option<string>, fallback: string): string {
    if s.Some? && s.value != "" then s.value else fallback
  }

  /** `n || fallback` on a number: zero is falsy. */
  function OrInt(n: Option<int>, fallback: int): int {
    if n.Some? && n.value != 0 then n.value else fallback
  }

  /** `a || b` on optional strings: the first one unless it is falsy. */
  function OrId(a: Option<string>, b: Option<string>): Option<string> {
    if a.Some? && a.value != "" then a else b
  }

  /** Whether the stored cart is loaded: `cart && Array.isArray(cart.items)`. */
  predicate Loadable(stored: StoredCart) {
    stored.Parsed? && stored.items.Some?
  }

  /** The value of a line: price × quantity. */
  function LineValue(l: Line): int { l.price * l.quantity }

  /** `items.reduce((acc, item) => acc + item.price * item.quantity, 0)` */
  function ItemsTotal(items: seq<Line>): int {
    Sum(items, LineValue)
  }

  /** `item.id !== itemId`: the test `removeItem` keeps a line by. */
  function KeptBy(itemId: Option<string>): Line -> bool {
    (l: Line) => l.id != itemId
  }

  function MatchedBy(itemId: Option<string>): Line -> bool {
    (l: Line) => l.id == itemId
  }

  /** Adding a line adds its value to the total. */
  lemma AddedLineTotal(items: seq<Line>, item: Line)
    ensures ItemsTotal(items + [item]) == ItemsTotal(items) + item.price * item.quantity
  {
    SumAppend(items, [item], LineValue);
    assert [item][..0] == [];
  }

  /** Removing the lines with an id takes exactly their value off the total. */
  lemma RemovedLinesTotal(items: seq<Line>, itemId: Option<string>)
    ensures ItemsTotal(Filter(items, KeptBy(itemId))) ==
      ItemsTotal(items) - ItemsTotal(Filter(items, MatchedBy(itemId)))
  {
    SumFilterSplit(items, KeptBy(itemId), MatchedBy(itemId), LineValue);
  }
}

/** `frontend/src/payment.js` */
module PaymentPage {
  import opened Common
  import opened OrderData

  /** The mapping of one stored item: `name || 'Producto'`, `quantity || 1`,
      `price || 0`. This copy keeps no id. */
  function LineOf(raw: RawItem): (l: Line)
    ensures l.id.None? && l.name != "" && l.quantity != 0
    ensures raw.quantity.Some? && raw.quantity.value != 0 ==> l.quantity == raw.quantity.value
    ensures raw.price.Some? ==> l.price == raw.price.value
    ensures raw.price.None? ==> l.price == 0
  {
    Line(None, OrString(raw.name, "Producto"), OrInt(raw.quantity, 1), OrInt(raw.price, 0))
  }

  function LinesOf(raws: seq<RawItem>): (r: seq<Line>)
    ensures |r| == |raws| && forall i :: 0 <= i < |r| ==> r[i] == LineOf(raws[i])
  {
    if raws == [] then [] else LinesOf(raws[..|raws| - 1]) + [LineOf(raws[|raws| - 1])]
  }

  class OrderManager {
    var items: seq<Line>
    /** Whether the page has an `#itemsList` element; `updateOrderDisplay`
        returns at once without one. */
    const hasItemsList: bool

    /** Starts empty and loads the stored cart; an unusable one leaves it
        empty. The focus and visibility listeners that reload it call
        `LoadOrderData` again. */
    constructor(stored: StoredCart, hasItemsList: bool)
      ensures this.hasItemsList == hasItemsList
      ensures items == (if Loadable(stored) then LinesOf(stored.items.value) else [])
    {
      items := [];
      this.hasItemsList := hasItemsList;
      new;
      var _ := LoadOrderData(stored);
    }

    /** `loadOrderData`: a usable stored cart replaces the lines and shows the
        stored total when it is truthy, the sum otherwise; the panel's redraw
        that follows shows the sum again when the page has an items list.
        Anything else leaves the lines as they were and shows their sum.
        Returns the total left on display. */
    method LoadOrderData(stored: StoredCart) returns (shown: int)
      modifies this
      ensures Loadable(stored) ==> items == LinesOf(stored.items.value)
      ensures Loadable(stored) ==>
        shown == (if hasItemsList then ItemsTotal(items) else OrInt(stored.total, ItemsTotal(items)))
      ensures !Loadable(stored) ==> items == old(items) && shown == ItemsTotal(items)
    {
      if Loadable(stored) {
        items := LinesOf(stored.items.value);
        if stored.total.Some? && stored.total.value != 0 {
          shown := stored.total.value;
        } else {
          shown := CalculateTotal();
        }
        var redrawn := UpdateOrderDisplay();
        if redrawn.Some? {
          shown := redrawn.value;
        }
      } else {
        shown := CalculateTotal();
      }
    }

    /** `calculateTotal`: the value it displays. */
    method CalculateTotal() returns (total: int)
      ensures total == ItemsTotal(items)
    {
      total := 0;
      if items != [] {
        total := ItemsTotal(items);
      }
    }

    /** `updateOrderDisplay`: without an items list it does nothing; with one
        it redraws the lines and displays their sum. Returns the total it
        displays, if any. */
    method UpdateOrderDisplay() returns (shown: Option<int>)
      ensures hasItemsList <==> shown.Some?
      ensures hasItemsList ==> shown.value == ItemsTotal(items)
    {
      if !hasItemsList {
        return None;
      }
      var total := CalculateTotal();
      shown := Some(total);
    }

    /** `addItem`: appends the line; the redraw shows the old total plus the
        line's value. */
    method AddItem(item: Line) returns (shown: Option<int>)
      modifies this
      ensures items == old(items) + [item]
      ensures hasItemsList <==> shown.Some?
      ensures hasItemsList ==> shown.value == ItemsTotal(old(items)) + item.price * item.quantity
    {
      AddedLineTotal(items, item);
      items := items + [item];
      shown := UpdateOrderDisplay();
    }

    /** `removeItem`: keeps the lines whose id differs from `itemId`; the
        redraw shows the old total less the removed lines' value. */
    method RemoveItem(itemId: Option<string>) returns (shown: Option<int>)
      modifies this
      ensures items == Filter(old(items), KeptBy(itemId))
      ensures hasItemsList <==> shown.Some?
      ensures hasItemsList ==>
        shown.value == ItemsTotal(old(items)) - ItemsTotal(Filter(old(items), MatchedBy(itemId)))
    {
      RemovedLinesTotal(items, itemId);
      items := Filter(items, KeptBy(itemId));
      shown := UpdateOrderDisplay();
    }
  }

  /** Lines loaded by this copy carry no id, so `removeItem` with an actual
      id never removes one of them. */
  lemma RemoveSparesLoadedLines(raws: seq<RawItem>, itemId: string)
    ensures Filter(LinesOf(raws), KeptBy(Some(itemId))) == LinesOf(raws)
  {
    FilterAll(LinesOf(raws), KeptBy(Some(itemId)));
  }

  /** A stored quantity of 0 loads as 1, since 0 is falsy. */
  lemma ZeroQuantityLoadsAsOne(raw: RawItem)
    requires raw.quantity == Some(0)
    ensures LineOf(raw).quantity == 1
  {
  }
}

/** `frontend/public/src/payment.js`. Its class body defines
    `updateTotalDisplay` twice and `calculateTotal` twice; the later
    definition of each replaces the earlier one, and the later
    `calculateTotal` never assigns `this.total`. */
module PublicPaymentPage {
  import opened Common
  import opened OrderData

  /** The mapping of one stored item: `id: product_id || id`, then the same
      defaults as the other copy. */
  function LineOf(raw: RawItem): (l: Line)
    ensures l.id == (if raw.productId.Some? && raw.productId.value != "" then raw.productId else raw.id)
    ensures l.name != "" && l.quantity != 0
    ensures raw.quantity.Some? && raw.quantity.value != 0 ==> l.quantity == raw.quantity.value
    ensures raw.price.Some? ==> l.price == raw.price.value
    ensures raw.price.None? ==> l.price == 0
  {
    Line(OrId(raw.productId, raw.id), OrString(raw.name, "Producto"), OrInt(raw.quantity, 1), OrInt(raw.price, 0))
  }

  function LinesOf(raws: seq<RawItem>): (r: seq<Line>)
    ensures |r| == |raws| && forall i :: 0 <= i < |r| ==> r[i] == LineOf(raws[i])
  {
    if raws == [] then [] else LinesOf(raws[..|raws| - 1]) + [LineOf(raws[|raws| - 1])]
  }

  class OrderManager {
    var items: seq<Line>
    var total: int
    /** Whether the page has an `#itemsList` element; `updateOrderDisplay`
        returns at once without one. */
    const hasItemsList: bool

    /** `this.total` keeps the 0 the constructor gives it. */
    ghost predicate Valid()
      reads this
    {
      total == 0
    }

    constructor(stored: StoredCart, hasItemsList: bool)
      ensures Valid() && this.hasItemsList == hasItemsList
      ensures items == (if Loadable(stored) then LinesOf(stored.items.value) else [])
    {
      items := [];
      total := 0;
      this.hasItemsList := hasItemsList;
      new;
      var _ := LoadOrderData(stored);
    }

    /** `loadOrderData`: a usable stored cart replaces the lines and shows the
        stored total when it is truthy, the sum otherwise; the panel's redraw
        that follows shows the sum again when the page has an items list.
        Anything else (no cart, unparsable text, `null`, no `items` array)
        empties the lines and shows 0. Returns the total left on display. */
    method LoadOrderData(stored: StoredCart) returns (shown: int)
      modifies this
      ensures total == old(total)
      ensures Loadable(stored) ==> items == LinesOf(stored.items.value)
      ensures Loadable(stored) ==>
        shown == (if hasItemsList then ItemsTotal(items) else OrInt(stored.total, ItemsTotal(items)))
      ensures !Loadable(stored) ==> items == [] && shown == 0
    {
      if Loadable(stored) {
        items := LinesOf(stored.items.value);
        if stored.total.Some? && stored.total.value != 0 {
          shown := stored.total.value;
        } else {
          shown := CalculateTotal();
        }
        var redrawn := UpdateOrderDisplay();
        if redrawn.Some? {
          shown := redrawn.value;
        }
        return;
      }
      items := [];
      shown := CalculateTotal();
      var _ := UpdateOrderDisplay();
    }

    /** `calculateTotal` (the later definition): the value it displays; the
        `total` field is left alone. */
    method CalculateTotal() returns (shown: int)
      ensures shown == ItemsTotal(items)
    {
      shown := 0;
      if items != [] {
        shown := ItemsTotal(items);
      }
    }

    /** `updateOrderDisplay`: without an items list it does nothing; with one
        it redraws the lines and displays their sum. Returns the total it
        displays, if any. */
    method UpdateOrderDisplay() returns (shown: Option<int>)
      ensures hasItemsList <==> shown.Some?
      ensures hasItemsList ==> shown.value == ItemsTotal(items)
    {
      if !hasItemsList {
        return None;
      }
      var total := CalculateTotal();
      shown := Some(total);
    }

    /** `addItem`: appends the line; the redraw shows the old total plus the
        line's value. */
    method AddItem(item: Line) returns (shown: Option<int>)
      modifies this
      ensures items == old(items) + [item] && total == old(total)
      ensures hasItemsList <==> shown.Some?
      ensures hasItemsList ==> shown.value == ItemsTotal(old(items)) + item.price * item.quantity
    {
      AddedLineTotal(items, item);
      items := items + [item];
      shown := UpdateOrderDisplay();
    }

    /** `removeItem`: keeps the lines whose id differs; the redraw shows the
        old total less the removed lines' value. */
    method RemoveItem(itemId: Option<string>) returns (shown: Option<int>)
      modifies this
      ensures items == Filter(old(items), KeptBy(itemId)) && total == old(total)
      ensures hasItemsList <==> shown.Some?
      ensures hasItemsList ==>
        shown.value == ItemsTotal(old(items)) - ItemsTotal(Filter(old(items), MatchedBy(itemId)))
    {
      RemovedLinesTotal(items, itemId);
      items := Filter(items, KeptBy(itemId));
      shown := UpdateOrderDisplay();
    }
  }

  /** The `total` field stays 0 whatever the page does: a short sequence of
      every operation, started from any stored cart, leaves it at 0. */
  method TotalNeverUpdated(stored: StoredCart, hasItemsList: bool, reload: StoredCart, item: Line,
                           itemId: Option<string>)
    returns (m: OrderManager)
    ensures fresh(m) && m.total == 0
  {
    m := new OrderManager(stored, hasItemsList);
    var _ := m.LoadOrderData(reload);
    var _ := m.AddItem(item);
    var _ := m.CalculateTotal();
    var _ := m.UpdateOrderDisplay();
    var _ := m.RemoveItem(itemId);
  }
}
