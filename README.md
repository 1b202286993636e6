# Farmachelo payments, checkout and cart — a verified Dafny model

Farmachelo is an online pharmacy. This project models the part of it that
handles money, written in Dafny with its properties proved:

- **Card validation.** The Luhn check, the issuer classification by number
  prefix, the `MM/YY` expiry rule and the CVV rule
  (`backend/routers/payments.py`, repeated in `backend/server.py`).
- **`process_payment`.** It runs an ordered series of rejections: the amount
  against the live cart total, then the card number, the expiry date and the
  CVV. Then the issuer decides. An approved payment records one completed
  transaction and marks the referenced order as paid.
- **`validate_card`.** The same card checks, without the amount check.
- **`create_checkout_session`.** It freezes a total into a pending order
  with one order line per requested line.
- **Cart handlers** (`backend/routers/cart.py`):
  - find-or-create the cart, and the enriched cart view;
  - add (merge or insert `max(1, q)` units);
  - update (clamp to 0, delete at 0);
  - delete (a no-op when the line is absent).
- **Order listing** (`backend/routers/orders.py`): a user's orders, newest
  first, each with the total frozen at checkout.
- **Order summary** (`backend/routers/orders.py`): recomputes the total from
  live prices.
- **Catalogue** (`backend/routers/products.py`): the listing with its active,
  category and name-search filters, and the lookup of one product.
- **Browser side:**
  - the payment form's input formatters;
  - the payment page's `OrderManager`, in both copies of the page;
  - the cart dialog's total, quantity buttons and checkout snapshot
    (`CartModal.js`);
  - the catalogue page's filter (`ProductCatalog.js`).

How the model stands in for the outside world:

- **Database.** The tables are the `seq`-valued fields of one `Database`
  class (`store.dfy`). A handler is a method that `modifies` the tables it
  writes. Its contract gives the new tables as a function of the old ones.
- **`.first()`** means the first match in table order.
- **Commit and rollback.** A rolled-back transaction leaves the tables as
  they were. Each handler's own commits are modelled where they happen. In
  particular, `_get_or_create_cart` commits a new cart at once.
- **Inputs from outside:**
  - the clock is a `now: DateTime` parameter;
  - the issuer's random decision is an `approved: bool` parameter;
  - `uuid4()` and `token_hex(4)` values are parameters;
  - a commit failing for an outside reason is a `commitFails` or
    `CheckoutFault` parameter.
- **Foreign keys.** The tables are InnoDB tables, so the keys declared in
  `backend/models.py` are enforced. A commit whose rows break one is certain
  to raise, and the model forces that failure:
  - a transaction row whose `order_id` is set but names no order breaks
    `payment_transactions.order_id → orders.id` (models.py:91);
  - an order line for a product that does not exist breaks
    `order_items.product_id → products.id` (models.py:75).
  
  `Database.Valid()` includes both keys, and payment and checkout keep it.
- **Money.** Prices and order totals are whole pesos (`int`). The payment
  request's amount is a `real`, and the 0.01 tolerance is compared over the
  reals. Near exactly ±0.01 the source's float comparison can reject an
  amount the model accepts (see "## Left out").

About `backend/server.py`:

- It is a parallel copy of the payment helpers and handlers. One Dafny
  definition serves both copies:

  | copy in `backend/server.py` | copy in `backend/routers/payments.py` |
  |---|---|
  | `server.py:31-48` | `payments.py:14-30` |
  | `server.py:50-65` | `payments.py:32-47` |
  | `server.py:67-87` | `payments.py:49-66` |
  | `server.py:191-254` | `payments.py:68-126` |
  | `server.py:256-282` | `payments.py:128-146` |
  | `server.py:284-332` | `payments.py:148-192` |

- `server.py` uses `_get_or_create_cart`, `_enrich_cart`, `Order`,
  `Product`, `PaymentTransaction`, `PaymentResponse` and others, but never
  defines or imports them. The model takes these to be the router
  package's.
- `server.py` does import `uuid` and `datetime` (`server.py:10`, `:19`).
  The router files use both without importing them (see Findings). The
  model follows the intended behaviour. The files as they stand are
  modelled separately in `router_as_written.dfy`.

Files:

| file | module(s) |
|---|---|
| `common.dfy` | `Common`: options, date-times and their order, decimal numerals, sequence filters and sums |
| `store.dfy` | `Store`: the rows, the `Database` class, the lookups and the table invariants |
| `card_validation.dfy` | `CardValidation` |
| `payments.dfy` | `Payments` |
| `cart_routes.dfy` | `CartRoutes` |
| `orders.dfy` | `Orders` |
| `products.dfy` | `Products` |
| `router_as_written.dfy` | `RouterAsWritten` |
| `card_formatting.dfy` | `CardFormatting` |
| `order_manager.dfy` | `OrderData`, `PaymentPage`, `PublicPaymentPage` |
| `cart_modal.dfy` | `CartModal` |
| `product_catalog.dfy` | `ProductCatalog` |

## Model

| member | source | states |
|---|---|---|
| CardValidation.ValidateCardNumber | backend/routers/payments.py:14-30 | The right-to-left accumulator loop answers true exactly when the space-stripped number is a non-empty digit string whose Luhn sum (odd positions from the right doubled, minus 9 above 9) is a multiple of 10 |
| CardValidation.LuhnDetectsSingleDigitChange | backend/routers/payments.py:20-30 | Changing any one digit of a digit string with Luhn sum ≡ 0 (mod 10) makes the sum non-zero mod 10 |
| CardValidation.SingleDigitChangeInvalidates | backend/routers/payments.py:14-30 | Replacing one digit of a valid card number with a different digit makes it invalid |
| CardValidation.DigitStringAccepted | backend/routers/payments.py:17-30 | A non-empty digit string with a Luhn sum ≡ 0 (mod 10) is accepted |
| CardValidation.IsLuhnValid | backend/routers/payments.py:14-30 | A number that passes holds at least one digit and nothing but digits and spaces, so any other character rejects it |
| CardValidation.EmptyRejected | backend/routers/payments.py:16-18 | The empty string, and a string of spaces only, are rejected |
| CardValidation.TestCardValid | backend/routers/payments.py:14-30 | The test number 4532015112830366 is accepted |
| CardValidation.TestCardTypoRejected | backend/routers/payments.py:14-30 | The same number with its last digit changed is rejected |
| CardValidation.CardType | backend/routers/payments.py:32-47 | The first-match brand is read off the leading characters of the space-stripped number: Visa iff "4", Mastercard iff "51"–"55", Amex iff "34"/"37", Diners Club iff "300"–"305"/"36"/"38", Discover iff "6011"/"65". An empty number, or one starting with anything but 3, 4, 5 or 6, is "Unknown" |
| CardValidation.MastercardPrefixes | backend/routers/payments.py:38 | Starting with one of "51".."55" means a '5' followed by '1'..'5' |
| CardValidation.AmexPrefixes | backend/routers/payments.py:40 | Starting with "34" or "37" means '3' followed by '4' or '7' |
| CardValidation.DinersPrefixes | backend/routers/payments.py:42 | Starting with one of the eight Diners prefixes means '3' followed by '0' and '0'..'5', or by '6' or '8' |
| CardValidation.DiscoverPrefixes | backend/routers/payments.py:44 | Starting with "6011" or "65" |
| CardValidation.NonDigitClassified | backend/routers/payments.py:32-47 | Classification needs neither digits nor Luhn validity: "4abc" is Visa yet invalid |
| CardValidation.DiscoverExample | backend/routers/payments.py:44-45 | A number starting with 6011 is Discover |
| CardValidation.SpacelessDiscover | backend/routers/payments.py:44-45 | Any space-free number starting with 6011 is Discover |
| CardValidation.UnknownExample | backend/routers/payments.py:46-47 | A number starting with 9 is Unknown |
| CardValidation.SpacelessUnknown | backend/routers/payments.py:46-47 | Any space-free number starting with 9 is Unknown |
| CardValidation.ParseInt | backend/routers/payments.py:53-54 | `int(part.strip())` succeeds exactly when the stripped piece is a non-empty digit string |
| CardValidation.ParseTwoDigits | backend/routers/payments.py:53-54 | A two-digit piece reads as 10·first + second |
| CardValidation.FirstOfMonthAfter | backend/routers/payments.py:61-64 | Midnight on the 1st of (year, month) is after `now` exactly when (year, month) is later than now's (year, month) |
| CardValidation.ExpiryValidIff | backend/routers/payments.py:49-66 | `MM/YY` is accepted iff both pieces are numerals, 1 ≤ MM ≤ 12, 2000+YY ≤ 9999, and (2000+YY, MM) is lexicographically after (now.year, now.month) |
| CardValidation.ValidateExpiryDate | backend/routers/payments.py:49-66 | An accepted expiry has exactly one "/", both pieces are numerals, the month is 1..12 and 2000+YY is a year `datetime` accepts |
| CardValidation.RejectedDuringStatedMonth | backend/routers/payments.py:61-64 | A card is already rejected during the month it names |
| CardValidation.MonthOutOfRangeRejected | backend/routers/payments.py:58-59 | A month outside 1..12 is rejected |
| CardValidation.NoSlashRejected | backend/routers/payments.py:52 | Without a "/" the unpacking fails and the answer is false |
| CardValidation.ThreePiecesRejected | backend/routers/payments.py:52 | Three pieces fail the unpacking: "12/25/01" is rejected |
| CardValidation.CvvExamples | backend/routers/payments.py:88-90 | The CVV rule accepts exactly 3 or 4 digits: "12", "12345", "12a" and " 123" fail; "123" and "1234" pass |
| CardValidation.ValidCvv | backend/routers/payments.py:88-90 | Exactly the strings of three or four ASCII decimal digits pass |
| Payments.CardRejection | backend/routers/payments.py:82-90 | The card checks run in the order number, expiry, CVV. The first failing one is reported, and nothing is reported iff all three pass (each direction stated) |
| Payments.PaymentRejection | backend/routers/payments.py:79-90 | A wrong amount (off by more than 0.01 from the cart total) is reported before any card check, whatever the card. With a matching amount the card checks decide |
| Payments.ValidateCard | backend/routers/payments.py:128-143 | Valid iff all three card checks pass. A card type is returned only when valid, and an error only when not |
| Payments.ValidateCardAgreesWithPayment | backend/routers/payments.py:128-143 | With a matching amount, `validate_card` and `process_payment` accept the same cards and give the same error messages |
| Payments.PaymentOutcome | backend/routers/payments.py:79-126 | The attempt is approved iff the amount matches, all card checks pass, the issuer approves and the commit succeeds. It is rejected iff a static check fails, for the first failing check. Declined iff every check passes and the issuer refuses. Failed iff the issuer approves and the commit raises |
| Payments.TransactionCode | backend/routers/payments.py:95 | The code is "TXN_", then the zero-padded date (%Y%m%d), "_", the time (%H%M%S), "_" and the token, each at a fixed position |
| Payments.TransactionCodeLayout | backend/routers/payments.py:95 | With an 8-hex-digit token the code has 28 characters, and the date and time fields read back as now's year, month, day, hour, minute and second |
| Payments.LastFour | backend/routers/payments.py:104 | `card_number[-4:]` is the last min(4, length) characters of the raw number |
| Payments.OrdersAfterApproval | backend/routers/payments.py:112-116 | With a truthy order id that resolves (by id only), that order becomes paid with the transaction code and every other order is unchanged. Otherwise the orders are unchanged. Ids, owners and totals are never touched. It is applied only when the commit goes through, and an order id that is set but resolves to no order makes the commit fail (`Payments.DanglingOrderNeverRecorded`) |
| Payments.ApprovalPaysNamedOrder | backend/routers/payments.py:112-116 | When order ids are distinct, the named order is the one paid, all others stay, and ids stay distinct |
| Payments.PaymentEffectOf | backend/routers/payments.py:79-126 | Success iff approved, and an error text exactly when not. On success exactly one completed transaction is appended, carrying the code, last four, brand, amount, user and order id, and equal to the full row `ApprovedTransaction` (row id, email, currency, status "completed", `created_at` = now). The orders are updated as above. Otherwise nothing changes and the error is the first failing check's message, "Tarjeta rechazada por el banco emisor" on a decline, or "Error interno del servidor" on a failed commit. A wrong amount always yields the amount error |
| Payments.ProcessPayment | backend/routers/payments.py:68-126 | The user's cart is found or created (committed at once). Its live enriched total is the amount check's reference. The response, orders and transactions are those of `PaymentEffectOf`, whose commit fails when `commitFails` holds or the order id is set but names no order. `Database.Valid()` is kept, both foreign keys included |
| Payments.SettlePayment | backend/routers/payments.py:79-126 | The decision chain, from the amount check through to the commit, produces exactly `PaymentEffectOf`'s response and tables. The commit fails on `commitFails` or on a dangling order id. Order ids stay distinct |
| Payments.DanglingOrderNeverRecorded | backend/routers/payments.py:97-126 | A payment whose order id is set but names no order (the empty string included) is never recorded: it fails, both tables are unchanged, and with every check passed and an approval the answer is "Error interno del servidor" |
| Payments.PaymentKeepsReferences | backend/models.py:91 | After any payment, every transaction's order id is NULL or names an existing order |
| Payments.PaymentKeepsOrderIds | backend/routers/payments.py:112-116 | Paying an order never makes two orders share an id |
| Payments.CheckoutTotalOverResolvable | backend/routers/payments.py:155-159 | The checkout total (`CheckoutTotal`) is Σ price×quantity over the requested lines whose product exists. Unresolved lines add nothing |
| Payments.ComputeCheckoutTotal | backend/routers/payments.py:155-159 | The accumulator loop computes the checkout total |
| Payments.CheckoutOfCartIsCartTotal | backend/routers/payments.py:155-159 | Checking out exactly the cart's lines freezes the same total as the enriched cart's total |
| Payments.FrozenTotalPassesAmountCheck | backend/routers/payments.py:79-80 | Paying the total frozen from the unchanged cart passes the amount check |
| Payments.AmountToleranceExample | backend/routers/payments.py:79 | 16999.99 matches a 17000 cart and 16999.98 does not |
| Payments.NewOrderItems | backend/routers/payments.py:171-179 | The lines checkout stages: one per requested line, unresolved ones included, with the order's id and the request's product, quantity and prescription file. They are committed only when every product exists (see `Payments.CheckoutFaultMet`) |
| Payments.BuildOrderItems | backend/routers/payments.py:171-179 | The loop builds exactly those order lines |
| Payments.CreateCheckoutSession | backend/routers/payments.py:148-192 | With no fault and every requested product existing: one pending order with the frozen total, its lines, and the response (id, total, "COP", "pending"). A failure at the order commit changes nothing and answers 500. A failure at the lines' commit, forced when a requested product does not exist, leaves the committed pending order without lines and answers 500. `Database.Valid()` is kept, both foreign keys included |
| Payments.CheckoutFaultMet | backend/routers/payments.py:171-181 | Checkout goes through iff no outside fault occurs and every requested product exists. Without an outside fault, a missing product makes the lines' commit fail. An order-commit fault is met as it is |
| Payments.NewOrderItemsReferenceProducts | backend/models.py:75 | Lines staged for existing products keep every order line's product resolvable |
| Store.FindActiveProduct | backend/routers/cart.py:59 | Finds a product with the id that is active; none exactly when no row has both |
| Store.FindOrderOf | backend/routers/orders.py:55 | Finds an order with both the id and the owner; none exactly when no row has both |
| Store.FindLineUnique | backend/routers/cart.py:65-68 | In well-formed lines (at most one per cart and product), the line found is the only one for that pair |
| CartRoutes.CartsWithCartForSpec | backend/routers/cart.py:11-18 | The user's existing cart is kept and nothing is added. Otherwise exactly one cart with the new id is appended |
| CartRoutes.CartsWithCartForIdempotent | backend/routers/cart.py:11-18 | Calling find-or-create twice gives the same carts as calling it once |
| CartRoutes.CartsWithCartForWellFormed | backend/routers/cart.py:11-18 | With a fresh id it keeps one cart per user and distinct cart ids |
| CartRoutes.GetOrCreateCart | backend/routers/cart.py:11-18 | Returns the index of the user's cart after the call; the carts are find-or-create's |
| CartRoutes.TouchCart | backend/routers/cart.py:82 | Only the touched cart's `updated_at` changes |
| CartRoutes.TouchCartWellFormed | backend/routers/cart.py:82 | Touching keeps the carts well formed and the user's cart findable at the same index |
| CartRoutes.EnrichLinesSpec | backend/routers/cart.py:20-43 | The view keeps exactly the lines whose product exists (inactive ones too), in order. Each carries its quantity and file, the product's name, price, image and prescription flag, and `id` = `product_id` |
| CartRoutes.EnrichAllResolvable | backend/routers/cart.py:24-36 | When every product exists, the view has one entry per line |
| CartRoutes.EnrichedCartView | backend/routers/cart.py:20-43 | The view (`EnrichedCartOf`) carries the cart's id, owner and `updated_at`, and one entry per line of that cart (of no other) whose product exists, in order, built from that line and its product |
| CartRoutes.EnrichCart | backend/routers/cart.py:20-43 | The loop builds exactly that view |
| CartRoutes.GetCart | backend/routers/cart.py:45-51 | Returns the view of the user's cart, creating the cart if needed |
| CartRoutes.CartTotalIsLiveTotal | backend/routers/payments.py:75-77 | The enriched cart's total is Σ price×quantity at live prices over the cart's lines, missing products counting 0 |
| CartRoutes.EmptyCartTotal | backend/routers/payments.py:77 | A cart without lines totals 0 |
| CartRoutes.AddEffect | backend/routers/cart.py:65-80 | After an add, the product's quantity in the cart grows by exactly max(1, q). Every other (cart, product) line is unchanged |
| CartRoutes.AddPrescriptionFile | backend/routers/cart.py:70-78 | Merging keeps the existing line's prescription file. Only a new line takes the request's file |
| CartRoutes.AddWellFormed | backend/routers/cart.py:65-80 | Adding keeps at most one line per product and every quantity ≥ 1 |
| CartRoutes.MergeLine | backend/routers/cart.py:65-80 | The merge-or-insert step leaves exactly the lines-after-add |
| CartRoutes.TablesAfterAddWellFormed | backend/routers/cart.py:59-83 | The whole add keeps carts and lines well formed |
| CartRoutes.AddCartItem | backend/routers/cart.py:53-85 | A missing or inactive product gives 404 "Product not found" with no table changed. Otherwise the cart is found or created, the line merged, the cart touched, and the view returned. Invariants are kept |
| CartRoutes.AddToCart | backend/routers/cart.py:63-83 | The writes after the product check: the cart tables become exactly the add's tables (cart found or created and touched, line merged). The user's cart is at the returned index. One cart per user, distinct cart ids, one line per product and positive quantities are kept |
| CartRoutes.RequestedQuantity | backend/routers/cart.py:94-96 | A missing quantity defaults to 1; a negative one is clamped to 0 |
| CartRoutes.UpdateEffect | backend/routers/cart.py:107-110 | The line holds exactly the new quantity, or is gone at 0. Other lines are untouched and invariants are kept |
| CartRoutes.UpdateCartItem | backend/routers/cart.py:87-115 | The cart is created first and stays. A missing line gives 404 "Item not found in cart" with the lines unchanged. Otherwise the line is set or deleted, the cart touched, and the view returned |
| CartRoutes.SetLineQuantity | backend/routers/cart.py:107-113 | Line j is set to the quantity, or deleted at 0. Cart k is touched. Both tables stay well formed |
| CartRoutes.DeleteEffect | backend/routers/cart.py:123-134 | Afterwards the product has no line, other lines are untouched, invariants are kept, and deleting again changes nothing |
| CartRoutes.DeleteCartItem | backend/routers/cart.py:117-134 | The cart tables become exactly the delete's tables: the user's cart (created if missing), touched only when the product's line existed and was removed. The view of that cart is always returned and invariants are kept |
| CartRoutes.DeleteFromCart | backend/routers/cart.py:123-133 | The writes of the delete: the tables become the delete's tables, the user's cart is at the returned index, and well-formedness is kept |
| CartRoutes.DropLine | backend/routers/cart.py:124-132 | The product's line in cart k is removed if present. The cart is touched exactly then. Well-formedness is kept |
| Orders.SortNewestFirst | backend/routers/orders.py:16 | The sort is a permutation that puts no order before one created later |
| Orders.InsertNewestFirst | backend/routers/orders.py:16 | Inserting into a newest-first list keeps it newest first |
| Orders.UserOrdersSpec | backend/routers/orders.py:16-43 | The listing holds exactly the caller's orders (a permutation of them), newest first. Each reports its stored (frozen) total and status |
| Orders.UserOrders | backend/routers/orders.py:11-43 | One entry per order of the caller and of no one else, newest first |
| Orders.ListedLinesSpec | backend/routers/orders.py:22-31 | An order's listed lines are exactly its lines whose product still exists, in order, with their own quantity and file |
| Orders.ListOrderLines | backend/routers/orders.py:20-31 | The inner loop builds exactly those lines |
| Orders.GetUserOrders | backend/routers/orders.py:11-43 | The nested loops build exactly the specified listing |
| Orders.SummaryLines | backend/routers/orders.py:63-77 | Every summary line's total is its live price × quantity |
| Orders.SummaryLinesTotal | backend/routers/orders.py:61-67 | The summary lines add up to the order's value at live prices, vanished products counting 0 |
| Orders.SummaryOf | backend/routers/orders.py:59-85 | The summary carries the order id, "COP", the order's status, and a total recomputed at today's prices over the order's lines, vanished products counting 0 |
| Orders.GetOrderSummary | backend/routers/orders.py:45-88 | The answer is exactly `OrderSummaryResult`'s, which the loop over the order's lines computes |
| Orders.OrderSummaryResult | backend/routers/orders.py:54-85 | 404 "Pedido no encontrado" iff no order has both the id and the caller as owner. Otherwise that order's summary, with its status and the live total |
| Orders.NewOrderItemsLiveTotal | backend/routers/orders.py:63-67 | The live value of the lines checkout creates equals the checkout total |
| Orders.SummaryOfFreshCheckout | backend/routers/orders.py:61-82 | Right after checkout, with prices unchanged, the summary's live total equals the frozen `total_amount` |
| Products.LikeLiteralPrefix | backend/routers/products.py:22 | LIKE "t%" with a wildcard-free t matches exactly the strings starting with t |
| Products.LikeContains | backend/routers/products.py:22 | LIKE "%t%" with a wildcard-free t is a containment test |
| Products.Like | backend/routers/products.py:22 | A pattern without `%` matches only strings of its length, and one without wildcards matches only itself |
| Products.ILike | backend/routers/products.py:22 | A wildcard-free pattern matches exactly the strings equal to it up to case |
| Products.UnderscoreMatchesAnyName | backend/routers/products.py:22 | Because `_` is an unescaped wildcard, a search for "_" matches every non-empty name |
| Products.GetProducts | backend/routers/products.py:11-25 | The result is a subsequence of the catalogue, holding exactly the active products that pass the category filter (only when a non-empty category is given) and the name search (only when a non-empty term is given) |
| Products.GetProductsUnfiltered | backend/routers/products.py:17-25 | With neither filter given, the listing is exactly the active products, in order |
| Products.SearchIsCaseInsensitiveContainment | backend/routers/products.py:21-22 | For a wildcard-free term, the search keeps a product iff its lower-cased name contains the lower-cased term. The description is not consulted |
| Products.GetProduct | backend/routers/products.py:27-32 | Succeeds iff some row has the id and is active, returning such a row. Otherwise 404 "Product not found" |
| RouterAsWritten.ProcessPaymentAsWritten | backend/routers/payments.py:68-126 | As written, `process_payment` never succeeds and never returns a transaction id |
| RouterAsWritten.ApprovedPaymentFailsAsWritten | backend/routers/payments.py:94-126 | An approved, fully valid payment answers "Error interno del servidor" as written. The intended handler records it exactly when its order id is unset or names an order |
| RouterAsWritten.AsWrittenAgreesBeforeApproval | backend/routers/payments.py:79-122 | For a user with a cart, the as-written and intended handlers agree on every rejection and on the decline |
| RouterAsWritten.CheckoutAsWritten | backend/routers/payments.py:154-192 | As written, checkout always answers 500 |
| RouterAsWritten.GetCartAsWritten | backend/routers/cart.py:10-51 | As written, GET /cart fails unhandled exactly when the user has no cart. Otherwise it answers that cart's enriched view |
| RouterAsWritten.AddCartItemAsWritten | backend/routers/cart.py:53-85 | As written, adding always fails: 404 for a missing or inactive product, otherwise an unhandled 500 |
| RouterAsWritten.UpdateCartItemAsWritten | backend/routers/cart.py:87-115 | As written, updating always fails. It is the 404 exactly when the user has a cart without the line |
| RouterAsWritten.DeleteCartItemAsWritten | backend/routers/cart.py:117-134 | As written, deleting succeeds exactly when the user has a cart and there is nothing to delete |
| RouterAsWritten.AddFailsAsWritten | backend/routers/cart.py:63-85 | Adding an active product fails as written, while the intended handler adds max(1, q) units |
| RouterAsWritten.DeleteFailsAsWritten | backend/routers/cart.py:123-134 | Deleting a product the cart holds fails as written, while the intended handler removes the line |
| RouterAsWritten.GetOrderSummaryAsWritten | backend/routers/orders.py:54-88 | As written, every failure answers the generic 500, including the 404 for a missing order |
| RouterAsWritten.MissingOrderAnswers500AsWritten | backend/routers/orders.py:56-57 | Where the intended handler answers 404, the handler as written answers 500. For an order the caller owns, the two agree |
| RouterAsWritten.NoOrdersAnswers500AsWritten | backend/routers/orders.py:56-57 | With no orders at all, the request answers 500 as written and 404 as intended |
| CardFormatting.KeepDigits | frontend/src/payment.js:38 | Keeps only digits, and no more characters than the input |
| CardFormatting.KeepDigitsSelects | frontend/src/payment.js:57 | The digits kept are the input's digits in their order (a subsequence) |
| CardFormatting.Groups | frontend/src/payment.js:39 | `match(/.{1,4}/g)` gives ⌈n/4⌉ pieces: all of 4 characters except a last one of 1 to 4 |
| CardFormatting.FormatCardNumber | frontend/src/payment.js:36-41 | With no digits typed the field is empty. Otherwise it is the digits in blocks of four: every fifth character is a space, the others are the typed digits in order, and the length is n + (n-1)/4 for n digits. Removing the spaces, as the server does, gives exactly the digits typed |
| CardFormatting.CardNumberIdempotent | frontend/src/payment.js:36-41 | Reformatting the formatted number changes nothing |
| CardFormatting.ExpiryDigits | frontend/src/payment.js:46-47 | At most 4 digits are kept |
| CardFormatting.ExpirySlashed | frontend/src/payment.js:48-50 | With 3 or more digits, the field is the first two digits, "/", and the rest |
| CardFormatting.ExpiryKeepsDigits | frontend/src/payment.js:46-50 | The digits of the formatted field are the first (up to) four typed |
| CardFormatting.FormatExpiry | frontend/src/payment.js:44-52 | The output has at most 5 characters. With fewer than 3 digits typed it is those digits. Otherwise it is digits with "/" in third place |
| CardFormatting.ExpiryIdempotent | frontend/src/payment.js:44-52 | Reformatting the formatted expiry changes nothing |
| CardFormatting.FormattedExpiryAccepted | frontend/src/payment.js:46-50 | With four digits typed the field is `MM/YY`, and the server's expiry rule accepts it iff MM is 1..12 and (20YY, MM) is after the current month |
| CardFormatting.FormatCvv | frontend/src/payment.js:57 | The CVV field keeps only digits |
| CardFormatting.CvvFormatted | frontend/src/payment.js:55-58 | The CVV formatter is idempotent and keeps the typed digits in order. The server accepts its output iff 3 or 4 digits were typed |
| OrderData.AddedLineTotal | frontend/src/payment.js:353-356 | Appending a line adds its price × quantity to the reduced total |
| OrderData.RemovedLinesTotal | frontend/src/payment.js:358-361 | Removing the lines with an id takes exactly their value off the total |
| PaymentPage.LineOf | frontend/src/payment.js:311-315 | Defaults "Producto", quantity `||1` (so 0 becomes 1), price `||0`. The line has no id |
| PaymentPage.LinesOf | frontend/src/payment.js:311-315 | One line per stored item, in order |
| PaymentPage.OrderManager.constructor | frontend/src/payment.js:284-293 | Starts empty and loads the stored cart; left empty when the cart is unusable. Records whether the page has an items list |
| PaymentPage.OrderManager.LoadOrderData | frontend/src/payment.js:295-332 | A parsed cart with an `items` array replaces the lines. The total left on display is their sum when the page has an items list (the redraw recomputes it); without one it is the stored total if truthy, else the sum. Anything else leaves the lines untouched and shows their sum |
| PaymentPage.OrderManager.CalculateTotal | frontend/src/payment.js:342-351 | The displayed value is Σ price×quantity over the lines |
| PaymentPage.OrderManager.AddItem | frontend/src/payment.js:353-356 | Appends the line. With an items list the redraw shows the old sum plus the line's price × quantity; without one nothing is shown |
| PaymentPage.OrderManager.RemoveItem | frontend/src/payment.js:358-361 | Keeps exactly the lines whose id differs from the argument. With an items list the redraw shows the old sum less the removed lines' value; without one nothing is shown |
| PaymentPage.OrderManager.UpdateOrderDisplay | frontend/src/payment.js:363-380 | Without an items list nothing is shown. With one, the sum of the lines is shown |
| PaymentPage.RemoveSparesLoadedLines | frontend/src/payment.js:358-361 | Loaded lines have no id, so removing by an actual id never removes them |
| PaymentPage.ZeroQuantityLoadsAsOne | frontend/src/payment.js:313 | A stored quantity of 0 loads as 1 |
| PublicPaymentPage.LineOf | frontend/public/src/payment.js:294-299 | `id` = product_id if truthy, else id. The same defaults as the other copy |
| PublicPaymentPage.LinesOf | frontend/public/src/payment.js:294-299 | One line per stored item, in order |
| PublicPaymentPage.OrderManager.constructor | frontend/public/src/payment.js:276-281 | `total` starts at 0 and the stored cart is loaded. Records whether the page has an items list |
| PublicPaymentPage.OrderManager.LoadOrderData | frontend/public/src/payment.js:283-327 | A usable cart replaces the lines. The total left on display is their sum with an items list, else the stored total if truthy, else the sum. A missing, unparsable, null or item-less cart empties the lines and shows 0. `total` is untouched |
| PublicPaymentPage.OrderManager.CalculateTotal | frontend/public/src/payment.js:350-360 | The later definition displays Σ price×quantity and does not assign `total` |
| PublicPaymentPage.OrderManager.AddItem | frontend/public/src/payment.js:362-365 | Appends the line; with an items list the redraw shows the old sum plus its value. `total` is untouched |
| PublicPaymentPage.OrderManager.RemoveItem | frontend/public/src/payment.js:367-370 | Keeps the lines whose id differs; with an items list the redraw shows the old sum less the removed lines' value. `total` is untouched |
| PublicPaymentPage.OrderManager.UpdateOrderDisplay | frontend/public/src/payment.js:372-389 | Without an items list nothing is shown. With one, the sum of the lines is shown |
| PublicPaymentPage.TotalNeverUpdated | frontend/public/src/payment.js:276-389 | After construction, a reload, an add, a total, a redraw and a remove, `total` is still 0 |
| CartModal.GetTotalPrice | frontend/public/src/components/CartModal.js:47-50 | 0 without a cart or items. Otherwise Σ price×quantity |
| CartModal.ModalTotalIsServerTotal | frontend/public/src/components/CartModal.js:47-50 | Shown the server's cart view, the dialog's total is the total `process_payment` checks the amount against |
| CartModal.UpdateQuantity | frontend/public/src/components/CartModal.js:7-22 | A quantity ≤ 0 is sent as a DELETE and never as a PUT. Otherwise a PUT with that quantity |
| CartModal.Decrement | frontend/public/src/components/CartModal.js:93-105 | − on a line of one unit (or fewer) removes it. − on a larger line asks for one fewer |
| CartModal.Increment | frontend/public/src/components/CartModal.js:93-105 | + on any line of zero units or more asks for one more |
| CartModal.RoutingAgreesWithServer | frontend/public/src/components/CartModal.js:7-11 | Sending DELETE for a quantity ≤ 0 leaves the same lines as the server's own clamp-to-0 PUT would |
| CartModal.LinesAfterRequest | backend/routers/cart.py:87-134 | From well-formed lines: a DELETE leaves the cart without the product; a PUT on an existing line leaves it holding the quantity clamped at 0; a PUT without a line changes nothing. Every other line is untouched, and the lines stay well formed |
| CartModal.CheckoutSnapshot | frontend/public/src/components/CartModal.js:132-135 | The snapshot holds the items and `total` = `getTotalPrice()` |
| CartModal.SnapshotReachesPaymentPage | frontend/public/src/components/CartModal.js:129-137 | The public payment page loads the snapshot line for line, keyed by product. The lines' sum, which the page's redraw shows, is the dialog's total, and so is the stored total shown without the redraw |
| ProductCatalog.FilteredProducts | frontend/public/src/components/ProductCatalog.js:8-13 | A product is kept iff (name or description contains the term, case-folded) and (category is "all" or equal) and it is active. The output is an order-preserving subsequence |
| ProductCatalog.InitialView | frontend/public/src/components/ProductCatalog.js:5-13 | With the initial empty term and "all", exactly the active products are shown, in order |
| ProductCatalog.EmptyTermMatchesAll | frontend/public/src/components/ProductCatalog.js:9-10 | An empty search term disables the text filter |
| ProductCatalog.AllAdmitsEveryCategory | frontend/public/src/components/ProductCatalog.js:11 | "all" disables the category filter |
| ProductCatalog.ServerResultsShown | frontend/public/src/components/ProductCatalog.js:9-10 | Every product the server's name search returns for a plain term is also shown by the page for that term |

## Left out

- Authentication (JWT decoding, `get_current_user`): the caller's user id is a parameter.
- Persistence mechanics:
  - SQLAlchemy sessions, `refresh` and the SQL engine are not modelled;
  - a query's row order is the table's order;
  - only the commits each handler performs are modelled, as whole-table updates.
- Foreign keys to `users.id` (carts, orders, transactions) are not modelled, because users are outside the model. The keys of `cart_items` and `order_items.order_id` hold by construction in the modelled handlers, and are not part of `Database.Valid()`.
- Exceptions other than a failing commit (a database error inside a query, say) are not modelled. The one per handler is the `commitFails` or `CheckoutFault` parameter. For the order summary, no failure other than the missing order is modelled, so its 500 "Error al obtener resumen del pedido" appears only in the as-written member.
- `validate_card`'s `except` branch (backend/routers/payments.py:145-146) is unreachable in the model, because with ASCII-only digits nothing it calls can raise (see the IsLuhnValid line below).
- Randomness: `SystemRandom().random() > 0.3` is the `approved` parameter. `uuid4()` and `token_hex(4)` values are parameters.
- The clock is a parameter. `process_payment` reads it twice, for the expiry check (backend/routers/payments.py:61) and for the transaction code (:95). `Payments.ProcessPayment` and `Payments.SettlePayment` use one `now` for both, so a payment made across a second or a month boundary is not modelled.
- Ties in `created_at`: the database leaves their order unspecified. `Orders.SortNewestFirst` picks one.
- Floating point and display:
  - `float(product.price)` (backend/routers/cart.py:32) is modelled as the integer price;
  - `toFixed`, `toLocaleString('es-CO')`, `Intl.NumberFormat` and `Math.round` are not modelled.
- CardValidation.ParseInt: it accepts only ASCII digits between whitespace. Python's `int()` also accepts a sign, underscores and non-ASCII digits.
- CardValidation.IsLuhnValid: `isdigit()` is taken as ASCII digits only. So the path where `isdigit()` accepts a character that `int()` then refuses (a superscript digit such as '²', backend/routers/payments.py:17 then :23) is lost. In the source that raises ValueError, and `validate_card` answers "Error interno del servidor" (:145-146).
- Payments.AmountMatches: it compares `Abs(amount - cartTotal) <= 0.01` over the reals, while backend/routers/payments.py:79 compares IEEE doubles. At the boundary the float difference can exceed 0.01: 100.01 against a cart of 100 gives 0.010000000000005116, which the source rejects with "El monto no coincide con el carrito actual" and the model accepts. `Payments.PaymentRejection`, `Payments.PaymentOutcome` and `Payments.PaymentEffectOf` inherit this gap for amounts within rounding error of ±0.01.
- Common.Lower: it folds ASCII letters only. JavaScript's `toLowerCase` and the database collation behind `ilike` also fold non-ASCII letters.
- Products.Like: it models LIKE without an escape character and without collation effects such as trailing-space padding.
- Payments.TransactionCode: `%Y` is taken as four zero-padded digits for years below 1000.
- Browser side:
  - DOM updates, event listeners, `localStorage`, network calls (axios), `onUpdateCart` and navigation are not modelled;
  - the dialog's requests are modelled as the `CartRequest` they would send;
  - the server's answer to them is `CartModal.LinesAfterRequest`.
- `updateOrderDisplay`'s list items and `updateTotalDisplay`'s text are not modelled. The value each leaves on display is: every operation of `OrderManager` returns the total it last shows. The first `calculateTotal` and `updateTotalDisplay` definitions in frontend/public/src/payment.js are replaced by the later ones, so only the later `calculateTotal` is modelled.
- Stored cart items that are not objects, and non-numeric `quantity` or `price` values (strings, NaN), are not modelled. Each stored item is an object with optional string or integer fields.
- The card formatter's first step, `replace(/\s/g, "")`, is folded into `KeepDigits`, since whitespace is never a digit.
- The login, admin, upload and migration code, `backend/models.py` and `backend/schemas.py` are not part of this model. The tables appear only through the rows in `store.dfy`.

## Findings

| source | as written | input that shows it | evidently intended | confidence | as-written member | corrected member |
|---|---|---|---|---|---|---|
| backend/routers/payments.py:98 | `uuid.uuid4()` is called, but the file never imports `uuid`. The NameError is caught and rolled back, and the handler answers "Error interno del servidor" | a user with a cart pays its exact total with a valid card for no order or an existing one, and the issuer approves | record the completed transaction, pay the order and answer success, as the same code in backend/server.py:219-247 would, with `uuid` imported (server.py:19) | not executed | RouterAsWritten.ApprovedPaymentFailsAsWritten | Payments.PaymentEffectOf |
| backend/routers/payments.py:162 | `uuid.uuid4()` without `import uuid` when building the order. Every checkout answers 500 | any checkout request | create the pending order with the frozen total and its lines | not executed | RouterAsWritten.CheckoutAsWritten | Payments.CreateCheckoutSession |
| backend/routers/cart.py:14 | `uuid.uuid4()` without `import uuid` (also at :74), and `datetime.now` without importing `datetime` (at :82). Adding an active product always raises. The same `uuid` makes GET /cart (cart.py:50 then :14) answer 500 for any user without a cart (`RouterAsWritten.GetCartAsWritten`) | adding any active product | find or create the cart, add max(1, q) units, touch the cart | not executed | RouterAsWritten.AddFailsAsWritten | CartRoutes.AddCartItem |
| backend/routers/cart.py:112 | `datetime.now` without importing `datetime`. Every update of an existing line raises | setting the quantity of a line the cart holds | set or delete the line and touch the cart | not executed | RouterAsWritten.UpdateCartItemAsWritten | CartRoutes.UpdateCartItem |
| backend/routers/cart.py:131 | `datetime.now` without importing `datetime`. Deleting a present line raises before the commit, so the line stays | deleting a product the cart holds | remove the line and touch the cart | not executed | RouterAsWritten.DeleteFailsAsWritten | CartRoutes.DeleteCartItem |
| backend/routers/orders.py:57 | the 404 "Pedido no encontrado" raised for a missing order is an `Exception`, so the handler's own `except Exception` at :87-88 catches it and answers 500 "Error al obtener resumen del pedido" | a summary request for an order id the caller does not own, or with no orders at all | answer the 404 with its own detail | not executed | RouterAsWritten.MissingOrderAnswers500AsWritten | Orders.GetOrderSummary |
