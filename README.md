# Storefront stock, cart, checkout and payment model

This project models the core of a Laravel storefront API in Dafny. The core is the path from catalogue to paid order:

- the inventory ledger, with its on-hand, reserved and available counters;
- the price rules of products, variants and albums (bundles);
- coupons;
- the cart aggregate and its totals;
- checkout and the order lifecycle, which reserves, deducts and releases stock;
- the bank-transfer payment state machine;
- the admin endpoints that overwrite stock, order and payment fields;
- variation options and product reviews.

Each table the application writes is a class. Its rows are datatype values held in a `seq` or `map` field, and the class has a `Valid()` invariant: the table's unique indexes and id bounds. An Eloquent method that assigns fields and saves becomes a method of that table that replaces the row. The row itself is given by a function, and lemmas are proved about that function. A controller action becomes a module-level method over the tables it touches and returns a `Result`. Its error branches leave every table unchanged:

- `BadRequest` is 400;
- `Forbidden` is 403;
- `NotFound` is 404, the answer of route-model binding and `firstOrFail`;
- `Unprocessable` is 422;
- `ServerError` is 500, an exception that escaped the handler.

Money is an exact `real`. Time is an integer parameter `now`. PHP truthiness is the predicate `Base.Filled`: a string that is "" or "0" counts as false.

Modules:

- `Base`: the shared vocabulary: `Option`, `Result`, the HTTP errors and `Filled`.
- `Inventory`: the ledger and its operations.
- `Coupons`: coupon validity and discount.
- `Products`, `Variants`, `Albums`: price and stock rules of the catalogue.
- `Catalog`: the read-only catalogue.
- `CartItems`, `Carts`: cart lines and the carts table.
- `Orders`: the checkout snapshot and the order status changes with their effect on the ledger.
- `Payments`: the payment rows and their transitions.
- `OrderApi`: checkout and cancel.
- `CartApi`, `CouponApi`, `PaymentApi`: the customer endpoints.
- `AdminPaymentApi`, `AdminInventoryApi`, `AdminOrderApi`, `AdminVariationApi`: the admin endpoints.
- `ReviewApi`: reviews.

The model follows the code where it departs from what its names and schema suggest:

- Admin order updates write only the mass-assignable columns. `Order` has no fillable `admin_notes`, `carrier` or `tracking_url`, so those fields are dropped.
- The `pendingVerification` scope accepts a slip stored as "" that `isPendingVerification` rejects.
- Variation options are ordered by `display_order`, which the migration declares as a string column.

## Model

| member | source | states |
|---|---|---|
| Inventory.AvailableQuantity | app/Models/Inventory.php:55-58 | available is max(0, quantity − reserved): never negative, and equal to the difference whenever that is positive |
| Inventory.InStockIff | app/Models/Inventory.php:63-74 | a row is in stock iff tracking is off or quantity − reserved > 0; it is low-stock iff tracking is on and the available quantity is at most the threshold |
| Inventory.Reserved | app/Models/Inventory.php:79-86 | reserve(q) leaves quantity, key, threshold and tracking alone; when q is not available nothing changes, otherwise available drops by exactly q |
| Inventory.Released | app/Models/Inventory.php:91-95 | release(q) never touches quantity; reserved drops by q, floored at 0, and is never negative |
| Inventory.Deducted | app/Models/Inventory.php:100-108 | deduct(q) fails with no change unless quantity ≥ q (on hand, not available); otherwise quantity drops by q and stays ≥ 0, and reserved becomes max(0, reserved − q) |
| Inventory.OperationsPreserveConsistency | app/Models/Inventory.php:79-108 | for q ≥ 0, reserve, release and deduct each keep 0 ≤ reserved ≤ quantity |
| Inventory.ReleaseFreesStock | app/Models/Inventory.php:91-95 | on a consistent row, release(q) raises the available quantity by at least 0 and at most q |
| Inventory.FindRow | app/Models/Order.php:169-171 | `where(product, variant)->first()`: the first row with that key, or none when no row has it |
| Inventory.RowFor | app/Models/CartItem.php:104-114 | a row is found iff some row carries the key, and the row found carries it |
| Inventory.OutOfStockScope | app/Models/Inventory.php:122-126 | the outOfStock scope selects exactly the tracked rows for which isInStock is false |
| Inventory.LowStockScope | app/Models/Inventory.php:113-117 | the lowStock scope selects only tracked rows; for a non-negative threshold it selects exactly the rows flagged is_low_stock |
| Inventory.NewStock | database/migrations/2024_01_01_000009_create_inventory_table.php:22-25 | a new row starts with reserved 0 and tracking on, and is consistent for a non-negative quantity |
| Inventory.InventoryTable.Create | database/migrations/2024_01_01_000009_create_inventory_table.php:29 | inserting succeeds iff no row has the key, so at most one row per (product, variant); for variant rows that is the unique index, for base rows it is the one row product creation makes |
| Inventory.InventoryTable.Reserve | app/Models/Inventory.php:79-86 | reports success iff the quantity is available; row i becomes `Reserved`; nothing else changes |
| Inventory.InventoryTable.Release | app/Models/Inventory.php:91-95 | always succeeds; row i becomes `Released`; nothing else changes |
| Inventory.InventoryTable.Deduct | app/Models/Inventory.php:100-108 | reports success iff the quantity is on hand; row i becomes `Deducted`; nothing else changes |
| Coupons.IsValid | app/Models/Coupon.php:46-84 | valid iff the coupon is active, inside the inclusive [start, end] window (each end optional), at or above the minimum purchase, below a set non-zero usage limit, and (when a user is given) below the per-user count |
| Coupons.ValidityMonotone | app/Models/Coupon.php:63-65 | a coupon valid for an amount stays valid for any larger amount, and without the per-user check |
| Coupons.PercentOf | app/Models/Coupon.php:96 | a percentage of a non-negative amount is non-negative, and at most the amount for a percentage up to 100 |
| Coupons.CalculateDiscount | app/Models/Coupon.php:89-107 | 0 when the coupon is not valid for the amount; a percentage discount is at most the amount (value ≤ 100) and at most a set cap; a fixed discount never exceeds the amount; non-negative for non-negative inputs |
| Coupons.PercentageAboveHundredExceedsAmount | app/Models/Coupon.php:95-102 | a 150% coupon grants 150 on an amount of 100: the bound above needs value ≤ 100, which nothing enforces |
| Coupons.ActiveCodes | app/Models/Coupon.php:120-131 | the active scope holds exactly the active coupons whose inclusive window contains now |
| Coupons.ValidImpliesActive | app/Models/Coupon.php:120-131 | every coupon that isValid accepts is in the active scope, so both use the same window |
| Coupons.IncrementNeverValidates | app/Models/Coupon.php:68-70 | counting one more use can only make a coupon invalid, never valid |
| Coupons.CouponTable.IncrementUsage | app/Models/Coupon.php:112-115 | used_count of that coupon rises by exactly one and nothing else changes |
| Products.FinalPrice | app/Models/Product.php:153-156 | the sale price when one is set, the price otherwise |
| Products.SalePriceMayExceedPrice | app/Models/Product.php:153-156 | a sale price above the price is still the final price, since the two are never compared |
| Products.DiscountPercentage | app/Models/Product.php:161-167 | 0 unless the sale price is set and strictly below the price; then in (0, 100], and the final price equals price·(1 − d/100) |
| Products.DiscountMatchesSale | app/Models/Product.php:164 | the percentage computed from price and sale price recovers the sale price |
| Products.TotalStock | app/Models/Product.php:180-183 | the sum of on-hand quantities over the product's rows: non-negative when the quantities are, 0 when the product has no row |
| Products.TotalStockIgnoresReservations | app/Models/Product.php:188-191 | total_stock, and so product isInStock, depends only on keys and on-hand quantities, not on reservations or tracking |
| Products.ReserveKeepsTotalStock | app/Models/Product.php:180-191 | reserving or releasing on any row leaves every product's total_stock unchanged |
| Products.FullyReservedProductInStock | app/Models/Product.php:188-191 | a product whose only row is fully reserved counts as in stock, while that row's own isInStock is false |
| Products.BaseInventory | app/Models/Product.php:110-113 | the base inventory is a row keyed (product, no variant), and there is none only when no such row exists |
| Products.OnSale | app/Models/Product.php:220-223 | the onSale scope selects exactly the products with a sale price |
| Variants.VariantFinalPrice | app/Models/ProductVariant.php:70-74 | the product's final price plus the adjustment, unclamped; never above the product's price for a non-positive adjustment |
| Variants.VariantPriceCanBeNegative | app/Models/ProductVariant.php:70-74 | an adjustment of −15 on a product priced 10 gives a negative price |
| Variants.FindVariantRow | app/Models/ProductVariant.php:51-54 | the variant's inventory is the first row whose variant id is the variant's, or none when no row carries it |
| Variants.VariantAvailable | app/Models/ProductVariant.php:107-110 | 0 without an inventory row, otherwise the row's available quantity; never negative |
| Variants.VariantInStockIffAvailable | app/Models/ProductVariant.php:96-102 | a variant is in stock iff its available quantity is positive; without a row it is not in stock |
| Variants.VariantStockIgnoresTracking | app/Models/ProductVariant.php:96-102 | an untracked row with nothing available is in stock by its own check but not by the variant's |
| Variants.VariantRowIsKeyedRow | app/Models/CartItem.php:104-114 | when the variant's rows belong to its product, the variant's row is the row keyed (product, variant) that the cart line checks |
| Variants.AttributesKeys | app/Models/ProductVariant.php:79-91 | variation_attributes has exactly one entry per type slug present among the variant's options |
| Variants.AttributesLastWins | app/Models/ProductVariant.php:79-91 | each slug maps to the name, type name and value of the last option of that type |
| Variants.VariationAttributes | app/Models/ProductVariant.php:79-91 | the loop builds exactly the dictionary `AttributesOf` defines |
| Variants.WithoutType | app/Models/ProductVariant.php:125-128 | deleting the variant's pivot row for a type keeps every other row and keeps the one-option-per-type index |
| Variants.OptionForFindsRow | database/migrations/2024_01_01_000025_create_product_variant_options_table.php:24 | under the unique (variant, type) index, the option assigned to (variant, type) is the one its row holds |
| Variants.VariantOptionTable.SetVariationOption | app/Models/ProductVariant.php:123-139 | afterwards the type has exactly the new option, every other row is kept, and the unique index holds |
| Albums.CalculatedPrice | app/Models/Album.php:66-72 | the sum of member final prices times pivot quantities: non-negative for non-negative prices and quantities, 0 for an empty album |
| Albums.CalculatedPriceIgnoresVariants | app/Models/Album.php:66-72 | the pinned variants play no part in calculated_price |
| Albums.AlbumFinalPrice | app/Models/Album.php:77-86 | the base price (the fixed price if set, else calculated_price) when the discount is not positive; otherwise 0 ≤ final ≤ base for a discount up to 100 |
| Albums.DiscountBounds | app/Models/Album.php:81-85 | base·(1 − d/100) lies between 0 and base for 0 < d ≤ 100 and base ≥ 0 |
| Albums.Savings | app/Models/Album.php:91-94 | max(0, calculated − final): never negative, and otherwise exactly the difference |
| Albums.SavingsIsTheDiscount | app/Models/Album.php:77-94 | without a fixed price, the savings are exactly d% of the calculated price |
| Albums.CheckAlbumInStock | app/Models/Album.php:99-121 | the early-exit loop answers iff every member's row exists with at least its pivot quantity available; it names a failing member when false; an empty album is in stock |
| Catalog.VariantProduct | app/Models/ProductVariant.php:35-38 | the product a variant belongs to is the one its product_id names |
| CartItems.WithQuantity | app/Models/CartItem.php:68-75 | updateQuantity sets the quantity and subtotal = price·q, and keeps the frozen price and every other field |
| CartItems.ItemName | app/Models/CartItem.php:80-93 | the album name for album lines; the product name for product lines, followed by " - " and the variant name when a variant is attached |
| CartItems.InStockLineIsReservable | app/Models/CartItem.php:104-114 | a product line that passes its stock check finds a row on which reserve(quantity) succeeds |
| Carts.SumSubtotals | app/Models/Cart.php:56 | the sum of line subtotals, non-negative when the lines are |
| Carts.ItemCount | app/Models/Cart.php:183-186 | item_count is the sum of quantities, non-negative when the quantities are |
| Carts.SumsAppend | app/Models/Cart.php:56 | both sums distribute over concatenation |
| Carts.SumsUpdate | app/Models/CartItem.php:68-75 | replacing one line moves each sum by exactly that line's difference |
| Carts.SumsRemove | app/Models/Cart.php:165-169 | removing one line takes exactly its share out of each sum |
| Carts.ShippingFor | app/Models/Cart.php:62 | shipping is 0 iff subtotal ≥ 1000 (inclusive), and 50 otherwise |
| Carts.ActiveCoupon | app/Models/Cart.php:80-82 | the coupon looked up is found iff the code exists and the coupon is active |
| Carts.CartDiscount | app/Models/Cart.php:76-102 | 0 without a (truthy) code or for an unknown code; otherwise exactly what the coupon's calculateDiscount grants on the subtotal, so the cart's copy of the rule agrees with the coupon's |
| Carts.TotalsBounds | app/Models/Cart.php:54-71 | total = subtotal + tax + shipping − discount; for non-negative lines and a coupon within the admin limits, tax + shipping ≤ total and total ≥ 0 |
| Carts.EmptyCartTotals | app/Models/Cart.php:54-71 | an empty cart's totals are subtotal = tax = discount = 0 and shipping = total = 50, whatever coupon it carries |
| Carts.FindProductLine | app/Models/Cart.php:109-113 | the merge lookup finds a line of that product and variant, or there is none |
| Carts.FindAlbumLine | app/Models/Cart.php:140-143 | the merge lookup finds a line of that album, or there is none |
| Carts.FindItem | app/Http/Controllers/Api/CartController.php:108 | the line with the id, or none in that cart |
| Carts.ItemIdNamesOneLine | app/Http/Controllers/Api/CartController.php:108-123 | with auto-increment line ids, a line id found in one cart is in no other cart and at one position only, so the owner check is unambiguous |
| Carts.UnitPrice | app/Models/Cart.php:120-125 | a new product line is priced at the variant's final price when a variant is given, else at the product's |
| Carts.MergeOrAppendEffect | app/Models/Cart.php:107-133 | merging adds q to the found line at its frozen price, or appends exactly the new line; the item count grows by q; lines stay distinct, consistent and positive |
| Carts.AddProductLineEffect | app/Models/Cart.php:107-133 | addProduct grows item_count by q, keeps lines distinct and consistent, keeps an existing line's frozen price, and leaves a line for (product, variant) |
| Carts.AddAlbumLineEffect | app/Models/Cart.php:138-160 | addAlbum gives the same guarantees, keyed by the album |
| Carts.RemoveLineEffect | app/Models/Cart.php:165-169 | removeItem deletes exactly that line, keeps the others in order, and lowers both sums by its share |
| Carts.UpdateLineEffect | app/Models/CartItem.php:68-75 | updateQuantity moves item_count by the difference and keeps the frozen price; lines stay distinct and consistent |
| Carts.ClearedWithLoadedItems | app/Models/Cart.php:174-178 | clear, with items loaded earlier: the lines go and the code stays, but the subtotal is the sum of the loaded collection |
| Carts.StaleClearKeepsSubtotal | app/Http/Controllers/Api/OrderController.php:91 | a cart with one 100.00 line, cleared after checkout loaded its items, is empty yet keeps subtotal 100 and total 168 |
| Carts.ClearedCartTotals | app/Models/Cart.php:174-178 | after clear, the cart is empty, keeps its coupon code, and (for a coupon within the admin limits) has subtotal = tax = discount = 0 and shipping = total = 50 |
| Carts.CartTable.GetOrCreate | app/Http/Controllers/Api/CartController.php:302-315 | each user has exactly one cart, inserted empty on first access and returned unchanged afterwards |
| Carts.CartTable.CalculateTotals | app/Models/Cart.php:54-71 | only that cart's totals change, to `ComputeTotals` of its lines and code |
| Carts.CartTable.AddProduct | app/Models/Cart.php:107-133 | the cart's lines become `AddProductLine` at the current unit price, with totals recomputed; other carts are unchanged |
| Carts.CartTable.AddAlbum | app/Models/Cart.php:138-160 | the cart's lines become `AddAlbumLine` at the album's final price, with totals recomputed |
| Carts.CartTable.UpdateQuantity | app/Models/CartItem.php:68-75 | line i takes the new quantity at its frozen price, and the cart's totals are recomputed |
| Carts.CartTable.RemoveItem | app/Models/Cart.php:165-169 | line i is deleted and the cart's totals are recomputed |
| Carts.CartTable.Clear | app/Models/Cart.php:174-178 | the cart becomes `Cleared`: no lines, same code, totals over no lines |
| Carts.CartTable.SetCouponCode | app/Http/Controllers/Api/CartController.php:201-202 | coupon_code is assigned and the totals recomputed with it |
| Orders.AddressFrom | app/Models/Order.php:121-138 | the address fields are copied, and the country defaults to Sri Lanka when absent |
| Orders.SnapshotItem | app/Models/Order.php:154-165 | the order item copies ids, type, quantity, price and subtotal, takes the line's name, and takes the product's sku, else the album's slug |
| Orders.SnapshotItems | app/Models/Order.php:142-165 | exactly one order item per cart line, in order |
| Orders.StockLines | app/Models/Order.php:168-174 | the ledger lines are exactly the product lines that carry a product id; album lines touch no stock |
| Orders.StockLinesAppend | app/Models/Order.php:142-175 | stock lines distribute over concatenation |
| Orders.ApplyLinesAppend | app/Models/Order.php:193-212 | applying lines in sequence is applying them in two runs |
| Orders.FindRowSameKeys | app/Models/Order.php:195-197 | ledgers with the same keys find the same row |
| Orders.ApplyKeepsKeys | app/Models/Order.php:193-212 | ledger operations keep every key and the unique index; reserve and release also keep on-hand quantities |
| Orders.ReserveAndReleaseKeepTotalStock | app/Models/Order.php:167-174 | reserving or releasing for an order leaves every product's total_stock unchanged |
| Orders.ApplyPreservesConsistency | app/Models/Order.php:167-212 | every ledger operation of the lifecycle keeps 0 ≤ reserved ≤ quantity on every row |
| Orders.ApplyDistinct | app/Models/Order.php:167-174 | with distinct keys, each targeted row ends as one operation made it, and untargeted rows are unchanged |
| Orders.ReservationsAllSucceed | app/Models/Order.php:167-174 | when each line's row can take it, every reservation adds exactly the line's quantity; on-hand quantities and untargeted rows are unchanged |
| Orders.ReleaseUndoesReserve | app/Models/Order.php:202-212 | cancelling right after checkout returns the ledger exactly to its state before checkout |
| Orders.DeductConsumesReservation | app/Models/Order.php:189-201 | delivering right after checkout lowers each targeted row's quantity by the line's quantity and returns its reservation to what it was |
| Orders.StockLinesDistinct | app/Models/Cart.php:107-160 | a cart without duplicate lines gives stock lines with distinct keys |
| Orders.StockLinesReservable | app/Http/Controllers/Api/OrderController.php:98-104 | lines that passed the cart stock check all find a row with enough available |
| Orders.CheckoutReservesEveryLine | app/Models/Order.php:167-174 | after the stock checks of checkout, createFromCart's reservations all succeed; each row's reservation grows by exactly its line's quantity and nothing else in the ledger moves |
| Orders.WithStatus | app/Models/Order.php:183-190 | the new status; shipped_at is stamped only for shipped and delivered_at only for delivered; nothing else changes |
| Orders.FindOrder | app/Http/Controllers/Api/Admin/AdminOrderController.php:70 | the order with the id, or none |
| Orders.FindUserOrder | app/Http/Controllers/Api/OrderController.php:202-204 | an order with that number belonging to that user, or none; another user's order is never found |
| Orders.CouponUses | app/Models/Coupon.php:73-81 | the number of the user's orders carrying the code: at most the number of orders, and 0 iff none carries it |
| Orders.CouponUsesAppend | app/Models/Coupon.php:73-81 | placing an order with the code counts one more use for its user and none for any other user |
| Orders.NewOrder | app/Models/Order.php:113-139 | the new order copies user, totals and coupon code from the cart and starts pending with payment pending |
| Orders.ApplyLine | app/Models/Order.php:168-174 | one order item's ledger step is `ApplyLines` of its stock line |
| Orders.ApplyToLedger | app/Models/Order.php:193-212 | the loop applies the operation to every product line in order, skipping a missing row and ignoring a refused deduct |
| Orders.CreateFromCart | app/Models/Order.php:111-178 | inserts `NewOrder` with the snapshot items and reserves the stock lines in order |
| Orders.UpdateStatus | app/Models/Order.php:183-216 | the order becomes `WithStatus`; delivery deducts, cancellation releases, and other statuses leave the ledger alone; the current status is never checked |
| Payments.AsCompleted | app/Models/Payment.php:60-73 | completed and paid now; the transaction id is replaced only when a truthy one is given |
| Payments.AsVerified | app/Models/Payment.php:89-102 | completed, with the verifier and time recorded, paid now; slip, transaction id and notes are kept |
| Payments.AsRejected | app/Models/Payment.php:107-116 | failed, with the verifier, time and reason recorded; paid time, slip and transaction id are kept |
| Payments.PendingVerificationInScope | app/Models/Payment.php:155-160 | every payment isPendingVerification accepts is in the pendingVerification scope, and the two agree except on a slip stored as "" or "0" |
| Payments.ScopeListsEmptySlip | app/Models/Payment.php:121-134 | a processing bank transfer whose slip is "" is in the scope but not pending verification |
| Payments.PendingScope | app/Models/Payment.php:155-160 | the scope selects exactly the processing bank transfers with a non-null slip |
| Payments.PaymentTable.Create | app/Http/Controllers/Api/OrderController.php:152-158 | a new pending payment with no slip, transaction or verification, appended with a fresh id |
| Payments.PaymentTable.MarkAsCompleted | app/Models/Payment.php:60-73 | the payment becomes `AsCompleted` and its order's payment_status becomes paid; nothing else changes |
| Payments.PaymentTable.MarkAsFailed | app/Models/Payment.php:78-84 | the payment and its order's payment_status both become failed |
| Payments.PaymentTable.VerifyBankTransfer | app/Models/Payment.php:89-102 | the payment becomes `AsVerified`; its order becomes paid and processing |
| Payments.PaymentTable.RejectBankTransfer | app/Models/Payment.php:107-116 | the payment becomes `AsRejected`; its order's payment_status becomes failed and its status is unchanged |
| Payments.FindPaymentFor | app/Http/Controllers/Api/PaymentController.php:66-68 | the first payment of the order with that method, or none |
| Payments.FirstPaymentOf | app/Http/Controllers/Api/PaymentController.php:119 | the first payment of the order, or none |
| Payments.FindPayment | app/Http/Controllers/Api/Admin/AdminPaymentController.php:98 | the payment with the id, or none |
| OrderApi.StatusFor | app/Http/Controllers/Api/OrderController.php:141-150 | cash on delivery gives processing; card and bank transfer give pending |
| OrderApi.CouponsAfterCheckout | app/Http/Controllers/Api/OrderController.php:163-166 | a truthy cart code naming a coupon counts exactly one more use of it; every other coupon is unchanged |
| OrderApi.FirstOutOfStock | app/Http/Controllers/Api/OrderController.php:98-104 | the loop finds none iff every line is in stock; otherwise it finds the first line that fails |
| OrderApi.PlacedOrder | app/Http/Controllers/Api/OrderController.php:107-160 | the order copies the cart's user, totals and code, holds the snapshot items, has its status set by payment method and payment status pending, and keeps truthy notes |
| OrderApi.PendingPayment | app/Http/Controllers/Api/OrderController.php:152-158 | the payment is for the order's total with its method and reference, pending and without slip, transaction or verification |
| OrderApi.RecordOrder | app/Http/Controllers/Api/OrderController.php:107-160 | inserts `PlacedOrder` and `PendingPayment` and reserves the order's stock lines |
| OrderApi.Settle | app/Http/Controllers/Api/OrderController.php:163-169 | counts the coupon's use, then clears the cart |
| OrderApi.Place | app/Http/Controllers/Api/OrderController.php:106-171 | the whole state after a successful checkout; the reservations all succeed and on-hand stock is unchanged |
| OrderApi.ParsePaymentMethod | app/Http/Controllers/Api/OrderController.php:75 | exactly card, bank_transfer and cod are accepted, each as the method whose name it is |
| OrderApi.Store | app/Http/Controllers/Api/OrderController.php:55-195 | 422 for a request the validator refuses; a missing or empty cart, an out-of-stock line (naming the first) or a clashing order number changes nothing; success iff the request is valid, every line is in stock and the number is free; on success the order and its pending payment are appended, the stock lines reserved with on-hand stock unchanged, the coupon's use counted and the cart cleared |
| OrderApi.Cancel | app/Http/Controllers/Api/OrderController.php:200-218 | 404 unless it is the user's order; 400 with no change unless pending or processing; otherwise cancelled, with the order's reservations released |
| OrderApi.CancelUndoesCheckout | app/Http/Controllers/Api/OrderController.php:206-212 | cancelling straight after checkout returns the ledger to exactly its pre-checkout state |
| CartApi.WithCart | app/Http/Controllers/Api/CartController.php:302-315 | the user's cart exists afterwards; an existing one is untouched; otherwise an empty one is inserted |
| CartApi.Recomputed | app/Models/Cart.php:54-71 | a mutated cart has its new lines, the same id, owner and code, subtotal = the sum of the lines, and total = subtotal + tax + shipping − discount |
| CartApi.AddItem | app/Http/Controllers/Api/CartController.php:42-103 | 422 with no change for a bad body; out of stock is 400 with the cart only fetched or created (variant stock for a variant, else product total stock, else every album member); otherwise the lines are merged or appended and the totals recomputed |
| CartApi.UpdateItem | app/Http/Controllers/Api/CartController.php:108-142 | 404 for an unknown line; 403 for another cart's line; 422 below one; otherwise the line takes the quantity at its frozen price and the totals are recomputed |
| CartApi.RemoveItem | app/Http/Controllers/Api/CartController.php:147-169 | 404 for an unknown line; 403 for another cart's line; otherwise exactly that line goes and the totals are recomputed |
| CartApi.ApplyCoupon | app/Http/Controllers/Api/CartController.php:174-210 | 422 for an empty code; 404 for an unknown code; 500 when the cart was created by this request (its null subtotal cannot be passed to isValid's float parameter), with the new cart kept; 400 when invalid for the stored subtotal and this user's past orders; otherwise the code is stored and the discount is the coupon's discount on the subtotal |
| CartApi.ZeroCodeNeverDiscounts | app/Models/Cart.php:78-80 | a stored code "0" never discounts, because PHP reads it as false |
| CartApi.RemoveCoupon | app/Http/Controllers/Api/CartController.php:215-225 | the code is nulled and the totals recomputed, so the discount is 0 and total = subtotal + tax + shipping |
| CartApi.ClearCart | app/Http/Controllers/Api/CartController.php:230-238 | the cart is fetched or created and emptied, keeping its coupon code; with a coupon within the admin limits it owes only shipping |
| CartApi.AcceptedCount | app/Http/Controllers/Api/CartController.php:283 | the reported count never exceeds the number of entries |
| CartApi.AfterSync | app/Http/Controllers/Api/CartController.php:265-284 | with nothing added the cart is untouched; otherwise it holds the merged lines and subtotal = their sum |
| CartApi.AfterSyncStep | app/Http/Controllers/Api/CartController.php:265-284 | an accepted entry recomputes the cart over the new lines; a rejected one leaves it unchanged |
| CartApi.PrefixValid | app/Http/Controllers/Api/CartController.php:245-257 | every prefix of a validated guest list is validated |
| CartApi.SyncedEffect | app/Http/Controllers/Api/CartController.php:265-284 | the merge counts exactly the accepted entries, adds exactly their units, takes one id per accepted entry, leaves the lines alone when it accepts nothing, and keeps them distinct, consistent and positive |
| CartApi.SyncOne | app/Http/Controllers/Api/CartController.php:267-282 | one entry adds iff it is accepted (existing product by its total stock, or album member by member) and moves the cart to the next merge state |
| CartApi.SyncedSnoc | app/Http/Controllers/Api/CartController.php:265-284 | one more entry is one more step of the fold |
| CartApi.FirstAccepted | app/Http/Controllers/Api/CartController.php:265-284 | the first accepted entry from i on: every earlier entry is rejected, and it is accepted unless it is the end |
| CartApi.FirstLoaded | app/Models/Cart.php:56 | none iff no entry is accepted; otherwise the lines as the first accepted entry left them, which is the collection calculateTotals keeps summing |
| CartApi.AfterSyncAsWritten | app/Http/Controllers/Api/CartController.php:265-284 | the cart as written: untouched when nothing is accepted; otherwise the merged lines, with the subtotal summed over the collection the first accepted entry loaded |
| CartApi.SingleEntrySyncAgrees | app/Http/Controllers/Api/CartController.php:265-284 | with one guest entry the as-written and intended carts are equal |
| CartApi.StaleSyncSubtotal | app/Http/Controllers/Api/CartController.php:265-284 | two in-stock products at 10.00 synced into an empty cart: two lines worth 20.00, saved subtotal 10.00 |
| CartApi.AfterSyncItems | app/Http/Controllers/Api/CartController.php:265-284 | whatever was merged, the cart holds the merge state's lines |
| CartApi.MergeGuestItems | app/Http/Controllers/Api/CartController.php:265-284 | the loop leaves the cart as `AfterSync` of the fold and returns the number accepted |
| CartApi.SyncGuestCart | app/Http/Controllers/Api/CartController.php:243-297 | an empty or invalid list is 422 with no change; otherwise the cart is fetched or created, the accepted entries are merged, and the count of accepted entries is reported |
| CouponApi.Validate | app/Http/Controllers/Api/CouponController.php:19-59 | 422 for a missing or empty code or a missing or negative amount; 404 for an unknown code; success iff the coupon is valid for the amount, now and this user; the value is calculateDiscount on the amount |
| CouponApi.ValidatedDiscountBounds | app/Http/Controllers/Api/CouponController.php:51-58 | a validated discount for a coupon within the admin limits is between 0 and the amount, and positive when the value, the amount and any `max_discount_amount` are |
| CouponApi.LargerAmountStaysValid | app/Http/Controllers/Api/CouponController.php:42-49 | a code validated for an amount validates for any larger amount |
| PaymentApi.SlipName | app/Http/Controllers/Api/PaymentController.php:84-88 | the stored name is never empty or "0" (so the slip counts as present), and its length is the parts' lengths plus the fixed separators |
| PaymentApi.WithSlip | app/Http/Controllers/Api/PaymentController.php:96-101 | the slip, upload time and status processing are written; bank_reference is replaced only when given; id, order, method, amount, transaction, paid time and verifier are kept |
| PaymentApi.UploadAwaitsVerification | app/Http/Controllers/Api/PaymentController.php:96-101 | a bank transfer that receives a slip is pending verification, from any state short of completed |
| PaymentApi.UploadSlip | app/Http/Controllers/Api/PaymentController.php:46-107 | 422 for a bad upload; 404 unless the order is the user's; 400 without a bank-transfer payment or when it is completed; otherwise the first bank-transfer payment becomes `WithSlip` and is pending verification |
| PaymentApi.GetPaymentStatus | app/Http/Controllers/Api/PaymentController.php:112-129 | 404 iff the order is not the user's; otherwise the first payment's method, status, upload and verification times, with slip_uploaded = hasPaymentSlip; all null without a payment; slip_uploaded is set iff the order has a payment |
| AdminPaymentApi.OrdersExistKept | database/migrations/2024_01_01_000016_create_payments_table.php:17 | rewriting rows that keep their ids and owners keeps every payment's order present |
| AdminPaymentApi.Verify | app/Http/Controllers/Api/Admin/AdminPaymentController.php:98-139 | 404 for an unknown payment; 400 when completed, then 400 when not a bank transfer; 422 for over-long fields; otherwise verifyBankTransfer, with the transaction id and notes written only when truthy |
| AdminPaymentApi.Reject | app/Http/Controllers/Api/Admin/AdminPaymentController.php:144-171 | 404; 400 when completed; 422 without a reason or with one over 500 characters; otherwise rejectBankTransfer with the reason, whatever the method, leaving it failed and not pending |
| AdminPaymentApi.CompletedIsFinal | app/Http/Controllers/Api/Admin/AdminPaymentController.php:100-104 | a completed payment is never pending verification |
| AdminPaymentApi.InsertByUpload | app/Http/Controllers/Api/Admin/AdminPaymentController.php:25 | inserting keeps the list sorted by upload time and adds exactly one element |
| AdminPaymentApi.InsertedLastIsMax | app/Http/Controllers/Api/Admin/AdminPaymentController.php:25 | the element moved past the inserted one stays last in sorted order |
| AdminPaymentApi.SortByUpload | app/Http/Controllers/Api/Admin/AdminPaymentController.php:25 | sorted by slip_uploaded_at ascending (nulls first) and a permutation of the input |
| AdminPaymentApi.PendingVerification | app/Http/Controllers/Api/Admin/AdminPaymentController.php:21-29 | the listing holds exactly the scope's payments, as a permutation of the scope, oldest upload first |
| AdminInventoryApi.Adjusted | app/Http/Controllers/Api/Admin/AdminInventoryController.php:101-109 | only the quantity moves, by the adjustment; reserved, key, threshold and tracking are kept |
| AdminInventoryApi.Adjust | app/Http/Controllers/Api/Admin/AdminInventoryController.php:94-118 | 404; 422 without an adjustment or with a reason longer than 255 characters, with no change; 422 when quantity + adjustment < 0, with no change; otherwise row i becomes `Adjusted`, and the report's previous quantity plus the adjustment is the new quantity |
| AdminInventoryApi.AdjustCanBreakConsistency | app/Http/Controllers/Api/Admin/AdminInventoryController.php:101-109 | 5 on hand, 3 reserved, adjusted by −4: accepted, leaving more reserved than on hand |
| AdminInventoryApi.AdjustConsistentIff | app/Http/Controllers/Api/Admin/AdminInventoryController.php:101-109 | an adjustment keeps reserved ≤ quantity iff the new quantity still covers the reservation |
| AdminInventoryApi.Updated | app/Http/Controllers/Api/Admin/AdminInventoryController.php:85 | the quantity is written, and the threshold and reserved quantity only when sent |
| AdminInventoryApi.Update | app/Http/Controllers/Api/Admin/AdminInventoryController.php:75-89 | 404; 422 when any field is negative or the quantity is missing; otherwise row i becomes `Updated` |
| AdminInventoryApi.UpdateCanBreakConsistency | app/Http/Controllers/Api/Admin/AdminInventoryController.php:77-83 | a quantity of 2 with a reserved quantity of 4 passes validation, since the two are validated apart |
| AdminInventoryApi.UpdateConsistentIff | app/Http/Controllers/Api/Admin/AdminInventoryController.php:77-85 | an accepted update leaves non-negative counters, and keeps reserved ≤ quantity iff the resulting reservation fits |
| AdminOrderApi.ParseStatus | app/Http/Controllers/Api/Admin/AdminOrderController.php:73 | an accepted name is the name of the status it parses to |
| AdminOrderApi.StatusNamesRoundTrip | app/Http/Controllers/Api/Admin/AdminOrderController.php:73 | every status parses back from its name, and exactly the seven names are accepted |
| AdminOrderApi.ParsePaymentStatus | app/Http/Controllers/Api/Admin/AdminOrderController.php:94-97 | an accepted name is the name of the payment status it parses to |
| AdminOrderApi.PaymentStatusNamesRoundTrip | app/Http/Controllers/Api/Admin/AdminOrderController.php:94-97 | every payment status parses back from its name, and exactly pending, paid, failed and refunded are accepted |
| AdminOrderApi.UpdateStatus | app/Http/Controllers/Api/Admin/AdminOrderController.php:70-86 | 404; 422 outside the seven names; otherwise only the status is written, and no stock or timestamp is touched |
| AdminOrderApi.AdminDeliveryStampsNothing | app/Http/Controllers/Api/Admin/AdminOrderController.php:77-80 | marking an order delivered here leaves delivered_at unset, where the lifecycle's updateStatus stamps it |
| AdminOrderApi.UpdatePaymentStatus | app/Http/Controllers/Api/Admin/AdminOrderController.php:91-103 | 404; 422 outside the four names; otherwise only payment_status is written |
| AdminOrderApi.AddTracking | app/Http/Controllers/Api/Admin/AdminOrderController.php:108-127 | 404; 422 for a missing or over-long number, an over-long carrier or a bad url; otherwise the tracking number is written and the status forced to shipped |
| AdminVariationApi.FindOption | app/Http/Controllers/Api/Admin/AdminVariationController.php:114 | the option with the id, or none |
| AdminVariationApi.Store | app/Http/Controllers/Api/Admin/AdminVariationController.php:81-109 | 422 for a bad body; 422 when the type already has the name; success iff neither; the new option has the next id, order 0 and active unless sent, and names stay unique |
| AdminVariationApi.Update | app/Http/Controllers/Api/Admin/AdminVariationController.php:114-143 | 404; 422 for a bad body or a changed name that another option of the type has; an unchanged name is not checked; otherwise only the sent fields are written |
| AdminVariationApi.RenameKeepsUnique | app/Http/Controllers/Api/Admin/AdminVariationController.php:124-135 | rewriting one option keeps (type, name) unique when its name is unchanged or free within its type |
| AdminVariationApi.UsageCount | app/Http/Controllers/Api/Admin/AdminVariationController.php:151 | the number of pivot rows using the option is 0 iff no variant uses it |
| AdminVariationApi.Destroy | app/Http/Controllers/Api/Admin/AdminVariationController.php:148-167 | 404; 422 while any variant uses the option; otherwise it is deleted and no pivot row referred to it |
| AdminVariationApi.RemovalKeepsValid | app/Http/Controllers/Api/Admin/AdminVariationController.php:162 | deleting one option keeps names unique and ids increasing, and leaves no option with its id |
| AdminVariationApi.ToggleStatus | app/Http/Controllers/Api/Admin/AdminVariationController.php:172-180 | 404; otherwise only the active flag flips, and the new flag is returned |
| AdminVariationApi.DecimalText | database/migrations/2024_01_01_000022_create_variation_options_table.php:20 | the decimal text of an integer, as the string column stores it, is never empty |
| AdminVariationApi.TextLeTotal | database/migrations/2024_01_01_000022_create_variation_options_table.php:20 | text order is total |
| AdminVariationApi.TextLeTrans | database/migrations/2024_01_01_000022_create_variation_options_table.php:20 | text order is transitive |
| AdminVariationApi.BeforeTotal | app/Http/Controllers/Api/Admin/AdminVariationController.php:70 | display order, numeric or text, is total |
| AdminVariationApi.BeforeTrans | app/Http/Controllers/Api/Admin/AdminVariationController.php:70 | display order, numeric or text, is transitive |
| AdminVariationApi.AppendAfterLast | app/Http/Controllers/Api/Admin/AdminVariationController.php:70 | an option that may follow the last of a sorted list may follow all of it |
| AdminVariationApi.InsertBy | app/Http/Controllers/Api/Admin/AdminVariationController.php:70 | insertion keeps the list sorted and adds exactly one element |
| AdminVariationApi.PassedLastComesLast | app/Http/Controllers/Api/Admin/AdminVariationController.php:70 | the option moved past the inserted one stays last in sorted order |
| AdminVariationApi.SortBy | app/Http/Controllers/Api/Admin/AdminVariationController.php:70 | sorted by display order and a permutation of the input |
| AdminVariationApi.ActiveOfType | app/Http/Controllers/Api/Admin/AdminVariationController.php:67-69 | exactly the active options of the type |
| AdminVariationApi.FindTypeBySlug | app/Http/Controllers/Api/Admin/AdminVariationController.php:61 | a type with the slug, or none |
| AdminVariationApi.ByTypeAsWritten | app/Http/Controllers/Api/Admin/AdminVariationController.php:59-76 | 404 iff the slug is unknown; otherwise exactly the active options of that type, as a permutation of them, sorted by display order compared as text |
| AdminVariationApi.TextOrderPutsTenBeforeTwo | app/Http/Controllers/Api/Admin/AdminVariationController.php:67-70 | options ordered 2 and 10 come out 10 first |
| AdminVariationApi.ByType | app/Http/Controllers/Api/Admin/AdminVariationController.php:59-76 | 404 iff the slug is unknown; otherwise exactly the active options of that type, as a permutation of them, in non-decreasing numeric display order |
| AdminVariationApi.OfSlug | app/Http/Controllers/Api/Admin/AdminVariationController.php:38-48 | a group's options are drawn from the listing |
| AdminVariationApi.OfSlugHasSlug | app/Http/Controllers/Api/Admin/AdminVariationController.php:38-48 | a slug with options occurs in the listing |
| AdminVariationApi.GroupedIsFilter | app/Http/Controllers/Api/Admin/AdminVariationController.php:38-48 | one group per slug in the listing, holding exactly that slug's options in listing order |
| AdminVariationApi.GroupBySlug | app/Http/Controllers/Api/Admin/AdminVariationController.php:38-48 | the loop builds exactly the grouping `GroupedOf` defines |
| AdminVariationApi.WithOrder | app/Http/Controllers/Api/Admin/AdminVariationController.php:194-196 | only the options with the id take the new display order; every other option is unchanged |
| AdminVariationApi.Reordered | app/Http/Controllers/Api/Admin/AdminVariationController.php:193-197 | the updates keep the number of options |
| AdminVariationApi.ReorderedEffect | app/Http/Controllers/Api/Admin/AdminVariationController.php:193-197 | each option takes the order of the last entry naming it, keeps its own otherwise, and changes in nothing else |
| AdminVariationApi.Reorder | app/Http/Controllers/Api/Admin/AdminVariationController.php:185-201 | 422 with no change for an empty list or an unknown id; otherwise the updates are applied in request order |
| ReviewApi.FindReview | app/Http/Controllers/Api/ReviewController.php:92 | the review with the id, or none |
| ReviewApi.HasPurchased | app/Http/Controllers/Api/ReviewController.php:65-71 | true iff one of the user's orders is delivered and has a line of the product |
| ReviewApi.Store | app/Http/Controllers/Api/ReviewController.php:36-87 | 404 for an unknown product; 422 for a rating outside 1–5 or a title over 255; 400 for a second review; success iff none of these; the new review is unapproved and a verified purchase iff `HasPurchased`; one review per (product, user) is kept |
| ReviewApi.Update | app/Http/Controllers/Api/ReviewController.php:92-124 | 404; 403 unless the author; 422 for a bad body; otherwise rating, title and comment are replaced and approval is reset to false |
| ReviewApi.Destroy | app/Http/Controllers/Api/ReviewController.php:129-142 | 404; 403 unless the author; otherwise exactly that review is deleted |
| ReviewApi.RemovalKeepsValid | database/migrations/2024_01_01_000017_create_reviews_table.php:31 | deleting one review keeps the unique (product, user) index and increasing ids, and leaves no review with its id |
| ReviewApi.AppendKeepsUniqueIff | database/migrations/2024_01_01_000017_create_reviews_table.php:31 | adding a review keeps the unique (product, user) index iff the user has not reviewed the product, which is exactly store's duplicate check |

## Findings

| source | as written | input that shows it | evidently intended | confidence | as-written member | corrected member |
|---|---|---|---|---|---|---|
| app/Http/Controllers/Api/OrderController.php:91 | checkout loads `$cart->items`, then `Cart::clear` (app/Models/Cart.php:174-178) deletes the lines through the query builder, and `calculateTotals` sums the collection that is still loaded | a cart with one line of 1 × 100.00, checked out: afterwards it has no lines but subtotal 100 and total 168 | an emptied cart has subtotal 0 and owes only the shipping fee | not executed | Carts.StaleClearKeepsSubtotal | Carts.ClearedCartTotals |
| app/Http/Controllers/Api/Admin/AdminVariationController.php:67-70 | `display_order` is a string column (database/migrations/2024_01_01_000022_create_variation_options_table.php:20), so `orderBy('display_order')` compares text | options with display orders 2 and 10 are listed 10 first | options listed by numeric display order, as variation types are (an integer column at database/migrations/2024_01_01_000023_create_variation_types_table.php:23) | not executed | AdminVariationApi.TextOrderPutsTenBeforeTwo | AdminVariationApi.ByType |
| app/Http/Controllers/Api/CartController.php:265-284 | each accepted guest entry goes through `addProduct` or `addAlbum`, which write the line through the `items()` query, while `calculateTotals` (app/Models/Cart.php:56) sums the `items` collection that the first accepted entry loaded and nothing refreshes | two in-stock products at 10.00 each synced into an empty cart: the cart holds both lines, 20.00 in all, but saves subtotal 10.00 | the saved subtotal is the sum of the merged lines | not executed | CartApi.StaleSyncSubtotal | CartApi.AfterSync |

Checkout and the clear endpoint use the corrected clear (`Carts.CartTable.Clear`). `ByTypeAsWritten` is the listing the column type produces. `ByType` is the numeric listing. `CartApi.AfterSyncAsWritten` is the cart the guest merge saves as written. The merge method `CartApi.MergeGuestItems` leaves the corrected cart, `CartApi.AfterSync`.

## Left out

- HTTP plumbing: JSON shapes, messages beyond the error kind, eager loading, pagination, and the search, filter and sort of the `index`, `show`, `lowStock` and `outOfStock` listings.
- Validation: each request's rules are one predicate (for checkout, `OrderApi.StoreValid`). A failure is `Unprocessable("Validation failed")` whatever the field. The syntax checks of the `email` and `url` rules are boolean parameters.
- Laravel's `ConvertEmptyStringsToNull` middleware: absent and null are one `None`. An empty-string input is modelled only where a rule rejects it.
- Guest carts: every cart route is behind authentication, so the session cart of getOrCreateCart is left out. Each cart belongs to a user.
- File storage: storing and deleting payment slips, and viewSlip's download. The slip is an opaque name built from a random token given as a parameter.
- Order-number generation uses `date()` and `uniqid()`. The number is a parameter, and a clash is the rollback path of `OrderApi.Store`.
- Clocks: `now()` is an integer parameter.
- DB transactions, row locks and concurrent requests: each action is one atomic method whose error paths change nothing.
- Rounding: money is an exact `real`; `round()` is dropped.
- String matching by the database and middleware. Codes and names are compared exactly. MySQL's default collation compares case-insensitively, so "save10" finds the coupon "SAVE10" in the source but is a 404 in the model. Laravel's `TrimStrings` middleware trims inputs and turns a whitespace-only code into null (422 in the source, 404 in the model). The same holds for the uniqueness check on variation option names.
- Inventory.InventoryTable.Create: a second base row (variant NULL) for a product is refused. MySQL's unique index on (product_id, variant_id) treats NULLs as distinct and would accept it. The model keeps one base row per product, the one product creation makes.
- `meta_data` of order items is not modelled. For a product line it holds the variant's name (null without a variant), with color, size and material always null because a later migration drops those columns; for an album line it is an empty array.
- OrderApi.Store, OrderApi.Place, OrderApi.Settle: the cart is cleared with the corrected totals (subtotal 0, total 50). The source's checkout keeps the stale subtotal of the loaded lines; that behaviour is Carts.StaleClearKeepsSubtotal, the first finding.
- Soft deletes, eager-loaded counts, and the statistics endpoints (AdminPaymentController stats, dashboard).
- CRUD of products, categories, albums, banners, coupons, customers and variation types, plus admin review moderation, settings, seeders and roles.
- Foreign-key integrity is stated as a precondition where the source reads through a relation it never checks, relying on the database constraint. Examples: `AdminPaymentApi.Verify` and `AdminPaymentApi.Reject` require every payment's order to exist; the cart methods require `Catalog.WellFormed`.
- Products.DiscountPercentage: the rounding to two places is dropped, and prices must be non-negative, which the admin forms enforce.
- CartApi.ClearCart: the totals after clearing are stated only for a coupon within the admin form's limits (value at most 100%, non-negative cap).
- CartApi.AfterSync, CartApi.AfterSyncStep, CartApi.MergeGuestItems, CartApi.SyncGuestCart: they recompute totals over the merged lines, the corrected behaviour. The source's stale subtotal is `CartApi.AfterSyncAsWritten`, the third finding.
- CartApi.AddItem: a variant that belongs to another product is accepted and priced from its own product, as in the source; the mismatch itself is not stated as a property.
- AdminPaymentApi.Verify: the exception raised by a duplicate `transaction_id` under its unique index is not modelled; the transaction id is written as given.
- AdminPaymentApi.PendingVerification: ties in slip_uploaded_at keep table order, whereas MySQL leaves them unspecified.
- AdminOrderApi.UpdateStatus, AdminOrderApi.AddTracking: `admin_notes`, `carrier` and `tracking_url` are not mass-assignable on `Order`, so they are dropped, as the source drops them.
- ReviewApi.Update: a request that sends `title` or `comment` explicitly as null and one that omits them are the same input.
