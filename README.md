# ClothingStore checkout and payments, modelled in Dafny

This project models the checkout-and-payment core of the ClothingStore web shop, an
ASP.NET application that sells clothing and takes payment through the Razorpay
gateway, and proves properties of that model. It covers:

- **The two cart services.** `HybridCartService` is the registered one. The older
  `CartService` is still injected into the payments controller. Each keeps a signed-in
  customer's cart in the database and a guest's cart in the session, and offers add,
  remove, increase, decrease, clear, read, and the merge of a guest cart into the user's
  cart after sign-in.
- **The cart checkout** (`CartController.Checkout`). It turns the signed-in user's cart
  into one Pending order with one snapshot line per cart line, lowers the stock, and
  empties the cart. All of this happens in one transaction: it commits, or nothing
  changes.
- **The gateway webhook** (`PaymentsController`). Every delivery is logged first, then
  its signature is checked, then it is dispatched on the event name. `payment.captured`,
  `payment.failed`, `order.paid` and `refund.*` update the matching order and write
  their outcome back onto the log entry. A payment id that is already processed is
  skipped.
- **The gateway checkout** (`CheckoutController`). It creates a local order for a
  gateway order and tentatively records a payment whose signature the browser posts
  back.
- **`RazorpayService`.** It builds the order request (amount in paise, currency "INR",
  automatic capture) and checks the checkout signature (the HMAC-SHA256 of
  "orderId|paymentId" as lower-case hex).

**Modelling choices**

- **State.** The database is one value, `Store.Database`. It holds products by id,
  each user's cart lines, orders, order lines, and the webhook log.
- **Transactions.** A transaction either commits a new value or leaves the old one.
- **Cart services.** These update their state step by step, so they are classes. Each
  has a `db` field and a `session` field, and each method's `modifies` and `ensures`
  give the complete new state in terms of the list functions of `CartLines`.
- **Controller actions.** These are methods from a state to a new state and a response.
  The webhook handlers and `Verify` are each proved equal to a function of the state.
  The webhook's properties (log-first, per-branch outcomes, re-delivery) are proved
  about those functions.
- **Prices** are `decimal` in the store and `real` here.
- **HMAC-SHA256 and Base64** are fields of `Razorpay.Crypto`, passed in as
  functions. The rendering of a hash as hex is modelled character by character:
  `BitConverter.ToString`, removing the dashes, then lower-casing.
- **Parameters.** The clock, the gateway's HTTP answer, the webhook secret and the
  decoded JSON body are passed in as parameters.

**Where the code and its description differ, the model follows the code:**

- A webhook with a bad signature is recorded as "InvalidSignature" but stays
  `Processed = false` (`PaymentController.cs:75-81`).
- `payment.captured` sets the order's PaymentStatus to `Pending`, not to a paid state,
  and sets OrderStatus to `Approved` (`PaymentController.cs:165-167`).
- `Verify` sets PaymentStatus to `Pending` on every genuine call. This includes an order
  that `order.paid` already marked `captured` (lemma
  `GatewayCheckout.VerifyResetsCapturedPayment`).
- A `payment.captured` whose payment has no `order_id` looks up the empty gateway order
  id. Every cart-checkout order carries that id, so the first of them is approved
  (lemma `Reconciliation.CapturedWithoutOrderIdApprovesLocalOrder`).
- `payment.failed` marks its log entry processed even when no order matches
  (`PaymentController.cs:222-226`).

## Model

| member | source | states |
|---|---|---|
| CartLines.FirstIndexOf | ClothingStoreApp/Services/HybridCartService.cs:80 | the first line of the product, or -1 exactly when no line has it; no earlier line has it |
| CartLines.AddQuantitySpec | ClothingStoreApp/Services/HybridCartService.cs:73-121 | in a cart without duplicate products, the product's line gains exactly `qty` and no line is added; an absent product gets exactly one appended line with `qty`; no duplicates afterwards |
| CartLines.AddQuantityQty | ClothingStoreApp/Services/HybridCartService.cs:73-121 | adding changes the product's total quantity by `qty` and every other product's by nothing |
| CartLines.IncreaseExistingSpec | ClothingStoreApp/Services/HybridCartService.cs:144-159 | the product's line gains exactly 1, no other quantity changes, an absent product leaves the cart unchanged, no duplicates appear |
| CartLines.DecreaseLineSpec | ClothingStoreApp/Services/HybridCartService.cs:161-186 | the product's line loses 1 and is removed once at or below 0; other lines keep their quantities; an absent product leaves the cart unchanged |
| CartLines.RemoveAllQty | ClothingStoreApp/Services/CartService.cs:180-183 | after removing a product its quantity is 0 and every other product keeps its quantity |
| CartLines.RemoveFirstIsRemoveAll | ClothingStoreApp/Services/HybridCartService.cs:123-142 | in a cart without duplicates, removing the first line of a product is removing all its lines |
| CartLines.RemoveFirstUnique | ClothingStoreApp/Services/HybridCartService.cs:127-134 | removing keeps the cart free of duplicates, and every remaining line was already in the cart |
| CartLines.MergeLinesQty | ClothingStoreApp/Services/HybridCartService.cs:224-239 | after the merge loop each product's quantity is its old quantity plus the guest cart's |
| CartLines.MergeLinesUnique | ClothingStoreApp/Services/HybridCartService.cs:224-239 | the merge loop never puts two lines of one product in the user's cart |
| CartLines.MergeLinesProducts | ClothingStoreApp/Services/HybridCartService.cs:224-239 | the merged cart holds a product exactly when the user's or the guest's cart did |
| Store.EnsureCart | ClothingStoreApp/Services/HybridCartService.cs:52-68 | after get-or-create the user has a cart row and every earlier row is kept; every user's lines are unchanged, so a missing row is created empty |
| Store.ClearedCarts | ClothingStoreApp/Services/HybridCartService.cs:269-288 | clearing empties the user's lines, keeps every other user's, creates no row |
| Store.CartView | ClothingStoreApp/Services/HybridCartService.cs:254-261 | the joined view exists exactly when every line's product exists, and has each line's product, quantity and the product's price |
| Store.AddConsistent | ClothingStoreApp/Services/HybridCartService.cs:80-96 | adding a product that exists, or that already has a line, keeps every cart free of duplicates and of unknown products |
| Store.FindOrder | ClothingStoreApp/Controllers/PaymentController.cs:154 | the first order with the gateway order id, -1 exactly when none has it |
| HybridCart.MergedSpec | ClothingStoreApp/Services/HybridCartService.cs:214-245 | no user or an empty guest cart changes nothing; otherwise every product's quantity is the sum of both carts and the guest cart becomes empty, unless a guest line names a missing product, when the save fails and both carts stay; other carts and tables untouched |
| HybridCart.MergedTwice | ClothingStoreApp/Services/HybridCartService.cs:216-220 | a second merge right after a merge changes nothing |
| HybridCart.HybridCartService.GetOrCreateDbCart | ClothingStoreApp/Services/HybridCartService.cs:52-68 | returns the user's lines and creates the cart row if missing, changing nothing else |
| HybridCart.HybridCartService.AddToCart | ClothingStoreApp/Services/HybridCartService.cs:73-121 | user path: the cart row exists afterwards and the lines become the add of `quantity` (rejected, lines unchanged, for a new line of a missing product); guest path: the session cart becomes the add with the product's data or placeholders |
| HybridCart.HybridCartService.RemoveFromCart | ClothingStoreApp/Services/HybridCartService.cs:123-142 | user path: the product's first line is removed; guest path: all its lines are removed and the cart saved |
| HybridCart.HybridCartService.Increase | ClothingStoreApp/Services/HybridCartService.cs:144-159 | the product's line gains 1 on either path; without a line nothing changes (no session write for a guest) |
| HybridCart.HybridCartService.Decrease | ClothingStoreApp/Services/HybridCartService.cs:161-186 | the product's line loses 1 and is dropped at or below 0 on either path; without a line nothing changes |
| HybridCart.HybridCartService.ClearCart | ClothingStoreApp/Services/HybridCartService.cs:188-201 | the user's lines, or the guest's session cart, become empty |
| HybridCart.HybridCartService.GetDbCartItems | ClothingStoreApp/Services/HybridCartService.cs:204-211 | a guest gets no lines; a user gets their lines and the cart row exists afterwards |
| HybridCart.HybridCartService.MergeSessionCartToDb | ClothingStoreApp/Services/HybridCartService.cs:214-245 | the loop leaves exactly the merged state of `HybridCart.Merged`, and the save succeeds exactly when there is nothing to merge or every guest product exists |
| HybridCart.HybridCartService.GetUserCart | ClothingStoreApp/Services/HybridCartService.cs:247-268 | a user gets the view of their lines (row created if missing); a guest gets the session cart |
| HybridCart.HybridCartService.ClearUserCart | ClothingStoreApp/Services/HybridCartService.cs:269-288 | a user's lines are removed; a guest's session entry is dropped; either way the current cart reads empty |
| LegacyCart.AddToDbCartAsWritten | ClothingStoreApp/Services/CartService.cs:96-116 | as written, the add succeeds exactly when the product already has a line, which gains `qty`; for any other product the save is refused on the cart foreign key and the cart is unchanged; other products' quantities never change |
| LegacyCart.AddToDbCartAsWrittenDropsNewLine | ClothingStoreApp/Services/CartService.cs:101-109 | as written, adding a product not yet in the cart fails and leaves the cart as it was, whether or not the product exists, where the corrected add holds `qty` of it |
| LegacyCart.AddToEmptyDbCartAsWritten | ClothingStoreApp/Services/CartService.cs:101-109 | an empty cart plus one unit of product 7: as written the save fails and the cart stays empty, against one line of 7 when corrected |
| LegacyCart.CartService.AddToCart | ClothingStoreApp/Services/CartService.cs:94-144 | user path (corrected): the lines become the add of `qty`; guest path: a missing product leaves the session unchanged, otherwise the session cart becomes the add with the product's data |
| LegacyCart.CartService.ClearUserCart | ClothingStoreApp/Services/CartService.cs:150-161 | a user's lines are all removed; a guest's cart entry is dropped entirely |
| LegacyCart.CartService.RemoveItem | ClothingStoreApp/Services/CartService.cs:167-186 | user path: the product's line is removed; guest path: every line of the product is removed and the cart saved |
| LegacyCart.CartService.Increase | ClothingStoreApp/Services/CartService.cs:192-195 | exactly an add of quantity 1, so an absent product gets a line of 1 |
| LegacyCart.CartService.Decrease | ClothingStoreApp/Services/CartService.cs:197-228 | the product's line loses 1 and is dropped at or below 0; user path unchanged without a line; the guest cart is saved either way |
| LegacyCart.CartService.GetUserCart | ClothingStoreApp/Services/CartService.cs:230-256 | a user gets the view of their lines; a guest gets the session cart, empty when nothing is stored |
| CartCheckout.NextOrderId | ClothingStoreApp/Controllers/CartController.cs:146-152 | the new order's id is positive and above every existing order id |
| CartCheckout.FulfilStock | ClothingStoreApp/Controllers/CartController.cs:154-175 | a successful stock loop names only existing products, changes nothing but stock, lowers each product's stock by exactly its total cart quantity, and leaves none of them negative |
| CartCheckout.FulfilSucceedsIff | ClothingStoreApp/Controllers/CartController.cs:156-162 | for a cart without duplicates the loop succeeds exactly when every product exists and has enough stock |
| CartCheckout.SnapshotTotal | ClothingStoreApp/Controllers/CartController.cs:143-174 | the order's TotalAmount equals the sum of price × quantity over its order lines |
| CartCheckout.CartTotalIsViewTotal | ClothingStoreApp/Controllers/CartController.cs:105 | the GET page's total over persisted lines equals the total over their view |
| CartCheckout.CommittedOrder | ClothingStoreApp/Controllers/CartController.cs:134-147 | a committed checkout appends one order with a fresh id, status Pending and the cart's total |
| CartCheckout.CommittedLines | ClothingStoreApp/Controllers/CartController.cs:154-175 | one order line per cart line, in order, with the new order id, the line's product and quantity, and the product's current name, image and price |
| CartCheckout.CommittedStock | ClothingStoreApp/Controllers/CartController.cs:161-180 | stock drops by exactly the purchased quantity and never below zero; the user's cart ends empty; other carts and the log are untouched |
| CartCheckout.CheckoutPageFor | ClothingStoreApp/Controllers/CartController.cs:81-108 | guest: login redirect, no change; empty cart: redirect; otherwise the joined lines and their total |
| CartCheckout.Checkout | ClothingStoreApp/Controllers/CartController.cs:113-200 | unauthenticated or invalid form: no change; empty or unreadable cart: no order; a missing product or short stock: rolled back; otherwise the committed state, and "Online" starts a payment while any other method goes to Success |
| Razorpay.ToLowerAscii | ClothingStoreApp/Services/RazorpayService.cs:57-58 | lower-casing keeps the length and lowers each character independently |
| Razorpay.DigestHexIsLowerHex | ClothingStoreApp/Services/RazorpayService.cs:57 | dashes removed and lowered, `BitConverter`'s text is the plain lower-case hex of the hash |
| Razorpay.DigestHexShape | ClothingStoreApp/Services/RazorpayService.cs:55-57 | the generated signature of a 32-byte hash is 64 lower-case hex characters |
| Razorpay.LowerHexInjective | ClothingStoreApp/Services/RazorpayService.cs:57 | different hashes of the same length give different hex strings |
| Razorpay.SignedPayload | ClothingStoreApp/Services/RazorpayService.cs:50 | the signed text is the order id, one '|', then the payment id |
| Razorpay.SignedPayloadInjective | ClothingStoreApp/Services/RazorpayService.cs:50 | for order ids without '|', the signed text determines both ids |
| Razorpay.VerifySignatureAcceptsGenuine | ClothingStoreApp/Services/RazorpayService.cs:48-59 | the genuine signature verifies in lower and upper case, and the verdict never depends on the signature's letter case |
| Razorpay.VerifySignatureRejectsLength | ClothingStoreApp/Services/RazorpayService.cs:57-58 | a signature that is not 64 characters long never verifies |
| Razorpay.TruncateTowardZero | ClothingStoreApp/Services/RazorpayService.cs:30 | rounds toward zero: within one unit below a non-negative value, above a negative one |
| Razorpay.ToPaise | ClothingStoreApp/Services/RazorpayService.cs:30 | amount × 100 truncated toward zero, failing exactly when that leaves the 32-bit range |
| Razorpay.ToPaiseExact | ClothingStoreApp/Services/RazorpayService.cs:30 | an amount with at most two decimals converts to exactly amount × 100 paise |
| Razorpay.ToPaiseBounds | ClothingStoreApp/Services/RazorpayService.cs:30 | the paise never exceed amount × 100 in size and lose less than one paisa |
| Razorpay.BuildOrderRequest | ClothingStoreApp/Services/RazorpayService.cs:28-34 | the request carries the paise amount, currency "INR", the receipt id unchanged and payment_capture 1; it fails exactly when the paise conversion does |
| Reconciliation.TryGetEvent | ClothingStoreApp/Controllers/PaymentController.cs:313-324 | an unparsable body has no event; a parsed body has its "event" field |
| Reconciliation.NextLogId | ClothingStoreApp/Controllers/PaymentController.cs:71-72 | the new log entry's id is above every existing entry's |
| Reconciliation.FindLog | ClothingStoreApp/Controllers/PaymentController.cs:291 | the entry with the id, -1 exactly when none has it |
| Reconciliation.MarkLogProcessed | ClothingStoreApp/Controllers/PaymentController.cs:289-300 | write-back copies only Processed, ProcessingResult and the two gateway ids onto the stored entry; other entries and fields are untouched; no entry, no change |
| Reconciliation.WebhookSignatureSpec | ClothingStoreApp/Controllers/PaymentController.cs:330-350 | an empty or missing header, or an empty secret, never verifies; with a secret, the genuine hex digest verifies in lower and upper case, and so does a non-empty genuine Base64 digest; a header neither 64 characters long nor the Base64 digest is refused |
| Reconciliation.HandlePaymentCaptured | ClothingStoreApp/Controllers/PaymentController.cs:132-199 | the handler's steps leave exactly the state of `AfterCaptured` |
| Reconciliation.HandlePaymentFailed | ClothingStoreApp/Controllers/PaymentController.cs:201-227 | the handler's steps leave exactly the state of `AfterFailed` |
| Reconciliation.HandleOrderPaid | ClothingStoreApp/Controllers/PaymentController.cs:229-265 | the handler's steps leave exactly the state of `AfterOrderPaid` |
| Reconciliation.HandleRefund | ClothingStoreApp/Controllers/PaymentController.cs:267-284 | the handler's steps leave exactly the state of `AfterRefund` |
| Reconciliation.Webhook | ClothingStoreApp/Controllers/PaymentController.cs:50-127 | the action's steps leave exactly the state and response of `Delivered` |
| Reconciliation.DeliveredRecordsFirst | ClothingStoreApp/Controllers/PaymentController.cs:61-72 | one entry is appended with a fresh id, the event ("unknown" without one), raw body, header ("" if missing) and time; earlier entries, products, carts and order lines never change; Unauthorized exactly on a bad signature, 500 exactly on a genuine unparsable body |
| Reconciliation.InvalidSignatureChangesNoOrder | ClothingStoreApp/Controllers/PaymentController.cs:75-81 | a bad signature: Unauthorized, no order changes, entry "InvalidSignature" and unprocessed |
| Reconciliation.ProcessedIgnoresNewEntry | ClothingStoreApp/Controllers/PaymentController.cs:302-311 | the already-processed check is unaffected by the delivery's own fresh entry |
| Reconciliation.CapturedOutcomes | ClothingStoreApp/Controllers/PaymentController.cs:132-189 | missing entity, already processed (non-empty id on an order or a processed entry) or no matching order: no order changes, with the stated result; otherwise only the first matching order takes the payment id, Pending and Approved, the entry gets both ids and "PaymentCaptured", and the payment id then counts as processed |
| Reconciliation.CapturedWithoutOrderIdApprovesLocalOrder | ClothingStoreApp/Controllers/PaymentController.cs:142-167 | a captured payment without an order id approves the first order whose gateway order id is empty |
| Reconciliation.FailedOutcomes | ClothingStoreApp/Controllers/PaymentController.cs:201-227 | a found order alone becomes failed and Cancelled; the entry is "PaymentFailed", processed, with both ids, found or not; a missing entity changes no order |
| Reconciliation.OrderPaidOutcomes | ClothingStoreApp/Controllers/PaymentController.cs:229-265 | missing entity, no order or an order already captured or Approved: no order changes, with the stated result; otherwise that order alone becomes captured and Approved with "OrderMarkedPaid" |
| Reconciliation.OtherEventsKeepOrders | ClothingStoreApp/Controllers/PaymentController.cs:105-118 | refund and unknown events change no order and answer Ok, recording "RefundReceived:<id>" or "Ignored:<event>" as processed |
| Reconciliation.ProcessedKeptByLog | ClothingStoreApp/Controllers/PaymentController.cs:302-311 | a payment id processed before a delivery stays processed when orders are kept and the log only grows |
| Reconciliation.CapturedOrdersTwice | ClothingStoreApp/Controllers/PaymentController.cs:146-167 | once the first capture's payment id counts as processed, capturing again changes no order |
| Reconciliation.CapturedRedelivery | ClothingStoreApp/Controllers/PaymentController.cs:146-167 | re-delivering `payment.captured` leaves the orders as the first delivery did |
| Reconciliation.FailedRedelivery | ClothingStoreApp/Controllers/PaymentController.cs:214-220 | re-delivering `payment.failed` leaves the orders as the first delivery did |
| Reconciliation.OrderPaidRedelivery | ClothingStoreApp/Controllers/PaymentController.cs:249-259 | re-delivering `order.paid` leaves the orders as the first delivery did |
| Reconciliation.RedeliveryKeepsOrders | ClothingStoreApp/Controllers/PaymentController.cs:50-127 | delivering any webhook a second time, at any later time, leaves the orders exactly as one delivery did |
| GatewayCheckout.CreateOrder | ClothingStoreApp/Controllers/CheckoutController.cs:63-91 | one order is appended with the gateway's order id, TotalAmount = amount, both statuses Pending and a fresh id, and the gateway order id then finds it (or an earlier order with that id); a failed conversion or an answer without an id stores nothing |
| GatewayCheckout.Verify | ClothingStoreApp/Controllers/CheckoutController.cs:96-123 | the action's steps leave exactly the state and flag of `Verified` |
| GatewayCheckout.VerifySpec | ClothingStoreApp/Controllers/CheckoutController.cs:98-116 | success is the signature verdict; a refused signature or no matching order changes nothing; otherwise only that order's RazorpayPaymentId and PaymentStatus (Pending) change, never its OrderStatus or PaymentId |
| GatewayCheckout.VerifyKeepsGuard | ClothingStoreApp/Controllers/CheckoutController.cs:113 | `Verify` never changes whether any payment id counts as processed by the webhook |
| GatewayCheckout.VerifyResetsCapturedPayment | ClothingStoreApp/Controllers/CheckoutController.cs:114 | a genuine `Verify` on an order already marked captured sets it back to Pending, its OrderStatus unchanged |

## Left out

- HTTP, cookies and sign-in are not modelled: the signed-in user is a parameter (`""` for a guest).
- The session store and JSON (de)serialisation are not modelled. The session's cart entry is an `Option` of a list of lines.
- The webhook body arrives already decoded (`Reconciliation.Body`), with `"event"` as an optional string. A scalar `"event"` (a number, boolean or date) is read by the source as its text, so `"event": 5` is handled as the event "5". An object or array `"event"`, or a `"payload"` or `"entity"` that is not an object, makes the source throw inside the action's `try`; the exception is caught, the entry is marked "Exception:…" and the answer is 500. Neither case is modelled beyond `Body.Unparsable`, which stands for any body that ends in that caught 500 path.
- `Reconciliation.StartsWith`: the `refund.` prefix test is ordinal; the source's culture-sensitive `StartsWith`, under which ignorable characters before "refund." still match, is not modelled.
- Persistence failures other than the cart foreign key are not modelled. This covers a failing `SaveChanges`, the `ExceptionDuringUpdate` path of `HandlePaymentCapturedAsync`, and the outer handler that then overwrites its result. Transactions are modelled as replacing the state value or keeping it.
- Reading the newest order of the customer after the insert (`CartController.cs:148-152`) is not modelled. The model uses the id of the order just created.
- The cart row created while reading the cart survives a rolled-back checkout. It is kept outside the modelled transaction, as in the source.
- `ClearUserCartAsync` inside `HandlePaymentCapturedAsync` is optional and its failure is swallowed. It is not modelled: the database carts are left as they are.
- Logging, `TempData` messages and the action results' URLs are not modelled. Only the outcome kinds are.
- The database's collation is not modelled: id comparisons in queries (`FindOrder`, `IsPaymentProcessed`, the cart's user id) use exact string equality, where SQL Server's default collation compares without regard to case.
- Concurrency is not modelled: no locking exists, so every operation is sequential.
- `FirstOrDefault` without an ordering is modelled as the first match in id order.
- HMAC-SHA256, Base64 and UTF-8 encoding are library calls. They are passed in as functions (`Razorpay.Crypto`).
- The gateway's HTTP POST is passed in as a function (`GatewayCheckout.Gateway`). Its status code is not checked by the source either.
- `CheckoutController.Index` (the gateway checkout page) is not part of this model.
- Null strings are not modelled. A missing signature in `Verify` makes the source throw, and so does a missing configured secret.
- `Razorpay.ToLowerAscii`: lower-cases ASCII letters only; the culture-aware lowering of other letters by `ToLower`/`ToLowerInvariant` is not modelled.
- `Razorpay.ToPaise`: the `decimal` overflow of `amount * 100` itself, beyond about 7.9e28, is not modelled.
- `HybridCart.HybridCartService.AddToCart`: quantities are unbounded integers; the 32-bit wrap-around of `Quantity += quantity` is not modelled.
- `LegacyCart.CartService.AddToCart`: quantities are unbounded integers; the 32-bit wrap-around of `Quantity += qty` is not modelled.
- `HybridCart.HybridCartService.MergeSessionCartToDb`: quantities are unbounded integers; the 32-bit wrap-around of the summed quantities is not modelled.
- `CartCheckout.Checkout`: stock and quantities are unbounded integers; the 32-bit wrap-around of `ProductStockQuantity -= ProductQuantity` is not modelled.

## Findings

| source | as written | input that shows it | evidently intended | confidence | as-written member | corrected member |
|---|---|---|---|---|---|---|
| ClothingStoreApp/Services/CartService.cs:101-109 | a signed-in user's add of a product not yet in the cart inserts a `CartItem` with neither `CartId` nor the `Cart` navigation set (the commented-out line would only set `UserId`), so `CartId` stays 0, the save is refused on the required `CartId` foreign key (`ClothingStore.Core/Entities/CartItem.cs:25-31`) and the request fails | user cart empty, add product 7 with quantity 1: the save fails and the cart stays empty | append a line of the product with the quantity to the user's cart, as `HybridCartService` does | not executed | LegacyCart.AddToDbCartAsWrittenDropsNewLine (worked example: LegacyCart.AddToEmptyDbCartAsWritten) | LegacyCart.CartService.AddToCart |
