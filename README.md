# Order-to-payment state machine of the Payment-Gateway Django app

This project models the core of a small Django payment app. It has three persisted tables: products, orders and payment transactions. The request handlers create and edit orders, open a transaction when the payment provider accepts a payment, and on capture mark the transaction and its order. Deleting rows cascades from product to orders to transactions.

The database is an in-memory store, class `Views.Store`. It has three maps from integer keys to records, plus the next auto-increment key of each table. Money is held as integer cents, because every money column is a decimal with two places. The provider's answers to `create`, `find` and `execute` are parameters of the views that call it.

Files:

- `wrappers.dfy`: module `Wrappers`, with `Option`.
- `money.dfy`: module `Money`.
  - Cents, and the bound of a `max_digits=10, decimal_places=2` column: |cents| < 10^10.
  - The two-decimal rendering of an amount, `f"{x:.2f}"`, with a parser that reads it back.
- `models.dfy`: module `Models`.
  - The `Product`, `Order` and `Transaction` records and the `Order` field defaults.
  - The database invariant `Valid`: keys, foreign keys, non-negative quantities and money bounds.
  - `Order.save` as `Save`: it recomputes `total_price = product.price * quantity` on every save.
  - The two `on_delete=CASCADE` rules.
- `endpoints.dfy`: module `Endpoints`.
  - Each view as a function from the tables before a request to its reply and the tables after it.
  - The approval-link scan and the payment request sent to the provider.
- `properties.dfy`: module `Properties`, the lemmas. Some span several requests:
  - capture idempotence;
  - the transaction amount as a snapshot;
  - duplicate payment ids;
  - a worked checkout.
- `views.dfy`: module `Views`. Class `Store` updates its maps step by step, in the order the handlers write. Each method is proved to agree with its `Endpoints` function and to keep `Valid`.

Modelling decisions:

- **Storage rejections.** A write that breaks a column declaration is refused and changes nothing (`StorageRejected`). Two cases exist:
  - a negative quantity, which the `PositiveIntegerField` check refuses;
  - a total that does not fit the 10-digit decimal column.

  So every stored quantity is ≥ 0 and every stored amount fits. The source has no explicit check for either. Quantity 0 is accepted.
- **Uncaught lookups.** `Transaction.objects.get(payment_id=...)` in `execute_payment` can match zero rows or several. Both raise in the source (HTTP 500), after the provider has already executed the payment. They are modelled as `NotFound` and `MultipleFound` replies that change nothing.
- **Two separate writes at capture.** The capture writes the transaction first, then saves the order. That order save recomputes the total from the product's current price. If the second write is refused, the transaction's new state stays and the order is unchanged. Django's default autocommit behaves this way, and `Endpoints.ExecutePayment` models it.
- **Missing query parameters.** A query parameter counts as missing when it is absent or empty, because Python's `not` treats `""` as false.

Behaviour one might expect of such an app that this code does not have, so the model does not have it either:

- **Order quantity.** No `quantity <= 0` rejection exists. Zero is accepted, and negatives fail only at storage.
- **Order total.** The total is not frozen at creation. Every `save`, including the one at capture, recomputes it.
- **Payment ids.** They are not unique: `Transaction.payment_id` has no unique constraint.
- **User scoping.** No user scoping or ownership exists.
- **Not-found errors.** Order lookups that fail reply "Product not found" in three views. Only the kind of error, `NotFound`, is modelled.

## Model

| member | source | states |
|---|---|---|
| `Money.FormatAmount` | PG_app/views.py:161 | the amount sent to the provider has a sign exactly when negative, then digits, a point and exactly two digits |
| `Money.ParseFormatAmount` | PG_app/views.py:161 | reading the two-decimal rendering back yields exactly the stored cents, so the charged amount is the order total |
| `Money.DigitsValueOfDigits` | PG_app/views.py:162 | the decimal numeral of an order id denotes that id |
| `Models.Valid` | PG_app/models.py:6-33 | the database invariant (keys, foreign keys, quantity ≥ 0, every money column within 10 digits); it implies that every transaction reaches an order and, through it, a product |
| `Models.NewOrder` | PG_app/models.py:15-18 | a new order has the given product and quantity, status PENDING and currency USD |
| `Models.Save` | PG_app/models.py:15-24 | `Order.save` is refused exactly when quantity < 0 or price × quantity does not fit 10 digits; a saved order is priced, fits its columns and differs from the input only in its total |
| `Models.DeleteOrder` | PG_app/models.py:31 | removes the order key and exactly the transactions referencing it; products untouched |
| `Models.DeleteProduct` | PG_app/models.py:14 | removes the product key, exactly its orders and exactly the transactions of those orders; surviving products keep their contents |
| `Models.SaveIgnoresTotal` | PG_app/models.py:21-24 | whatever total the order carried before `save` has no effect on what is saved |
| `Models.DeleteOrderCascades` | PG_app/models.py:31 | deleting an order removes it and exactly the transactions referencing it, keeps all other rows as they were and leaves no dangling key |
| `Models.DeleteProductCascades` | PG_app/models.py:14 | deleting a product removes it, exactly its orders and exactly those orders' transactions; every surviving product, order and transaction keeps its contents, the key counters are unchanged, and no key dangles |
| `Endpoints.ApprovalUrl` | PG_app/views.py:179 | the result is the href of the first link whose rel is "approval_url", and None iff no link has that rel |
| `Endpoints.Missing` | PG_app/views.py:193 | definition: Python's `not x` on a query parameter, true when it is absent or empty |
| `Endpoints.Matching` | PG_app/views.py:203 | definition: the exact-match `payment_id=` filter, the keys of exactly the transactions with that payment id |
| `Endpoints.PaymentRequestFor` | PG_app/views.py:157-168 | intent "sale" and payment method "paypal"; the request's total reads back as the order total, in the order's currency, described as "Payment for Order <id>", with the two callback URLs |
| `Endpoints.CreateProduct` | PG_app/views.py:16-22 | creating a product keeps the database invariant |
| `Endpoints.UpdateProduct` | PG_app/views.py:36-47 | replacing a product succeeds iff it exists and the price fits; orders and transactions are untouched (no order is re-priced), and the invariant holds |
| `Endpoints.CreateOrder` | PG_app/views.py:81-95 | creating an order keeps the database invariant |
| `Endpoints.UpdateOrder` | PG_app/views.py:109-134 | updating or patching an order keeps the database invariant |
| `Endpoints.DeleteOrderView` | PG_app/views.py:137-145 | deleting an order keeps the database invariant |
| `Endpoints.DeleteProductView` | PG_app/views.py:64-72 | deleting a product keeps the database invariant |
| `Endpoints.CreatePayment` | PG_app/views.py:148-186 | creating a payment keeps the database invariant |
| `Endpoints.ExecutePayment` | PG_app/views.py:188-214 | executing a payment keeps the database invariant, including when the order write is refused after the transaction write |
| `Properties.CreateOrderOutcome` | PG_app/views.py:83-95 | unknown or absent product: NotFound, nothing changes; otherwise success iff quantity (default 1) ≥ 0 and the total fits, adding exactly one order under a fresh key with PENDING, USD and total price × quantity, and nothing else |
| `Properties.UpdateOrderReprices` | PG_app/views.py:109-134 | unknown order: NotFound; a failure changes nothing; for an existing order, success iff the (new) product exists, quantity ≥ 0 and the total fits; success rewrites only that order, now priced from its product and quantity, keeping status and currency, with transactions untouched |
| `Properties.UpdateIgnoresClientTotal` | PG_app/views.py:116-119 | a client-supplied total never changes the outcome of an update or patch |
| `Properties.DeleteOrderOutcome` | PG_app/views.py:137-145 | unknown order: NotFound, nothing changes; otherwise Ok, and exactly that order and the transactions referencing it are removed, every other row and the key counters unchanged |
| `Properties.DeleteProductOutcome` | PG_app/views.py:64-72 | unknown product: NotFound, nothing changes; otherwise Ok, and exactly that product, its orders and their transactions are removed, every other row and the key counters unchanged |
| `Properties.CreatePaymentOutcome` | PG_app/views.py:152-186 | unknown order: NotFound; declined: the provider's error; neither adds a transaction; accepted: exactly one new transaction for that order with the provider's id and state and the order total as amount, no order changed, reply with the first approval link |
| `Properties.ExecuteErrorsChangeNothing` | PG_app/views.py:193-214 | missing/empty paymentId or PayerID, a raising lookup, a failed execute, or a payment id matching zero or several transactions: an error reply and unchanged tables |
| `Properties.ExecuteCaptures` | PG_app/views.py:201-212 | on success the payment id matched exactly one transaction; it gets the provider's state, its order becomes PAID and is re-priced, and no other row changes |
| `Properties.ExecuteOnUniqueMatch` | PG_app/views.py:201-212 | with both parameters, a provider success and exactly one matching transaction, that transaction takes the provider's state; the order becomes PAID and re-priced iff its total fits, otherwise the reply is StorageRejected, orders are unchanged and the transaction write stays |
| `Properties.ExecuteKeepsAmounts` | PG_app/views.py:203-205 | every capture outcome keeps each transaction's amount, order and payment id |
| `Properties.ExecuteIdempotent` | PG_app/views.py:201-212 | repeating a successful capture with the same provider answers leaves the same tables and reply |
| `Properties.AmountIsSnapshot` | PG_app/models.py:23-33 | a transaction's amount is the order total at payment creation; after a price change and a re-save the order has the new total and the transaction the old amount |
| `Properties.DuplicatePaymentIdBlocksCapture` | PG_app/models.py:32 | two creations answered with the same payment id record two transactions, and capturing that id then fails with MultipleFound and changes nothing |
| `Properties.CheckoutScenario` | PG_app/views.py:81-212 | product 19.99 × 3 costs 59.97, sent as "59.97"; payment PAY-1 returns its approval link; capture leaves the order PAID and the transaction with the provider's state |
| `Views.Store.CreateProduct` | PG_app/views.py:16-22 | the store's tables and reply are those of `Endpoints.CreateProduct`, and the invariant holds |
| `Views.Store.UpdateProduct` | PG_app/views.py:36-47 | the store's tables and reply are those of `Endpoints.UpdateProduct`, and the invariant holds |
| `Views.Store.CreateOrder` | PG_app/views.py:81-95 | builds the order with its defaults and saves it; tables and reply are those of `Endpoints.CreateOrder` |
| `Views.Store.UpdateOrder` | PG_app/views.py:109-134 | sets the supplied fields and saves; tables and reply are those of `Endpoints.UpdateOrder` |
| `Views.Store.DeleteOrder` | PG_app/views.py:137-145 | removes the order's transactions, then the order, as `Endpoints.DeleteOrderView` |
| `Views.Store.DeleteProduct` | PG_app/views.py:64-72 | removes transactions, orders, then the product, as `Endpoints.DeleteProductView` |
| `Views.Store.CreatePayment` | PG_app/views.py:148-186 | tables and reply are those of `Endpoints.CreatePayment`; the request handed to the provider is `PaymentRequestFor` the order, and none when the order is missing |
| `Views.Store.ExecutePayment` | PG_app/views.py:188-214 | checks the parameters, then writes the transaction and, separately, the order; tables and reply are those of `Endpoints.ExecutePayment` |
| `Views.Store.CancelPayment` | PG_app/views.py:216-218 | replies with the acknowledgement and changes no table |

## Left out

- Product list and detail views, and the order list and detail views (PG_app/views.py:9-13, 25-33, 74-78, 98-106): read-only, no state change.
- `patch_product` (PG_app/views.py:50-61): partial catalog edit through the serializer; only the full replacement of `update_product` is modelled, as set-up for scenarios.
- Request-body validation by the serializers, which are not part of this model. An update sets only the product, quantity and client total. Any status or currency fields an update may carry are not modelled. The only validation modelled is that a new product id must exist (`Invalid`). Required fields on PUT and type errors (a JSON `null` or a non-integer quantity) are not modelled.
- The payment provider SDK: `create`, `find` and `execute` are input answers. The payer id is passed to the provider and used by nothing else.
- Column lengths: `status` max 20, `payment_id` max 100, `currency` max 3. The upper range of `PositiveIntegerField` depends on the database backend. None of these limits is enforced.
- A decimal negative zero (`-0.00`) has no integer-cents counterpart.
- HTTP status codes, response bodies, error message text, `created_at` timestamps and the debug `print`. Only the kind of error is modelled.
- Concurrency between capture requests: each view runs as one sequential step.
- URL routing and admin configuration.
