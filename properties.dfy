/**
 * What the views guarantee about the tables, stated over the functions of
 * module Endpoints and relating several requests where the guarantee
 * spans them.
 */
module Properties {
  import opened Wrappers
  import opened Money
  import opened Models
  import opened Endpoints

  // ---------------------------------------------------------------------
  // Orders.

  /**
   * `create_order` fails with NotFound, changing nothing, when the product
   * id is absent or unknown; otherwise it adds exactly one order, under a
   * fresh key, with status PENDING, currency USD, the requested quantity
   * (1 when none is given) and a total of price times quantity, unless the
   * row is refused, which changes nothing either.
   */
  lemma CreateOrderOutcome(t: Tables, productId: Option<Id>, quantity: Option<int>)
    requires Valid(t)
    ensures var s := CreateOrder(t, productId, quantity);
      var q := quantity.GetOr(1);
      && ((productId.None? || productId.value !in t.products) ==> s == Step(Err(NotFound), t))
      && (s.reply.Err? ==> s.after == t)
      && (s.reply.Ok? <==>
            productId.Some? && productId.value in t.products
            && q >= 0 && Fits(t.products[productId.value].price * q))
      && (s.reply.Ok? ==>
            var id := s.reply.value;
            && id !in t.orders
            && s.after.orders == t.orders[id := Order(productId.value, q, t.products[productId.value].price * q, "PENDING", "USD")]
            && |s.after.orders| == |t.orders| + 1
            && s.after.products == t.products
            && s.after.transactions == t.transactions)
  {
  }

  /**
   * `update_order` / `patch_order`: an unknown order is NotFound and a
   * refused request changes nothing; a successful one rewrites only that
   * order, which afterwards is priced from its (possibly new) product and
   * quantity, and touches no transaction.
   */
  lemma UpdateOrderReprices(t: Tables, id: Id, product: Option<Id>, quantity: Option<int>, total: Option<int>)
    requires Valid(t)
    ensures var s := UpdateOrder(t, id, product, quantity, total);
      && (id !in t.orders ==> s == Step(Err(NotFound), t))
      && (s.reply.Err? ==> s.after == t)
      && (id in t.orders ==>
            var p := product.GetOr(t.orders[id].product);
            var q := quantity.GetOr(t.orders[id].quantity);
            (s.reply.Ok? <==> p in t.products && q >= 0 && Fits(t.products[p].price * q)))
      && (s.reply.Ok? ==>
            var o := s.reply.value;
            && id in t.orders
            && s.after.orders == t.orders[id := o]
            && Priced(t.products, o)
            && o.product == product.GetOr(t.orders[id].product)
            && o.quantity == quantity.GetOr(t.orders[id].quantity)
            && o.status == t.orders[id].status && o.currency == t.orders[id].currency
            && s.after.products == t.products
            && s.after.transactions == t.transactions)
  {
  }

  /** A total supplied by the client in an update never reaches the stored order. */
  lemma UpdateIgnoresClientTotal(t: Tables, id: Id, product: Option<Id>, quantity: Option<int>, total: int)
    requires Valid(t)
    ensures UpdateOrder(t, id, product, quantity, Some(total)) == UpdateOrder(t, id, product, quantity, None)
  {
    if id in t.orders && (product.None? || product.value in t.products) {
      var o := t.orders[id];
      var edited := o.(product := product.GetOr(o.product), quantity := quantity.GetOr(o.quantity));
      SaveIgnoresTotal(t.products, edited, total);
      assert edited.(totalPrice := total) == o.(product := product.GetOr(o.product),
                                                  quantity := quantity.GetOr(o.quantity),
                                                  totalPrice := Some(total).GetOr(o.totalPrice));
    }
  }

  /**
   * `delete_order`: an unknown order is NotFound and changes nothing;
   * otherwise the reply is Ok and exactly that order and the transactions
   * referencing it are gone, every other row keeps its contents, and no key
   * dangles.
   */
  lemma DeleteOrderOutcome(t: Tables, id: Id)
    requires Valid(t)
    ensures var s := DeleteOrderView(t, id);
      && (id !in t.orders ==> s == Step(Err(NotFound), t))
      && (id in t.orders ==>
            var u := s.after;
            && s.reply.Ok?
            && u.products == t.products
            && (forall o :: o in u.orders <==> o in t.orders && o != id)
            && (forall o :: o in u.orders ==> u.orders[o] == t.orders[o])
            && (forall x :: x in u.transactions <==> x in t.transactions && t.transactions[x].order != id)
            && (forall x :: x in u.transactions ==> u.transactions[x] == t.transactions[x])
            && u.nextProduct == t.nextProduct && u.nextOrder == t.nextOrder
            && u.nextTransaction == t.nextTransaction)
  {
    if id in t.orders {
      DeleteOrderCascades(t, id);
    }
  }

  /**
   * `delete_product`: an unknown product is NotFound and changes nothing;
   * otherwise the reply is Ok and exactly that product, its orders and their
   * transactions are gone, every other row keeps its contents, and no key
   * dangles.
   */
  lemma DeleteProductOutcome(t: Tables, id: Id)
    requires Valid(t)
    ensures var s := DeleteProductView(t, id);
      && (id !in t.products ==> s == Step(Err(NotFound), t))
      && (id in t.products ==>
            var u := s.after;
            && s.reply.Ok?
            && (forall p :: p in u.products <==> p in t.products && p != id)
            && (forall p :: p in u.products ==> u.products[p] == t.products[p])
            && (forall o :: o in u.orders <==> o in t.orders && t.orders[o].product != id)
            && (forall o :: o in u.orders ==> u.orders[o] == t.orders[o])
            && (forall x :: x in u.transactions <==>
                  x in t.transactions && t.orders[t.transactions[x].order].product != id)
            && (forall x :: x in u.transactions ==> u.transactions[x] == t.transactions[x])
            && u.nextProduct == t.nextProduct && u.nextOrder == t.nextOrder
            && u.nextTransaction == t.nextTransaction)
  {
    if id in t.products {
      DeleteProductCascades(t, id);
    }
  }

  // ---------------------------------------------------------------------
  // Payment creation.

  /**
   * `create_payment`: an absent or unknown order is NotFound and a declined
   * payment is the provider's error, both without any new transaction; an
   * accepted payment adds exactly one transaction, for that order, with the
   * provider's payment id and state and the order's total as its amount,
   * modifies no order, and replies with the first approval link.
   */
  lemma CreatePaymentOutcome(t: Tables, orderId: Option<Id>, answer: CreateAnswer)
    requires Valid(t)
    ensures var s := CreatePayment(t, orderId, answer);
      && ((orderId.None? || orderId.value !in t.orders) ==> s == Step(Err(NotFound), t))
      && (orderId.Some? && orderId.value in t.orders && answer.Declined? ==>
            s == Step(Err(PaymentRejected(answer.error)), t))
      && (orderId.Some? && orderId.value in t.orders && answer.Accepted? ==>
            var k := t.nextTransaction;
            && k !in t.transactions
            && s.after.transactions == t.transactions[k := Transaction(orderId.value, answer.id, t.orders[orderId.value].totalPrice, answer.state)]
            && |s.after.transactions| == |t.transactions| + 1
            && s.after.orders == t.orders && s.after.products == t.products
            && s.reply == Ok(Approval(answer.id, ApprovalUrl(answer.links))))
  {
  }

  // ---------------------------------------------------------------------
  // Payment capture.

  /**
   * `execute_payment` changes nothing and replies with an error when a
   * query parameter is missing or empty, when the provider lookup raises,
   * when the provider does not execute, or when the payment id matches no
   * transaction or more than one.
   */
  lemma ExecuteErrorsChangeNothing(t: Tables, paymentId: Option<string>, payerId: Option<string>,
                                   find: FindAnswer, execute: ExecuteAnswer)
    requires Valid(t)
    ensures var s := ExecutePayment(t, paymentId, payerId, find, execute);
      && (Missing(paymentId) || Missing(payerId) ==> s == Step(Err(MissingParameters), t))
      && (!Missing(paymentId) && !Missing(payerId) && find.FindRaised? ==>
            s == Step(Err(ProviderFailure(find.message)), t))
      && (!Missing(paymentId) && !Missing(payerId) && find.Found? && execute.ExecuteFailed? ==>
            s == Step(Err(PaymentRejected(execute.error)), t))
      && (!Missing(paymentId) && !Missing(payerId) && find.Found? && execute.Executed?
            && |Matching(t.transactions, paymentId.value)| != 1 ==>
            s.after == t && s.reply.Err?)
  {
  }

  /**
   * A successful capture: the payment id matched exactly one transaction,
   * which now has the provider's state and keeps its order and amount; its
   * order is PAID and priced again by `Order.save`; no other row changes.
   */
  lemma ExecuteCaptures(t: Tables, paymentId: Option<string>, payerId: Option<string>,
                        find: FindAnswer, execute: ExecuteAnswer)
    requires Valid(t)
    requires ExecutePayment(t, paymentId, payerId, find, execute).reply.Ok?
    ensures var s := ExecutePayment(t, paymentId, payerId, find, execute);
      && !Missing(paymentId) && !Missing(payerId) && find.Found? && execute.Executed?
      && exists k :: Matching(t.transactions, paymentId.value) == {k}
           && var x := t.transactions[k];
           && s.after.transactions == t.transactions[k := x.(status := execute.state)]
           && s.after.orders == t.orders[x.order := t.orders[x.order].(status := Paid, totalPrice := t.products[t.orders[x.order].product].price * t.orders[x.order].quantity)]
           && s.after.products == t.products
  {
    var matches := Matching(t.transactions, paymentId.value);
    var k :| k in matches;
    forall j | j in matches ensures j == k {
      OnlyMember(matches, j, k);
    }
    assert matches == {k};
  }

  /**
   * When both parameters are present, the provider finds and executes the
   * payment and the payment id matches exactly one transaction, that
   * transaction takes the provider's state whatever happens next; the
   * order is then PAID and priced again exactly when its recomputed total
   * fits, and otherwise the reply is StorageRejected with every order as
   * it was while the transaction's write stays.
   */
  lemma ExecuteOnUniqueMatch(t: Tables, paymentId: string, payer: string, state: string, k: Id)
    requires Valid(t) && paymentId != "" && payer != ""
    requires Matching(t.transactions, paymentId) == {k}
    ensures var s := ExecutePayment(t, Some(paymentId), Some(payer), Found, Executed(state));
      var x := t.transactions[k];
      var o := t.orders[x.order];
      var total := t.products[o.product].price * o.quantity;
      && s.after.transactions == t.transactions[k := x.(status := state)]
      && s.after.products == t.products
      && (s.reply.Ok? <==> Fits(total))
      && (Fits(total) ==> s.after.orders == t.orders[x.order := o.(status := Paid, totalPrice := total)])
      && (!Fits(total) ==> s.reply == Err(StorageRejected) && s.after.orders == t.orders)
  {
  }

  /** Capture amounts are never touched: every transaction keeps its amount and its order. */
  lemma ExecuteKeepsAmounts(t: Tables, paymentId: Option<string>, payerId: Option<string>,
                            find: FindAnswer, execute: ExecuteAnswer)
    requires Valid(t)
    ensures var s := ExecutePayment(t, paymentId, payerId, find, execute);
      s.after.transactions.Keys == t.transactions.Keys
      && forall k :: k in t.transactions ==>
           s.after.transactions[k].amount == t.transactions[k].amount
           && s.after.transactions[k].order == t.transactions[k].order
           && s.after.transactions[k].paymentId == t.transactions[k].paymentId
  {
    ExecuteErrorsChangeNothing(t, paymentId, payerId, find, execute);
    if !Missing(paymentId) && !Missing(payerId) && find.Found? && execute.Executed?
       && |Matching(t.transactions, paymentId.value)| == 1
    {
      var s := ExecutePayment(t, paymentId, payerId, find, execute);
      var m := Matching(t.transactions, paymentId.value);
      var k :| k in m;
      forall j | j in m ensures j == k {
        OnlyMember(m, j, k);
      }
      assert s.after.transactions == t.transactions[k := t.transactions[k].(status := execute.state)];
    }
  }

  /** Repeating a successful capture with the same provider answers leaves the same tables. */
  lemma {:induction false} ExecuteIdempotent(t: Tables, paymentId: Option<string>, payerId: Option<string>,
                                             find: FindAnswer, execute: ExecuteAnswer)
    requires Valid(t)
    requires ExecutePayment(t, paymentId, payerId, find, execute).reply.Ok?
    ensures var s := ExecutePayment(t, paymentId, payerId, find, execute);
      ExecutePayment(s.after, paymentId, payerId, find, execute) == s
  {
    var s := ExecutePayment(t, paymentId, payerId, find, execute);
    ExecuteCaptures(t, paymentId, payerId, find, execute);
    var k :| Matching(t.transactions, paymentId.value) == {k};
    var u := s.after;
    assert Matching(u.transactions, paymentId.value) == {k};
    var x := t.transactions[k];
    var saved := t.orders[x.order].(status := Paid, totalPrice := t.products[t.orders[x.order].product].price * t.orders[x.order].quantity);
    assert u.transactions[k] == x.(status := execute.state);
    assert u.transactions[k := u.transactions[k].(status := execute.state)] == u.transactions;
    assert Save(u.products, u.orders[x.order].(status := Paid)) == Some(saved);
    assert u.orders[x.order := saved] == u.orders;
  }

  // ---------------------------------------------------------------------
  // Snapshots and keys.

  /**
   * A transaction's amount is a copy of the order total taken when the
   * payment was created: after the product's price changes and the order
   * is saved again, the order carries the new total while the transaction
   * keeps the old amount.
   */
  lemma AmountIsSnapshot(t: Tables, orderId: Id, answer: CreateAnswer, product: Product)
    requires Valid(t) && orderId in t.orders && answer.Accepted?
    ensures var s1 := CreatePayment(t, Some(orderId), answer);
      var k := t.nextTransaction;
      var p := t.orders[orderId].product;
      var s2 := UpdateProduct(s1.after, p, product);
      var s3 := UpdateOrder(s2.after, orderId, None, None, None);
      && k in s1.after.transactions
      && s1.after.transactions[k].amount == t.orders[orderId].totalPrice
      && (s2.reply.Ok? && s3.reply.Ok? ==>
            && s3.after.orders[orderId].totalPrice == product.price * t.orders[orderId].quantity
            && k in s3.after.transactions
            && s3.after.transactions[k].amount == t.orders[orderId].totalPrice)
  {
    var s1 := CreatePayment(t, Some(orderId), answer);
    var k := t.nextTransaction;
    var p := t.orders[orderId].product;
    var s2 := UpdateProduct(s1.after, p, product);
    UpdateOrderReprices(s2.after, orderId, None, None, None);
  }

  /**
   * `payment_id` is not a unique column: two accepted creations that the
   * provider answers with the same id record two transactions, and a
   * capture of that id then fails with MultipleFound and changes nothing.
   */
  lemma DuplicatePaymentIdBlocksCapture(t: Tables, orderId: Id, answer: CreateAnswer, payer: string, state: string)
    requires Valid(t) && orderId in t.orders && answer.Accepted? && answer.id != "" && payer != ""
    ensures var s1 := CreatePayment(t, Some(orderId), answer);
      var s2 := CreatePayment(s1.after, Some(orderId), answer);
      var s3 := ExecutePayment(s2.after, Some(answer.id), Some(payer), Found, Executed(state));
      && |Matching(s2.after.transactions, answer.id)| >= 2
      && s3 == Step(Err(MultipleFound), s2.after)
  {
    var s1 := CreatePayment(t, Some(orderId), answer);
    var s2 := CreatePayment(s1.after, Some(orderId), answer);
    var a, b := t.nextTransaction, s1.after.nextTransaction;
    var m := Matching(s2.after.transactions, answer.id);
    assert a in m && b in m && a != b;
    assert {a, b} <= m;
    assert |{a, b}| == 2;
    SubsetCard({a, b}, m);
  }

  lemma {:induction false} SubsetCard(a: set<Id>, b: set<Id>)
    requires a <= b
    ensures |a| <= |b|
  {
    if a != {} {
      var x :| x in a;
      SubsetCard(a - {x}, b - {x});
    }
  }

  // ---------------------------------------------------------------------
  // A worked scenario.

  /**
   * A product at 19.99 ordered three times costs 59.97, which is what the
   * provider is asked to charge; once the provider accepts as PAY-1 with an
   * approval link and later executes the payment, the order is PAID and
   * the transaction carries the provider's final state.
   */
  lemma CheckoutScenario()
    ensures var s0 := CreateProduct(Empty, Product("Mug", "", 1999, 5));
      var s1 := CreateOrder(s0.after, Some(1), Some(3));
      var links := [Link("self", "https://provider/self/1"), Link("approval_url", "https://provider/approve/1")];
      var s2 := CreatePayment(s1.after, Some(1), Accepted("PAY-1", "created", links));
      var s3 := ExecutePayment(s2.after, Some("PAY-1"), Some("PAYER-9"), Found, Executed("approved"));
      && s1.reply == Ok(1) && s1.after.orders[1].totalPrice == 5997
      && PaymentRequestFor(1, s1.after.orders[1]).total == "59.97"
      && s2.reply == Ok(Approval("PAY-1", Some("https://provider/approve/1")))
      && s3.reply == Ok(())
      && s3.after.orders[1].status == "PAID"
      && s3.after.transactions[1] == Transaction(1, "PAY-1", 5997, "approved")
  {
    var mug := Product("Mug", "", 1999, 5);
    var s0 := CreateProduct(Empty, mug);
    var t0 := Tables(map[1 := mug], map[], map[], 2, 1, 1);
    assert s0 == Step(Ok(1), t0);
    var order := Order(1, 3, 5997, "PENDING", "USD");
    assert Save(t0.products, NewOrder(1, 3)) == Some(order);
    var t1 := t0.(orders := map[1 := order], nextOrder := 2);
    var s1 := CreateOrder(t0, Some(1), Some(3));
    assert s1 == Step(Ok(1), t1);
    AmountText();
    var links := [Link("self", "https://provider/self/1"), Link("approval_url", "https://provider/approve/1")];
    assert ApprovalUrl(links[1..]) == Some("https://provider/approve/1");
    var t2 := t1.(transactions := map[1 := Transaction(1, "PAY-1", 5997, "created")], nextTransaction := 2);
    var s2 := CreatePayment(t1, Some(1), Accepted("PAY-1", "created", links));
    assert s2 == Step(Ok(Approval("PAY-1", Some("https://provider/approve/1"))), t2);
    assert Matching(t2.transactions, "PAY-1") == {1};
    assert Save(t2.products, order.(status := Paid)) == Some(order.(status := Paid));
  }

  lemma AmountText()
    ensures FormatAmount(5997) == "59.97"
  {
    assert Digits(59) == "59" by {
      assert Digits(5) == "5";
    }
  }
}
