/**
 * The views as they run against the database: a store whose three tables
 * (and their key counters) the request handlers update in place, one write
 * at a time, in the order the handlers perform them. Each method is proved
 * to leave the tables, and to reply, as the matching function of module
 * Endpoints says.
 */
module Views {
  import opened Wrappers
  import opened Money
  import opened Models
  import opened Endpoints

  class Store {
    var products: map<Id, Product>
    var orders: map<Id, Order>
    var transactions: map<Id, Transaction>
    var nextProduct: Id
    var nextOrder: Id
    var nextTransaction: Id

    /** The tables as one value. */
    function State(): (t: Tables)
      reads this
      ensures t.orders == orders && t.transactions == transactions && t.products == products
    {
      Tables(products, orders, transactions, nextProduct, nextOrder, nextTransaction)
    }

    ghost predicate Valid()
      reads this
    {
      Models.Valid(State())
    }

    /** An empty database. */
    constructor ()
      ensures Valid() && State() == Empty
    {
      products, orders, transactions := map[], map[], map[];
      nextProduct, nextOrder, nextTransaction := 1, 1, 1;
    }

    method CreateProduct(p: Product) returns (r: Result<Id>)
      requires Valid()
      modifies this
      ensures Valid()
      ensures Step(r, State()) == Endpoints.CreateProduct(old(State()), p)
    {
      if !Fits(p.price) {
        return Err(Invalid);
      }
      products := products[nextProduct := p];
      r := Ok(nextProduct);
      nextProduct := nextProduct + 1;
    }

    method UpdateProduct(id: Id, p: Product) returns (r: Result<()>)
      requires Valid()
      modifies this
      ensures Valid()
      ensures Step(r, State()) == Endpoints.UpdateProduct(old(State()), id, p)
    {
      if id !in products {
        return Err(NotFound);
      }
      if !Fits(p.price) {
        return Err(Invalid);
      }
      products := products[id := p];
      r := Ok(());
    }

    /** `create_order`: build the order with its defaults, then `order.save()`. */
    method CreateOrder(productId: Option<Id>, quantity: Option<int>) returns (r: Result<Id>)
      requires Valid()
      modifies this
      ensures Valid()
      ensures Step(r, State()) == Endpoints.CreateOrder(old(State()), productId, quantity)
    {
      if productId.None? || productId.value !in products {
        return Err(NotFound);
      }
      var order := NewOrder(productId.value, quantity.GetOr(DefaultQuantity));
      var saved := Save(products, order);
      if saved.None? {
        return Err(StorageRejected);
      }
      orders := orders[nextOrder := saved.value];
      r := Ok(nextOrder);
      nextOrder := nextOrder + 1;
    }

    /** `update_order` / `patch_order`: set the supplied fields, then `order.save()`. */
    method UpdateOrder(id: Id, product: Option<Id>, quantity: Option<int>, total: Option<int>)
      returns (r: Result<Order>)
      requires Valid()
      modifies this
      ensures Valid()
      ensures Step(r, State()) == Endpoints.UpdateOrder(old(State()), id, product, quantity, total)
    {
      if id !in orders {
        return Err(NotFound);
      }
      if product.Some? && product.value !in products {
        return Err(Invalid);
      }
      var order := orders[id];
      order := order.(product := product.GetOr(order.product));
      order := order.(quantity := quantity.GetOr(order.quantity));
      order := order.(totalPrice := total.GetOr(order.totalPrice));
      var saved := Save(products, order);
      if saved.None? {
        return Err(StorageRejected);
      }
      orders := orders[id := saved.value];
      r := Ok(saved.value);
    }

    /** `delete_order`: the cascade removes the order's transactions, then the order. */
    method DeleteOrder(id: Id) returns (r: Result<()>)
      requires Valid()
      modifies this
      ensures Valid()
      ensures Step(r, State()) == DeleteOrderView(old(State()), id)
    {
      if id !in orders {
        return Err(NotFound);
      }
      transactions := WithoutOrders(transactions, {id});
      orders := orders - {id};
      r := Ok(());
    }

    /** `delete_product`: the cascade removes transactions, then orders, then the product. */
    method DeleteProduct(id: Id) returns (r: Result<()>)
      requires Valid()
      modifies this
      ensures Valid()
      ensures Step(r, State()) == DeleteProductView(old(State()), id)
    {
      if id !in products {
        return Err(NotFound);
      }
      var gone := OrdersOf(orders, id);
      transactions := WithoutOrders(transactions, gone);
      orders := orders - gone;
      products := products - {id};
      r := Ok(());
    }

    /**
     * `create_payment`. Besides the reply, `request` is the payment handed
     * to the provider (None when the order lookup fails first).
     */
    method CreatePayment(orderId: Option<Id>, answer: CreateAnswer)
      returns (r: Result<Approval>, request: Option<PaymentRequest>)
      requires Valid()
      modifies this
      ensures Valid()
      ensures Step(r, State()) == Endpoints.CreatePayment(old(State()), orderId, answer)
      ensures request == if orderId.Some? && orderId.value in old(orders)
                         then Some(PaymentRequestFor(orderId.value, old(orders)[orderId.value]))
                         else None
    {
      if orderId.None? || orderId.value !in orders {
        return Err(NotFound), None;
      }
      var order := orders[orderId.value];
      request := Some(PaymentRequestFor(orderId.value, order));
      if answer.Declined? {
        return Err(PaymentRejected(answer.error)), request;
      }
      ghost var before := State();
      transactions := transactions[nextTransaction := Transaction(orderId.value, answer.id, order.totalPrice, answer.state)];
      nextTransaction := nextTransaction + 1;
      r := Ok(Approval(answer.id, ApprovalUrl(answer.links)));
      assert Step(r, State()) == Endpoints.CreatePayment(before, orderId, answer);
    }

    /**
     * `execute_payment`: check the query parameters, consult the provider,
     * then write the transaction's new state and, separately, the order's.
     */
    method ExecutePayment(paymentId: Option<string>, payerId: Option<string>,
                          find: FindAnswer, execute: ExecuteAnswer) returns (r: Result<()>)
      requires Valid()
      modifies this
      ensures Valid()
      ensures Step(r, State()) == Endpoints.ExecutePayment(old(State()), paymentId, payerId, find, execute)
    {
      if Missing(paymentId) || Missing(payerId) {
        return Err(MissingParameters);
      }
      if find.FindRaised? {
        return Err(ProviderFailure(find.message));
      }
      if execute.ExecuteFailed? {
        return Err(PaymentRejected(execute.error));
      }
      var matches := Matching(transactions, paymentId.value);
      if |matches| == 0 {
        return Err(NotFound);
      }
      if |matches| > 1 {
        return Err(MultipleFound);
      }
      var k :| k in matches;
      forall j | j in matches ensures j == k {
        OnlyMember(matches, j, k);
      }
      var transaction := transactions[k].(status := execute.state);
      transactions := transactions[k := transaction];
      var order := orders[transaction.order].(status := Paid);
      var saved := Save(products, order);
      if saved.None? {
        return Err(StorageRejected);
      }
      orders := orders[transaction.order := saved.value];
      r := Ok(());
    }

    /** `cancel_payment`: an acknowledgement; no table is touched. */
    method CancelPayment() returns (ack: string)
      ensures ack == "Payment cancelled"
      ensures State() == old(State())
    {
      ack := "Payment cancelled";
    }
  }
}
