/**
 * The three persisted records of the payment app (`Product`, `Order`,
 * `Transaction`), the tables that hold them, `Order.save`'s price
 * recomputation and the `on_delete=CASCADE` rules.
 *
 * Money is in cents (see module Money). Primary keys are auto-increment
 * integers: each table remembers the next key it will hand out and never
 * reuses one.
 */
module Models {
  import opened Wrappers
  import opened Money

  type Id = nat

  datatype Product = Product(name: string, description: string, price: int, stock: nat)

  /** `product` is a foreign key; `quantity` is what the request supplied. */
  datatype Order = Order(product: Id, quantity: int, totalPrice: int, status: string, currency: string)

  datatype Transaction = Transaction(order: Id, paymentId: string, amount: int, status: string)

  /** Field defaults of `Order`. */
  const DefaultQuantity: int := 1
  const Pending := "PENDING"
  const DefaultCurrency := "USD"

  /** The status the capture step gives an order. */
  const Paid := "PAID"

  datatype Tables = Tables(
    products: map<Id, Product>,
    orders: map<Id, Order>,
    transactions: map<Id, Transaction>,
    nextProduct: Id,
    nextOrder: Id,
    nextTransaction: Id)

  const Empty := Tables(map[], map[], map[], 1, 1, 1)

  /**
   * What the database guarantees of the stored rows: keys below the next
   * key, every foreign key resolves, quantities are non-negative
   * (`PositiveIntegerField` admits 0) and every money column fits its
   * 10-digit, 2-decimal declaration.
   */
  predicate Valid(t: Tables): (b: bool)
    ensures b ==> forall id :: id in t.transactions ==>
      t.transactions[id].order in t.orders && t.orders[t.transactions[id].order].product in t.products
  {
    (forall id :: id in t.products ==> id < t.nextProduct && Fits(t.products[id].price))
    && (forall id :: id in t.orders ==>
          id < t.nextOrder && t.orders[id].product in t.products
          && t.orders[id].quantity >= 0 && Fits(t.orders[id].totalPrice))
    && (forall id :: id in t.transactions ==>
          id < t.nextTransaction && t.transactions[id].order in t.orders
          && Fits(t.transactions[id].amount))
  }

  /** A new, unsaved order with the model's field defaults. */
  function NewOrder(product: Id, quantity: int): (o: Order)
    ensures o.product == product && o.quantity == quantity
    ensures o.status == "PENDING" && o.currency == "USD"
  {
    Order(product, quantity, 0, Pending, DefaultCurrency)
  }

  /**
   * `Order.save`: overwrite `total_price` with `product.price * quantity`,
   * then write the row. The write is refused (None) when the row breaks a
   * column declaration: a negative quantity or a total that does not fit.
   */
  function Save(products: map<Id, Product>, o: Order): (r: Option<Order>)
    requires o.product in products
    ensures r.Some? <==> o.quantity >= 0 && Fits(products[o.product].price * o.quantity)
    ensures r.Some? ==> Priced(products, r.value) && Fits(r.value.totalPrice) && r.value.quantity >= 0
    ensures r.Some? ==> r.value.(totalPrice := o.totalPrice) == o
  {
    var total := products[o.product].price * o.quantity;
    if o.quantity < 0 || !Fits(total) then None
    else Some(o.(totalPrice := total))
  }

  /** An order whose total is its product's price times its quantity. */
  predicate Priced(products: map<Id, Product>, o: Order) {
    o.product in products && o.totalPrice == products[o.product].price * o.quantity
  }

  /** Whatever total a caller put on the order before saving is discarded. */
  lemma SaveIgnoresTotal(products: map<Id, Product>, o: Order, total: int)
    requires o.product in products
    ensures Save(products, o.(totalPrice := total)) == Save(products, o)
  {
  }

  /** The orders that reference product `p` (`Order.product`, `on_delete=CASCADE`). */
  function OrdersOf(orders: map<Id, Order>, p: Id): (ids: set<Id>)
    ensures forall id :: id in ids <==> id in orders && orders[id].product == p
  {
    set id | id in orders && orders[id].product == p
  }

  /** The transactions left after the orders `gone` are deleted (`Transaction.order`, `on_delete=CASCADE`). */
  function WithoutOrders(transactions: map<Id, Transaction>, gone: set<Id>): (r: map<Id, Transaction>)
    ensures forall id :: id in r <==> id in transactions && transactions[id].order !in gone
    ensures forall id :: id in r ==> r[id] == transactions[id]
  {
    map id | id in transactions && transactions[id].order !in gone :: transactions[id]
  }

  /** `order.delete()`: the order and, by cascade, every transaction of it. */
  function DeleteOrder(t: Tables, id: Id): (u: Tables)
    ensures u.products == t.products && u.orders.Keys == t.orders.Keys - {id}
    ensures forall x :: x in u.transactions <==> x in t.transactions && t.transactions[x].order != id
  {
    t.(orders := t.orders - {id}, transactions := WithoutOrders(t.transactions, {id}))
  }

  /** `product.delete()`: the product, its orders and, transitively, their transactions. */
  function DeleteProduct(t: Tables, id: Id): (u: Tables)
    ensures u.products.Keys == t.products.Keys - {id}
    ensures forall p :: p in u.products ==> u.products[p] == t.products[p]
    ensures forall o :: o in u.orders <==> o in t.orders && t.orders[o].product != id
    ensures forall x :: x in u.transactions <==>
      x in t.transactions && (t.transactions[x].order !in t.orders || t.orders[t.transactions[x].order].product != id)
  {
    var gone := OrdersOf(t.orders, id);
    t.(products := t.products - {id},
       orders := t.orders - gone,
       transactions := WithoutOrders(t.transactions, gone))
  }

  /**
   * Deleting an order removes exactly that order and the transactions that
   * reference it, keeps everything else as it was, and leaves no dangling
   * foreign key.
   */
  lemma DeleteOrderCascades(t: Tables, id: Id)
    requires Valid(t)
    ensures var u := DeleteOrder(t, id);
      Valid(u)
      && u.products == t.products
      && u.nextProduct == t.nextProduct && u.nextOrder == t.nextOrder
      && u.nextTransaction == t.nextTransaction
      && (forall o :: o in u.orders <==> o in t.orders && o != id)
      && (forall o :: o in u.orders ==> u.orders[o] == t.orders[o])
      && (forall x :: x in u.transactions <==> x in t.transactions && t.transactions[x].order != id)
      && (forall x :: x in u.transactions ==> u.transactions[x] == t.transactions[x])
  {
  }

  /**
   * Deleting a product removes exactly that product, the orders of it and
   * the transactions of those orders, keeps everything else as it was, and
   * leaves no dangling foreign key.
   */
  lemma DeleteProductCascades(t: Tables, id: Id)
    requires Valid(t)
    ensures var u := DeleteProduct(t, id);
      Valid(u)
      && (forall p :: p in u.products <==> p in t.products && p != id)
      && (forall o :: o in u.orders <==> o in t.orders && t.orders[o].product != id)
      && (forall x :: x in u.transactions <==>
            x in t.transactions && t.orders[t.transactions[x].order].product != id)
      && (forall o :: o in u.orders ==> u.orders[o] == t.orders[o])
      && (forall x :: x in u.transactions ==> u.transactions[x] == t.transactions[x])
      && (forall p :: p in u.products ==> u.products[p] == t.products[p])
      && u.nextProduct == t.nextProduct && u.nextOrder == t.nextOrder
      && u.nextTransaction == t.nextTransaction
  {
  }
}
