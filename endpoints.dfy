/**
 * What each view of the payment app does to the tables, as a function from
 * the tables before the request to the reply and the tables after it.
 *
 * The payment provider is not modelled: what it answers to `create`,
 * `find` and `execute` is a parameter of the view that calls it.
 */
module Endpoints {
  import opened Wrappers
  import opened Money
  import opened Models

  datatype Error =
    | NotFound                          // a looked-up row does not exist
    | Invalid                           // the request body fails validation
    | StorageRejected                   // a row breaks a column declaration on write
    | MissingParameters                 // `paymentId` or `PayerID` absent or empty
    | ProviderFailure(message: string)  // the provider lookup raised
    | PaymentRejected(detail: string)   // the provider declined to create or execute
    | MultipleFound                     // several transactions carry the payment id

  datatype Result<+T> = Ok(value: T) | Err(error: Error)

  /** A view's reply and the tables it leaves behind. */
  datatype Step<+T> = Step(reply: Result<T>, after: Tables)

  // ---------------------------------------------------------------------
  // The provider's side of the protocol, as answers handed to the views.

  datatype Link = Link(rel: string, href: string)

  /** The provider's answer to `payment.create()`. */
  datatype CreateAnswer =
    | Accepted(id: string, state: string, links: seq<Link>)
    | Declined(error: string)

  /** The provider's answer to `Payment.find(paymentId)`. */
  datatype FindAnswer = Found | FindRaised(message: string)

  /** The provider's answer to `payment.execute({"payer_id": ...})`. */
  datatype ExecuteAnswer = Executed(state: string) | ExecuteFailed(error: string)

  /** The payment the app asks the provider to create. */
  datatype PaymentRequest = PaymentRequest(
    intent: string,
    paymentMethod: string,
    total: string,
    currency: string,
    description: string,
    returnUrl: string,
    cancelUrl: string)

  /** The reply of a successful payment creation. */
  datatype Approval = Approval(paymentId: string, approvalUrl: Option<string>)

  const ApprovalRel := "approval_url"
  const ReturnUrl := "http://localhost:8000/api/payments/execute/"
  const CancelUrl := "http://localhost:8000/api/payments/cancel/"

  /**
   * The `href` of the first link whose `rel` is "approval_url", or None
   * when the provider sent no such link.
   */
  function ApprovalUrl(links: seq<Link>): (url: Option<string>)
    ensures url.None? <==> forall i :: 0 <= i < |links| ==> links[i].rel != ApprovalRel
    ensures url.Some? ==>
      exists i :: 0 <= i < |links| && links[i].rel == ApprovalRel && links[i].href == url.value
        && forall j :: 0 <= j < i ==> links[j].rel != ApprovalRel
  {
    if links == [] then None
    else if links[0].rel == ApprovalRel then Some(links[0].href)
    else
      var rest := ApprovalUrl(links[1..]);
      assert forall i :: 1 <= i < |links| ==> links[i] == links[1..][i - 1];
      rest
  }

  /**
   * The payment sent for order `id`: a sale paid through the provider's
   * redirect flow, for the order's total written with two decimals in the
   * order's currency. The provider reads back exactly the order's total.
   */
  function PaymentRequestFor(id: Id, o: Order): (r: PaymentRequest)
    ensures r.intent == "sale" && r.paymentMethod == "paypal"
    ensures ParseAmount(r.total) == Some(o.totalPrice)
    ensures r.currency == o.currency
    ensures r.description == "Payment for Order " + Digits(id)
    ensures r.returnUrl == ReturnUrl && r.cancelUrl == CancelUrl
  {
    ParseFormatAmount(o.totalPrice);
    PaymentRequest("sale", "paypal", FormatAmount(o.totalPrice), o.currency,
                   "Payment for Order " + Digits(id), ReturnUrl, CancelUrl)
  }

  /** A query parameter that Python treats as false: absent or empty. */
  predicate Missing(v: Option<string>): (m: bool)
    ensures !m <==> v.Some? && |v.value| > 0
  {
    v.None? || v.value == ""
  }

  /** The transactions a `Transaction.objects.get(payment_id=...)` would match. */
  function Matching(transactions: map<Id, Transaction>, paymentId: string): (ks: set<Id>)
    ensures forall k :: k in ks <==> k in transactions && transactions[k].paymentId == paymentId
  {
    set k | k in transactions && transactions[k].paymentId == paymentId
  }

  lemma OnlyMember(s: set<Id>, a: Id, b: Id)
    requires |s| == 1 && a in s && b in s
    ensures a == b
  {
    var rest := s - {a};
    assert s == rest + {a} && a !in rest;
    assert |rest| == 0;
    assert b !in rest;
  }

  // ---------------------------------------------------------------------
  // Catalog set-up (plain CRUD, used to build scenarios).

  /** `create_product`: a price that does not fit the column fails validation. */
  function CreateProduct(t: Tables, p: Product): (s: Step<Id>)
    requires Valid(t)
    ensures Valid(s.after)
  {
    if !Fits(p.price) then Step(Err(Invalid), t)
    else Step(Ok(t.nextProduct),
              t.(products := t.products[t.nextProduct := p], nextProduct := t.nextProduct + 1))
  }

  /** `update_product`: replaces the product row; its orders are not re-saved. */
  function UpdateProduct(t: Tables, id: Id, p: Product): (s: Step<()>)
    requires Valid(t)
    ensures Valid(s.after)
    ensures s.after.orders == t.orders && s.after.transactions == t.transactions
    ensures s.reply.Ok? <==> id in t.products && Fits(p.price)
  {
    if id !in t.products then Step(Err(NotFound), t)
    else if !Fits(p.price) then Step(Err(Invalid), t)
    else Step(Ok(()), t.(products := t.products[id := p]))
  }

  // ---------------------------------------------------------------------
  // Orders.

  /** `create_order`: `quantity` defaults to 1; the new order goes through `Order.save`. */
  function CreateOrder(t: Tables, productId: Option<Id>, quantity: Option<int>): (s: Step<Id>)
    requires Valid(t)
    ensures Valid(s.after)
  {
    if productId.None? || productId.value !in t.products then Step(Err(NotFound), t)
    else
      match Save(t.products, NewOrder(productId.value, quantity.GetOr(DefaultQuantity)))
      case None => Step(Err(StorageRejected), t)
      case Some(saved) =>
        Step(Ok(t.nextOrder), t.(orders := t.orders[t.nextOrder := saved], nextOrder := t.nextOrder + 1))
  }

  /**
   * `update_order` and `patch_order`: the fields the request carries are
   * set on the order (a product that does not exist fails validation),
   * then `Order.save` runs.
   */
  function UpdateOrder(t: Tables, id: Id, product: Option<Id>, quantity: Option<int>, total: Option<int>)
    : (s: Step<Order>)
    requires Valid(t)
    ensures Valid(s.after)
  {
    if id !in t.orders then Step(Err(NotFound), t)
    else if product.Some? && product.value !in t.products then Step(Err(Invalid), t)
    else
      var o := t.orders[id];
      var edited := o.(product := product.GetOr(o.product),
                       quantity := quantity.GetOr(o.quantity),
                       totalPrice := total.GetOr(o.totalPrice));
      match Save(t.products, edited)
      case None => Step(Err(StorageRejected), t)
      case Some(saved) => Step(Ok(saved), t.(orders := t.orders[id := saved]))
  }

  /** `delete_order`. */
  function DeleteOrderView(t: Tables, id: Id): (s: Step<()>)
    requires Valid(t)
    ensures Valid(s.after)
  {
    if id !in t.orders then Step(Err(NotFound), t)
    else
      DeleteOrderCascades(t, id);
      Step(Ok(()), DeleteOrder(t, id))
  }

  /** `delete_product`. */
  function DeleteProductView(t: Tables, id: Id): (s: Step<()>)
    requires Valid(t)
    ensures Valid(s.after)
  {
    if id !in t.products then Step(Err(NotFound), t)
    else
      DeleteProductCascades(t, id);
      Step(Ok(()), DeleteProduct(t, id))
  }

  // ---------------------------------------------------------------------
  // Payments.

  /**
   * `create_payment`: on acceptance one transaction records the provider's
   * payment id and state and a copy of the order's total.
   */
  function CreatePayment(t: Tables, orderId: Option<Id>, answer: CreateAnswer): (s: Step<Approval>)
    requires Valid(t)
    ensures Valid(s.after)
  {
    if orderId.None? || orderId.value !in t.orders then Step(Err(NotFound), t)
    else
      match answer
      case Declined(error) => Step(Err(PaymentRejected(error)), t)
      case Accepted(paymentId, state, links) =>
        var x := Transaction(orderId.value, paymentId, t.orders[orderId.value].totalPrice, state);
        Step(Ok(Approval(paymentId, ApprovalUrl(links))),
             t.(transactions := t.transactions[t.nextTransaction := x],
                nextTransaction := t.nextTransaction + 1))
  }

  /**
   * `execute_payment`: after the provider executes the payment, the one
   * transaction with that payment id takes the provider's state and is
   * written; then its order is marked paid and goes through `Order.save`.
   * The two writes are separate: when the order's write is refused, the
   * transaction's new state stays.
   */
  ghost function ExecutePayment(t: Tables, paymentId: Option<string>, payerId: Option<string>,
                                find: FindAnswer, execute: ExecuteAnswer): (s: Step<()>)
    requires Valid(t)
    ensures Valid(s.after)
  {
    if Missing(paymentId) || Missing(payerId) then Step(Err(MissingParameters), t)
    else if find.FindRaised? then Step(Err(ProviderFailure(find.message)), t)
    else if execute.ExecuteFailed? then Step(Err(PaymentRejected(execute.error)), t)
    else
      var matches := Matching(t.transactions, paymentId.value);
      if |matches| == 0 then Step(Err(NotFound), t)
      else if |matches| > 1 then Step(Err(MultipleFound), t)
      else
        var k :| k in matches;
        var x := t.transactions[k];
        var captured := t.(transactions := t.transactions[k := x.(status := execute.state)]);
        match Save(t.products, t.orders[x.order].(status := Paid))
        case None => Step(Err(StorageRejected), captured)
        case Some(saved) => Step(Ok(()), captured.(orders := t.orders[x.order := saved]))
  }
}
