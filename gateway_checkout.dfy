/**
  `CheckoutController`: the gateway checkout. `CreateOrder` asks the gateway
  for an order and stores a local order carrying the gateway's order id;
  `Verify` checks the signature the browser posts back after payment and, on
  success, tentatively records the payment on the matching order (the
  webhook settles it for good).
 */
module GatewayCheckout {
  import opened Entities
  import opened Store
  import opened Razorpay
  import opened CartCheckout
  import opened Reconciliation

  /**
    The gateway's answer to an order request: the "id" of the order it
    created, None when the response carries none (reading it then throws).
   */
  type Gateway = OrderRequest -> Option<string>

  /** The local order stored for a gateway order: no customer, both statuses Pending. */
  function GatewayOrder(id: int, razorpayOrderId: string, amount: real, now: int): Order {
    Order(id, None, "", "", "", "", OrderStatus.Pending, PaymentStatus.Pending, now, amount, razorpayOrderId, "", "")
  }

  /**
    `CreateOrder`: build the request (amount in paise), post it, and store one
    order with the gateway's id, TotalAmount = amount (in rupees) and both
    statuses Pending. When the paise conversion overflows or the answer has
    no id, the action fails and nothing is stored.
   */
  method CreateOrder(db: Database, gateway: Gateway, amount: real, receipt: string, now: int)
    returns (db': Database, result: Result<string>)
    ensures ToPaise(amount).Failure? ==> result.Failure? && db' == db
    ensures ToPaise(amount).Success? ==>
      var request := OrderRequest(ToPaise(amount).value, "INR", receipt, 1);
      && (result.Success? <==> gateway(request).Some?)
      && (result.Failure? ==> db' == db)
      && (result.Success? ==>
            && result.value == gateway(request).value
            && db' == db.(orders := db.orders + [GatewayOrder(NextOrderId(db.orders), result.value, amount, now)]))
    ensures result.Success? ==>
      && db'.products == db.products && db'.carts == db.carts && db'.webhookLogs == db.webhookLogs
      && |db'.orders| == |db.orders| + 1 && db'.orders[..|db.orders|] == db.orders
      && var o := db'.orders[|db.orders|];
         o.razorpayOrderId == result.value && o.totalAmount == amount
         && o.paymentStatus == PaymentStatus.Pending && o.orderStatus == OrderStatus.Pending
         && o.paymentId == "" && o.razorpayPaymentId == ""
         && forall i :: 0 <= i < |db.orders| ==> db.orders[i].orderId < o.orderId
    ensures result.Success? ==>
      FindOrder(db'.orders, result.value) ==
        if FindOrder(db.orders, result.value) >= 0 then FindOrder(db.orders, result.value) else |db.orders|
  {
    db' := db;
    var request := BuildOrderRequest(amount, receipt);
    if request.Failure? {
      return db', Failure(request.error);
    }
    var answer := gateway(request.value);
    if answer.None? {
      return db', Failure("NullReferenceException");
    }
    var razorpayOrderId := answer.value;
    var order := GatewayOrder(NextOrderId(db.orders), razorpayOrderId, amount, now);
    db' := db'.(orders := db'.orders + [order]);
    result := Success(razorpayOrderId);
    assert db'.orders[..|db.orders|] == db.orders;
    assert db'.orders[|db.orders|] == order;
  }

  /** What the browser posts back after paying. */
  datatype VerifyRequest = VerifyRequest(razorpayOrderId: string, razorpayPaymentId: string, razorpaySignature: string)

  /** A tentatively paid order: the gateway payment id noted, payment Pending until the webhook. */
  function NotePayment(o: Order, razorpayPaymentId: string): Order {
    o.(razorpayPaymentId := razorpayPaymentId, paymentStatus := PaymentStatus.Pending)
  }

  /** `Verify` as a function of the state: the new state and the `success` flag. */
  function Verified(db: Database, crypto: Crypto, secret: string, req: VerifyRequest): (Database, bool) {
    if !VerifySignature(crypto, secret, req.razorpayOrderId, req.razorpayPaymentId, req.razorpaySignature) then
      (db, false)
    else
      var k := FindOrder(db.orders, req.razorpayOrderId);
      if k < 0 then (db, true)
      else (db.(orders := db.orders[k := NotePayment(db.orders[k], req.razorpayPaymentId)]), true)
  }

  method Verify(db: Database, crypto: Crypto, secret: string, req: VerifyRequest) returns (db': Database, success: bool)
    ensures (db', success) == Verified(db, crypto, secret, req)
  {
    var isValid := VerifySignature(crypto, secret, req.razorpayOrderId, req.razorpayPaymentId, req.razorpaySignature);
    if !isValid {
      return db, false;
    }
    db' := db;
    var k := FindOrder(db.orders, req.razorpayOrderId);
    if k >= 0 {
      var order := db.orders[k];
      order := order.(razorpayPaymentId := req.razorpayPaymentId);
      order := order.(paymentStatus := PaymentStatus.Pending);
      db' := db'.(orders := db.orders[k := order]);
    }
    success := true;
  }

  /**
    `success` is exactly the signature verdict. A refused signature, or no
    order with the gateway order id, changes nothing; otherwise only the first
    such order changes, and only in RazorpayPaymentId and PaymentStatus
    (Pending): its OrderStatus and PaymentId are untouched.
   */
  lemma VerifySpec(db: Database, crypto: Crypto, secret: string, req: VerifyRequest)
    ensures var (db', success) := Verified(db, crypto, secret, req);
      var k := FindOrder(db.orders, req.razorpayOrderId);
      && (success <==> VerifySignature(crypto, secret, req.razorpayOrderId, req.razorpayPaymentId, req.razorpaySignature))
      && (!success || k < 0 ==> db' == db)
      && db'.products == db.products && db'.carts == db.carts && db'.orderItems == db.orderItems
      && db'.webhookLogs == db.webhookLogs && |db'.orders| == |db.orders|
      && (forall i :: 0 <= i < |db.orders| && i != k ==> db'.orders[i] == db.orders[i])
      && (forall i :: 0 <= i < |db.orders| ==>
            db'.orders[i].orderStatus == db.orders[i].orderStatus && db'.orders[i].paymentId == db.orders[i].paymentId
            && db'.orders[i].razorpayOrderId == db.orders[i].razorpayOrderId)
      && (success && 0 <= k ==>
            db'.orders[k] == db.orders[k].(razorpayPaymentId := req.razorpayPaymentId, paymentStatus := PaymentStatus.Pending))
  {
  }

  /**
    `Verify` never writes PaymentId, so it can never make the webhook's
    already-processed guard fire, for any payment id.
   */
  lemma VerifyKeepsGuard(db: Database, crypto: Crypto, secret: string, req: VerifyRequest, paymentId: string)
    ensures IsPaymentProcessed(Verified(db, crypto, secret, req).0, paymentId) == IsPaymentProcessed(db, paymentId)
  {
    var db' := Verified(db, crypto, secret, req).0;
    VerifySpec(db, crypto, secret, req);
    if IsPaymentProcessed(db, paymentId) && exists i :: 0 <= i < |db.orders| && db.orders[i].paymentId == paymentId {
      var i :| 0 <= i < |db.orders| && db.orders[i].paymentId == paymentId;
      assert db'.orders[i].paymentId == paymentId;
    }
    if IsPaymentProcessed(db', paymentId) && exists i :: 0 <= i < |db'.orders| && db'.orders[i].paymentId == paymentId {
      var i :| 0 <= i < |db'.orders| && db'.orders[i].paymentId == paymentId;
      assert db.orders[i].paymentId == paymentId;
    }
  }

  /**
    `Verify` after the webhook has settled an order sets its PaymentStatus
    back to Pending: an order marked captured by `order.paid` reads Pending
    again (its OrderStatus stays Approved) once the browser's genuine
    verification arrives.
   */
  lemma VerifyResetsCapturedPayment(db: Database, crypto: Crypto, secret: string, req: VerifyRequest)
    requires VerifySignature(crypto, secret, req.razorpayOrderId, req.razorpayPaymentId, req.razorpaySignature)
    requires 0 <= FindOrder(db.orders, req.razorpayOrderId)
    requires db.orders[FindOrder(db.orders, req.razorpayOrderId)].paymentStatus == PaymentStatus.captured
    ensures var k := FindOrder(db.orders, req.razorpayOrderId);
      var db' := Verified(db, crypto, secret, req).0;
      db'.orders[k].paymentStatus == PaymentStatus.Pending && db'.orders[k].orderStatus == db.orders[k].orderStatus
  {
  }
}
