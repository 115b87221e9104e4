/**
  The gateway webhook (`PaymentsController`): every delivery is recorded in the
  webhook log before anything else, its signature is checked against the
  webhook secret, and a genuine delivery is dispatched on its event name to a
  handler that updates the matching order and writes the outcome back onto
  the log entry.

  The request arrives decoded: the raw body (what is signed and stored), the
  signature header, and what JSON parsing of the body yields.
 */
module Reconciliation {
  import opened Entities
  import opened Store
  import opened Razorpay

  /** `payload.payment.entity`: its "id" and "order_id" (None when absent or null). */
  datatype PaymentEntity = PaymentEntity(id: Option<string>, orderId: Option<string>)

  /** `payload.order.entity`: its "id". */
  datatype OrderEntity = OrderEntity(id: Option<string>)

  /** `payload.refund.entity`: its "id" and "payment_id". */
  datatype RefundEntity = RefundEntity(id: Option<string>, paymentId: Option<string>)

  /** The body as the JSON parser reads it: an object, or a parse error with its message. */
  datatype Body =
    | Json(event: Option<string>, payment: Option<PaymentEntity>, order: Option<OrderEntity>, refund: Option<RefundEntity>)
    | Unparsable(message: string)

  datatype WebhookRequest = WebhookRequest(rawBody: string, signatureHeader: Option<string>, body: Body)

  /** What the action returns: 200, 401 or 500. */
  datatype Response = Ok | Unauthorized | ServerError

  /** The controller's surroundings: the crypto library, the configured secret and the clock. */
  datatype WebhookEnv = WebhookEnv(crypto: Crypto, webhookSecret: string, now: int)

  // ---------------------------------------------------------------------------
  // Helpers
  // ---------------------------------------------------------------------------

  /** `TryGetEventFromBody`: the "event" field, None when absent or when the body does not parse. */
  function TryGetEvent(body: Body): (r: Option<string>)
    ensures body.Unparsable? ==> r.None?
    ensures body.Json? ==> r == body.event
  {
    match body
    case Json(event, _, _, _) => event
    case Unparsable(_) => None
  }

  /**
    `VerifyRazorpaySignature`: false without a header or a secret; otherwise the
    HMAC of the raw body must match the header as lower-case hex (ignoring the
    header's letter case) or as Base64 (exactly).
   */
  function VerifyWebhookSignature(crypto: Crypto, body: string, header: Option<string>, secret: string): bool {
    if header.None? || header.value == "" || secret == "" then false
    else
      var hash := crypto.hmacSha256(secret, body);
      DigestHex(hash) == ToLowerAscii(header.value) || crypto.toBase64(hash) == header.value
  }

  /** The identity assigned to the next log entry: above every existing one. */
  function NextLogId(logs: seq<WebhookLog>): (id: int)
    ensures id >= 1
    ensures forall i :: 0 <= i < |logs| ==> logs[i].id < id
  {
    if logs == [] then 1
    else
      var m := NextLogId(logs[..|logs| - 1]);
      var last := logs[|logs| - 1].id;
      if last + 1 > m then last + 1 else m
  }

  /** `FindAsync(id)` on the log: the first entry with that id, -1 when there is none. */
  function FindLog(logs: seq<WebhookLog>, id: int): (k: int)
    ensures -1 <= k < |logs|
    ensures k == -1 <==> forall i :: 0 <= i < |logs| ==> logs[i].id != id
    ensures 0 <= k ==> logs[k].id == id && forall i :: 0 <= i < k ==> logs[i].id != id
  {
    if logs == [] then -1
    else if logs[0].id == id then 0
    else
      var k := FindLog(logs[1..], id);
      if k < 0 then -1 else k + 1
  }

  /** The same delivery: the fields fixed when the entry was created agree. */
  predicate SameDelivery(a: WebhookLog, b: WebhookLog) {
    a.id == b.id && a.event == b.event && a.payload == b.payload
    && a.signatureHeader == b.signatureHeader && a.receivedAt == b.receivedAt
  }

  /**
    `MarkLogProcessedAsync`: the stored entry with the log's id takes over
    Processed, ProcessingResult and the two gateway ids, and nothing else; no
    entry with that id, no change.
   */
  function MarkLogProcessed(logs: seq<WebhookLog>, log: WebhookLog): (r: seq<WebhookLog>)
    ensures |r| == |logs|
    ensures forall i :: 0 <= i < |logs| && i != FindLog(logs, log.id) ==> r[i] == logs[i]
    ensures FindLog(logs, log.id) < 0 ==> r == logs
    ensures 0 <= FindLog(logs, log.id) ==>
      var k := FindLog(logs, log.id);
      SameDelivery(r[k], logs[k]) && r[k].processed == log.processed
      && r[k].processingResult == log.processingResult
      && r[k].razorpayOrderId == log.razorpayOrderId && r[k].razorpayPaymentId == log.razorpayPaymentId
    ensures 0 <= FindLog(logs, log.id) && SameDelivery(logs[FindLog(logs, log.id)], log) ==>
      r == logs[FindLog(logs, log.id) := log]
  {
    var k := FindLog(logs, log.id);
    if k < 0 then logs
    else
      logs[k := logs[k].(processed := log.processed, processingResult := log.processingResult,
                         razorpayOrderId := log.razorpayOrderId, razorpayPaymentId := log.razorpayPaymentId)]
  }

  function MarkLog(db: Database, log: WebhookLog): Database {
    db.(webhookLogs := MarkLogProcessed(db.webhookLogs, log))
  }

  /**
    `IsPaymentProcessedAsync`: a non-empty payment id already stored on an
    order's PaymentId, or on a processed log entry.
   */
  predicate IsPaymentProcessed(db: Database, paymentId: string) {
    paymentId != ""
    && ((exists i :: 0 <= i < |db.orders| && db.orders[i].paymentId == paymentId)
        || (exists j :: 0 <= j < |db.webhookLogs| && db.webhookLogs[j].razorpayPaymentId == Some(paymentId)
                                                  && db.webhookLogs[j].processed))
  }

  predicate StartsWith(s: string, prefix: string) {
    |prefix| <= |s| && s[..|prefix|] == prefix
  }

  /** An order whose payment was captured: the payment id is stored and the order approved. */
  function CaptureOrder(o: Order, paymentId: string): Order {
    o.(paymentId := paymentId, paymentStatus := PaymentStatus.Pending, orderStatus := OrderStatus.Approved)
  }

  function FailOrder(o: Order): Order {
    o.(paymentStatus := PaymentStatus.failed, orderStatus := OrderStatus.Cancelled)
  }

  function MarkOrderPaid(o: Order): Order {
    o.(paymentStatus := PaymentStatus.captured, orderStatus := OrderStatus.Approved)
  }

  // ---------------------------------------------------------------------------
  // The handlers and the action, as functions of the state
  // ---------------------------------------------------------------------------

  /** `HandlePaymentCapturedAsync` with `log` the delivery's entry. */
  function AfterCaptured(db: Database, log: WebhookLog, payment: Option<PaymentEntity>): Database {
    match payment
    case None => MarkLog(db, log.(processingResult := Some("MissingPaymentEntity")))
    case Some(p) =>
      var paymentId := p.id.GetOr("");
      var orderId := p.orderId.GetOr("");
      if IsPaymentProcessed(db, paymentId) then
        MarkLog(db, log.(processingResult := Some("AlreadyProcessed:" + paymentId), processed := true))
      else
        var k := FindOrder(db.orders, orderId);
        if k < 0 then MarkLog(db, log.(processingResult := Some("OrderNotFound")))
        else
          MarkLog(db.(orders := db.orders[k := CaptureOrder(db.orders[k], paymentId)]),
                  log.(razorpayPaymentId := Some(paymentId), razorpayOrderId := Some(orderId),
                       processed := true, processingResult := Some("PaymentCaptured")))
  }

  /** `HandlePaymentFailedAsync`. */
  function AfterFailed(db: Database, log: WebhookLog, payment: Option<PaymentEntity>): Database {
    match payment
    case None => MarkLog(db, log.(processingResult := Some("MissingPaymentEntity")))
    case Some(p) =>
      var paymentId := p.id.GetOr("");
      var orderId := p.orderId.GetOr("");
      var k := FindOrder(db.orders, orderId);
      var orders := if k < 0 then db.orders else db.orders[k := FailOrder(db.orders[k])];
      MarkLog(db.(orders := orders),
              log.(razorpayPaymentId := Some(paymentId), razorpayOrderId := Some(orderId),
                   processed := true, processingResult := Some("PaymentFailed")))
  }

  /** `HandleOrderPaidAsync`. */
  function AfterOrderPaid(db: Database, log: WebhookLog, order: Option<OrderEntity>): Database {
    match order
    case None => MarkLog(db, log.(processingResult := Some("MissingOrderEntity")))
    case Some(e) =>
      var orderId := e.id.GetOr("");
      var k := FindOrder(db.orders, orderId);
      if k < 0 then MarkLog(db, log.(processingResult := Some("OrderNotFound")))
      else if db.orders[k].paymentStatus == PaymentStatus.captured || db.orders[k].orderStatus == OrderStatus.Approved then
        MarkLog(db, log.(processingResult := Some("OrderAlreadyPaid"), processed := true))
      else
        MarkLog(db.(orders := db.orders[k := MarkOrderPaid(db.orders[k])]),
                log.(razorpayOrderId := Some(orderId), processed := true, processingResult := Some("OrderMarkedPaid")))
  }

  /** `HandleRefundAsync`: recorded only. */
  function AfterRefund(db: Database, log: WebhookLog, refund: Option<RefundEntity>): Database {
    match refund
    case None => MarkLog(db, log.(processingResult := Some("MissingRefundEntity")))
    case Some(r) => MarkLog(db, log.(processingResult := Some("RefundReceived:" + r.id.GetOr("")), processed := true))
  }

  /** The event switch for a parsed body. */
  function Dispatched(db: Database, log: WebhookLog, body: Body): Database
    requires body.Json?
  {
    var eventName := body.event.GetOr("");
    if eventName == "payment.captured" then AfterCaptured(db, log, body.payment)
    else if eventName == "payment.failed" then AfterFailed(db, log, body.payment)
    else if eventName == "order.paid" then AfterOrderPaid(db, log, body.order)
    else if StartsWith(eventName, "refund.") then AfterRefund(db, log, body.refund)
    else MarkLog(db, log.(processingResult := Some("Ignored:" + eventName), processed := true))
  }

  /** The entry recorded for a delivery before anything is checked. */
  function NewLog(logs: seq<WebhookLog>, env: WebhookEnv, req: WebhookRequest): WebhookLog {
    WebhookLog(NextLogId(logs), TryGetEvent(req.body).GetOr("unknown"), req.rawBody,
               req.signatureHeader.GetOr(""), None, None, env.now, false, None)
  }

  /** The whole action: record, verify, dispatch. */
  function Delivered(db: Database, env: WebhookEnv, req: WebhookRequest): (Database, Response) {
    var log := NewLog(db.webhookLogs, env, req);
    var db1 := db.(webhookLogs := db.webhookLogs + [log]);
    if !VerifyWebhookSignature(env.crypto, req.rawBody, req.signatureHeader, env.webhookSecret) then
      (MarkLog(db1, log.(processingResult := Some("InvalidSignature"))), Unauthorized)
    else
      match req.body
      case Unparsable(message) => (MarkLog(db1, log.(processingResult := Some("Exception:" + message))), ServerError)
      case Json(_, _, _, _) => (Dispatched(db1, log, req.body), Ok)
  }

  // ---------------------------------------------------------------------------
  // The action, step by step
  // ---------------------------------------------------------------------------

  method HandlePaymentCaptured(db: Database, log: WebhookLog, payment: Option<PaymentEntity>) returns (db': Database)
    ensures db' == AfterCaptured(db, log, payment)
  {
    var entry := log;
    if payment.None? {
      entry := entry.(processingResult := Some("MissingPaymentEntity"));
      db' := MarkLog(db, entry);
      return;
    }
    var razorpayPaymentId := payment.value.id.GetOr("");
    var razorpayOrderId := payment.value.orderId.GetOr("");
    if IsPaymentProcessed(db, razorpayPaymentId) {
      entry := entry.(processingResult := Some("AlreadyProcessed:" + razorpayPaymentId));
      entry := entry.(processed := true);
      db' := MarkLog(db, entry);
      return;
    }
    var k := FindOrder(db.orders, razorpayOrderId);
    if k < 0 {
      entry := entry.(processingResult := Some("OrderNotFound"));
      db' := MarkLog(db, entry);
      return;
    }
    var order := db.orders[k];
    order := order.(paymentId := razorpayPaymentId);
    order := order.(paymentStatus := PaymentStatus.Pending);
    order := order.(orderStatus := OrderStatus.Approved);
    db' := db.(orders := db.orders[k := order]);
    entry := entry.(razorpayPaymentId := Some(razorpayPaymentId));
    entry := entry.(razorpayOrderId := Some(razorpayOrderId));
    entry := entry.(processed := true);
    entry := entry.(processingResult := Some("PaymentCaptured"));
    db' := MarkLog(db', entry);
  }

  method HandlePaymentFailed(db: Database, log: WebhookLog, payment: Option<PaymentEntity>) returns (db': Database)
    ensures db' == AfterFailed(db, log, payment)
  {
    var entry := log;
    if payment.None? {
      entry := entry.(processingResult := Some("MissingPaymentEntity"));
      db' := MarkLog(db, entry);
      return;
    }
    var razorpayPaymentId := payment.value.id.GetOr("");
    var razorpayOrderId := payment.value.orderId.GetOr("");
    db' := db;
    var k := FindOrder(db.orders, razorpayOrderId);
    if k >= 0 {
      var order := db.orders[k];
      order := order.(paymentStatus := PaymentStatus.failed);
      order := order.(orderStatus := OrderStatus.Cancelled);
      db' := db'.(orders := db.orders[k := order]);
    }
    entry := entry.(razorpayPaymentId := Some(razorpayPaymentId));
    entry := entry.(razorpayOrderId := Some(razorpayOrderId));
    entry := entry.(processed := true);
    entry := entry.(processingResult := Some("PaymentFailed"));
    db' := MarkLog(db', entry);
  }

  method HandleOrderPaid(db: Database, log: WebhookLog, orderEntity: Option<OrderEntity>) returns (db': Database)
    ensures db' == AfterOrderPaid(db, log, orderEntity)
  {
    var entry := log;
    if orderEntity.None? {
      entry := entry.(processingResult := Some("MissingOrderEntity"));
      db' := MarkLog(db, entry);
      return;
    }
    var razorpayOrderId := orderEntity.value.id.GetOr("");
    var k := FindOrder(db.orders, razorpayOrderId);
    if k < 0 {
      entry := entry.(processingResult := Some("OrderNotFound"));
      db' := MarkLog(db, entry);
      return;
    }
    var order := db.orders[k];
    if order.paymentStatus == PaymentStatus.captured || order.orderStatus == OrderStatus.Approved {
      entry := entry.(processingResult := Some("OrderAlreadyPaid"));
      entry := entry.(processed := true);
      db' := MarkLog(db, entry);
      return;
    }
    order := order.(paymentStatus := PaymentStatus.captured);
    order := order.(orderStatus := OrderStatus.Approved);
    db' := db.(orders := db.orders[k := order]);
    entry := entry.(razorpayOrderId := Some(razorpayOrderId));
    entry := entry.(processed := true);
    entry := entry.(processingResult := Some("OrderMarkedPaid"));
    db' := MarkLog(db', entry);
  }

  method HandleRefund(db: Database, log: WebhookLog, refund: Option<RefundEntity>) returns (db': Database)
    ensures db' == AfterRefund(db, log, refund)
  {
    var entry := log;
    if refund.None? {
      entry := entry.(processingResult := Some("MissingRefundEntity"));
      db' := MarkLog(db, entry);
      return;
    }
    var refundId := refund.value.id.GetOr("");
    entry := entry.(processingResult := Some("RefundReceived:" + refundId));
    entry := entry.(processed := true);
    db' := MarkLog(db, entry);
  }

  /** `Webhook`: record the delivery, verify it, dispatch it. */
  method Webhook(db: Database, env: WebhookEnv, req: WebhookRequest) returns (db': Database, response: Response)
    ensures (db', response) == Delivered(db, env, req)
  {
    var log := WebhookLog(NextLogId(db.webhookLogs), TryGetEvent(req.body).GetOr("unknown"), req.rawBody,
                          req.signatureHeader.GetOr(""), None, None, env.now, false, None);
    db' := db.(webhookLogs := db.webhookLogs + [log]);
    if !VerifyWebhookSignature(env.crypto, req.rawBody, req.signatureHeader, env.webhookSecret) {
      log := log.(processingResult := Some("InvalidSignature"));
      db' := MarkLog(db', log);
      return db', Unauthorized;
    }
    match req.body
    case Unparsable(message) =>
      log := log.(processingResult := Some("Exception:" + message));
      db' := MarkLog(db', log);
      response := ServerError;
    case Json(event, payment, orderEntity, refund) =>
      var eventName := event.GetOr("");
      if eventName == "payment.captured" {
        db' := HandlePaymentCaptured(db', log, payment);
      } else if eventName == "payment.failed" {
        db' := HandlePaymentFailed(db', log, payment);
      } else if eventName == "order.paid" {
        db' := HandleOrderPaid(db', log, orderEntity);
      } else if StartsWith(eventName, "refund.") {
        db' := HandleRefund(db', log, refund);
      } else {
        log := log.(processingResult := Some("Ignored:" + eventName));
        log := log.(processed := true);
        db' := MarkLog(db', log);
      }
      response := Ok;
  }

  // ---------------------------------------------------------------------------
  // Properties
  // ---------------------------------------------------------------------------

  /**
    The signature check: nothing verifies without a header or a secret; the
    genuine hex digest verifies in either letter case, and so does the
    genuine Base64 digest; a header that is neither 64 characters long nor
    the Base64 digest is refused.
   */
  lemma WebhookSignatureSpec(crypto: Crypto, body: string, header: string, secret: string)
    ensures header == "" || secret == "" ==>
      !VerifyWebhookSignature(crypto, body, Some(header), secret) && !VerifyWebhookSignature(crypto, body, None, secret)
    ensures var hash := crypto.hmacSha256(secret, body);
      secret != "" ==>
        VerifyWebhookSignature(crypto, body, Some(DigestHex(hash)), secret)
        && VerifyWebhookSignature(crypto, body, Some(ToUpperAscii(DigestHex(hash))), secret)
        && (crypto.toBase64(hash) != "" ==> VerifyWebhookSignature(crypto, body, Some(crypto.toBase64(hash)), secret))
    ensures |header| != 64 && header != crypto.toBase64(crypto.hmacSha256(secret, body)) ==>
      !VerifyWebhookSignature(crypto, body, Some(header), secret)
  {
    var hash := crypto.hmacSha256(secret, body);
    DigestHexShape(hash);
    DigestHexIsLowerHex(hash);
    LowerHexLower(hash);
    ToLowerOfUpper(DigestHex(hash));
  }

  /** The delivery's entry is what `NewLog` made, wherever the id is fresh. */
  lemma MarkNewEntry(logs: seq<WebhookLog>, log: WebhookLog, entry: WebhookLog)
    requires forall i :: 0 <= i < |logs| ==> logs[i].id < log.id
    requires SameDelivery(log, entry)
    ensures MarkLogProcessed(logs + [log], entry) == logs + [entry]
  {
    var all := logs + [log];
    var k := FindLog(all, entry.id);
    assert all[|logs|].id == entry.id;
    assert k == |logs|;
    assert all[k := entry] == logs + [entry];
  }

  /** Before the handlers run, payment ids on the new entry play no part (it carries none). */
  lemma ProcessedIgnoresNewEntry(db: Database, log: WebhookLog, paymentId: string)
    requires log.razorpayPaymentId.None?
    ensures IsPaymentProcessed(db.(webhookLogs := db.webhookLogs + [log]), paymentId) == IsPaymentProcessed(db, paymentId)
  {
    var db1 := db.(webhookLogs := db.webhookLogs + [log]);
    if IsPaymentProcessed(db1, paymentId) && !(exists i :: 0 <= i < |db.orders| && db.orders[i].paymentId == paymentId) {
      var j :| 0 <= j < |db1.webhookLogs| && db1.webhookLogs[j].razorpayPaymentId == Some(paymentId) && db1.webhookLogs[j].processed;
      assert j < |db.webhookLogs|;
      assert db.webhookLogs[j] == db1.webhookLogs[j];
    }
    if IsPaymentProcessed(db, paymentId) && !(exists i :: 0 <= i < |db.orders| && db.orders[i].paymentId == paymentId) {
      var j :| 0 <= j < |db.webhookLogs| && db.webhookLogs[j].razorpayPaymentId == Some(paymentId) && db.webhookLogs[j].processed;
      assert db.webhookLogs[j] == db1.webhookLogs[j];
    }
  }

  /** The entry the delivery appended. */
  function Entry(before: Database, after: Database): WebhookLog
    requires |before.webhookLogs| < |after.webhookLogs|
  {
    after.webhookLogs[|before.webhookLogs|]
  }

  /** Ids of the existing entries are below the new entry's. */
  ghost predicate FreshId(db: Database, log: WebhookLog) {
    forall i :: 0 <= i < |db.webhookLogs| ==> db.webhookLogs[i].id < log.id
  }

  /**
    `after` is `db` with the orders possibly changed and exactly one entry
    appended, an entry of the delivery `log`.
   */
  ghost predicate Recorded(db: Database, after: Database, log: WebhookLog) {
    && after.products == db.products && after.carts == db.carts && after.orderItems == db.orderItems
    && |after.webhookLogs| == |db.webhookLogs| + 1
    && after.webhookLogs[..|db.webhookLogs|] == db.webhookLogs
    && SameDelivery(log, after.webhookLogs[|db.webhookLogs|])
  }

  lemma MarkedRecorded(db: Database, dbX: Database, log: WebhookLog, entry: WebhookLog)
    requires FreshId(db, log) && SameDelivery(log, entry)
    requires dbX.webhookLogs == db.webhookLogs + [log]
    requires dbX.products == db.products && dbX.carts == db.carts && dbX.orderItems == db.orderItems
    ensures Recorded(db, MarkLog(dbX, entry), log)
    ensures MarkLog(dbX, entry).webhookLogs == db.webhookLogs + [entry]
  {
    MarkNewEntry(db.webhookLogs, log, entry);
    assert (db.webhookLogs + [entry])[..|db.webhookLogs|] == db.webhookLogs;
  }

  lemma CapturedRecorded(db: Database, log: WebhookLog, payment: Option<PaymentEntity>)
    requires FreshId(db, log)
    ensures Recorded(db, AfterCaptured(db.(webhookLogs := db.webhookLogs + [log]), log, payment), log)
  {
    var db1 := db.(webhookLogs := db.webhookLogs + [log]);
    match payment
    case None => MarkedRecorded(db, db1, log, log.(processingResult := Some("MissingPaymentEntity")));
    case Some(p) =>
      var paymentId := p.id.GetOr("");
      var orderId := p.orderId.GetOr("");
      if IsPaymentProcessed(db1, paymentId) {
        MarkedRecorded(db, db1, log, log.(processingResult := Some("AlreadyProcessed:" + paymentId), processed := true));
      } else {
        var k := FindOrder(db1.orders, orderId);
        if k < 0 {
          MarkedRecorded(db, db1, log, log.(processingResult := Some("OrderNotFound")));
        } else {
          MarkedRecorded(db, db1.(orders := db1.orders[k := CaptureOrder(db1.orders[k], paymentId)]), log,
                         log.(razorpayPaymentId := Some(paymentId), razorpayOrderId := Some(orderId),
                              processed := true, processingResult := Some("PaymentCaptured")));
        }
      }
  }

  lemma FailedRecorded(db: Database, log: WebhookLog, payment: Option<PaymentEntity>)
    requires FreshId(db, log)
    ensures Recorded(db, AfterFailed(db.(webhookLogs := db.webhookLogs + [log]), log, payment), log)
  {
    var db1 := db.(webhookLogs := db.webhookLogs + [log]);
    match payment
    case None => MarkedRecorded(db, db1, log, log.(processingResult := Some("MissingPaymentEntity")));
    case Some(p) =>
      var paymentId := p.id.GetOr("");
      var orderId := p.orderId.GetOr("");
      var k := FindOrder(db1.orders, orderId);
      var orders := if k < 0 then db1.orders else db1.orders[k := FailOrder(db1.orders[k])];
      MarkedRecorded(db, db1.(orders := orders), log,
                     log.(razorpayPaymentId := Some(paymentId), razorpayOrderId := Some(orderId),
                          processed := true, processingResult := Some("PaymentFailed")));
  }

  lemma OrderPaidRecorded(db: Database, log: WebhookLog, order: Option<OrderEntity>)
    requires FreshId(db, log)
    ensures Recorded(db, AfterOrderPaid(db.(webhookLogs := db.webhookLogs + [log]), log, order), log)
  {
    var db1 := db.(webhookLogs := db.webhookLogs + [log]);
    match order
    case None => MarkedRecorded(db, db1, log, log.(processingResult := Some("MissingOrderEntity")));
    case Some(e) =>
      var orderId := e.id.GetOr("");
      var k := FindOrder(db1.orders, orderId);
      if k < 0 {
        MarkedRecorded(db, db1, log, log.(processingResult := Some("OrderNotFound")));
      } else if db1.orders[k].paymentStatus == PaymentStatus.captured || db1.orders[k].orderStatus == OrderStatus.Approved {
        MarkedRecorded(db, db1, log, log.(processingResult := Some("OrderAlreadyPaid"), processed := true));
      } else {
        MarkedRecorded(db, db1.(orders := db1.orders[k := MarkOrderPaid(db1.orders[k])]), log,
                       log.(razorpayOrderId := Some(orderId), processed := true, processingResult := Some("OrderMarkedPaid")));
      }
  }

  lemma DispatchedRecorded(db: Database, log: WebhookLog, body: Body)
    requires FreshId(db, log) && body.Json?
    ensures Recorded(db, Dispatched(db.(webhookLogs := db.webhookLogs + [log]), log, body), log)
  {
    var db1 := db.(webhookLogs := db.webhookLogs + [log]);
    var eventName := body.event.GetOr("");
    if eventName == "payment.captured" {
      CapturedRecorded(db, log, body.payment);
    } else if eventName == "payment.failed" {
      FailedRecorded(db, log, body.payment);
    } else if eventName == "order.paid" {
      OrderPaidRecorded(db, log, body.order);
    } else if StartsWith(eventName, "refund.") {
      match body.refund
      case None => MarkedRecorded(db, db1, log, log.(processingResult := Some("MissingRefundEntity")));
      case Some(r) =>
        MarkedRecorded(db, db1, log, log.(processingResult := Some("RefundReceived:" + r.id.GetOr("")), processed := true));
    } else {
      MarkedRecorded(db, db1, log, log.(processingResult := Some("Ignored:" + eventName), processed := true));
    }
  }

  /**
    Whatever happens, the delivery is recorded first: exactly one entry is
    appended (earlier entries untouched) with a fresh id, the event name
    ("unknown" when the body has none), the raw body, the signature header
    ("" when missing) and the clock reading; products, carts and order lines
    never change; the response is Unauthorized exactly when the signature
    fails, 500 exactly when a genuine body does not parse, and Ok otherwise.
   */
  lemma DeliveredRecordsFirst(db: Database, env: WebhookEnv, req: WebhookRequest)
    ensures var (db', response) := Delivered(db, env, req);
      && db'.products == db.products && db'.carts == db.carts && db'.orderItems == db.orderItems
      && |db'.webhookLogs| == |db.webhookLogs| + 1
      && db'.webhookLogs[..|db.webhookLogs|] == db.webhookLogs
      && (forall i :: 0 <= i < |db.webhookLogs| ==> db.webhookLogs[i].id < Entry(db, db').id)
      && Entry(db, db').event == TryGetEvent(req.body).GetOr("unknown")
      && Entry(db, db').payload == req.rawBody
      && Entry(db, db').signatureHeader == req.signatureHeader.GetOr("")
      && Entry(db, db').receivedAt == env.now
      && (response == Unauthorized <==> !VerifyWebhookSignature(env.crypto, req.rawBody, req.signatureHeader, env.webhookSecret))
      && (response == ServerError <==>
            VerifyWebhookSignature(env.crypto, req.rawBody, req.signatureHeader, env.webhookSecret) && req.body.Unparsable?)
  {
    var log := NewLog(db.webhookLogs, env, req);
    var db1 := db.(webhookLogs := db.webhookLogs + [log]);
    if !VerifyWebhookSignature(env.crypto, req.rawBody, req.signatureHeader, env.webhookSecret) {
      MarkedRecorded(db, db1, log, log.(processingResult := Some("InvalidSignature")));
    } else if req.body.Unparsable? {
      MarkedRecorded(db, db1, log, log.(processingResult := Some("Exception:" + req.body.message)));
    } else {
      DispatchedRecorded(db, log, req.body);
    }
  }

  /**
    A delivery that fails the signature check is answered Unauthorized,
    changes no order, and its entry says "InvalidSignature" and stays unprocessed.
   */
  lemma InvalidSignatureChangesNoOrder(db: Database, env: WebhookEnv, req: WebhookRequest)
    requires !VerifyWebhookSignature(env.crypto, req.rawBody, req.signatureHeader, env.webhookSecret)
    ensures var (db', response) := Delivered(db, env, req);
      && response == Unauthorized && db'.orders == db.orders
      && |db'.webhookLogs| == |db.webhookLogs| + 1
      && Entry(db, db').processingResult == Some("InvalidSignature") && !Entry(db, db').processed
  {
    var log := NewLog(db.webhookLogs, env, req);
    MarkNewEntry(db.webhookLogs, log, log.(processingResult := Some("InvalidSignature")));
  }

  /** The payment entity of a body, with absent fields when there is none. */
  function PaymentOf(body: Body): PaymentEntity
    requires body.Json?
  {
    body.payment.GetOr(PaymentEntity(None, None))
  }

  /**
    A genuine `payment.captured` delivery: without a payment entity, nothing
    but the entry changes ("MissingPaymentEntity"); a payment id already
    processed changes no order ("AlreadyProcessed:<id>", processed); no order
    with the gateway order id changes nothing ("OrderNotFound"); otherwise the
    first such order, and only it, takes the payment id, PaymentStatus Pending
    and OrderStatus Approved, the entry records both ids and "PaymentCaptured",
    and a non-empty payment id now counts as processed.
   */
  lemma CapturedOutcomes(db: Database, env: WebhookEnv, req: WebhookRequest)
    requires VerifyWebhookSignature(env.crypto, req.rawBody, req.signatureHeader, env.webhookSecret)
    requires req.body.Json? && req.body.event == Some("payment.captured")
    ensures var (db', response) := Delivered(db, env, req);
      var paymentId := PaymentOf(req.body).id.GetOr("");
      var orderId := PaymentOf(req.body).orderId.GetOr("");
      var k := FindOrder(db.orders, orderId);
      && response == Ok && |db'.webhookLogs| == |db.webhookLogs| + 1
      && (req.body.payment.None? ==>
            db'.orders == db.orders && !Entry(db, db').processed
            && Entry(db, db').processingResult == Some("MissingPaymentEntity"))
      && (req.body.payment.Some? && IsPaymentProcessed(db, paymentId) ==>
            db'.orders == db.orders && Entry(db, db').processed
            && Entry(db, db').processingResult == Some("AlreadyProcessed:" + paymentId))
      && (req.body.payment.Some? && !IsPaymentProcessed(db, paymentId) && k < 0 ==>
            db'.orders == db.orders && !Entry(db, db').processed
            && Entry(db, db').processingResult == Some("OrderNotFound"))
      && (req.body.payment.Some? && !IsPaymentProcessed(db, paymentId) && 0 <= k ==>
            && |db'.orders| == |db.orders|
            && (forall i :: 0 <= i < |db.orders| && i != k ==> db'.orders[i] == db.orders[i])
            && db'.orders[k] == db.orders[k].(paymentId := paymentId, paymentStatus := PaymentStatus.Pending,
                                              orderStatus := OrderStatus.Approved)
            && Entry(db, db').processed && Entry(db, db').processingResult == Some("PaymentCaptured")
            && Entry(db, db').razorpayPaymentId == Some(paymentId) && Entry(db, db').razorpayOrderId == Some(orderId)
            && (paymentId != "" ==> IsPaymentProcessed(db', paymentId)))
  {
    var log := NewLog(db.webhookLogs, env, req);
    var db1 := db.(webhookLogs := db.webhookLogs + [log]);
    var paymentId := PaymentOf(req.body).id.GetOr("");
    var orderId := PaymentOf(req.body).orderId.GetOr("");
    ProcessedIgnoresNewEntry(db, log, paymentId);
    match req.body.payment
    case None => MarkedRecorded(db, db1, log, log.(processingResult := Some("MissingPaymentEntity")));
    case Some(p) =>
      if IsPaymentProcessed(db1, paymentId) {
        MarkedRecorded(db, db1, log, log.(processingResult := Some("AlreadyProcessed:" + paymentId), processed := true));
      } else {
        var k := FindOrder(db1.orders, orderId);
        if k < 0 {
          MarkedRecorded(db, db1, log, log.(processingResult := Some("OrderNotFound")));
        } else {
          var db2 := db1.(orders := db1.orders[k := CaptureOrder(db1.orders[k], paymentId)]);
          MarkedRecorded(db, db2, log,
                         log.(razorpayPaymentId := Some(paymentId), razorpayOrderId := Some(orderId),
                              processed := true, processingResult := Some("PaymentCaptured")));
          var db' := Delivered(db, env, req).0;
          assert db'.orders[k].paymentId == paymentId;
        }
      }
  }

  /**
    A `payment.captured` delivery whose payment carries no order id looks up
    the empty gateway order id, which every order that never went through the
    gateway carries: the first such order is approved.
   */
  lemma CapturedWithoutOrderIdApprovesLocalOrder(db: Database, env: WebhookEnv, req: WebhookRequest, j: int)
    requires VerifyWebhookSignature(env.crypto, req.rawBody, req.signatureHeader, env.webhookSecret)
    requires req.body.Json? && req.body.event == Some("payment.captured")
    requires req.body.payment.Some? && req.body.payment.value.orderId.None?
    requires !IsPaymentProcessed(db, PaymentOf(req.body).id.GetOr(""))
    requires 0 <= j < |db.orders| && db.orders[j].razorpayOrderId == ""
    ensures var db' := Delivered(db, env, req).0;
      var k := FindOrder(db.orders, "");
      0 <= k <= j && db'.orders[k].orderStatus == OrderStatus.Approved
  {
    CapturedOutcomes(db, env, req);
  }

  /**
    A genuine `payment.failed` delivery: without a payment entity only the
    entry changes ("MissingPaymentEntity"); otherwise the first order with the
    gateway order id (if any, and only it) becomes PaymentStatus failed and
    OrderStatus Cancelled, and the entry records both ids, "PaymentFailed" and
    processed, whether or not an order was found.
   */
  lemma FailedOutcomes(db: Database, env: WebhookEnv, req: WebhookRequest)
    requires VerifyWebhookSignature(env.crypto, req.rawBody, req.signatureHeader, env.webhookSecret)
    requires req.body.Json? && req.body.event == Some("payment.failed")
    ensures var (db', response) := Delivered(db, env, req);
      var paymentId := PaymentOf(req.body).id.GetOr("");
      var orderId := PaymentOf(req.body).orderId.GetOr("");
      var k := FindOrder(db.orders, orderId);
      && response == Ok && |db'.webhookLogs| == |db.webhookLogs| + 1
      && (req.body.payment.None? ==>
            db'.orders == db.orders && !Entry(db, db').processed
            && Entry(db, db').processingResult == Some("MissingPaymentEntity"))
      && (req.body.payment.Some? ==>
            && Entry(db, db').processed && Entry(db, db').processingResult == Some("PaymentFailed")
            && Entry(db, db').razorpayPaymentId == Some(paymentId) && Entry(db, db').razorpayOrderId == Some(orderId)
            && (k < 0 ==> db'.orders == db.orders)
            && (0 <= k ==>
                  && |db'.orders| == |db.orders|
                  && (forall i :: 0 <= i < |db.orders| && i != k ==> db'.orders[i] == db.orders[i])
                  && db'.orders[k] == db.orders[k].(paymentStatus := PaymentStatus.failed,
                                                    orderStatus := OrderStatus.Cancelled)))
  {
    var log := NewLog(db.webhookLogs, env, req);
    var db1 := db.(webhookLogs := db.webhookLogs + [log]);
    match req.body.payment
    case None => MarkedRecorded(db, db1, log, log.(processingResult := Some("MissingPaymentEntity")));
    case Some(p) =>
      var paymentId := p.id.GetOr("");
      var orderId := p.orderId.GetOr("");
      var k := FindOrder(db1.orders, orderId);
      var orders := if k < 0 then db1.orders else db1.orders[k := FailOrder(db1.orders[k])];
      MarkedRecorded(db, db1.(orders := orders), log,
                     log.(razorpayPaymentId := Some(paymentId), razorpayOrderId := Some(orderId),
                          processed := true, processingResult := Some("PaymentFailed")));
  }

  /**
    A genuine `order.paid` delivery: a missing entity or order changes no
    order ("MissingOrderEntity", "OrderNotFound"); an order already captured
    or Approved is left alone ("OrderAlreadyPaid", processed); otherwise that
    order alone becomes PaymentStatus captured and OrderStatus Approved
    ("OrderMarkedPaid", processed, with the gateway order id).
   */
  lemma OrderPaidOutcomes(db: Database, env: WebhookEnv, req: WebhookRequest)
    requires VerifyWebhookSignature(env.crypto, req.rawBody, req.signatureHeader, env.webhookSecret)
    requires req.body.Json? && req.body.event == Some("order.paid")
    ensures var (db', response) := Delivered(db, env, req);
      var orderId := req.body.order.GetOr(OrderEntity(None)).id.GetOr("");
      var k := FindOrder(db.orders, orderId);
      && response == Ok && |db'.webhookLogs| == |db.webhookLogs| + 1
      && (req.body.order.None? ==>
            db'.orders == db.orders && !Entry(db, db').processed
            && Entry(db, db').processingResult == Some("MissingOrderEntity"))
      && (req.body.order.Some? && k < 0 ==>
            db'.orders == db.orders && !Entry(db, db').processed
            && Entry(db, db').processingResult == Some("OrderNotFound"))
      && (req.body.order.Some? && 0 <= k
          && (db.orders[k].paymentStatus == PaymentStatus.captured || db.orders[k].orderStatus == OrderStatus.Approved) ==>
            db'.orders == db.orders && Entry(db, db').processed
            && Entry(db, db').processingResult == Some("OrderAlreadyPaid"))
      && (req.body.order.Some? && 0 <= k
          && db.orders[k].paymentStatus != PaymentStatus.captured && db.orders[k].orderStatus != OrderStatus.Approved ==>
            && |db'.orders| == |db.orders|
            && (forall i :: 0 <= i < |db.orders| && i != k ==> db'.orders[i] == db.orders[i])
            && db'.orders[k] == db.orders[k].(paymentStatus := PaymentStatus.captured, orderStatus := OrderStatus.Approved)
            && Entry(db, db').processed && Entry(db, db').processingResult == Some("OrderMarkedPaid")
            && Entry(db, db').razorpayOrderId == Some(orderId))
  {
    var log := NewLog(db.webhookLogs, env, req);
    var db1 := db.(webhookLogs := db.webhookLogs + [log]);
    match req.body.order
    case None => MarkedRecorded(db, db1, log, log.(processingResult := Some("MissingOrderEntity")));
    case Some(e) =>
      var orderId := e.id.GetOr("");
      var k := FindOrder(db1.orders, orderId);
      if k < 0 {
        MarkedRecorded(db, db1, log, log.(processingResult := Some("OrderNotFound")));
      } else if db1.orders[k].paymentStatus == PaymentStatus.captured || db1.orders[k].orderStatus == OrderStatus.Approved {
        MarkedRecorded(db, db1, log, log.(processingResult := Some("OrderAlreadyPaid"), processed := true));
      } else {
        MarkedRecorded(db, db1.(orders := db1.orders[k := MarkOrderPaid(db1.orders[k])]), log,
                       log.(razorpayOrderId := Some(orderId), processed := true, processingResult := Some("OrderMarkedPaid")));
      }
  }

  /**
    Any other genuine event changes no order and is answered Ok: "refund.*"
    records "RefundReceived:<refund id>" (or "MissingRefundEntity" without an
    entity), anything else "Ignored:<event>"; both are marked processed.
   */
  lemma OtherEventsKeepOrders(db: Database, env: WebhookEnv, req: WebhookRequest)
    requires VerifyWebhookSignature(env.crypto, req.rawBody, req.signatureHeader, env.webhookSecret)
    requires req.body.Json?
    requires var e := req.body.event.GetOr(""); e != "payment.captured" && e != "payment.failed" && e != "order.paid"
    ensures var (db', response) := Delivered(db, env, req);
      var e := req.body.event.GetOr("");
      && response == Ok && db'.orders == db.orders && |db'.webhookLogs| == |db.webhookLogs| + 1
      && (StartsWith(e, "refund.") && req.body.refund.Some? ==>
            Entry(db, db').processed
            && Entry(db, db').processingResult == Some("RefundReceived:" + req.body.refund.value.id.GetOr("")))
      && (StartsWith(e, "refund.") && req.body.refund.None? ==>
            !Entry(db, db').processed && Entry(db, db').processingResult == Some("MissingRefundEntity"))
      && (!StartsWith(e, "refund.") ==>
            Entry(db, db').processed && Entry(db, db').processingResult == Some("Ignored:" + e))
  {
    var log := NewLog(db.webhookLogs, env, req);
    var db1 := db.(webhookLogs := db.webhookLogs + [log]);
    var e := req.body.event.GetOr("");
    if StartsWith(e, "refund.") {
      match req.body.refund
      case None => MarkedRecorded(db, db1, log, log.(processingResult := Some("MissingRefundEntity")));
      case Some(r) =>
        MarkedRecorded(db, db1, log, log.(processingResult := Some("RefundReceived:" + r.id.GetOr("")), processed := true));
    } else {
      MarkedRecorded(db, db1, log, log.(processingResult := Some("Ignored:" + e), processed := true));
    }
  }

  /** A payment id processed before a delivery stays processed after it, whatever the handler did to the orders. */
  lemma ProcessedKeptByLog(db: Database, once: Database, paymentId: string)
    requires IsPaymentProcessed(db, paymentId)
    requires once.orders == db.orders
    requires |db.webhookLogs| <= |once.webhookLogs| && once.webhookLogs[..|db.webhookLogs|] == db.webhookLogs
    ensures IsPaymentProcessed(once, paymentId)
  {
    if !(exists i :: 0 <= i < |db.orders| && db.orders[i].paymentId == paymentId) {
      var j :| 0 <= j < |db.webhookLogs| && db.webhookLogs[j].razorpayPaymentId == Some(paymentId) && db.webhookLogs[j].processed;
      assert once.webhookLogs[j] == once.webhookLogs[..|db.webhookLogs|][j];
    }
  }

  /** The orders `HandlePaymentCapturedAsync` leaves. */
  function CapturedOrders(db: Database, payment: Option<PaymentEntity>): seq<Order> {
    match payment
    case None => db.orders
    case Some(p) =>
      var paymentId := p.id.GetOr("");
      var k := FindOrder(db.orders, p.orderId.GetOr(""));
      if IsPaymentProcessed(db, paymentId) || k < 0 then db.orders
      else db.orders[k := CaptureOrder(db.orders[k], paymentId)]
  }

  lemma AfterCapturedOrders(db: Database, log: WebhookLog, payment: Option<PaymentEntity>)
    ensures AfterCaptured(db, log, payment).orders == CapturedOrders(db, payment)
  {
  }

  /** Capturing again after a capture, with the guard still seeing what it saw, changes nothing. */
  lemma CapturedOrdersTwice(a: Database, b: Database, payment: Option<PaymentEntity>)
    requires b.orders == CapturedOrders(a, payment)
    requires payment.Some? && IsPaymentProcessed(a, payment.value.id.GetOr("")) ==>
      IsPaymentProcessed(b, payment.value.id.GetOr(""))
    ensures CapturedOrders(b, payment) == b.orders
  {
    if payment.Some? {
      var paymentId := payment.value.id.GetOr("");
      var orderId := payment.value.orderId.GetOr("");
      var k := FindOrder(a.orders, orderId);
      if !IsPaymentProcessed(a, paymentId) && 0 <= k {
        FindOrderSameIds(a.orders, b.orders, orderId);
        if paymentId != "" {
          assert b.orders[k].paymentId == paymentId;
        } else {
          assert b.orders[k := CaptureOrder(b.orders[k], paymentId)] == b.orders;
        }
      }
    }
  }

  lemma CapturedRedelivery(db: Database, env: WebhookEnv, later: int, req: WebhookRequest)
    requires VerifyWebhookSignature(env.crypto, req.rawBody, req.signatureHeader, env.webhookSecret)
    requires req.body.Json? && req.body.event == Some("payment.captured")
    ensures var once := Delivered(db, env, req).0;
      Delivered(once, env.(now := later), req).0.orders == once.orders
  {
    var once := Delivered(db, env, req).0;
    var env2 := env.(now := later);
    var log1 := NewLog(db.webhookLogs, env, req);
    var log2 := NewLog(once.webhookLogs, env2, req);
    var a := db.(webhookLogs := db.webhookLogs + [log1]);
    var b := once.(webhookLogs := once.webhookLogs + [log2]);
    AfterCapturedOrders(a, log1, req.body.payment);
    AfterCapturedOrders(b, log2, req.body.payment);
    assert once.orders == CapturedOrders(a, req.body.payment);
    if req.body.payment.Some? {
      var paymentId := req.body.payment.value.id.GetOr("");
      if IsPaymentProcessed(a, paymentId) {
        ProcessedIgnoresNewEntry(db, log1, paymentId);
        DeliveredRecordsFirst(db, env, req);
        assert b.webhookLogs[..|db.webhookLogs|] == once.webhookLogs[..|db.webhookLogs|];
        ProcessedKeptByLog(db, b, paymentId);
      }
    }
    CapturedOrdersTwice(a, b, req.body.payment);
  }

  lemma FailedRedelivery(db: Database, env: WebhookEnv, later: int, req: WebhookRequest)
    requires VerifyWebhookSignature(env.crypto, req.rawBody, req.signatureHeader, env.webhookSecret)
    requires req.body.Json? && req.body.event == Some("payment.failed")
    ensures var once := Delivered(db, env, req).0;
      Delivered(once, env.(now := later), req).0.orders == once.orders
  {
    var once := Delivered(db, env, req).0;
    FailedOutcomes(db, env, req);
    FailedOutcomes(once, env.(now := later), req);
    if req.body.payment.Some? {
      var orderId := PaymentOf(req.body).orderId.GetOr("");
      FindOrderSameIds(db.orders, once.orders, orderId);
      var k := FindOrder(db.orders, orderId);
      if 0 <= k {
        assert once.orders[k := FailOrder(once.orders[k])] == once.orders;
      }
    }
  }

  lemma OrderPaidRedelivery(db: Database, env: WebhookEnv, later: int, req: WebhookRequest)
    requires VerifyWebhookSignature(env.crypto, req.rawBody, req.signatureHeader, env.webhookSecret)
    requires req.body.Json? && req.body.event == Some("order.paid")
    ensures var once := Delivered(db, env, req).0;
      Delivered(once, env.(now := later), req).0.orders == once.orders
  {
    var once := Delivered(db, env, req).0;
    OrderPaidOutcomes(db, env, req);
    OrderPaidOutcomes(once, env.(now := later), req);
    if req.body.order.Some? {
      FindOrderSameIds(db.orders, once.orders, req.body.order.value.id.GetOr(""));
    }
  }

  /**
    Re-delivery is harmless: delivering the same webhook again, at any later
    time, leaves the orders exactly as the first delivery left them. For
    `payment.captured` this rests on the already-processed guard (or, for an
    empty payment id, on the update writing the same values again); the
    other handlers write values that a second run writes again or skip an
    order they already settled.
   */
  lemma RedeliveryKeepsOrders(db: Database, env: WebhookEnv, later: int, req: WebhookRequest)
    ensures var once := Delivered(db, env, req).0;
      Delivered(once, env.(now := later), req).0.orders == once.orders
  {
    var once := Delivered(db, env, req).0;
    var env2 := env.(now := later);
    if !VerifyWebhookSignature(env.crypto, req.rawBody, req.signatureHeader, env.webhookSecret) {
      InvalidSignatureChangesNoOrder(once, env2, req);
    } else if req.body.Unparsable? {
      assert Delivered(once, env2, req).0.orders == once.orders;
    } else {
      var e := req.body.event.GetOr("");
      if e == "payment.captured" {
        CapturedRedelivery(db, env, later, req);
      } else if e == "payment.failed" {
        FailedRedelivery(db, env, later, req);
      } else if e == "order.paid" {
        OrderPaidRedelivery(db, env, later, req);
      } else {
        OtherEventsKeepOrders(once, env2, req);
      }
    }
  }
}
