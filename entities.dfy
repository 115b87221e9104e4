/**
  The store's entities: the two status enumerations, products, orders and their
  snapshot lines, the webhook audit record, and the cart lines of both carts.
  Prices are `decimal` in the store and are modelled as `real` (exact);
  timestamps are clock readings passed in by the caller.
 */
module Entities {

  datatype Option<T> = None | Some(value: T) {
    /** `x ?? default` */
    function GetOr(default: T): T {
      match this
      case Some(v) => v
      case None => default
    }
  }

  datatype Result<T> = Success(value: T) | Failure(error: string)

  /** Order lifecycle; the numeric values of the enumeration are not used. */
  datatype OrderStatus = Pending | Approved | Shipped | Cancelled | Delivered

  /** Payment state of an order; `failed` and `captured` are lower-case in the store. */
  datatype PaymentStatus = Pending | Completed | failed | captured | Cancelled | Refunded

  datatype Product = Product(
    productId: int,
    productName: string,
    productPrice: real,
    productImageUrl: string,
    productStockQuantity: int)

  /** Snapshot of one purchased line, copied from the product at checkout time. */
  datatype OrderItem = OrderItem(
    orderId: int,
    productId: int,
    productName: string,
    imageUrl: string,
    price: real,
    quantity: int)

  /**
    An order row with the columns the controllers read and write: the gateway
    columns (`RazorpayOrderId`, `PaymentId`, `RazorpayPaymentId`) are non-null
    strings whose default is "".
   */
  datatype Order = Order(
    orderId: int,
    customerId: Option<string>,
    customerName: string,
    email: string,
    address: string,
    paymentMethod: string,
    orderStatus: OrderStatus,
    paymentStatus: PaymentStatus,
    orderDate: int,
    totalAmount: real,
    razorpayOrderId: string,
    paymentId: string,
    razorpayPaymentId: string)

  /** One inbound webhook delivery, recorded before its signature is checked. */
  datatype WebhookLog = WebhookLog(
    id: int,
    event: string,
    payload: string,
    signatureHeader: string,
    razorpayPaymentId: Option<string>,
    razorpayOrderId: Option<string>,
    receivedAt: int,
    processed: bool,
    processingResult: Option<string>)

  /** A cart line: a product id, a quantity and whatever else the cart keeps. */
  datatype Line<I> = Line(productId: int, quantity: int, info: I)

  /** What a guest cart line (`CartViewModel`) carries besides id and quantity. */
  datatype Display = Display(
    productName: Option<string>,
    productImageUrl: Option<string>,
    productPrice: real)

  /** A persisted `CartItem`: product id and quantity only. */
  type CartItem = Line<()>

  /** A `CartViewModel`: the guest cart's line, and the view of a persisted line. */
  type SessionLine = Line<Display>
}
