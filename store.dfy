/**
  The store's persisted state (the tables of `AppDbContext` the core touches)
  as one value, and the cart helpers both cart services share.
 */
module Store {
  import opened Entities
  import opened CartLines

  /**
    Products by id, each signed-in customer's persisted cart (the `Cart` row of
    a user with its `CartItem` rows, in insertion order), orders in id order,
    order line snapshots, and the webhook audit log in id order.
   */
  datatype Database = Database(
    products: map<int, Product>,
    carts: map<string, seq<CartItem>>,
    orders: seq<Order>,
    orderItems: seq<OrderItem>,
    webhookLogs: seq<WebhookLog>)

  /** The persisted lines of a user; a user without a cart row has none. */
  function CartOf(carts: map<string, seq<CartItem>>, userId: string): seq<CartItem> {
    if userId in carts then carts[userId] else []
  }

  /** Get-or-create of a user's cart row: a missing row is created empty. */
  function EnsureCart(carts: map<string, seq<CartItem>>, userId: string): (r: map<string, seq<CartItem>>)
    ensures userId in r && forall u :: u in carts ==> u in r
    ensures forall u :: CartOf(r, u) == CartOf(carts, u)
  {
    if userId in carts then carts else carts[userId := []]
  }

  /** Removing all lines of a user's cart row, when there is one. */
  function ClearedCarts(carts: map<string, seq<CartItem>>, userId: string): (r: map<string, seq<CartItem>>)
    ensures r.Keys == carts.Keys
    ensures CartOf(r, userId) == []
    ensures forall u :: u != userId ==> CartOf(r, u) == CartOf(carts, u)
  {
    if userId in carts then carts[userId := []] else carts
  }

  /** Every line is for a product of the catalogue (the `CartItem.ProductId` foreign key). */
  predicate AllKnown<I>(lines: seq<Line<I>>, products: map<int, Product>) {
    forall i :: 0 <= i < |lines| ==> lines[i].productId in products
  }

  /**
    What the persisted carts always satisfy: lines reference existing products,
    and the services never put two lines for one product in a cart.
   */
  ghost predicate CartsConsistent(db: Database) {
    forall u :: u in db.carts ==> Unique(db.carts[u]) && AllKnown(db.carts[u], db.products)
  }

  /** A persisted line joined with its product, as a `CartViewModel`. */
  function ViewLine(item: CartItem, p: Product): SessionLine {
    Line(item.productId, item.quantity, Display(Some(p.productName), Some(p.productImageUrl), p.productPrice))
  }

  /**
    The persisted lines joined with their products (`Include(ci => ci.Product)`
    then the projection); the projection dereferences the product, so a line
    whose product is missing makes the read fail (None).
   */
  function CartView(items: seq<CartItem>, products: map<int, Product>): (r: Option<seq<SessionLine>>)
    ensures r.Some? <==> AllKnown(items, products)
    ensures r.Some? ==> |r.value| == |items|
    ensures r.Some? ==> forall i :: 0 <= i < |items| ==>
      r.value[i].productId == items[i].productId && r.value[i].quantity == items[i].quantity
      && r.value[i].info.productPrice == products[items[i].productId].productPrice
  {
    if AllKnown(items, products) then
      Some(seq(|items|, i requires 0 <= i < |items| => ViewLine(items[i], products[items[i].productId])))
    else None
  }

  /** A persisted user cart can always be read: every line's product exists. */
  lemma CartViewOfConsistent(db: Database, userId: string)
    requires CartsConsistent(db)
    ensures CartView(CartOf(db.carts, userId), db.products).Some?
  {
  }

  /** Decreasing keeps every remaining line's product. */
  lemma DecreaseKeepsKnown<I>(lines: seq<Line<I>>, pid: int, products: map<int, Product>)
    requires AllKnown(lines, products)
    ensures AllKnown(DecreaseLine(lines, pid), products)
  {
    var k := FirstIndexOf(lines, pid);
    if k >= 0 && lines[k].quantity - 1 <= 0 {
      var r := RemoveAt(lines, k);
      assert forall i :: 0 <= i < |r| ==> r[i] == if i < k then lines[i] else lines[i + 1];
    }
  }

  /** Storing a cart without duplicates whose products exist keeps the carts consistent. */
  lemma SetCartConsistent(db: Database, userId: string, lines: seq<CartItem>)
    requires CartsConsistent(db) && Unique(lines) && AllKnown(lines, db.products)
    ensures CartsConsistent(db.(carts := db.carts[userId := lines]))
  {
  }

  /** Each cart operation on a user's cart keeps the carts consistent. */
  lemma RemoveFirstConsistent(db: Database, userId: string, pid: int)
    requires CartsConsistent(db)
    ensures CartsConsistent(db.(carts := db.carts[userId := RemoveFirst(CartOf(db.carts, userId), pid)]))
  {
    RemoveFirstUnique(CartOf(db.carts, userId), pid);
  }

  lemma DecreaseConsistent(db: Database, userId: string, pid: int)
    requires CartsConsistent(db)
    ensures CartsConsistent(db.(carts := db.carts[userId := DecreaseLine(CartOf(db.carts, userId), pid)]))
  {
    DecreaseLineUnique(CartOf(db.carts, userId), pid);
    DecreaseKeepsKnown(CartOf(db.carts, userId), pid, db.products);
  }

  lemma IncreaseConsistent(db: Database, userId: string, pid: int)
    requires CartsConsistent(db)
    ensures CartsConsistent(db.(carts := db.carts[userId := IncreaseExisting(CartOf(db.carts, userId), pid)]))
  {
    IncreaseExistingUnique(CartOf(db.carts, userId), pid);
  }

  lemma AddConsistent(db: Database, userId: string, pid: int, qty: int)
    requires CartsConsistent(db)
    requires HasProduct(CartOf(db.carts, userId), pid) || pid in db.products
    ensures CartsConsistent(db.(carts := db.carts[userId := AddQuantity(CartOf(db.carts, userId), pid, qty, ())]))
  {
    AddQuantityUnique(CartOf(db.carts, userId), pid, qty, ());
  }

  /** Clearing a cart keeps the carts consistent. */
  lemma ClearCartConsistent(db: Database, userId: string)
    requires CartsConsistent(db)
    ensures CartsConsistent(db.(carts := ClearedCarts(db.carts, userId)))
    ensures CartsConsistent(db.(carts := EnsureCart(db.carts, userId)))
  {
  }

  /**
    `FirstOrDefault(o => o.RazorpayOrderId == id)`: the index of the first order
    carrying the gateway order id, -1 when there is none.
   */
  function FindOrder(orders: seq<Order>, gatewayOrderId: string): (k: int)
    ensures -1 <= k < |orders|
    ensures k == -1 <==> forall i :: 0 <= i < |orders| ==> orders[i].razorpayOrderId != gatewayOrderId
    ensures 0 <= k ==> orders[k].razorpayOrderId == gatewayOrderId
    ensures 0 <= k ==> forall i :: 0 <= i < k ==> orders[i].razorpayOrderId != gatewayOrderId
  {
    if orders == [] then -1
    else if orders[0].razorpayOrderId == gatewayOrderId then 0
    else
      var k := FindOrder(orders[1..], gatewayOrderId);
      if k < 0 then -1 else k + 1
  }

  /** The lookup depends only on the orders' gateway ids. */
  lemma FindOrderSameIds(a: seq<Order>, b: seq<Order>, gatewayOrderId: string)
    requires |a| == |b|
    requires forall i :: 0 <= i < |a| ==> a[i].razorpayOrderId == b[i].razorpayOrderId
    ensures FindOrder(a, gatewayOrderId) == FindOrder(b, gatewayOrderId)
  {
  }
}
