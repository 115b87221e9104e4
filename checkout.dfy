/**
  `CartController`'s checkout: the GET page that shows the signed-in user's
  cart and its total, and the POST action that, in one transaction, creates a
  Pending order, copies every cart line into an order line, takes each line's
  quantity off the product's stock and empties the cart, or rolls all of it
  back when a product is missing or short of stock.
 */
module CartCheckout {
  import opened Entities
  import opened CartLines
  import opened Store

  /** The posted `CheckoutViewModel`. */
  datatype CheckoutForm = CheckoutForm(customerName: string, email: string, address: string, paymentMethod: string)

  /** What the POST action answers. */
  datatype CheckoutOutcome =
    | RedirectToLogin
    | ShowForm
    | RedirectToCart
    | CartReadFailed
    | CheckoutFailed
    | StartOnlinePayment(orderId: int)
    | RedirectToSuccess(orderId: int)

  /** What the GET action answers. */
  datatype CheckoutPage =
    | PageLogin
    | PageEmptyCart
    | PageCartUnreadable
    | PageShown(cart: seq<SessionLine>, total: real)

  /** Sum of price × quantity over cart lines. */
  function LinesTotal(lines: seq<SessionLine>): real {
    if lines == [] then 0.0
    else
      var last := lines[|lines| - 1];
      LinesTotal(lines[..|lines| - 1]) + last.info.productPrice * (last.quantity as real)
  }

  /** Sum of price × quantity over order lines. */
  function ItemsTotal(items: seq<OrderItem>): real {
    if items == [] then 0.0
    else
      var last := items[|items| - 1];
      ItemsTotal(items[..|items| - 1]) + last.price * (last.quantity as real)
  }

  /** Sum of the product's price × quantity over persisted lines (the GET page's total). */
  function CartTotal(items: seq<CartItem>, products: map<int, Product>): real
    requires AllKnown(items, products)
  {
    if items == [] then 0.0
    else
      var last := items[|items| - 1];
      CartTotal(items[..|items| - 1], products) + products[last.productId].productPrice * (last.quantity as real)
  }

  /** The id the identity column gives the next order: above every existing id. */
  function NextOrderId(orders: seq<Order>): (id: int)
    ensures id >= 1
    ensures forall i :: 0 <= i < |orders| ==> orders[i].orderId < id
  {
    if orders == [] then 1
    else
      var m := NextOrderId(orders[..|orders| - 1]);
      var last := orders[|orders| - 1].orderId;
      if last + 1 > m then last + 1 else m
  }

  /** The order the POST action creates. */
  function NewOrder(id: int, userId: string, form: CheckoutForm, now: int, total: real): Order {
    Order(id, Some(userId), form.customerName, form.email, form.address, form.paymentMethod,
          OrderStatus.Pending, PaymentStatus.Pending, now, total, "", "", "")
  }

  /**
    The stock loop as a whole: each line in turn needs its product to exist
    and to have at least the line's quantity in stock, and takes that quantity
    off; None as soon as a line fails.
   */
  function Fulfil(products: map<int, Product>, lines: seq<SessionLine>): Option<map<int, Product>> {
    if lines == [] then Some(products)
    else
      var l := lines[0];
      if l.productId !in products || products[l.productId].productStockQuantity < l.quantity then None
      else
        var p := products[l.productId];
        Fulfil(products[l.productId := p.(productStockQuantity := p.productStockQuantity - l.quantity)], lines[1..])
  }

  /** The order line recorded for a cart line: the product's name, image and price at checkout time. */
  function SnapshotLine(p: Product, line: SessionLine, orderId: int): OrderItem {
    OrderItem(orderId, line.productId, p.productName, p.productImageUrl, p.productPrice, line.quantity)
  }

  function Snapshot(products: map<int, Product>, lines: seq<SessionLine>, orderId: int): seq<OrderItem>
    requires AllKnown(lines, products)
  {
    seq(|lines|, i requires 0 <= i < |lines| => SnapshotLine(products[lines[i].productId], lines[i], orderId))
  }

  /** Two catalogues with the same products, differing at most in stock. */
  ghost predicate OnlyStockDiffers(a: map<int, Product>, b: map<int, Product>) {
    a.Keys == b.Keys
    && forall id :: id in a ==> b[id] == a[id].(productStockQuantity := b[id].productStockQuantity)
  }

  /** Every line's product exists with at least the line's quantity in stock. */
  ghost predicate InStock(products: map<int, Product>, lines: seq<SessionLine>) {
    forall i :: 0 <= i < |lines| ==>
      lines[i].productId in products && products[lines[i].productId].productStockQuantity >= lines[i].quantity
  }

  /**
    A successful stock loop names only existing products, changes nothing but
    stock, lowers each product's stock by exactly the quantity the lines ask
    for it, and leaves no product named by a line with negative stock.
   */
  lemma {:induction false} FulfilStock(products: map<int, Product>, lines: seq<SessionLine>)
    requires Fulfil(products, lines).Some?
    ensures AllKnown(lines, products)
    ensures OnlyStockDiffers(products, Fulfil(products, lines).value)
    ensures forall id :: id in products ==>
      Fulfil(products, lines).value[id].productStockQuantity == products[id].productStockQuantity - QtyOf(lines, id)
    ensures forall id :: id in products && HasProduct(lines, id) ==>
      Fulfil(products, lines).value[id].productStockQuantity >= 0
  {
    if lines != [] {
      var l, rest := lines[0], lines[1..];
      var p := products[l.productId];
      var next := products[l.productId := p.(productStockQuantity := p.productStockQuantity - l.quantity)];
      FulfilStock(next, rest);
      var m := Fulfil(products, lines).value;
      assert m == Fulfil(next, rest).value;
      assert lines == [l] + rest;
      forall id | id in products
        ensures m[id].productStockQuantity == products[id].productStockQuantity - QtyOf(lines, id)
      {
        QtyOfConcat([l], rest, id);
        QtyOfSingle(l, id);
      }
      forall id | id in products && HasProduct(lines, id)
        ensures m[id].productStockQuantity >= 0
      {
        if !HasProduct(rest, id) {
          QtyOfAbsent(rest, id);
          assert id == l.productId by {
            forall i | 0 < i < |lines| ensures lines[i].productId != id {
              assert lines[i] == rest[i - 1];
            }
          }
        }
      }
      forall i | 0 <= i < |lines| ensures lines[i].productId in products {
        if i > 0 { assert rest[i - 1] == lines[i]; }
      }
    }
  }

  /**
    For a cart without duplicate products, the stock loop succeeds exactly
    when every line's product exists and has enough stock for that line.
   */
  lemma {:induction false} FulfilSucceedsIff(products: map<int, Product>, lines: seq<SessionLine>)
    requires Unique(lines)
    ensures Fulfil(products, lines).Some? <==> InStock(products, lines)
  {
    if lines != [] {
      var l, rest := lines[0], lines[1..];
      if l.productId in products && products[l.productId].productStockQuantity >= l.quantity {
        var p := products[l.productId];
        var next := products[l.productId := p.(productStockQuantity := p.productStockQuantity - l.quantity)];
        assert Unique(rest) by {
          forall i, j | 0 <= i < |rest| && 0 <= j < |rest| && rest[i].productId == rest[j].productId
            ensures i == j
          {
            assert lines[i + 1] == rest[i] && lines[j + 1] == rest[j];
          }
        }
        FulfilSucceedsIff(next, rest);
        forall i | 0 <= i < |rest| ensures rest[i].productId != l.productId {
          assert lines[i + 1] == rest[i];
        }
        assert InStock(next, rest) <==> InStock(products, rest);
        assert InStock(products, lines) <==> InStock(products, rest) by {
          if InStock(products, rest) {
            forall i | 0 <= i < |lines|
              ensures lines[i].productId in products && products[lines[i].productId].productStockQuantity >= lines[i].quantity
            {
              if i > 0 { assert lines[i] == rest[i - 1]; }
            }
          }
          if InStock(products, lines) {
            forall i | 0 <= i < |rest|
              ensures rest[i].productId in products && products[rest[i].productId].productStockQuantity >= rest[i].quantity
            {
              assert rest[i] == lines[i + 1];
            }
          }
        }
      }
    }
  }

  /**
    The order lines recorded for a cart priced from the catalogue add up to
    the cart's total: the order's TotalAmount equals the sum over its lines.
   */
  lemma {:induction false} SnapshotTotal(products: map<int, Product>, lines: seq<SessionLine>, orderId: int)
    requires AllKnown(lines, products)
    requires forall i :: 0 <= i < |lines| ==> lines[i].info.productPrice == products[lines[i].productId].productPrice
    ensures ItemsTotal(Snapshot(products, lines, orderId)) == LinesTotal(lines)
  {
    if lines != [] {
      var init := lines[..|lines| - 1];
      var s := Snapshot(products, lines, orderId);
      assert Snapshot(products, init, orderId) == s[..|s| - 1];
      SnapshotTotal(products, init, orderId);
    }
  }

  /** The GET page's total over the persisted lines is the total of the lines it shows. */
  lemma {:induction false} CartTotalIsViewTotal(items: seq<CartItem>, products: map<int, Product>)
    requires AllKnown(items, products)
    ensures CartTotal(items, products) == LinesTotal(CartView(items, products).value)
  {
    if items != [] {
      var init := items[..|items| - 1];
      var v := CartView(items, products).value;
      assert CartView(init, products).value == v[..|v| - 1];
      CartTotalIsViewTotal(init, products);
    }
  }

  /** The state a successful checkout commits. */
  function Committed(db: Database, userId: string, lines: seq<SessionLine>, stock: map<int, Product>,
                     form: CheckoutForm, now: int): Database
    requires AllKnown(lines, db.products)
  {
    var id := NextOrderId(db.orders);
    Database(stock, ClearedCarts(EnsureCart(db.carts, userId), userId),
             db.orders + [NewOrder(id, userId, form, now, LinesTotal(lines))],
             db.orderItems + Snapshot(db.products, lines, id),
             db.webhookLogs)
  }

  /**
    The order a committed checkout creates, for a persisted cart read from a
    consistent store: one new order with a fresh id, status Pending and the
    cart's total, which is also the sum of its order lines.
   */
  lemma {:induction false} CommittedOrder(db: Database, userId: string, form: CheckoutForm, now: int)
    requires CartsConsistent(db)
    requires userId != ""
    requires Fulfil(db.products, CartView(CartOf(db.carts, userId), db.products).value).Some?
    ensures var items := CartOf(db.carts, userId);
      var lines := CartView(items, db.products).value;
      var stock := Fulfil(db.products, lines).value;
      var db' := Committed(db, userId, lines, stock, form, now);
      var id := NextOrderId(db.orders);
      && |db'.orders| == |db.orders| + 1 && db'.orders[..|db.orders|] == db.orders
      && db'.orders[|db.orders|].orderId == id
      && (forall i :: 0 <= i < |db.orders| ==> db.orders[i].orderId != id)
      && db'.orders[|db.orders|].orderStatus == OrderStatus.Pending
      && db'.orders[|db.orders|].paymentStatus == PaymentStatus.Pending
      && |db'.orderItems| >= |db.orderItems|
      && db'.orders[|db.orders|].totalAmount == ItemsTotal(db'.orderItems[|db.orderItems|..])
      && db'.orders[|db.orders|].totalAmount == CartTotal(items, db.products)
  {
    var items := CartOf(db.carts, userId);
    var lines := CartView(items, db.products).value;
    var stock := Fulfil(db.products, lines).value;
    var db' := Committed(db, userId, lines, stock, form, now);
    var id := NextOrderId(db.orders);
    SnapshotTotal(db.products, lines, id);
    CartTotalIsViewTotal(items, db.products);
    assert db'.orderItems[|db.orderItems|..] == Snapshot(db.products, lines, id);
  }

  /**
    The order lines a committed checkout appends: one per cart line, in cart
    order, each with the new order's id, the line's product and quantity and
    the product's name, image and price at checkout time; earlier order lines
    are kept.
   */
  lemma {:induction false} CommittedLines(db: Database, userId: string, form: CheckoutForm, now: int)
    requires CartsConsistent(db)
    requires userId != ""
    requires Fulfil(db.products, CartView(CartOf(db.carts, userId), db.products).value).Some?
    ensures var items := CartOf(db.carts, userId);
      var lines := CartView(items, db.products).value;
      var stock := Fulfil(db.products, lines).value;
      var db' := Committed(db, userId, lines, stock, form, now);
      var id := NextOrderId(db.orders);
      && |db'.orderItems| == |db.orderItems| + |items|
      && db'.orderItems[..|db.orderItems|] == db.orderItems
      && (forall i :: 0 <= i < |items| ==>
            var it := db'.orderItems[|db.orderItems| + i];
            var product := db.products[items[i].productId];
            && it.orderId == id && it.productId == items[i].productId && it.quantity == items[i].quantity
            && it.price == product.productPrice
            && it.productName == product.productName && it.imageUrl == product.productImageUrl)
  {
    var items := CartOf(db.carts, userId);
    var lines := CartView(items, db.products).value;
    var id := NextOrderId(db.orders);
    var added := Snapshot(db.products, lines, id);
    assert (db.orderItems + added)[..|db.orderItems|] == db.orderItems;
    assert forall i :: 0 <= i < |items| ==> (db.orderItems + added)[|db.orderItems| + i] == added[i];
  }

  /**
    The rest of a committed checkout: each product's stock lowered by exactly
    its cart quantity and never below zero, nothing but stock changed in the
    catalogue, the user's cart empty and other carts, and the log, untouched.
   */
  lemma {:induction false} CommittedStock(db: Database, userId: string, form: CheckoutForm, now: int)
    requires CartsConsistent(db)
    requires userId != ""
    requires Fulfil(db.products, CartView(CartOf(db.carts, userId), db.products).value).Some?
    ensures var items := CartOf(db.carts, userId);
      var lines := CartView(items, db.products).value;
      var stock := Fulfil(db.products, lines).value;
      var db' := Committed(db, userId, lines, stock, form, now);
      && OnlyStockDiffers(db.products, db'.products)
      && (forall id :: id in db.products ==>
            db'.products[id].productStockQuantity == db.products[id].productStockQuantity - QtyOf(items, id))
      && (forall id :: id in db.products && HasProduct(items, id) ==> db'.products[id].productStockQuantity >= 0)
      && CartOf(db'.carts, userId) == []
      && (forall u :: u != userId ==> CartOf(db'.carts, u) == CartOf(db.carts, u))
      && db'.webhookLogs == db.webhookLogs
  {
    var items := CartOf(db.carts, userId);
    var lines := CartView(items, db.products).value;
    FulfilStock(db.products, lines);
    forall p ensures QtyOf(lines, p) == QtyOf(items, p) && (HasProduct(lines, p) <==> HasProduct(items, p)) {
      ViewQty(items, db.products, p);
    }
  }

  /** The view has the persisted lines' products and quantities. */
  lemma {:induction false} ViewQty(items: seq<CartItem>, products: map<int, Product>, p: int)
    requires AllKnown(items, products)
    ensures QtyOf(CartView(items, products).value, p) == QtyOf(items, p)
    ensures HasProduct(CartView(items, products).value, p) <==> HasProduct(items, p)
  {
    var v := CartView(items, products).value;
    if items != [] {
      var init := items[..|items| - 1];
      assert CartView(init, products).value == v[..|v| - 1];
      ViewQty(init, products, p);
    }
    if HasProduct(items, p) {
      var i :| 0 <= i < |items| && items[i].productId == p;
      assert v[i].productId == p;
    }
    if HasProduct(v, p) {
      var i :| 0 <= i < |v| && v[i].productId == p;
      assert items[i].productId == p;
    }
  }

  /**
    The GET checkout page: login required for a guest; otherwise the user's
    persisted lines (the cart row is created if needed), a redirect when there
    are none, else the lines joined with their products and their total.
   */
  method CheckoutPageFor(db: Database, userId: string) returns (db': Database, page: CheckoutPage)
    ensures userId == "" ==> db' == db && page == PageLogin
    ensures userId != "" ==> db' == db.(carts := EnsureCart(db.carts, userId))
    ensures userId != "" && CartOf(db.carts, userId) == [] ==> page == PageEmptyCart
    ensures userId != "" && CartOf(db.carts, userId) != [] ==>
      var view := CartView(CartOf(db.carts, userId), db.products);
      page == if view.Some? then PageShown(view.value, LinesTotal(view.value)) else PageCartUnreadable
  {
    if userId == "" {
      return db, PageLogin;
    }
    var items := CartOf(db.carts, userId);
    db' := db.(carts := EnsureCart(db.carts, userId));
    if items == [] {
      return db', PageEmptyCart;
    }
    if !AllKnown(items, db.products) {
      // the projection dereferences a missing product
      return db', PageCartUnreadable;
    }
    var view := CartView(items, db.products).value;
    var total := CartTotal(items, db.products);
    CartTotalIsViewTotal(items, db.products);
    page := PageShown(view, total);
  }

  /**
    The POST checkout. A guest is sent to login and an invalid form is shown
    again, both without any change. The user's cart is read through the cart
    service (creating the cart row, outside the transaction); an empty cart
    redirects back. Otherwise, inside the transaction, the order is created and
    the loop checks each line's product and stock, lowers the stock and
    records the order line; any failure rolls the transaction back. On commit
    the cart is emptied, and an "Online" order starts a payment while any
    other method goes to the success page.
   */
  method Checkout(db: Database, userId: string, formValid: bool, form: CheckoutForm, now: int)
    returns (db': Database, outcome: CheckoutOutcome)
    ensures userId == "" ==> db' == db && outcome == RedirectToLogin
    ensures userId != "" && !formValid ==> db' == db && outcome == ShowForm
    ensures userId != "" && formValid ==>
      var read := db.(carts := EnsureCart(db.carts, userId));
      var view := CartView(CartOf(db.carts, userId), db.products);
      && (view.None? ==> db' == read && outcome == CartReadFailed)
      && (view == Some([]) ==> db' == read && outcome == RedirectToCart)
      && (view.Some? && view.value != [] ==>
            var lines := view.value;
            var id := NextOrderId(db.orders);
            match Fulfil(db.products, lines)
            case None => db' == read && outcome == CheckoutFailed
            case Some(stock) =>
              && AllKnown(lines, db.products)
              && db' == Committed(db, userId, lines, stock, form, now)
              && outcome == if form.paymentMethod == "Online" then StartOnlinePayment(id) else RedirectToSuccess(id))
  {
    if userId == "" {
      return db, RedirectToLogin;
    }
    if !formValid {
      return db, ShowForm;
    }
    var read := db.(carts := EnsureCart(db.carts, userId));
    var view := CartView(CartOf(db.carts, userId), db.products);
    if view.None? {
      return read, CartReadFailed;
    }
    var lines := view.value;
    if |lines| == 0 {
      return read, RedirectToCart;
    }
    // the transaction: work on copies, commit at the end
    var orderId := NextOrderId(read.orders);
    var order := NewOrder(orderId, userId, form, now, LinesTotal(lines));
    var products := read.products;
    var items: seq<OrderItem> := [];
    var i := 0;
    while i < |lines|
      invariant 0 <= i <= |lines|
      invariant Fulfil(db.products, lines) == Fulfil(products, lines[i..])
      invariant OnlyStockDiffers(db.products, products)
      invariant AllKnown(lines[..i], db.products)
      invariant items == Snapshot(db.products, lines[..i], orderId)
    {
      var line := lines[i];
      assert lines[i..][0] == line && lines[i..][1..] == lines[i + 1..];
      if line.productId !in products {
        return read, CheckoutFailed;
      }
      var product := products[line.productId];
      if product.productStockQuantity < line.quantity {
        return read, CheckoutFailed;
      }
      products := products[line.productId := product.(productStockQuantity := product.productStockQuantity - line.quantity)];
      items := items + [SnapshotLine(product, line, orderId)];
      assert lines[..i + 1] == lines[..i] + [line];
      i := i + 1;
    }
    assert lines[..i] == lines;
    assert lines[i..] == [];
    db' := Database(products, ClearedCarts(read.carts, userId), read.orders + [order],
                    read.orderItems + items, read.webhookLogs);
    if form.paymentMethod == "Online" {
      outcome := StartOnlinePayment(orderId);
    } else {
      outcome := RedirectToSuccess(orderId);
    }
  }
}
