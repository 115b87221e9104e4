/**
  `HybridCartService`, the cart service the application registers: a signed-in
  customer's cart is persisted (one cart row per user with its lines), a
  guest's cart lives in the session under "cart_session". Every operation
  takes the persisted path when the request has a user id and the session
  path otherwise.
 */
module HybridCart {
  import opened Entities
  import opened CartLines
  import opened Store

  /**
    The line a guest add appends: the product's name, image and price, or no
    name, no image and price 0 when the product does not exist.
   */
  function GuestDisplay(products: map<int, Product>, productId: int): Display {
    if productId in products then
      var p := products[productId];
      Display(Some(p.productName), Some(p.productImageUrl), p.productPrice)
    else Display(None, None, 0.0)
  }

  /**
    Persisted state and session after `MergeSessionCartToDbAsync`. Without a
    user or with an empty guest cart nothing happens. Otherwise the user's cart
    row is created if needed and every guest line is added to it; the save is
    rejected when a merged line names a missing product, and only a successful
    save is followed by emptying the guest cart.
   */
  function Merged(db: Database, userId: string, session: Option<seq<SessionLine>>): (Database, Option<seq<SessionLine>>) {
    var guest := session.GetOr([]);
    if userId == "" || guest == [] then (db, session)
    else
      var merged := MergeLines(CartOf(db.carts, userId), guest);
      if AllKnown(merged, db.products) then (db.(carts := db.carts[userId := merged]), Some([]))
      else (db.(carts := EnsureCart(db.carts, userId)), session)
  }

  /**
    A merge with a user and a non-empty guest cart whose products all exist
    sums the two carts product by product, empties the guest cart and keeps the
    user's cart free of duplicates; a guest line for a missing product makes
    it change nothing but the creation of the cart row. No other user's cart,
    no product, order or log changes.
   */
  lemma {:induction false} MergedSpec(db: Database, userId: string, session: Option<seq<SessionLine>>)
    requires CartsConsistent(db)
    ensures var (db', session') := Merged(db, userId, session);
      var guest := session.GetOr([]);
      && db'.products == db.products && db'.orders == db.orders
      && db'.orderItems == db.orderItems && db'.webhookLogs == db.webhookLogs
      && (forall u :: u != userId ==> CartOf(db'.carts, u) == CartOf(db.carts, u))
      && CartsConsistent(db')
      && (userId == "" || guest == [] ==> db' == db && session' == session)
      && (userId != "" && guest != [] ==>
            (AllKnown(MergeLines(CartOf(db.carts, userId), guest), db.products) <==> AllKnown(guest, db.products)))
      && (userId != "" && guest != [] && AllKnown(guest, db.products) ==>
            session' == Some([])
            && forall p :: QtyOf(CartOf(db'.carts, userId), p) == QtyOf(CartOf(db.carts, userId), p) + QtyOf(guest, p))
      && (userId != "" && guest != [] && !AllKnown(guest, db.products) ==>
            session' == session && CartOf(db'.carts, userId) == CartOf(db.carts, userId))
  {
    var guest := session.GetOr([]);
    if userId != "" && guest != [] {
      var lines := CartOf(db.carts, userId);
      var merged := MergeLines(lines, guest);
      assert AllKnown(merged, db.products) <==> AllKnown(guest, db.products) by {
        forall p ensures HasProduct(merged, p) <==> HasProduct(lines, p) || HasProduct(guest, p) {
          MergeLinesProducts(lines, guest, p);
        }
        if AllKnown(guest, db.products) {
          forall i | 0 <= i < |merged| ensures merged[i].productId in db.products {
            var p := merged[i].productId;
            assert HasProduct(merged, p);
          }
        } else {
          var i :| 0 <= i < |guest| && guest[i].productId !in db.products;
          assert HasProduct(guest, guest[i].productId);
        }
      }
      forall p ensures QtyOf(merged, p) == QtyOf(lines, p) + QtyOf(guest, p) {
        MergeLinesQty(lines, guest, p);
      }
      MergeLinesUnique(lines, guest);
    }
  }

  /** A second merge right after a first one changes nothing. */
  lemma MergedTwice(db: Database, userId: string, session: Option<seq<SessionLine>>)
    ensures var (db', session') := Merged(db, userId, session);
      Merged(db', userId, session') == (db', session')
  {
  }

  class HybridCartService {
    /** The signed-in user's id, "" for a guest (`string.IsNullOrEmpty`). */
    const userId: string
    /** The session's "cart_session" entry; None when there is none. */
    var session: Option<seq<SessionLine>>
    var db: Database

    ghost predicate Valid()
      reads this
    {
      CartsConsistent(db) && Unique(session.GetOr([]))
    }

    constructor (userId: string, session: Option<seq<SessionLine>>, db: Database)
      requires CartsConsistent(db) && Unique(session.GetOr([]))
      ensures Valid()
      ensures this.userId == userId && this.session == session && this.db == db
    {
      this.userId := userId;
      this.session := session;
      this.db := db;
    }

    predicate IsUserLoggedIn()
      reads this
    {
      userId != ""
    }

    /** The guest cart; no stored entry reads as an empty cart. */
    function SessionCart(): seq<SessionLine>
      reads this
    {
      session.GetOr([])
    }

    /** The user's cart row, created empty when the user has none. */
    method GetOrCreateDbCart(uid: string) returns (items: seq<CartItem>)
      requires Valid()
      modifies this
      ensures Valid()
      ensures items == CartOf(old(db).carts, uid)
      ensures db == old(db).(carts := EnsureCart(old(db).carts, uid)) && session == old(session)
    {
      items := CartOf(db.carts, uid);
      if uid !in db.carts {
        db := db.(carts := db.carts[uid := []]);
      }
    }

    /**
      Add `quantity` of a product. Persisted path: the product's line gains
      `quantity`, or a line is appended; appending a line for a product that
      does not exist is rejected by the save (`ok` false, only the cart row
      creation stays). Guest path: the same on the session cart, where a line
      for a missing product is appended with no name and price 0.
     */
    method AddToCart(productId: int, quantity: int) returns (ok: bool)
      requires Valid()
      modifies this
      ensures Valid()
      ensures userId != "" ==>
        var items := CartOf(old(db).carts, userId);
        && session == old(session)
        && ok == (HasProduct(items, productId) || productId in old(db).products)
        && db == old(db).(carts := old(db).carts[userId := if ok then AddQuantity(items, productId, quantity, ()) else items])
      ensures userId == "" ==>
        && ok && db == old(db)
        && session == Some(AddQuantity(old(SessionCart()), productId, quantity, GuestDisplay(old(db).products, productId)))
    {
      ok := true;
      if userId != "" {
        var items := GetOrCreateDbCart(userId);
        var k := FirstIndexOf(items, productId);
        if k < 0 {
          if productId !in db.products {
            // the new line violates the CartItem -> Product foreign key
            ok := false;
            return;
          }
          items := items + [Line(productId, quantity, ())];
        } else {
          items := SetQuantity(items, k, items[k].quantity + quantity);
        }
        AddQuantityUnique(CartOf(old(db).carts, userId), productId, quantity, ());
        db := db.(carts := db.carts[userId := items]);
      } else {
        var cart := SessionCart();
        var k := FirstIndexOf(cart, productId);
        if k < 0 {
          cart := cart + [Line(productId, quantity, GuestDisplay(db.products, productId))];
        } else {
          cart := SetQuantity(cart, k, cart[k].quantity + quantity);
        }
        AddQuantityUnique(old(SessionCart()), productId, quantity, GuestDisplay(db.products, productId));
        session := Some(cart);
      }
    }

    /**
      Remove a product. Persisted path: its line is removed when there is one
      (the cart row is created otherwise). Guest path: all its lines are
      removed and the cart is saved.
     */
    method RemoveFromCart(productId: int)
      requires Valid()
      modifies this
      ensures Valid()
      ensures userId != "" ==>
        session == old(session)
        && db == old(db).(carts := old(db).carts[userId := RemoveFirst(CartOf(old(db).carts, userId), productId)])
      ensures userId == "" ==> db == old(db) && session == Some(RemoveAll(old(SessionCart()), productId))
    {
      if userId != "" {
        RemoveFirstConsistent(db, userId, productId);
        var items := GetOrCreateDbCart(userId);
        var k := FirstIndexOf(items, productId);
        if k >= 0 {
          items := RemoveAt(items, k);
          db := db.(carts := db.carts[userId := items]);
        }
      } else {
        var cart := SessionCart();
        cart := RemoveAll(cart, productId);
        RemoveAllUnique(old(SessionCart()), productId);
        session := Some(cart);
      }
    }

    /** Add 1 to the product's line; without a line nothing changes (not even a save). */
    method Increase(productId: int)
      requires Valid()
      modifies this
      ensures Valid()
      ensures userId != "" ==>
        session == old(session)
        && db == old(db).(carts := old(db).carts[userId := IncreaseExisting(CartOf(old(db).carts, userId), productId)])
      ensures userId == "" ==>
        db == old(db)
        && session == if HasProduct(old(SessionCart()), productId)
                      then Some(IncreaseExisting(old(SessionCart()), productId)) else old(session)
    {
      if userId != "" {
        var items := GetOrCreateDbCart(userId);
        var k := FirstIndexOf(items, productId);
        if k >= 0 {
          items := SetQuantity(items, k, items[k].quantity + 1);
          db := db.(carts := db.carts[userId := items]);
        }
        IncreaseExistingUnique(CartOf(old(db).carts, userId), productId);
      } else {
        var cart := SessionCart();
        var k := FirstIndexOf(cart, productId);
        if k >= 0 {
          cart := SetQuantity(cart, k, cart[k].quantity + 1);
          IncreaseExistingUnique(old(SessionCart()), productId);
          session := Some(cart);
        }
      }
    }

    /**
      Subtract 1 from the product's line and remove the line once its quantity
      is <= 0; without a line nothing changes.
     */
    method Decrease(productId: int)
      requires Valid()
      modifies this
      ensures Valid()
      ensures userId != "" ==>
        session == old(session)
        && db == old(db).(carts := old(db).carts[userId := DecreaseLine(CartOf(old(db).carts, userId), productId)])
      ensures userId == "" ==>
        db == old(db)
        && session == if HasProduct(old(SessionCart()), productId)
                      then Some(DecreaseLine(old(SessionCart()), productId)) else old(session)
    {
      if userId != "" {
        DecreaseConsistent(db, userId, productId);
        var items := GetOrCreateDbCart(userId);
        var k := FirstIndexOf(items, productId);
        if k >= 0 {
          var q := items[k].quantity - 1;
          if q <= 0 {
            items := RemoveAt(items, k);
          } else {
            items := SetQuantity(items, k, q);
          }
          db := db.(carts := db.carts[userId := items]);
        }
      } else {
        var cart := SessionCart();
        var k := FirstIndexOf(cart, productId);
        if k >= 0 {
          var q := cart[k].quantity - 1;
          if q <= 0 {
            cart := RemoveAt(cart, k);
          } else {
            cart := SetQuantity(cart, k, q);
          }
          DecreaseLineUnique(old(SessionCart()), productId);
          session := Some(cart);
        }
      }
    }

    /** Empty the current cart: all lines of the user's cart row, or an empty guest cart. */
    method ClearCart()
      requires Valid()
      modifies this
      ensures Valid()
      ensures userId != "" ==> session == old(session) && db == old(db).(carts := old(db).carts[userId := []])
      ensures userId == "" ==> db == old(db) && session == Some([])
    {
      if userId != "" {
        var items := GetOrCreateDbCart(userId);
        db := db.(carts := db.carts[userId := []]);
      } else {
        session := Some([]);
      }
    }

    /** The user's persisted lines (creating the cart row); a guest has none. */
    method GetDbCartItems() returns (items: seq<CartItem>)
      requires Valid()
      modifies this
      ensures Valid()
      ensures items == if userId == "" then [] else CartOf(old(db).carts, userId)
      ensures db == if userId == "" then old(db) else old(db).(carts := EnsureCart(old(db).carts, userId))
      ensures session == old(session)
    {
      if userId == "" {
        return [];
      }
      items := GetOrCreateDbCart(userId);
    }

    /**
      Merge the guest cart into the signed-in user's cart: a `foreach` over
      the guest lines adding each to the persisted lines, one save, then an
      emptied guest cart.
     */
    method MergeSessionCartToDb() returns (ok: bool)
      requires Valid()
      modifies this
      ensures Valid()
      ensures (db, session) == Merged(old(db), userId, old(session))
      ensures ok <==> userId == "" || old(SessionCart()) == [] || AllKnown(old(SessionCart()), old(db).products)
    {
      MergedSpec(db, userId, session);
      ok := true;
      if userId == "" {
        return;
      }
      var guest := SessionCart();
      if |guest| == 0 {
        return;
      }
      var base := CartOf(db.carts, userId);
      var items := GetOrCreateDbCart(userId);
      var i := 0;
      while i < |guest|
        invariant 0 <= i <= |guest|
        invariant items == MergeLines(base, guest[..i])
        invariant db == old(db).(carts := EnsureCart(old(db).carts, userId)) && session == old(session)
      {
        var s := guest[i];
        var k := FirstIndexOf(items, s.productId);
        if k < 0 {
          items := items + [Line(s.productId, s.quantity, ())];
        } else {
          items := SetQuantity(items, k, items[k].quantity + s.quantity);
        }
        assert guest[..i + 1][..i] == guest[..i];
        i := i + 1;
      }
      assert guest[..i] == guest;
      if !AllKnown(items, db.products) {
        // the save is rejected: a new line names a missing product
        ok := false;
        return;
      }
      assert db.carts[userId := items] == old(db).carts[userId := items];
      db := db.(carts := db.carts[userId := items]);
      session := Some([]);
    }

    /**
      The current cart as `CartViewModel`s: the user's persisted lines joined
      with their products (the cart row is created if needed), or the guest cart.
     */
    method GetUserCart() returns (cart: seq<SessionLine>)
      requires Valid()
      modifies this
      ensures Valid()
      ensures session == old(session)
      ensures userId != "" ==>
        db == old(db).(carts := EnsureCart(old(db).carts, userId))
        && CartView(CartOf(old(db).carts, userId), old(db).products) == Some(cart)
      ensures userId == "" ==> db == old(db) && cart == old(SessionCart())
    {
      if userId != "" {
        var items := GetDbCartItems();
        var view := CartView(items, db.products);
        cart := view.value;
      } else {
        cart := SessionCart();
      }
    }

    /**
      After a completed checkout: delete every line of the user's cart row, or
      drop the guest cart's session entry.
     */
    method ClearUserCart()
      requires Valid()
      modifies this
      ensures Valid()
      ensures userId != "" ==> session == old(session) && db == old(db).(carts := ClearedCarts(old(db).carts, userId))
      ensures userId == "" ==> db == old(db) && session == None
      ensures SessionCart() == [] || CartOf(db.carts, userId) == []
    {
      if IsUserLoggedIn() {
        db := db.(carts := ClearedCarts(db.carts, userId));
        return;
      }
      session := None;
    }
  }
}
