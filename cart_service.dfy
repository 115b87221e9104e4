/**
  `CartService`, the older cart service the payments controller still
  receives. Same split as the hybrid service (persisted cart for a signed-in
  user, session entry "SESSION_CART" for a guest), with its own differences:
  it never creates a cart row, a guest add of a missing product does nothing,
  increase is an add of 1, and a guest decrease always saves.
 */
module LegacyCart {
  import opened Entities
  import opened CartLines
  import opened Store

  /**
    The persisted lines of a user after the add as written, and whether the
    save succeeded. A line of the product gains `qty`. A product not yet in
    the cart gets a new line whose cart id is left unset (0), which matches
    no cart row: the save is refused on the line's cart foreign key and the
    cart stays as it was.
   */
  function AddToDbCartAsWritten(items: seq<CartItem>, productId: int, qty: int): (r: (seq<CartItem>, bool))
    ensures r.1 <==> HasProduct(items, productId)
    ensures !r.1 ==> r.0 == items
    ensures QtyOf(r.0, productId) == QtyOf(items, productId) + (if r.1 then qty else 0)
    ensures forall p :: p != productId ==> QtyOf(r.0, p) == QtyOf(items, p)
    ensures |r.0| == |items|
  {
    var k := FirstIndexOf(items, productId);
    if k < 0 then (items, false)
    else
      var lines := SetQuantity(items, k, items[k].quantity + qty);
      assert forall p :: QtyOf(lines, p) == QtyOf(items, p) + (if p == productId then qty else 0) by {
        forall p ensures QtyOf(lines, p) == QtyOf(items, p) + (if p == productId then qty else 0) {
          QtyOfSetQuantity(items, k, items[k].quantity + qty, p);
        }
      }
      (lines, true)
  }

  /**
    As written, adding a product that is not yet in the cart always fails,
    whether or not the product exists, and leaves the cart as it was; the
    corrected add holds `qty` of it.
   */
  lemma AddToDbCartAsWrittenDropsNewLine(items: seq<CartItem>, productId: int, qty: int)
    requires !HasProduct(items, productId) && qty > 0
    ensures AddToDbCartAsWritten(items, productId, qty) == (items, false)
    ensures QtyOf(AddToDbCartAsWritten(items, productId, qty).0, productId) == 0
    ensures QtyOf(AddQuantity(items, productId, qty, ()), productId) == qty
  {
    QtyOfAbsent(items, productId);
    AddQuantityQty(items, productId, qty, (), productId);
  }

  /** An empty cart and one unit of product 7: as written the save fails and the cart stays empty. */
  lemma AddToEmptyDbCartAsWritten()
    ensures AddToDbCartAsWritten([], 7, 1) == ([], false)
    ensures AddQuantity([], 7, 1, ()) == [Line(7, 1, ())]
  {
  }

  /** The line a guest add appends: the product's own name, image and price. */
  function ProductDisplay(p: Product): Display {
    Display(Some(p.productName), Some(p.productImageUrl), p.productPrice)
  }

  class CartService {
    /** The signed-in user's id, "" for a guest. */
    const userId: string
    /** The session's "SESSION_CART" entry; None when there is none. */
    var session: Option<seq<SessionLine>>
    var db: Database

    ghost predicate Valid()
      reads this
    {
      CartsConsistent(db) && Unique(session.GetOr([]))
    }

    constructor (userId: string, session: Option<seq<SessionLine>>, db: Database)
      requires CartsConsistent(db) && Unique(session.GetOr([]))
      ensures Valid()
      ensures this.userId == userId && this.session == session && this.db == db
    {
      this.userId := userId;
      this.session := session;
      this.db := db;
    }

    predicate IsUserLoggedIn()
      reads this
    {
      userId != ""
    }

    /** The guest cart; no stored entry reads as an empty cart. */
    function SessionCart(): seq<SessionLine>
      reads this
    {
      session.GetOr([])
    }

    /** The signed-in user's persisted lines (none without a cart row). */
    function DbCart(): seq<CartItem>
      reads this
    {
      CartOf(db.carts, userId)
    }

    /**
      Add `qty` of a product, with the persisted path corrected so that a new
      line joins the user's cart. Persisted path: the product's line gains
      `qty` or a line is appended (creating the cart row); a new line for a
      missing product is rejected by the save (`ok` false, nothing changes).
      Guest path: a missing product changes nothing; otherwise the line gains
      `qty` or a line with the product's data is appended, and the cart is saved.
     */
    method AddToCart(productId: int, qty: int) returns (ok: bool)
      requires Valid()
      modifies this
      ensures Valid()
      ensures userId != "" ==>
        var items := CartOf(old(db).carts, userId);
        && session == old(session)
        && ok == (HasProduct(items, productId) || productId in old(db).products)
        && db == if ok then old(db).(carts := old(db).carts[userId := AddQuantity(items, productId, qty, ())]) else old(db)
      ensures userId == "" ==>
        && ok && db == old(db)
        && session == if productId in old(db).products
                      then Some(AddQuantity(old(SessionCart()), productId, qty, ProductDisplay(old(db).products[productId])))
                      else old(session)
    {
      ok := true;
      if IsUserLoggedIn() {
        var items := DbCart();
        var k := FirstIndexOf(items, productId);
        if k < 0 {
          if productId !in db.products {
            // the new line violates the CartItem -> Product foreign key
            ok := false;
            return;
          }
          items := items + [Line(productId, qty, ())];
        } else {
          items := SetQuantity(items, k, items[k].quantity + qty);
        }
        AddConsistent(db, userId, productId, qty);
        db := db.(carts := db.carts[userId := items]);
      } else {
        var cart := SessionCart();
        var k := FirstIndexOf(cart, productId);
        if productId !in db.products {
          return;
        }
        var product := db.products[productId];
        if k < 0 {
          cart := cart + [Line(productId, qty, ProductDisplay(product))];
        } else {
          cart := SetQuantity(cart, k, cart[k].quantity + qty);
        }
        AddQuantityUnique(old(SessionCart()), productId, qty, ProductDisplay(product));
        session := Some(cart);
      }
    }

    /** Remove every line of the user's cart, or drop the guest cart's session entry. */
    method ClearUserCart()
      requires Valid()
      modifies this
      ensures Valid()
      ensures userId == "" ==> db == old(db) && session == None
      ensures userId != "" ==> session == old(session) && db == old(db).(carts := ClearedCarts(old(db).carts, userId))
      ensures SessionCart() == [] || DbCart() == []
    {
      if !IsUserLoggedIn() {
        session := None;
        return;
      }
      db := db.(carts := ClearedCarts(db.carts, userId));
    }

    /**
      Remove a product: the first persisted line of it (when there is one), or
      every guest line of it, saving the guest cart in any case.
     */
    method RemoveItem(productId: int)
      requires Valid()
      modifies this
      ensures Valid()
      ensures userId != "" ==>
        session == old(session)
        && db == if HasProduct(CartOf(old(db).carts, userId), productId)
                 then old(db).(carts := old(db).carts[userId := RemoveFirst(CartOf(old(db).carts, userId), productId)])
                 else old(db)
      ensures userId == "" ==> db == old(db) && session == Some(RemoveAll(old(SessionCart()), productId))
    {
      if IsUserLoggedIn() {
        RemoveFirstConsistent(db, userId, productId);
        var items := DbCart();
        var k := FirstIndexOf(items, productId);
        if k >= 0 {
          items := RemoveAt(items, k);
          db := db.(carts := db.carts[userId := items]);
        }
      } else {
        var cart := SessionCart();
        cart := RemoveAll(cart, productId);
        RemoveAllUnique(old(SessionCart()), productId);
        session := Some(cart);
      }
    }

    /** Increase is an add of quantity 1. */
    method Increase(productId: int) returns (ok: bool)
      requires Valid()
      modifies this
      ensures Valid()
      ensures userId != "" ==>
        var items := CartOf(old(db).carts, userId);
        && session == old(session)
        && ok == (HasProduct(items, productId) || productId in old(db).products)
        && db == if ok then old(db).(carts := old(db).carts[userId := AddQuantity(items, productId, 1, ())]) else old(db)
      ensures userId == "" ==>
        && ok && db == old(db)
        && session == if productId in old(db).products
                      then Some(AddQuantity(old(SessionCart()), productId, 1, ProductDisplay(old(db).products[productId])))
                      else old(session)
    {
      ok := AddToCart(productId, 1);
    }

    /**
      Subtract 1 from the product's line and remove it at quantity <= 0.
      Persisted path: nothing happens without a line. Guest path: the cart is
      saved whether or not it had a line.
     */
    method Decrease(productId: int)
      requires Valid()
      modifies this
      ensures Valid()
      ensures userId != "" ==>
        session == old(session)
        && db == if HasProduct(CartOf(old(db).carts, userId), productId)
                 then old(db).(carts := old(db).carts[userId := DecreaseLine(CartOf(old(db).carts, userId), productId)])
                 else old(db)
      ensures userId == "" ==> db == old(db) && session == Some(DecreaseLine(old(SessionCart()), productId))
    {
      if IsUserLoggedIn() {
        DecreaseConsistent(db, userId, productId);
        var items := DbCart();
        var k := FirstIndexOf(items, productId);
        if k >= 0 {
          var q := items[k].quantity - 1;
          if q <= 0 {
            items := RemoveAt(items, k);
          } else {
            items := SetQuantity(items, k, q);
          }
          db := db.(carts := db.carts[userId := items]);
        }
      } else {
        var cart := SessionCart();
        ghost var before := cart;
        DecreaseLineUnique(before, productId);
        var k := FirstIndexOf(cart, productId);
        if k >= 0 {
          var q := cart[k].quantity - 1;
          if q <= 0 {
            cart := RemoveAt(cart, k);
          } else {
            cart := SetQuantity(cart, k, q);
          }
        }
        assert cart == DecreaseLine(before, productId);
        session := Some(cart);
      }
    }

    /**
      The current cart as `CartViewModel`s: the user's persisted lines joined
      with their products, or the guest cart, empty when nothing is stored.
     */
    method GetUserCart() returns (cart: seq<SessionLine>)
      requires Valid()
      ensures userId != "" ==> CartView(DbCart(), db.products) == Some(cart)
      ensures userId == "" ==> cart == SessionCart()
      ensures userId == "" && session.None? ==> cart == []
    {
      if IsUserLoggedIn() {
        var items := DbCart();
        var view := CartView(items, db.products);
        cart := view.value;
        return;
      }
      if session.None? {
        return [];
      }
      cart := session.value;
    }
  }
}
