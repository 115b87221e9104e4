/**
  The list operations both cart services perform on a cart, whether the cart is
  the persisted one (lines of product id and quantity) or the guest one kept in
  the session (lines that also carry name, image and price). Each operation is
  written the way the services do it: find the first line of a product
  (`FirstOrDefault`), then change that line, append one, or remove lines.
 */
module CartLines {
  import opened Entities

  /** Some line of `lines` is for product `pid`. */
  predicate HasProduct<I>(lines: seq<Line<I>>, pid: int) {
    exists i :: 0 <= i < |lines| && lines[i].productId == pid
  }

  /** Every product id is on at most one line. */
  ghost predicate Unique<I>(lines: seq<Line<I>>) {
    forall i, j :: 0 <= i < |lines| && 0 <= j < |lines| && lines[i].productId == lines[j].productId ==> i == j
  }

  /** Total quantity the lines hold for product `pid`. */
  function QtyOf<I>(lines: seq<Line<I>>, pid: int): int {
    if lines == [] then 0
    else QtyOf(lines[..|lines| - 1], pid) + LineQty(lines[|lines| - 1], pid)
  }

  function LineQty<I>(line: Line<I>, pid: int): int {
    if line.productId == pid then line.quantity else 0
  }

  /** Position of the first line for `pid`, or -1 when there is none (`FirstOrDefault`). */
  function FirstIndexOf<I>(lines: seq<Line<I>>, pid: int): (k: int)
    ensures -1 <= k < |lines|
    ensures k == -1 <==> !HasProduct(lines, pid)
    ensures k >= 0 ==> lines[k].productId == pid && forall j :: 0 <= j < k ==> lines[j].productId != pid
  {
    if |lines| == 0 then -1
    else if lines[0].productId == pid then 0
    else
      var k := FirstIndexOf(lines[1..], pid);
      assert HasProduct(lines, pid) ==> HasProduct(lines[1..], pid) by {
        if HasProduct(lines, pid) {
          var i :| 0 <= i < |lines| && lines[i].productId == pid;
          assert lines[1..][i - 1].productId == pid;
        }
      }
      if k == -1 then -1 else k + 1
  }

  function RemoveAt<I>(lines: seq<Line<I>>, k: int): seq<Line<I>>
    requires 0 <= k < |lines|
  {
    lines[..k] + lines[k + 1..]
  }

  function SetQuantity<I>(lines: seq<Line<I>>, k: int, q: int): seq<Line<I>>
    requires 0 <= k < |lines|
  {
    lines[k := lines[k].(quantity := q)]
  }

  /**
    Add `qty` to the first line of `pid`, or append a line for it: the add of
    both services and one step of the merge loop.
   */
  function AddQuantity<I>(lines: seq<Line<I>>, pid: int, qty: int, info: I): seq<Line<I>> {
    var k := FirstIndexOf(lines, pid);
    if k < 0 then lines + [Line(pid, qty, info)]
    else SetQuantity(lines, k, lines[k].quantity + qty)
  }

  /** Add 1 to the first line of `pid`; no line for it: unchanged. */
  function IncreaseExisting<I>(lines: seq<Line<I>>, pid: int): seq<Line<I>> {
    var k := FirstIndexOf(lines, pid);
    if k < 0 then lines
    else SetQuantity(lines, k, lines[k].quantity + 1)
  }

  /** Subtract 1 from the first line of `pid`, dropping it at quantity <= 0. */
  function DecreaseLine<I>(lines: seq<Line<I>>, pid: int): seq<Line<I>> {
    var k := FirstIndexOf(lines, pid);
    if k < 0 then lines
    else if lines[k].quantity - 1 <= 0 then RemoveAt(lines, k)
    else SetQuantity(lines, k, lines[k].quantity - 1)
  }

  /** Remove the first line of `pid` (`Remove(FirstOrDefault(...))`). */
  function RemoveFirst<I>(lines: seq<Line<I>>, pid: int): seq<Line<I>> {
    var k := FirstIndexOf(lines, pid);
    if k < 0 then lines else RemoveAt(lines, k)
  }

  /** Remove every line of `pid` (`RemoveAll`), keeping the others in order. */
  function RemoveAll<I>(lines: seq<Line<I>>, pid: int): (r: seq<Line<I>>)
    ensures !HasProduct(r, pid)
  {
    if lines == [] then []
    else
      var rest := RemoveAll(lines[..|lines| - 1], pid);
      var last := lines[|lines| - 1];
      if last.productId == pid then rest else rest + [last]
  }

  /**
    The persisted lines after the merge loop has visited the guest lines in
    order: each guest line is added to the persisted cart.
   */
  function MergeLines<I>(lines: seq<CartItem>, guest: seq<Line<I>>): seq<CartItem> {
    if guest == [] then lines
    else
      var last := guest[|guest| - 1];
      AddQuantity(MergeLines(lines, guest[..|guest| - 1]), last.productId, last.quantity, ())
  }

  // ---------------------------------------------------------------------------
  // Quantities
  // ---------------------------------------------------------------------------

  lemma {:induction false} QtyOfConcat<I>(a: seq<Line<I>>, b: seq<Line<I>>, pid: int)
    ensures QtyOf(a + b, pid) == QtyOf(a, pid) + QtyOf(b, pid)
    decreases |b|
  {
    if b == [] {
      assert a + b == a;
    } else {
      var b' := b[..|b| - 1];
      assert (a + b)[..|a + b| - 1] == a + b';
      QtyOfConcat(a, b', pid);
    }
  }

  lemma QtyOfSingle<I>(l: Line<I>, pid: int)
    ensures QtyOf([l], pid) == LineQty(l, pid)
  {
    assert [l][..0] == [];
  }

  lemma {:induction false} QtyOfAbsent<I>(lines: seq<Line<I>>, pid: int)
    requires !HasProduct(lines, pid)
    ensures QtyOf(lines, pid) == 0
  {
    if lines != [] {
      var init := lines[..|lines| - 1];
      forall i | 0 <= i < |init| ensures init[i].productId != pid {
        assert init[i] == lines[i];
      }
      QtyOfAbsent(init, pid);
    }
  }

  /** Splitting a cart around line `k`. */
  lemma QtyOfAround<I>(lines: seq<Line<I>>, k: int, pid: int)
    requires 0 <= k < |lines|
    ensures QtyOf(lines, pid) == QtyOf(lines[..k], pid) + LineQty(lines[k], pid) + QtyOf(lines[k + 1..], pid)
  {
    assert lines == lines[..k] + [lines[k]] + lines[k + 1..];
    QtyOfConcat(lines[..k] + [lines[k]], lines[k + 1..], pid);
    QtyOfConcat(lines[..k], [lines[k]], pid);
    QtyOfSingle(lines[k], pid);
  }

  lemma QtyOfSetQuantity<I>(lines: seq<Line<I>>, k: int, q: int, pid: int)
    requires 0 <= k < |lines|
    ensures QtyOf(SetQuantity(lines, k, q), pid)
         == QtyOf(lines, pid) + (if lines[k].productId == pid then q - lines[k].quantity else 0)
  {
    var r := SetQuantity(lines, k, q);
    assert r[..k] == lines[..k] && r[k + 1..] == lines[k + 1..];
    QtyOfAround(lines, k, pid);
    QtyOfAround(r, k, pid);
  }

  lemma QtyOfRemoveAt<I>(lines: seq<Line<I>>, k: int, pid: int)
    requires 0 <= k < |lines|
    ensures QtyOf(RemoveAt(lines, k), pid) == QtyOf(lines, pid) - LineQty(lines[k], pid)
  {
    QtyOfAround(lines, k, pid);
    QtyOfConcat(lines[..k], lines[k + 1..], pid);
  }

  /** In a cart without duplicates, a product's quantity is that of its one line. */
  lemma QtyOfUnique<I>(lines: seq<Line<I>>, k: int)
    requires Unique(lines) && 0 <= k < |lines|
    ensures QtyOf(lines, lines[k].productId) == lines[k].quantity
  {
    var pid := lines[k].productId;
    forall i | 0 <= i < k ensures lines[..k][i].productId != pid {
      assert lines[..k][i] == lines[i];
    }
    var after := lines[k + 1..];
    forall i | 0 <= i < |after| ensures after[i].productId != pid {
      assert after[i] == lines[k + 1 + i];
    }
    QtyOfAbsent(lines[..k], pid);
    QtyOfAbsent(lines[k + 1..], pid);
    QtyOfAround(lines, k, pid);
  }

  /** In a cart without duplicates, the line of `pid` is the first one. */
  lemma FirstIndexOfUnique<I>(lines: seq<Line<I>>, k: int)
    requires Unique(lines) && 0 <= k < |lines|
    ensures FirstIndexOf(lines, lines[k].productId) == k
  {
  }

  // ---------------------------------------------------------------------------
  // What each operation does
  // ---------------------------------------------------------------------------

  lemma {:induction false} AddQuantityQty<I>(lines: seq<Line<I>>, pid: int, qty: int, info: I, p: int)
    ensures QtyOf(AddQuantity(lines, pid, qty, info), p) == QtyOf(lines, p) + (if p == pid then qty else 0)
  {
    var k := FirstIndexOf(lines, pid);
    if k < 0 {
      QtyOfConcat(lines, [Line(pid, qty, info)], p);
      QtyOfSingle(Line(pid, qty, info), p);
    } else {
      QtyOfSetQuantity(lines, k, lines[k].quantity + qty, p);
    }
  }

  /**
    Adding to a cart without duplicates: the product's line gains `qty` and no
    other line changes; an absent product gets exactly one new line at the end;
    the cart stays without duplicates.
   */
  lemma {:induction false} AddQuantitySpec<I>(lines: seq<Line<I>>, pid: int, qty: int, info: I)
    requires Unique(lines)
    ensures forall k :: 0 <= k < |lines| && lines[k].productId == pid ==>
      AddQuantity(lines, pid, qty, info) == lines[k := lines[k].(quantity := lines[k].quantity + qty)]
    ensures !HasProduct(lines, pid) ==> AddQuantity(lines, pid, qty, info) == lines + [Line(pid, qty, info)]
    ensures Unique(AddQuantity(lines, pid, qty, info))
  {
    var r := AddQuantity(lines, pid, qty, info);
    var k := FirstIndexOf(lines, pid);
    if k < 0 {
      assert forall i :: 0 <= i < |lines| ==> r[i] == lines[i] && lines[i].productId != pid;
      assert r[|lines|].productId == pid;
    } else {
      forall i, j | 0 <= i < |r| && 0 <= j < |r| && r[i].productId == r[j].productId
        ensures i == j
      {
        assert r[i].productId == lines[i].productId && r[j].productId == lines[j].productId;
      }
    }
  }

  /**
    Increase on a cart without duplicates: the product's line gains exactly 1;
    an absent product leaves the cart as it was.
   */
  lemma {:induction false} IncreaseExistingSpec<I>(lines: seq<Line<I>>, pid: int)
    requires Unique(lines)
    ensures forall k :: 0 <= k < |lines| && lines[k].productId == pid ==>
      IncreaseExisting(lines, pid) == lines[k := lines[k].(quantity := lines[k].quantity + 1)]
    ensures !HasProduct(lines, pid) ==> IncreaseExisting(lines, pid) == lines
    ensures forall p :: QtyOf(IncreaseExisting(lines, pid), p)
                     == QtyOf(lines, p) + (if p == pid && HasProduct(lines, pid) then 1 else 0)
    ensures Unique(IncreaseExisting(lines, pid))
  {
    var k := FirstIndexOf(lines, pid);
    if k >= 0 {
      forall p ensures QtyOf(IncreaseExisting(lines, pid), p) == QtyOf(lines, p) + (if p == pid then 1 else 0) {
        QtyOfSetQuantity(lines, k, lines[k].quantity + 1, p);
      }
      var r := IncreaseExisting(lines, pid);
      forall i, j | 0 <= i < |r| && 0 <= j < |r| && r[i].productId == r[j].productId
        ensures i == j
      {
        assert r[i].productId == lines[i].productId && r[j].productId == lines[j].productId;
      }
    }
  }

  /**
    Decrease on a cart without duplicates: the product's line loses 1 and is
    removed once its quantity would be <= 0; an absent product leaves the cart
    as it was; no other product's quantity changes.
   */
  lemma {:induction false} DecreaseLineSpec<I>(lines: seq<Line<I>>, pid: int)
    requires Unique(lines)
    ensures forall k :: 0 <= k < |lines| && lines[k].productId == pid ==>
      DecreaseLine(lines, pid) ==
        if lines[k].quantity - 1 <= 0 then lines[..k] + lines[k + 1..]
        else lines[k := lines[k].(quantity := lines[k].quantity - 1)]
    ensures !HasProduct(lines, pid) ==> DecreaseLine(lines, pid) == lines
    ensures forall k :: 0 <= k < |lines| && lines[k].productId == pid && lines[k].quantity <= 1 ==>
      !HasProduct(DecreaseLine(lines, pid), pid)
    ensures forall p :: p != pid ==> QtyOf(DecreaseLine(lines, pid), p) == QtyOf(lines, p)
    ensures Unique(DecreaseLine(lines, pid))
  {
    var r := DecreaseLine(lines, pid);
    var k := FirstIndexOf(lines, pid);
    if k >= 0 {
      if lines[k].quantity - 1 <= 0 {
        forall p | p != pid ensures QtyOf(r, p) == QtyOf(lines, p) {
          QtyOfRemoveAt(lines, k, p);
        }
        assert forall i :: 0 <= i < |r| ==> r[i] == if i < k then lines[i] else lines[i + 1];
        forall i | 0 <= i < |r| ensures r[i].productId != pid {
          if i < k { assert r[i] == lines[i]; } else { assert r[i] == lines[i + 1]; }
        }
      } else {
        forall p | p != pid ensures QtyOf(r, p) == QtyOf(lines, p) {
          QtyOfSetQuantity(lines, k, lines[k].quantity - 1, p);
        }
        forall i, j | 0 <= i < |r| && 0 <= j < |r| && r[i].productId == r[j].productId
          ensures i == j
        {
          assert r[i].productId == lines[i].productId && r[j].productId == lines[j].productId;
        }
      }
    }
  }

  /** The duplicate-freedom parts of the three specifications above, on their own. */
  lemma AddQuantityUnique<I>(lines: seq<Line<I>>, pid: int, qty: int, info: I)
    requires Unique(lines)
    ensures Unique(AddQuantity(lines, pid, qty, info))
  {
    AddQuantitySpec(lines, pid, qty, info);
  }

  lemma IncreaseExistingUnique<I>(lines: seq<Line<I>>, pid: int)
    requires Unique(lines)
    ensures Unique(IncreaseExisting(lines, pid))
  {
    IncreaseExistingSpec(lines, pid);
  }

  lemma DecreaseLineUnique<I>(lines: seq<Line<I>>, pid: int)
    requires Unique(lines)
    ensures Unique(DecreaseLine(lines, pid))
  {
    DecreaseLineSpec(lines, pid);
  }

  /** What remains after RemoveAll: no line of `pid`, every other product's quantity kept. */
  lemma {:induction false} RemoveAllQty<I>(lines: seq<Line<I>>, pid: int, p: int)
    ensures QtyOf(RemoveAll(lines, pid), p) == if p == pid then 0 else QtyOf(lines, p)
  {
    if lines != [] {
      var init := lines[..|lines| - 1];
      var last := lines[|lines| - 1];
      RemoveAllQty(init, pid, p);
      if last.productId != pid {
        QtyOfConcat(RemoveAll(init, pid), [last], p);
        QtyOfSingle(last, p);
      } else if p == pid {
        QtyOfAbsent(RemoveAll(init, pid), pid);
      }
    }
  }

  lemma {:induction false} RemoveAllConcat<I>(a: seq<Line<I>>, b: seq<Line<I>>, pid: int)
    ensures RemoveAll(a + b, pid) == RemoveAll(a, pid) + RemoveAll(b, pid)
    decreases |b|
  {
    if b == [] {
      assert a + b == a;
    } else {
      var b' := b[..|b| - 1];
      assert (a + b)[..|a + b| - 1] == a + b';
      RemoveAllConcat(a, b', pid);
    }
  }

  lemma {:induction false} RemoveAllAbsent<I>(lines: seq<Line<I>>, pid: int)
    requires !HasProduct(lines, pid)
    ensures RemoveAll(lines, pid) == lines
  {
    if lines != [] {
      var init := lines[..|lines| - 1];
      forall i | 0 <= i < |init| ensures init[i].productId != pid {
        assert init[i] == lines[i];
      }
      RemoveAllAbsent(init, pid);
      assert lines == init + [lines[|lines| - 1]];
    }
  }

  /**
    On a cart without duplicates, removing the first line of a product (the
    persisted cart's remove) is the same as removing all its lines (the guest
    cart's `RemoveAll`): exactly that product's line goes, the rest stay in order.
   */
  lemma {:induction false} RemoveFirstIsRemoveAll<I>(lines: seq<Line<I>>, pid: int)
    requires Unique(lines)
    ensures RemoveFirst(lines, pid) == RemoveAll(lines, pid)
  {
    var k := FirstIndexOf(lines, pid);
    if k < 0 {
      RemoveAllAbsent(lines, pid);
    } else {
      var a, b := lines[..k], lines[k + 1..];
      forall i | 0 <= i < |a| ensures a[i].productId != pid {
        assert a[i] == lines[i];
      }
      forall i | 0 <= i < |b| ensures b[i].productId != pid {
        assert b[i] == lines[k + 1 + i];
      }
      assert lines == a + [lines[k]] + b;
      RemoveAllConcat(a + [lines[k]], b, pid);
      RemoveAllConcat(a, [lines[k]], pid);
      assert RemoveAll([lines[k]], pid) == [] by {
        assert [lines[k]][..0] == [];
      }
      RemoveAllAbsent(a, pid);
      RemoveAllAbsent(b, pid);
    }
  }

  /** Removing a product's first line keeps the other lines, in order, and no duplicates appear. */
  lemma RemoveFirstUnique<I>(lines: seq<Line<I>>, pid: int)
    requires Unique(lines)
    ensures Unique(RemoveFirst(lines, pid))
    ensures forall i :: 0 <= i < |RemoveFirst(lines, pid)| ==> RemoveFirst(lines, pid)[i] in lines
  {
    var k := FirstIndexOf(lines, pid);
    if k >= 0 {
      var r := RemoveAt(lines, k);
      assert forall i :: 0 <= i < |r| ==> r[i] == if i < k then lines[i] else lines[i + 1];
    }
  }

  lemma RemoveAllUnique<I>(lines: seq<Line<I>>, pid: int)
    requires Unique(lines)
    ensures Unique(RemoveAll(lines, pid))
  {
    RemoveFirstIsRemoveAll(lines, pid);
    RemoveFirstUnique(lines, pid);
  }

  /**
    After merging guest lines into a persisted cart, every product's quantity
    is its old persisted quantity plus its guest quantity.
   */
  lemma {:induction false} MergeLinesQty<I>(lines: seq<CartItem>, guest: seq<Line<I>>, p: int)
    ensures QtyOf(MergeLines(lines, guest), p) == QtyOf(lines, p) + QtyOf(guest, p)
  {
    if guest != [] {
      var init := guest[..|guest| - 1];
      var last := guest[|guest| - 1];
      MergeLinesQty(lines, init, p);
      AddQuantityQty(MergeLines(lines, init), last.productId, last.quantity, (), p);
    }
  }

  /** Merging keeps a persisted cart without duplicates. */
  lemma {:induction false} MergeLinesUnique<I>(lines: seq<CartItem>, guest: seq<Line<I>>)
    requires Unique(lines)
    ensures Unique(MergeLines(lines, guest))
  {
    if guest != [] {
      var init := guest[..|guest| - 1];
      var last := guest[|guest| - 1];
      MergeLinesUnique(lines, init);
      AddQuantitySpec(MergeLines(lines, init), last.productId, last.quantity, ());
    }
  }

  /** The merged cart holds a line for exactly the products of either cart. */
  lemma {:induction false} MergeLinesProducts<I>(lines: seq<CartItem>, guest: seq<Line<I>>, p: int)
    ensures HasProduct(MergeLines(lines, guest), p) <==> HasProduct(lines, p) || HasProduct(guest, p)
  {
    if guest != [] {
      var init := guest[..|guest| - 1];
      var last := guest[|guest| - 1];
      var m := MergeLines(lines, init);
      MergeLinesProducts(lines, init, p);
      AddQuantityProducts(m, last.productId, last.quantity, (), p);
      assert guest == init + [last];
      assert HasProduct(guest, p) <==> HasProduct(init, p) || last.productId == p by {
        if HasProduct(guest, p) && last.productId != p {
          var i :| 0 <= i < |guest| && guest[i].productId == p;
          assert init[i].productId == p;
        }
        if HasProduct(init, p) {
          var i :| 0 <= i < |init| && init[i].productId == p;
          assert guest[i].productId == p;
        }
      }
    }
  }

  lemma AddQuantityProducts<I>(lines: seq<Line<I>>, pid: int, qty: int, info: I, p: int)
    ensures HasProduct(AddQuantity(lines, pid, qty, info), p) <==> HasProduct(lines, p) || p == pid
  {
    var r := AddQuantity(lines, pid, qty, info);
    var k := FirstIndexOf(lines, pid);
    if k < 0 {
      assert r[|lines|].productId == pid;
      if HasProduct(lines, p) {
        var i :| 0 <= i < |lines| && lines[i].productId == p;
        assert r[i].productId == p;
      }
    } else {
      assert forall i :: 0 <= i < |r| ==> r[i].productId == lines[i].productId;
      if HasProduct(lines, p) {
        var i :| 0 <= i < |lines| && lines[i].productId == p;
        assert r[i].productId == p;
      }
      if HasProduct(r, p) {
        var i :| 0 <= i < |r| && r[i].productId == p;
        assert lines[i].productId == p;
      }
    }
  }
}
