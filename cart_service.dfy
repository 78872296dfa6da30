/**
 * The client-side shopping cart: an ordered list of line items and a flag
 * saying whether the cart sidebar is open.
 *
 * The list operations are pure functions over `seq<CartItem>`; the service is
 * a class whose methods replace its `items` and `sidebarOpen` fields exactly as
 * those functions say.  `total` and `cartCount` are the folds `SumSubtotals`
 * and `SumQuantities`.
 */
module Cart {
  import opened ProductModel

  /** A product in the cart with how many units were ordered and what they
      cost together (`{...product, quantity, subtotal}`). */
  datatype CartItem = CartItem(product: Product, quantity: int, subtotal: int) {
    /** `item.id`: the id of the product the line is for. */
    function Id(): int { product.id }
  }

  /** The line a product gets when it first enters the cart. */
  function NewItem(p: Product): (item: CartItem)
    ensures item.Id() == p.id && item.quantity == 1 && item.subtotal == p.precio
  {
    CartItem(p, 1, p.precio)
  }

  /** `items.findIndex(item => item.id === id)`. */
  function FindIndex(items: seq<CartItem>, id: int): (i: int)
    ensures -1 <= i < |items|
    ensures i >= 0 ==> items[i].Id() == id && forall j :: 0 <= j < i ==> items[j].Id() != id
    ensures i == -1 <==> forall j :: 0 <= j < |items| ==> items[j].Id() != id
    decreases |items|
  {
    if items == [] then -1
    else if items[0].Id() == id then 0
    else
      var j := FindIndex(items[1..], id);
      if j == -1 then -1 else j + 1
  }

  predicate HasId(items: seq<CartItem>, id: int) {
    exists j :: 0 <= j < |items| && items[j].Id() == id
  }

  /** `items.filter(item => item.id !== id)`. */
  function Removed(items: seq<CartItem>, id: int): (r: seq<CartItem>)
    ensures |r| <= |items|
    decreases |items|
  {
    if items == [] then []
    else if items[0].Id() == id then Removed(items[1..], id)
    else [items[0]] + Removed(items[1..], id)
  }

  /** A line with a new quantity and the subtotal recomputed from the line's
      own price. */
  function WithQuantity(item: CartItem, q: int): (r: CartItem)
    ensures r.product == item.product && r.quantity == q
    ensures r.subtotal == item.product.precio * q
  {
    item.(quantity := q, subtotal := item.product.precio * q)
  }

  /** The `map` of `updateQuantity`: every line with that id gets quantity `q`,
      every other line stays as it is. */
  function Requantified(items: seq<CartItem>, id: int, q: int): (r: seq<CartItem>)
    ensures |r| == |items|
    ensures forall k :: 0 <= k < |r| ==>
              r[k] == if items[k].Id() == id then WithQuantity(items[k], q) else items[k]
    decreases |items|
  {
    if items == [] then []
    else
      var head := if items[0].Id() == id then WithQuantity(items[0], q) else items[0];
      [head] + Requantified(items[1..], id, q)
  }

  /** The list `updateQuantity(id, q)` leaves behind. */
  function Updated(items: seq<CartItem>, id: int, q: int): seq<CartItem> {
    if q <= 0 then Removed(items, id) else Requantified(items, id, q)
  }

  /** The list `addItem(p)` leaves behind. */
  function Added(items: seq<CartItem>, p: Product): seq<CartItem> {
    var i := FindIndex(items, p.id);
    if i > -1 then Updated(items, p.id, items[i].quantity + 1)
    else items + [NewItem(p)]
  }

  /** `total`: the sum of the subtotals. */
  function SumSubtotals(items: seq<CartItem>): int
    decreases |items|
  {
    if items == [] then 0 else items[0].subtotal + SumSubtotals(items[1..])
  }

  /** `cartCount`: the sum of the quantities. */
  function SumQuantities(items: seq<CartItem>): int
    decreases |items|
  {
    if items == [] then 0 else items[0].quantity + SumQuantities(items[1..])
  }

  predicate IdsUnique(items: seq<CartItem>) {
    forall j, k :: 0 <= j < k < |items| ==> items[j].Id() != items[k].Id()
  }

  predicate LineOk(item: CartItem) {
    item.quantity >= 1 && item.subtotal == item.product.precio * item.quantity
  }

  /** What every reachable cart satisfies: one line per product id, at least
      one unit per line, and each subtotal equal to price times quantity. */
  predicate CartInvariant(items: seq<CartItem>) {
    IdsUnique(items) && forall k :: 0 <= k < |items| ==> LineOk(items[k])
  }

  // ---------------------------------------------------------------------------
  // The service

  class CartService {
    var items: seq<CartItem>
    var sidebarOpen: bool

    /** A cart starts empty with the sidebar closed. */
    constructor()
      ensures items == [] && !sidebarOpen
    {
      items := [];
      sidebarOpen := false;
    }

    ghost predicate Valid()
      reads this
    {
      CartInvariant(items)
    }

    /** `total()`. */
    function Total(): int
      reads this
    {
      SumSubtotals(items)
    }

    /** `cartCount()`. */
    function CartCount(): int
      reads this
    {
      SumQuantities(items)
    }

    /** `addItem`: a product already in the cart gets one more unit and the
        sidebar is left alone; a new product is appended and opens it. */
    method AddItem(p: Product)
      modifies this
      ensures items == Added(old(items), p)
      ensures sidebarOpen == (old(sidebarOpen) || FindIndex(old(items), p.id) == -1)
      ensures old(Valid()) ==> Valid()
    {
      var current := items;
      var existing := FindIndex(current, p.id);
      if existing > -1 {
        UpdateQuantity(p.id, current[existing].quantity + 1);
      } else {
        items := current + [NewItem(p)];
        OpenSidebar();
      }
      if CartInvariant(current) {
        AddedInvariant(current, p);
      }
    }

    /** `removeItem`: drop every line with that id. */
    method RemoveItem(id: int)
      modifies this
      ensures items == Removed(old(items), id) && sidebarOpen == old(sidebarOpen)
      ensures old(Valid()) ==> Valid()
    {
      if CartInvariant(items) {
        RemovedInvariant(items, id);
      }
      items := Removed(items, id);
    }

    /** `updateQuantity`: a quantity of zero or less removes the line; any
        other sets it and recomputes the subtotal. */
    method UpdateQuantity(id: int, q: int)
      modifies this
      ensures items == Updated(old(items), id, q) && sidebarOpen == old(sidebarOpen)
      ensures old(Valid()) ==> Valid()
    {
      if q <= 0 {
        RemoveItem(id);
        return;
      }
      if CartInvariant(items) {
        UpdatedInvariant(items, id, q);
      }
      items := Requantified(items, id, q);
    }

    method ToggleSidebar()
      modifies this
      ensures sidebarOpen == !old(sidebarOpen) && items == old(items)
    {
      sidebarOpen := !sidebarOpen;
    }

    method OpenSidebar()
      modifies this
      ensures sidebarOpen && items == old(items)
    {
      sidebarOpen := true;
    }

    method CloseSidebar()
      modifies this
      ensures !sidebarOpen && items == old(items)
    {
      sidebarOpen := false;
    }
  }

  // ---------------------------------------------------------------------------
  // The invariant is kept by every mutation

  /** The empty cart satisfies the invariant. */
  lemma EmptyInvariant()
    ensures CartInvariant([])
  {
  }

  /** The filter keeps exactly the lines with another id: every line it
      keeps is a line of the cart without that id, and every such line is
      kept. */
  lemma {:induction false} RemovedMembers(items: seq<CartItem>, id: int)
    ensures forall k :: 0 <= k < |Removed(items, id)| ==>
              Removed(items, id)[k].Id() != id && Removed(items, id)[k] in items
    ensures forall k :: 0 <= k < |items| && items[k].Id() != id ==> items[k] in Removed(items, id)
    decreases |items|
  {
    if items != [] {
      var tail := items[1..];
      RemovedMembers(tail, id);
      var r, rest := Removed(items, id), Removed(tail, id);
      assert r == (if items[0].Id() == id then rest else [items[0]] + rest);
      forall k | 0 <= k < |r|
        ensures r[k].Id() != id && r[k] in items
      {
        if items[0].Id() != id && k == 0 {
          assert r[0] == items[0];
        } else {
          var k' := if items[0].Id() == id then k else k - 1;
          assert r[k] == rest[k'];
          assert rest[k'] in tail;
        }
      }
      forall k | 0 <= k < |items| && items[k].Id() != id
        ensures items[k] in r
      {
        if k == 0 {
          assert r[0] == items[0];
        } else {
          assert items[k] == tail[k - 1];
        }
      }
    }
  }

  lemma RemovedInvariant(items: seq<CartItem>, id: int)
    requires CartInvariant(items)
    ensures CartInvariant(Removed(items, id))
  {
    RemovedSubsequence(items, id);
    RemovedMembers(items, id);
  }

  /** `Removed` keeps a sub-list of the items in their order, so the ids of
      any two of its lines come from two distinct positions of `items`. */
  lemma {:induction false} RemovedSubsequence(items: seq<CartItem>, id: int)
    requires IdsUnique(items)
    ensures IdsUnique(Removed(items, id))
    decreases |items|
  {
    if items != [] {
      RemovedSubsequence(items[1..], id);
      RemovedMembers(items[1..], id);
      var rest := Removed(items[1..], id);
      assert forall k :: 0 <= k < |rest| ==> rest[k].Id() != items[0].Id() by {
        forall k | 0 <= k < |rest|
          ensures rest[k].Id() != items[0].Id()
        {
          var j :| 0 <= j < |items[1..]| && items[1..][j] == rest[k];
          assert items[j + 1] == rest[k];
        }
      }
    }
  }

  lemma UpdatedInvariant(items: seq<CartItem>, id: int, q: int)
    requires CartInvariant(items)
    ensures CartInvariant(Updated(items, id, q))
  {
    if q <= 0 {
      RemovedInvariant(items, id);
    } else {
      var r := Requantified(items, id, q);
      assert forall k :: 0 <= k < |r| ==> r[k].Id() == items[k].Id();
    }
  }

  /** `addItem` keeps the invariant. */
  lemma AddedInvariant(items: seq<CartItem>, p: Product)
    requires CartInvariant(items)
    ensures CartInvariant(Added(items, p))
  {
    var i := FindIndex(items, p.id);
    if i > -1 {
      UpdatedInvariant(items, p.id, items[i].quantity + 1);
    } else {
      var r := items + [NewItem(p)];
      assert forall k :: 0 <= k < |items| ==> r[k] == items[k];
    }
  }

  // ---------------------------------------------------------------------------
  // What each operation does to the list

  /** Adding a product the cart does not hold appends exactly one line for it
      at the end and leaves the earlier lines alone. */
  lemma AddNew(items: seq<CartItem>, p: Product)
    requires !HasId(items, p.id)
    ensures var r := Added(items, p);
      |r| == |items| + 1 && r[..|items|] == items && r[|items|] == NewItem(p)
  {
    assert r: Added(items, p) == items + [NewItem(p)];
  }

  /** Adding a product the cart already holds keeps length and order and
      raises that line's quantity by one, repricing it from its own stored
      price; the other lines are untouched. */
  lemma AddExisting(items: seq<CartItem>, p: Product, i: int)
    requires CartInvariant(items)
    requires 0 <= i < |items| && items[i].Id() == p.id
    ensures var r := Added(items, p);
      && |r| == |items|
      && r[i].product == items[i].product
      && r[i].quantity == items[i].quantity + 1
      && r[i].subtotal == items[i].product.precio * (items[i].quantity + 1)
      && forall k :: 0 <= k < |items| && k != i ==> r[k] == items[k]
  {
    var f := FindIndex(items, p.id);
    assert f == i;
    assert items[i].quantity + 1 > 0;
  }

  /** An update with quantity zero or less is the removal of that id. */
  lemma UpdateNonPositiveRemoves(items: seq<CartItem>, id: int, q: int)
    requires q <= 0
    ensures Updated(items, id, q) == Removed(items, id)
  {
  }

  /** Removing or re-quantifying an id the cart does not hold changes
      nothing. */
  lemma {:induction false} AbsentIdNoop(items: seq<CartItem>, id: int, q: int)
    requires !HasId(items, id)
    ensures Removed(items, id) == items
    ensures Requantified(items, id, q) == items
    ensures Updated(items, id, q) == items
    decreases |items|
  {
    if items != [] {
      assert items[0].Id() != id;
      assert !HasId(items[1..], id) by {
        forall j | 0 <= j < |items[1..]|
          ensures items[1..][j].Id() != id
        {
          assert items[1..][j] == items[j + 1];
        }
      }
      AbsentIdNoop(items[1..], id, q);
      assert items == [items[0]] + items[1..];
    }
  }

  /** Removal distributes over concatenation: it keeps the surviving lines
      in their relative order. */
  lemma {:induction false} RemovedAppend(a: seq<CartItem>, b: seq<CartItem>, id: int)
    ensures Removed(a + b, id) == Removed(a, id) + Removed(b, id)
    decreases |a|
  {
    if a == [] {
      assert a + b == b;
    } else {
      assert (a + b)[0] == a[0];
      assert (a + b)[1..] == a[1..] + b;
      RemovedAppend(a[1..], b, id);
    }
  }

  /** A positive update on an id the cart holds changes that one line to the
      new quantity and leaves the length and every other line alone. */
  lemma UpdatePositive(items: seq<CartItem>, id: int, q: int, i: int)
    requires q > 0 && IdsUnique(items)
    requires 0 <= i < |items| && items[i].Id() == id
    ensures var r := Updated(items, id, q);
      && |r| == |items|
      && r[i] == WithQuantity(items[i], q)
      && forall k :: 0 <= k < |items| && k != i ==> r[k] == items[k]
  {
  }

  /** Setting a line to some quantity and then back to the old one restores
      the cart. */
  lemma RequantifyRoundTrip(items: seq<CartItem>, id: int, q: int, i: int)
    requires CartInvariant(items)
    requires 0 <= i < |items| && items[i].Id() == id
    ensures Requantified(Requantified(items, id, q), id, items[i].quantity) == items
  {
    var r := Requantified(items, id, q);
    var s := Requantified(r, id, items[i].quantity);
    forall k | 0 <= k < |items|
      ensures s[k] == items[k]
    {
      if items[k].Id() == id {
        assert k == i;
      }
    }
  }

  // ---------------------------------------------------------------------------
  // Totals

  lemma {:induction false} SumsAppend(a: seq<CartItem>, b: seq<CartItem>)
    ensures SumSubtotals(a + b) == SumSubtotals(a) + SumSubtotals(b)
    ensures SumQuantities(a + b) == SumQuantities(a) + SumQuantities(b)
    decreases |a|
  {
    if a == [] {
      assert a + b == b;
    } else {
      assert (a + b)[0] == a[0];
      assert (a + b)[1..] == a[1..] + b;
      SumsAppend(a[1..], b);
    }
  }

  /** With distinct ids, re-quantifying the line at `i` changes the count by
      the difference in quantity and the total by the difference in
      subtotal. */
  lemma {:induction false} RequantifiedSums(items: seq<CartItem>, id: int, q: int, i: int)
    requires IdsUnique(items)
    requires 0 <= i < |items| && items[i].Id() == id
    ensures SumQuantities(Requantified(items, id, q)) == SumQuantities(items) - items[i].quantity + q
    ensures SumSubtotals(Requantified(items, id, q))
         == SumSubtotals(items) - items[i].subtotal + items[i].product.precio * q
    decreases |items|
  {
    var r := Requantified(items, id, q);
    assert r[1..] == Requantified(items[1..], id, q);
    if i == 0 {
      assert !HasId(items[1..], id) by {
        forall j | 0 <= j < |items[1..]|
          ensures items[1..][j].Id() != id
        {
          assert items[1..][j] == items[j + 1];
        }
      }
      AbsentIdNoop(items[1..], id, q);
    } else {
      RequantifiedSums(items[1..], id, q, i - 1);
    }
  }

  lemma MulSucc(a: int, b: int)
    ensures a * (b + 1) == a * b + a
  {
  }

  /** One more unit on a well-formed line raises the count by one and the
      total by the line's stored price. */
  lemma IncrementSums(items: seq<CartItem>, id: int, i: int)
    requires IdsUnique(items)
    requires 0 <= i < |items| && items[i].Id() == id && LineOk(items[i])
    ensures SumQuantities(Requantified(items, id, items[i].quantity + 1)) == SumQuantities(items) + 1
    ensures SumSubtotals(Requantified(items, id, items[i].quantity + 1))
         == SumSubtotals(items) + items[i].product.precio
  {
    var line := items[i];
    RequantifiedSums(items, id, line.quantity + 1, i);
    MulSucc(line.product.precio, line.quantity);
  }

  /** Every `addItem` raises the item count by exactly one and the total by
      the price of the line it touches: the stored price for a product
      already in the cart, the product's price for a new one. */
  lemma AddedSums(items: seq<CartItem>, p: Product)
    requires CartInvariant(items)
    ensures SumQuantities(Added(items, p)) == SumQuantities(items) + 1
    ensures var i := FindIndex(items, p.id);
      SumSubtotals(Added(items, p))
        == SumSubtotals(items) + (if i >= 0 then items[i].product.precio else p.precio)
  {
    var i := FindIndex(items, p.id);
    if i >= 0 {
      assert LineOk(items[i]);
      IncrementSums(items, p.id, i);
    } else {
      SumsAppend(items, [NewItem(p)]);
    }
  }

  /** A stretch of the cart none of whose lines has the id is kept whole. */
  lemma RemovedSliceNoop(items: seq<CartItem>, id: int, lo: nat, hi: nat)
    requires lo <= hi <= |items|
    requires forall j :: lo <= j < hi ==> items[j].Id() != id
    ensures Removed(items[lo..hi], id) == items[lo..hi]
  {
    var s := items[lo..hi];
    assert !HasId(s, id) by {
      forall j | 0 <= j < |s|
        ensures s[j].Id() != id
      {
        assert s[j] == items[lo + j];
      }
    }
    AbsentIdNoop(s, id, 0);
  }

  /** Filtering out the id of a line between two stretches that the filter
      keeps whole leaves the two stretches joined. */
  lemma RemovedSplice(a: seq<CartItem>, x: CartItem, b: seq<CartItem>, id: int)
    requires x.Id() == id && Removed(a, id) == a && Removed(b, id) == b
    ensures Removed(a + [x] + b, id) == a + b
  {
    RemovedAppend(a + [x], b, id);
    RemovedAppend(a, [x], id);
    assert Removed([x], id) == [];
    assert a + [] + b == a + b;
  }

  /** With distinct ids, removing the id held at `i` cuts out exactly that
      position. */
  lemma RemoveAt(items: seq<CartItem>, id: int, i: int)
    requires IdsUnique(items)
    requires 0 <= i < |items| && items[i].Id() == id
    ensures Removed(items, id) == items[..i] + items[i + 1..]
  {
    RemoveOnly(items, id, i);
  }

  /** Removing an id that only position `i` holds cuts out that position. */
  lemma RemoveOnly(items: seq<CartItem>, id: int, i: int)
    requires 0 <= i < |items| && items[i].Id() == id
    requires forall j :: 0 <= j < |items| && j != i ==> items[j].Id() != id
    ensures Removed(items, id) == items[..i] + items[i + 1..]
  {
    var a, b := items[..i], items[i + 1..];
    RemovedSliceNoop(items, id, 0, i);
    RemovedSliceNoop(items, id, i + 1, |items|);
    assert items[0..i] == a && items[i + 1..|items|] == b;
    assert items == a + [items[i]] + b;
    RemovedSplice(a, items[i], b, id);
  }

  /** Removing an id the cart does not hold leaves total and count alone;
      removing one it holds takes exactly that line's quantity and subtotal
      away. */
  lemma RemovedSums(items: seq<CartItem>, id: int)
    requires IdsUnique(items)
    ensures var i := FindIndex(items, id);
      && SumQuantities(Removed(items, id)) == SumQuantities(items) - (if i >= 0 then items[i].quantity else 0)
      && SumSubtotals(Removed(items, id)) == SumSubtotals(items) - (if i >= 0 then items[i].subtotal else 0)
  {
    var i := FindIndex(items, id);
    if i < 0 {
      AbsentIdNoop(items, id, 0);
    } else {
      var a, b := items[..i], items[i + 1..];
      RemoveAt(items, id, i);
      assert items == (a + [items[i]]) + b;
      SumsAppend(a, b);
      SumsAppend(a + [items[i]], b);
      SumsAppend(a, [items[i]]);
    }
  }

  // ---------------------------------------------------------------------------
  // A run of additions

  /** The list a sequence of `addItem` calls leaves behind, in call order. */
  function AddAll(items: seq<CartItem>, ps: seq<Product>): seq<CartItem>
    decreases |ps|
  {
    if ps == [] then items else AddAll(Added(items, ps[0]), ps[1..])
  }

  function SumPrices(ps: seq<Product>): int
    decreases |ps|
  {
    if ps == [] then 0 else ps[0].precio + SumPrices(ps[1..])
  }

  predicate ProductIdsUnique(ps: seq<Product>) {
    forall j, k :: 0 <= j < k < |ps| ==> ps[j].id != ps[k].id
  }

  /** Adding products whose ids are distinct and not yet in the cart appends
      one line per product: the count grows by their number and the total by
      the sum of their prices. */
  lemma {:induction false} AddAllFresh(items: seq<CartItem>, ps: seq<Product>)
    requires ProductIdsUnique(ps)
    requires forall k :: 0 <= k < |ps| ==> !HasId(items, ps[k].id)
    ensures |AddAll(items, ps)| == |items| + |ps|
    ensures SumQuantities(AddAll(items, ps)) == SumQuantities(items) + |ps|
    ensures SumSubtotals(AddAll(items, ps)) == SumSubtotals(items) + SumPrices(ps)
    decreases |ps|
  {
    if ps != [] {
      var next := items + [NewItem(ps[0])];
      assert FindIndex(items, ps[0].id) == -1;
      assert Added(items, ps[0]) == next;
      SumsAppend(items, [NewItem(ps[0])]);
      forall k | 0 <= k < |ps[1..]|
        ensures !HasId(next, ps[1..][k].id)
      {
        assert ps[1..][k] == ps[k + 1];
        forall j | 0 <= j < |next|
          ensures next[j].Id() != ps[k + 1].id
        {
          if j < |items| {
            assert next[j] == items[j];
          }
        }
      }
      AddAllFresh(next, ps[1..]);
    }
  }

  /** From the empty cart, n additions of distinct products give a count of n
      and a total equal to the sum of their prices. */
  lemma AddDistinctFromEmpty(ps: seq<Product>)
    requires ProductIdsUnique(ps)
    ensures SumQuantities(AddAll([], ps)) == |ps|
    ensures SumSubtotals(AddAll([], ps)) == SumPrices(ps)
  {
    AddAllFresh([], ps);
  }
}
