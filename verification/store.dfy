/** The relational store behind the cart repository, as immutable values:
    the Cart table, the CartItem table and their auto-increment counters,
    plus the row-level meaning of the SQL statements the repository issues. */
module CartStore {
  import opened Wrappers
  import opened Domain

  /** A row of the Cart table. Its lines live in the CartItem table. */
  datatype CartRow = CartRow(id: int, userId: int, totalAmount: int, isActive: bool)

  /** Both tables, in insertion order, and the next identity each
      auto-increment column will hand out. */
  datatype Store = Store(carts: seq<CartRow>, items: seq<CartItem>, nextCartId: int, nextItemId: int)

  /** A freshly created database. */
  const Empty := Store([], [], 1, 1)

  /** The two WHERE clauses used on CartItem:
      `CartID = ?` and `CartID = ? AND ProductID = ?`. */
  datatype Key = ByCart(cartId: int) | ByLine(cartId: int, productId: int)

  predicate Matches(k: Key, item: CartItem)
  {
    match k
    case ByCart(c) => item.cartId == c
    case ByLine(c, p) => item.cartId == c && item.productId == p
  }

  /** The item rows whose match against `k` equals `keep`, in store order:
      `SELECT ... WHERE k` with keep, and what `DELETE ... WHERE k` leaves
      behind without it. */
  function Filter(items: seq<CartItem>, k: Key, keep: bool): (r: seq<CartItem>)
    ensures |r| <= |items|
    ensures forall item :: item in r <==> item in items && Matches(k, item) == keep
    ensures |r| == |items| <==> forall i :: 0 <= i < |items| ==> Matches(k, items[i]) == keep
    ensures |r| == |items| ==> r == items
    ensures |r| == 0 <==> forall i :: 0 <= i < |items| ==> Matches(k, items[i]) != keep
  {
    if items == [] then []
    else
      var rest := Filter(items[1..], k, keep);
      assert forall i :: 1 <= i < |items| ==> items[i] == items[1..][i - 1];
      if Matches(k, items[0]) == keep then [items[0]] + rest else rest
  }

  /** `i` is the position of the first row matching `k`: the row a
      single-row query with that WHERE clause reads. */
  predicate IsFirstMatch(items: seq<CartItem>, k: Key, i: int)
  {
    && 0 <= i < |items|
    && Matches(k, items[i])
    && forall j :: 0 <= j < i ==> !Matches(k, items[j])
  }

  /** Position of the first row matching `k`, if any. */
  function Find(items: seq<CartItem>, k: Key): (r: Option<nat>)
    ensures r.Some? ==> IsFirstMatch(items, k, r.value)
    ensures r.None? <==> forall i :: 0 <= i < |items| ==> !Matches(k, items[i])
  {
    if items == [] then None
    else if Matches(k, items[0]) then Some(0)
    else
      match Find(items[1..], k)
      case None => None
      case Some(j) => Some(j + 1)
  }

  /** `UPDATE CartItem SET Quantity = q WHERE k`. */
  function SetQuantity(items: seq<CartItem>, k: Key, q: int): (r: seq<CartItem>)
    ensures |r| == |items|
    ensures forall i :: 0 <= i < |items| ==>
              r[i] == if Matches(k, items[i]) then items[i].(quantity := q) else items[i]
  {
    if items == [] then []
    else [if Matches(k, items[0]) then items[0].(quantity := q) else items[0]] + SetQuantity(items[1..], k, q)
  }

  /** Two item tables whose rows match a clause at the same positions have
      the same first match. */
  lemma FindAgrees(a: seq<CartItem>, b: seq<CartItem>, k: Key)
    requires |a| == |b|
    requires forall j :: 0 <= j < |a| ==> Matches(k, a[j]) == Matches(k, b[j])
    ensures Find(a, k) == Find(b, k)
  {
    match Find(a, k)
    case None =>
    case Some(i) =>
      assert Matches(k, b[i]);
      var j := Find(b, k).value;
      assert !(j < i) && !(i < j);
  }

  /** Setting quantities leaves the first match where it was. */
  lemma SetQuantityKeepsFind(items: seq<CartItem>, k: Key, q: int)
    ensures Find(SetQuantity(items, k, q), k) == Find(items, k)
  {
    var r := SetQuantity(items, k, q);
    assert forall j :: 0 <= j < |items| ==> Matches(k, r[j]) == Matches(k, items[j]);
    FindAgrees(r, items, k);
  }

  /** `after` is `before` with the quantity of every row matching `k` set to `q`. */
  ghost predicate QuantitySet(before: seq<CartItem>, after: seq<CartItem>, k: Key, q: int)
  {
    && |after| == |before|
    && forall i :: 0 <= i < |before| ==>
         after[i] == if Matches(k, before[i]) then before[i].(quantity := q) else before[i]
  }

  /** `SELECT COALESCE(SUM(Quantity * Price), 0) FROM CartItem WHERE k`:
      the aggregate, computed in one pass over the table. It equals the sum
      over the rows the same WHERE clause selects, and 0 when none match. */
  function SumWhere(items: seq<CartItem>, k: Key): (r: int)
    ensures r == Amount(Filter(items, k, true))
    ensures (forall i :: 0 <= i < |items| ==> !Matches(k, items[i])) ==> r == 0
  {
    if items == [] then 0
    else
      var rest := Filter(items[1..], k, true);
      assert Matches(k, items[0]) ==>
        (Filter(items, k, true) == [items[0]] + rest && ([items[0]] + rest)[1..] == rest);
      (if Matches(k, items[0]) then Subtotal(items[0]) else 0) + SumWhere(items[1..], k)
  }

  /** Selecting after appending one row. */
  lemma {:induction false} FilterAppend(items: seq<CartItem>, item: CartItem, k: Key, keep: bool)
    ensures Filter(items + [item], k, keep)
         == Filter(items, k, keep) + (if Matches(k, item) == keep then [item] else [])
  {
    if items == [] {
      assert items + [item] == [item];
    } else {
      var all := items + [item];
      assert all[0] == items[0] && all[1..] == items[1..] + [item];
      FilterAppend(items[1..], item, k, keep);
    }
  }

  /** The cart rows `WHERE UserID = ? AND IsActive = true` selects. */
  predicate ActiveFor(row: CartRow, userId: int)
  {
    row.userId == userId && row.isActive
  }

  /** Position of the first active cart row of a user, if any. */
  function FindActive(carts: seq<CartRow>, userId: int): (r: Option<nat>)
    ensures r.Some? ==> r.value < |carts| && ActiveFor(carts[r.value], userId)
                        && forall j :: 0 <= j < r.value ==> !ActiveFor(carts[j], userId)
    ensures r.None? <==> forall i :: 0 <= i < |carts| ==> !ActiveFor(carts[i], userId)
  {
    if carts == [] then None
    else if ActiveFor(carts[0], userId) then Some(0)
    else
      match FindActive(carts[1..], userId)
      case None => None
      case Some(j) => Some(j + 1)
  }

  predicate HasCart(carts: seq<CartRow>, id: int)
  {
    exists i :: 0 <= i < |carts| && carts[i].id == id
  }

  /** `UPDATE Cart SET TotalAmount = total WHERE ID = id`. */
  function SetTotal(carts: seq<CartRow>, id: int, total: int): (r: seq<CartRow>)
    ensures |r| == |carts|
    ensures forall i :: 0 <= i < |carts| ==>
              r[i] == if carts[i].id == id then carts[i].(totalAmount := total) else carts[i]
  {
    if carts == [] then []
    else [if carts[0].id == id then carts[0].(totalAmount := total) else carts[0]] + SetTotal(carts[1..], id, total)
  }

  /** `DELETE FROM Cart WHERE ID = id`: the rows left behind. */
  function DropCart(carts: seq<CartRow>, id: int): (r: seq<CartRow>)
    ensures |r| <= |carts|
    ensures forall row :: row in r <==> row in carts && row.id != id
    ensures |r| == |carts| <==> !HasCart(carts, id)
  {
    if carts == [] then []
    else
      var rest := DropCart(carts[1..], id);
      assert forall i :: 1 <= i < |carts| ==> carts[i] == carts[1..][i - 1];
      if carts[0].id != id then [carts[0]] + rest else rest
  }

  /** Deleting from a table with one more row at its end: the rows left
      behind keep their order, and the new row survives exactly when its id
      differs. */
  lemma {:induction false} DropCartAppend(carts: seq<CartRow>, row: CartRow, id: int)
    ensures DropCart(carts + [row], id) == DropCart(carts, id) + (if row.id != id then [row] else [])
  {
    if carts == [] {
      assert carts + [row] == [row];
    } else {
      assert (carts + [row])[1..] == carts[1..] + [row];
      DropCartAppend(carts[1..], row, id);
    }
  }

  // ----- Invariants of a well-kept store -----

  /** Every identity handed out so far is below its counter. */
  ghost predicate IdsFresh(s: Store)
  {
    && (forall i :: 0 <= i < |s.carts| ==> s.carts[i].id < s.nextCartId)
    && (forall i :: 0 <= i < |s.items| ==> s.items[i].id < s.nextItemId)
  }

  /** Within one cart, at most one line per product. */
  ghost predicate OneLinePerProduct(items: seq<CartItem>)
  {
    forall i, j :: 0 <= i < j < |items| && items[i].cartId == items[j].cartId ==>
      items[i].productId != items[j].productId
  }

  ghost predicate QuantitiesPositive(items: seq<CartItem>)
  {
    forall i :: 0 <= i < |items| ==> items[i].quantity > 0
  }

  /** No line outlives its cart. */
  ghost predicate ItemsHaveCarts(s: Store)
  {
    forall i :: 0 <= i < |s.items| ==> HasCart(s.carts, s.items[i].cartId)
  }

  /** Every stored total equals quantity × price summed over the cart's lines. */
  ghost predicate TotalsCurrent(s: Store)
  {
    forall i :: 0 <= i < |s.carts| ==>
      s.carts[i].totalAmount == Amount(Filter(s.items, ByCart(s.carts[i].id), true))
  }

  ghost predicate Consistent(s: Store)
  {
    && IdsFresh(s)
    && OneLinePerProduct(s.items)
    && QuantitiesPositive(s.items)
    && ItemsHaveCarts(s)
    && TotalsCurrent(s)
  }

  /** After a mutation of cart `cartId`'s lines, the cart rows of `after`
      are those of `before` with exactly that cart's total recomputed from
      the lines now stored. */
  ghost predicate TotalRefreshed(before: seq<CartRow>, after: Store, cartId: int)
  {
    && |after.carts| == |before|
    && forall i :: 0 <= i < |before| ==>
         after.carts[i] == if before[i].id == cartId
                           then before[i].(totalAmount := Amount(Filter(after.items, ByCart(cartId), true)))
                           else before[i]
  }
}
