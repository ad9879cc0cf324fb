/** The cart records of the domain layer, with money held as whole cents
    so that sums are exact. */
module Domain {

  /** One line of a cart: a product, how many units of it, and the unit
      price snapshotted when the line was first inserted. */
  datatype CartItem = CartItem(id: int, cartId: int, productId: int, quantity: int, price: int)

  /** A cart as handed to callers: its row fields plus the lines it owns. */
  datatype Cart = Cart(id: int, userId: int, totalAmount: int, items: seq<CartItem>, isActive: bool)

  /** What one line costs: quantity × unit price. */
  function Subtotal(item: CartItem): int
  {
    item.quantity * item.price
  }

  /** Sum of quantity × price over a list of lines. */
  function Amount(items: seq<CartItem>): int
  {
    if items == [] then 0 else Subtotal(items[0]) + Amount(items[1..])
  }

  /** Sum of the quantities of a list of lines (units, not distinct lines). */
  function Units(items: seq<CartItem>): int
  {
    if items == [] then 0 else items[0].quantity + Units(items[1..])
  }

  lemma {:induction false} AmountAppend(a: seq<CartItem>, b: seq<CartItem>)
    ensures Amount(a + b) == Amount(a) + Amount(b)
  {
    if a == [] {
      assert a + b == b;
    } else {
      assert (a + b)[1..] == a[1..] + b;
      AmountAppend(a[1..], b);
    }
  }

  lemma {:induction false} UnitsAppend(a: seq<CartItem>, b: seq<CartItem>)
    ensures Units(a + b) == Units(a) + Units(b)
  {
    if a == [] {
      assert a + b == b;
    } else {
      assert (a + b)[1..] == a[1..] + b;
      UnitsAppend(a[1..], b);
    }
  }
}
