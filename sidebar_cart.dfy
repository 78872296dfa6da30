/**
 * The cart sidebar: buttons that change one line's quantity, remove it, or
 * close the sidebar, each delegating to the shared cart service.
 */
module SidebarCart {
  import opened Cart

  class SidebarCartComponent {
    const cartService: CartService

    constructor(cartService: CartService)
      ensures this.cartService == cartService
    {
      this.cartService := cartService;
    }

    method CloseSidebar()
      modifies cartService
      ensures !cartService.sidebarOpen && cartService.items == old(cartService.items)
    {
      cartService.CloseSidebar();
    }

    /** The "+" button: ask for one unit more than the line shows. */
    method IncreaseQuantity(itemId: int, currentQuantity: int)
      modifies cartService
      ensures cartService.items == Updated(old(cartService.items), itemId, currentQuantity + 1)
      ensures cartService.sidebarOpen == old(cartService.sidebarOpen)
      ensures old(cartService.Valid()) ==> cartService.Valid()
    {
      cartService.UpdateQuantity(itemId, currentQuantity + 1);
    }

    /** The "-" button: ask for one unit less; from a single unit this drops
        the line. */
    method DecreaseQuantity(itemId: int, currentQuantity: int)
      modifies cartService
      ensures cartService.items == Updated(old(cartService.items), itemId, currentQuantity - 1)
      ensures currentQuantity <= 1 ==> cartService.items == Removed(old(cartService.items), itemId)
      ensures cartService.sidebarOpen == old(cartService.sidebarOpen)
      ensures old(cartService.Valid()) ==> cartService.Valid()
    {
      cartService.UpdateQuantity(itemId, currentQuantity - 1);
    }

    method RemoveItem(itemId: int)
      modifies cartService
      ensures cartService.items == Removed(old(cartService.items), itemId)
      ensures cartService.sidebarOpen == old(cartService.sidebarOpen)
      ensures old(cartService.Valid()) ==> cartService.Valid()
    {
      cartService.RemoveItem(itemId);
    }
  }

  /** Pressing "+" on a line showing its quantity and then "-" on the line now
      showing one more gives back the cart as it was. */
  lemma IncreaseThenDecrease(items: seq<CartItem>, i: int)
    requires CartInvariant(items) && 0 <= i < |items|
    ensures var id, q := items[i].Id(), items[i].quantity;
      Updated(Updated(items, id, q + 1), id, q + 1 - 1) == items
  {
    var id, q := items[i].Id(), items[i].quantity;
    assert q >= 1;
    RequantifyRoundTrip(items, id, q + 1, i);
  }

  /** Pressing "-" on a line holding one unit removes it and takes its price
      off the total, and its single unit off the count. */
  lemma DecreaseLastUnit(items: seq<CartItem>, i: int)
    requires CartInvariant(items) && 0 <= i < |items| && items[i].quantity == 1
    ensures var r := Updated(items, items[i].Id(), 1 - 1);
      && |r| == |items| - 1
      && !HasId(r, items[i].Id())
      && SumQuantities(r) == SumQuantities(items) - 1
      && SumSubtotals(r) == SumSubtotals(items) - items[i].product.precio
  {
    var id := items[i].Id();
    assert LineOk(items[i]);
    RemoveAt(items, id, i);
    assert FindIndex(items, id) == i;
    RemovedSums(items, id);
  }
}
