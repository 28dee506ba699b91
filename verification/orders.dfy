/** The order-item table and the per-order views of it. */
module OrderTable {
  import opened Common
  import opened Tables

  /** The order lines placement creates for `lines`: one per cart line, in cart
      order, copying the menu item and the quantity. */
  function ItemsFor(id: OrderId, lines: seq<CartLine>): (r: seq<OrderItem>)
    ensures |r| == |lines|
    ensures forall i :: 0 <= i < |lines| ==> r[i] == OrderItem(id, lines[i].menuitem, lines[i].quantity)
  {
    seq(|lines|, i requires 0 <= i < |lines| => OrderItem(id, lines[i].menuitem, lines[i].quantity))
  }

  /** How many lines, from the front, name an item that is on the menu. Placement
      creates order items for exactly these before it stops at the first that is not. */
  function LeadingOnMenu(lines: seq<CartLine>, menu: map<ItemId, MenuItem>): (k: nat)
    ensures k <= |lines|
    ensures forall i :: 0 <= i < k ==> lines[i].menuitem in menu
    ensures k < |lines| ==> lines[k].menuitem !in menu
  {
    if lines == [] || lines[0].menuitem !in menu then 0
    else 1 + LeadingOnMenu(lines[1..], menu)
  }

  /** `OrderItem.objects.filter(order_id=id)`: the lines of order `id`, in table order. */
  function ItemsOf(items: seq<OrderItem>, id: OrderId): (r: seq<OrderItem>)
    ensures forall x :: x in r <==> x in items && x.order == id
  {
    if items == [] then []
    else (if items[0].order == id then [items[0]] else []) + ItemsOf(items[1..], id)
  }

  /** The table after the lines of order `id` are deleted together with it. */
  function ItemsNotOf(items: seq<OrderItem>, id: OrderId): (r: seq<OrderItem>)
    ensures forall x :: x in r <==> x in items && x.order != id
  {
    if items == [] then []
    else (if items[0].order != id then [items[0]] else []) + ItemsNotOf(items[1..], id)
  }

  lemma {:induction false} ItemsOfAppend(a: seq<OrderItem>, b: seq<OrderItem>, id: OrderId)
    ensures ItemsOf(a + b, id) == ItemsOf(a, id) + ItemsOf(b, id)
  {
    if a == [] {
      assert a + b == b;
    } else {
      ItemsOfAppend(a[1..], b, id);
      assert (a + b)[0] == a[0];
      assert (a + b)[1..] == a[1..] + b;
    }
  }

  /** The lines placement appends for a fresh order `id` are exactly what the detail
      view of that order reads back, in the same order. */
  lemma {:induction false} FreshOrderReadsBackItsItems(items: seq<OrderItem>, id: OrderId, lines: seq<CartLine>)
    requires forall x :: x in items ==> x.order != id
    ensures ItemsOf(items + ItemsFor(id, lines), id) == ItemsFor(id, lines)
  {
    ItemsOfAppend(items, ItemsFor(id, lines), id);
    NoItemsOfOtherOrder(items, id);
    AllOwnItemsKept(id, lines);
  }

  lemma {:induction false} NoItemsOfOtherOrder(items: seq<OrderItem>, id: OrderId)
    requires forall x :: x in items ==> x.order != id
    ensures ItemsOf(items, id) == []
  {
    if items != [] {
      NoItemsOfOtherOrder(items[1..], id);
    }
  }

  lemma {:induction false} AllOwnItemsKept(id: OrderId, lines: seq<CartLine>)
    ensures ItemsOf(ItemsFor(id, lines), id) == ItemsFor(id, lines)
  {
    if lines != [] {
      AllOwnItemsKept(id, lines[1..]);
      assert ItemsFor(id, lines)[1..] == ItemsFor(id, lines[1..]);
    }
  }
}
