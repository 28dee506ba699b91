/** The cart table: one row per (user, menu item) line, kept as a sequence in
    insertion order. */
module CartTable {
  import opened Common
  import opened Tables
  import opened Pricing

  /** No line of `cart` belongs to `u` and names `item`. */
  predicate NoLine(cart: seq<CartLine>, u: UserId, item: ItemId) {
    forall l :: l in cart ==> !(l.user == u && l.menuitem == item)
  }

  /** At most one line per (user, menu item) pair. */
  predicate UniqueLines(cart: seq<CartLine>) {
    cart == [] || (NoLine(cart[1..], cart[0].user, cart[0].menuitem) && UniqueLines(cart[1..]))
  }

  /** What the cart table keeps true: one line per pair, each priced as quantity
      times unit price. */
  predicate CartWellFormed(cart: seq<CartLine>) {
    UniqueLines(cart) && forall l :: l in cart ==> WellPriced(l)
  }

  /** `Cart.objects.filter(user=u)`: the lines of `u`, in table order. */
  function LinesOf(cart: seq<CartLine>, u: UserId): (r: seq<CartLine>)
    ensures forall l :: l in r <==> l in cart && l.user == u
    ensures |r| <= |cart|
  {
    if cart == [] then []
    else (if cart[0].user == u then [cart[0]] else []) + LinesOf(cart[1..], u)
  }

  /** The table after `Cart.objects.filter(user=u).delete()`. */
  function WithoutUser(cart: seq<CartLine>, u: UserId): (r: seq<CartLine>)
    ensures forall l :: l in r <==> l in cart && l.user != u
    ensures |r| <= |cart|
  {
    if cart == [] then []
    else (if cart[0].user != u then [cart[0]] else []) + WithoutUser(cart[1..], u)
  }

  /** `get_object_or_404(Cart, user=u, menuitem=item)` without the 404: the first
      matching line, if any. */
  function LineFor(cart: seq<CartLine>, u: UserId, item: ItemId): (r: Option<CartLine>)
    ensures r.Some? ==> r.value in cart && r.value.user == u && r.value.menuitem == item
    ensures r.None? <==> NoLine(cart, u, item)
  {
    if cart == [] then None
    else if cart[0].user == u && cart[0].menuitem == item then Some(cart[0])
    else LineFor(cart[1..], u, item)
  }

  /** The table after deleting the line `LineFor` finds. */
  function RemoveLine(cart: seq<CartLine>, u: UserId, item: ItemId): (r: seq<CartLine>)
    ensures LineFor(cart, u, item).None? ==> r == cart
    ensures LineFor(cart, u, item).Some? ==>
      multiset(r) == multiset(cart) - multiset{LineFor(cart, u, item).value} && |r| == |cart| - 1
  {
    if cart == [] then []
    else
      assert cart == [cart[0]] + cart[1..];
      if cart[0].user == u && cart[0].menuitem == item then cart[1..]
      else [cart[0]] + RemoveLine(cart[1..], u, item)
  }

  /** Clearing a user's cart splits the table exactly: the lines removed are that
      user's lines and every other line is kept. */
  lemma {:induction false} CartSplitsByOwner(cart: seq<CartLine>, u: UserId)
    ensures multiset(cart) == multiset(LinesOf(cart, u)) + multiset(WithoutUser(cart, u))
  {
    if cart != [] {
      CartSplitsByOwner(cart[1..], u);
      assert cart == [cart[0]] + cart[1..];
    }
  }

  /** After clearing `u`'s cart, `u` has no line left and every other user's lines are
      exactly as they were. */
  lemma {:induction false} ClearingKeepsOtherUsers(cart: seq<CartLine>, u: UserId, v: UserId)
    ensures LinesOf(WithoutUser(cart, u), u) == []
    ensures v != u ==> LinesOf(WithoutUser(cart, u), v) == LinesOf(cart, v)
  {
    if cart != [] {
      ClearingKeepsOtherUsers(cart[1..], u, v);
      var rest := WithoutUser(cart[1..], u);
      if cart[0].user != u {
        assert WithoutUser(cart, u) == [cart[0]] + rest;
        assert ([cart[0]] + rest)[0] == cart[0];
        assert ([cart[0]] + rest)[1..] == rest;
      } else {
        assert WithoutUser(cart, u) == rest;
      }
    }
  }

  /** Clearing twice is the same as clearing once. */
  lemma {:induction false} ClearingIsIdempotent(cart: seq<CartLine>, u: UserId)
    ensures WithoutUser(WithoutUser(cart, u), u) == WithoutUser(cart, u)
  {
    if cart != [] {
      ClearingIsIdempotent(cart[1..], u);
      var rest := WithoutUser(cart[1..], u);
      if cart[0].user != u {
        assert ([cart[0]] + rest)[0] == cart[0];
        assert ([cart[0]] + rest)[1..] == rest;
        assert WithoutUser([cart[0]] + rest, u) == [cart[0]] + WithoutUser(rest, u);
      } else {
        assert WithoutUser(cart, u) == rest;
      }
    }
  }

  /** Removing one line leaves no line for that pair, given one line per pair. */
  lemma {:induction false} RemovedLineIsGone(cart: seq<CartLine>, u: UserId, item: ItemId)
    requires UniqueLines(cart)
    ensures NoLine(RemoveLine(cart, u, item), u, item)
  {
    if cart != [] && !(cart[0].user == u && cart[0].menuitem == item) {
      RemovedLineIsGone(cart[1..], u, item);
    }
  }

  /** Any subsequence-by-membership of a well-formed table is well formed. */
  lemma {:induction false} WithoutUserKeepsWellFormed(cart: seq<CartLine>, u: UserId)
    requires CartWellFormed(cart)
    ensures CartWellFormed(WithoutUser(cart, u))
  {
    if cart != [] {
      WithoutUserKeepsWellFormed(cart[1..], u);
      var rest := WithoutUser(cart[1..], u);
      if cart[0].user != u {
        assert NoLine(rest, cart[0].user, cart[0].menuitem);
        assert ([cart[0]] + rest)[0] == cart[0];
        assert ([cart[0]] + rest)[1..] == rest;
        assert UniqueLines([cart[0]] + rest);
      } else {
        assert WithoutUser(cart, u) == rest;
      }
    }
  }

  lemma {:induction false} RemoveLineKeepsWellFormed(cart: seq<CartLine>, u: UserId, item: ItemId)
    requires CartWellFormed(cart)
    ensures CartWellFormed(RemoveLine(cart, u, item))
    ensures forall l :: l in RemoveLine(cart, u, item) ==> l in cart
  {
    if cart != [] && !(cart[0].user == u && cart[0].menuitem == item) {
      RemoveLineKeepsWellFormed(cart[1..], u, item);
      var rest := RemoveLine(cart[1..], u, item);
      assert ([cart[0]] + rest)[1..] == rest;
    }
  }

  lemma {:induction false} AppendKeepsWellFormed(cart: seq<CartLine>, l: CartLine)
    requires CartWellFormed(cart) && NoLine(cart, l.user, l.menuitem) && WellPriced(l)
    ensures CartWellFormed(cart + [l])
  {
    if cart != [] {
      AppendKeepsWellFormed(cart[1..], l);
      assert (cart + [l])[1..] == cart[1..] + [l];
    } else {
      assert [l][1..] == [];
    }
  }
}
