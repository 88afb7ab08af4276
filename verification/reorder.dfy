/** "Reorder" on the orders page: every item of a past order is put back into
    the cart one unit at a time, through the cart's own add operation. */
module Reorder {
  import opened Common
  import opened Cart
  import Orders

  /** The cart item built from an order item: name and price copied, no
      restaurant id and no quantity field, description and image empty (the
      stored order items have neither). */
  function ReorderLine(item: Orders.OrderItem): (x: LineItem)
    ensures x.name == item.name && x.price == item.price
    ensures x.restaurantId.None? && x.description == "" && x.image == ""
    ensures IncomingQuantity(x) == 1
  {
    LineItem(item.name, None, item.price, 0, "", "")
  }

  /** `n` successive adds of the same item (none when `n <= 0`). */
  function AddTimes(lines: seq<LineItem>, x: LineItem, n: int): seq<LineItem>
    decreases if n <= 0 then 0 else n
  {
    if n <= 0 then lines else AddTimes(Add(lines, x), x, n - 1)
  }

  /** The adds of a whole order, item by item in order. */
  function Replay(lines: seq<LineItem>, items: seq<Orders.OrderItem>): seq<LineItem>
    decreases |items|
  {
    if items == [] then lines
    else Replay(AddTimes(lines, ReorderLine(items[0]), items[0].quantity), items[1..])
  }

  /** `handleReorder(order)`. Without a user the cart is not touched; otherwise
      `addToCart` runs once per unit of every item. */
  method HandleReorder(cart: ShoppingCart, loggedIn: bool, order: Orders.Order)
    requires cart.Valid()
    modifies cart
    ensures cart.Valid()
    ensures !loggedIn ==> cart.lines == old(cart.lines)
    ensures loggedIn ==> cart.lines == Replay(old(cart.lines), order.items)
  {
    if !loggedIn {
      return;
    }
    var items := order.items;
    var k := 0;
    while k < |items|
      invariant 0 <= k <= |items|
      invariant cart.Valid()
      invariant Replay(old(cart.lines), items) == Replay(cart.lines, items[k..])
    {
      var x := ReorderLine(items[k]);
      ghost var before := cart.lines;
      var i := 0;
      while i < items[k].quantity
        invariant cart.Valid()
        invariant 0 <= i
        invariant AddTimes(before, x, items[k].quantity) == AddTimes(cart.lines, x, items[k].quantity - i)
        decreases items[k].quantity - i
      {
        cart.AddToCart(x);
        i := i + 1;
      }
      assert items[k..][1..] == items[k + 1..];
      k := k + 1;
    }
  }

  /** An item with quantity 0 (or less) adds nothing. */
  lemma {:induction false} ZeroQuantityItemAddsNothing(lines: seq<LineItem>, item: Orders.OrderItem)
    requires item.quantity <= 0
    ensures Replay(lines, [item]) == lines
  {
    assert [item][1..] == [];
  }

  /** One more unit of an item that sits on the last line, with no other
      line of its key, lands on that line. */
  lemma {:induction false} AddOntoLast(lines: seq<LineItem>, x: LineItem, m: int)
    requires x.quantity == 0
    requires forall j :: 0 <= j < |lines| ==> KeyOf(lines[j]) != KeyOf(x)
    ensures Add(lines + [x.(quantity := m)], x) == lines + [x.(quantity := m + 1)]
  {
    var l := lines + [x.(quantity := m)];
    assert l[|lines|] == x.(quantity := m);
    forall j | 0 <= j < |lines|
      ensures KeyOf(l[j]) != KeyOf(x)
    {
      assert l[j] == lines[j];
    }
    assert IndexOfKey(l, KeyOf(x)) == Some(|lines|);
    assert l[|lines| := x.(quantity := m + 1)] == lines + [x.(quantity := m + 1)];
  }

  /** Adding `k` more units of an item that already sits on the last line, with
      no other line of its key, grows only that line, to `n == m + k` units. */
  lemma {:induction false} AddTimesOnLast(lines: seq<LineItem>, x: LineItem, m: int, k: nat, n: int)
    requires x.quantity == 0 && n == m + k
    requires forall j :: 0 <= j < |lines| ==> KeyOf(lines[j]) != KeyOf(x)
    ensures AddTimes(lines + [x.(quantity := m)], x, k) == lines + [x.(quantity := n)]
    decreases k
  {
    if k > 0 {
      AddOntoLast(lines, x, m);
      AddTimesOnLast(lines, x, m + 1, k - 1, n);
    }
  }

  /** Adding `n >= 1` units of an item whose key is not in the cart appends
      one line holding all `n` units. */
  lemma {:induction false} AddTimesFresh(lines: seq<LineItem>, x: LineItem, n: int)
    requires x.quantity == 0 && n >= 1
    requires forall m :: 0 <= m < |lines| ==> KeyOf(lines[m]) != KeyOf(x)
    ensures AddTimes(lines, x, n) == lines + [x.(quantity := n)]
  {
    assert Add(lines, x) == lines + [x.(quantity := 1)];
    AddTimesOnLast(lines, x, 1, n - 1, n);
  }

  /** The lines a reorder of distinct, positive-quantity items should produce. */
  function ExpectedLines(items: seq<Orders.OrderItem>): (r: seq<LineItem>)
    ensures |r| == |items|
    ensures forall j :: 0 <= j < |items| ==> r[j] == ReorderLine(items[j]).(quantity := items[j].quantity)
  {
    if items == [] then [] else [ReorderLine(items[0]).(quantity := items[0].quantity)] + ExpectedLines(items[1..])
  }

  predicate DistinctNames(items: seq<Orders.OrderItem>)
  {
    forall i, j :: 0 <= i < j < |items| ==> items[i].name != items[j].name
  }

  /** No line of the cart is the reorder line of this name. */
  predicate NoReorderLine(acc: seq<LineItem>, name: string)
  {
    forall m :: 0 <= m < |acc| ==> KeyOf(acc[m]) != Key(name, None)
  }

  /** Appending a line of another name keeps a name free of reorder lines. */
  lemma {:induction false} NoReorderLineAppend(acc: seq<LineItem>, y: LineItem, name: string)
    requires NoReorderLine(acc, name) && y.name != name
    ensures NoReorderLine(acc + [y], name)
  {
    var acc' := acc + [y];
    forall m | 0 <= m < |acc'|
      ensures KeyOf(acc'[m]) != Key(name, None)
    {
      if m < |acc| {
        assert acc'[m] == acc[m];
      }
    }
  }

  /** Replaying a non-empty order after its first item has been added. */
  lemma {:induction false} ReplayFirst(acc: seq<LineItem>, items: seq<Orders.OrderItem>)
    requires DistinctNames(items)
    requires forall j :: 0 <= j < |items| ==> items[j].quantity >= 1
    requires forall j :: 0 <= j < |items| ==> NoReorderLine(acc, items[j].name)
    requires items != []
    ensures var y := ReorderLine(items[0]).(quantity := items[0].quantity);
      && Replay(acc, items) == Replay(acc + [y], items[1..])
      && DistinctNames(items[1..])
      && (forall j :: 0 <= j < |items[1..]| ==> items[1..][j].quantity >= 1)
      && (forall j :: 0 <= j < |items[1..]| ==> NoReorderLine(acc + [y], items[1..][j].name))
  {
    var x := ReorderLine(items[0]);
    var y := x.(quantity := items[0].quantity);
    var rest := items[1..];
    assert NoReorderLine(acc, items[0].name);
    AddTimesFresh(acc, x, items[0].quantity);
    forall j | 0 <= j < |rest|
      ensures NoReorderLine(acc + [y], rest[j].name)
    {
      assert rest[j] == items[j + 1];
      assert NoReorderLine(acc, items[j + 1].name);
      NoReorderLineAppend(acc, y, rest[j].name);
    }
  }

  /** One unfolding of `ExpectedLines`, kept apart so that `ReplayFresh`
      stays within the solver's budget. */
  lemma {:induction false} ExpectedLinesCons(items: seq<Orders.OrderItem>)
    requires items != []
    ensures ExpectedLines(items) == [ReorderLine(items[0]).(quantity := items[0].quantity)] + ExpectedLines(items[1..])
  {
  }

  /** Associativity of concatenation on cart lines, kept apart for the same reason. */
  lemma {:induction false} AppendAssoc(a: seq<LineItem>, b: seq<LineItem>, c: seq<LineItem>)
    ensures (a + b) + c == a + (b + c)
  {
  }

  /** Replaying an order of fresh, distinct, positive items appends the
      expected lines. */
  lemma {:induction false} ReplayFresh(acc: seq<LineItem>, items: seq<Orders.OrderItem>)
    requires DistinctNames(items)
    requires forall j :: 0 <= j < |items| ==> items[j].quantity >= 1
    requires forall j :: 0 <= j < |items| ==> NoReorderLine(acc, items[j].name)
    ensures Replay(acc, items) == acc + ExpectedLines(items)
    decreases |items|
  {
    if items != [] {
      var y := ReorderLine(items[0]).(quantity := items[0].quantity);
      ReplayFirst(acc, items);
      ReplayFresh(acc + [y], items[1..]);
      ExpectedLinesCons(items);
      AppendAssoc(acc, [y], ExpectedLines(items[1..]));
    }
  }

  /** Reordering into an empty cart an order whose item names are distinct and
      whose quantities are at least 1 gives one line per item, in order, with
      the item's name, price and quantity. */
  lemma {:induction false} ReorderIntoEmptyCart(items: seq<Orders.OrderItem>)
    requires DistinctNames(items)
    requires forall j :: 0 <= j < |items| ==> items[j].quantity >= 1
    ensures var r := Replay([], items);
      && |r| == |items|
      && forall j :: 0 <= j < |items| ==>
           r[j].name == items[j].name && r[j].price == items[j].price
           && r[j].quantity == items[j].quantity && r[j].restaurantId.None?
  {
    ReplayFresh([], items);
    assert [] + ExpectedLines(items) == ExpectedLines(items);
  }

  /** A reordered dish merges only with a line that has no restaurant id: a
      line for the same dish added from a menu with an id is left alone and a
      new line is appended. */
  lemma {:induction false} ReorderSkipsLinesWithRestaurant(lines: seq<LineItem>, item: Orders.OrderItem)
    requires forall j :: 0 <= j < |lines| ==> lines[j].restaurantId.Some?
    requires item.quantity >= 1
    ensures Replay(lines, [item]) == lines + [ReorderLine(item).(quantity := item.quantity)]
  {
    var x := ReorderLine(item);
    forall j | 0 <= j < |lines|
      ensures KeyOf(lines[j]) != KeyOf(x)
    {
    }
    AddTimesFresh(lines, x, item.quantity);
    assert [item][1..] == [];
  }
}
