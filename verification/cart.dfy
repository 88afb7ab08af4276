/** The client-held shopping cart: line items keyed by (name, restaurantId)
    with add-or-merge, clamped quantity update, keyed removal, clear, and a
    total recomputed from the lines. Prices are integer paise. */
module Cart {
  import opened Common

  /** A cart line. `restaurantId` is None when the item object has no such
      field (menu items and reordered items). A numeric field the source reads
      with `|| default` is 0 when missing. */
  datatype LineItem = LineItem(
    name: string,
    restaurantId: Option<string>,
    price: int,
    quantity: int,
    description: string,
    image: string)

  /** The identity of a line: two lines are the same product when both name and
      restaurantId are equal (`===`, so two missing ids are equal). */
  datatype Key = Key(name: string, restaurantId: Option<string>)

  function KeyOf(x: LineItem): Key
  {
    Key(x.name, x.restaurantId)
  }

  predicate HasKey(lines: seq<LineItem>, k: Key)
  {
    exists i :: 0 <= i < |lines| && KeyOf(lines[i]) == k
  }

  /** The cart invariant: at most one line per key. */
  ghost predicate UniqueKeys(lines: seq<LineItem>)
  {
    forall i, j :: 0 <= i < j < |lines| ==> KeyOf(lines[i]) != KeyOf(lines[j])
  }

  /** `findIndex` on the key: the first line holding it. */
  function IndexOfKey(lines: seq<LineItem>, k: Key): (r: Option<nat>)
    ensures r.None? <==> !HasKey(lines, k)
    ensures r.Some? ==> r.value < |lines| && KeyOf(lines[r.value]) == k
    ensures r.Some? ==> forall j :: 0 <= j < r.value ==> KeyOf(lines[j]) != k
  {
    if lines == [] then None
    else if KeyOf(lines[0]) == k then Some(0)
    else
      var rest := IndexOfKey(lines[1..], k);
      assert HasKey(lines, k) ==> HasKey(lines[1..], k) by {
        if HasKey(lines, k) {
          var i :| 0 <= i < |lines| && KeyOf(lines[i]) == k;
          assert i > 0 && KeyOf(lines[1..][i - 1]) == k;
        }
      }
      match rest
      case None => None
      case Some(i) => Some(i + 1)
  }

  /** `item.quantity || 1`: a missing or zero incoming quantity counts as one. */
  function IncomingQuantity(item: LineItem): (q: int)
    ensures q != 0
    ensures item.quantity == 0 ==> q == 1
    ensures item.quantity != 0 ==> q == item.quantity
  {
    if item.quantity == 0 then 1 else item.quantity
  }

  /** `addToCart`: merge into the line with the same key, or append a new line. */
  function Add(lines: seq<LineItem>, item: LineItem): (r: seq<LineItem>)
    ensures HasKey(lines, KeyOf(item)) ==> |r| == |lines|
    ensures !HasKey(lines, KeyOf(item)) ==> r == lines + [item.(quantity := IncomingQuantity(item))]
    ensures HasKey(r, KeyOf(item))
    ensures forall j :: 0 <= j < |lines| && KeyOf(lines[j]) != KeyOf(item) ==> r[j] == lines[j]
  {
    match IndexOfKey(lines, KeyOf(item))
    case Some(i) =>
      var merged := lines[i].(quantity := lines[i].quantity + IncomingQuantity(item));
      assert KeyOf(merged) == KeyOf(item) && lines[i := merged][i] == merged;
      lines[i := merged]
    case None =>
      var added := item.(quantity := IncomingQuantity(item));
      assert (lines + [added])[|lines|] == added;
      lines + [added]
  }

  /** `Math.max(0, quantity)`. */
  function ClampQuantity(q: int): (r: nat)
    ensures q >= 0 ==> r == q
    ensures q < 0 ==> r == 0
  {
    if q < 0 then 0 else q
  }

  /** `updateQuantity`: set the clamped quantity on the line with the key; no
      line is added, removed or reordered. */
  function SetQuantity(lines: seq<LineItem>, k: Key, q: int): (r: seq<LineItem>)
    ensures |r| == |lines|
    ensures forall j :: 0 <= j < |lines| ==> KeyOf(r[j]) == KeyOf(lines[j])
    ensures forall j :: 0 <= j < |lines| && KeyOf(lines[j]) != k ==> r[j] == lines[j]
    ensures !HasKey(lines, k) ==> r == lines
  {
    match IndexOfKey(lines, k)
    case Some(i) => lines[i := lines[i].(quantity := ClampQuantity(q))]
    case None => lines
  }

  /** `removeItem`: keep exactly the lines whose key differs, in order. */
  function Without(lines: seq<LineItem>, k: Key): (r: seq<LineItem>)
    ensures forall x :: x in r <==> x in lines && KeyOf(x) != k
    ensures !HasKey(r, k)
    ensures SubsequenceOf(r, lines)
    ensures !HasKey(lines, k) ==> r == lines
  {
    if lines == [] then []
    else if KeyOf(lines[0]) == k then Without(lines[1..], k)
    else
      var rest := Without(lines[1..], k);
      assert !HasKey(lines, k) ==> !HasKey(lines[1..], k) by {
        if HasKey(lines[1..], k) {
          var i :| 0 <= i < |lines[1..]| && KeyOf(lines[1..][i]) == k;
          assert KeyOf(lines[i + 1]) == k;
        }
      }
      var r := [lines[0]] + rest;
      forall i | 0 <= i < |r|
        ensures KeyOf(r[i]) != k
      {
        if i > 0 {
          assert r[i] == rest[i - 1] && rest[i - 1] in rest;
        }
      }
      assert ([lines[0]] + rest)[1..] == rest;
      assert !HasKey(lines, k) ==> lines == [lines[0]] + lines[1..];
      [lines[0]] + rest
  }

  /** What one line adds to the total: `(price || 0) * (quantity || 0)`. */
  function LineCost(x: LineItem): int
  {
    x.price * x.quantity
  }

  /** `totalPrice`: the `reduce` over the lines from left to right, starting at 0. */
  function Total(lines: seq<LineItem>): int
  {
    if lines == [] then 0 else Total(lines[..|lines| - 1]) + LineCost(lines[|lines| - 1])
  }

  lemma {:induction false} TotalAppend(a: seq<LineItem>, b: seq<LineItem>)
    ensures Total(a + b) == Total(a) + Total(b)
    decreases |b|
  {
    if b == [] {
      assert a + b == a;
    } else {
      var n := |b| - 1;
      assert (a + b)[..|a + b| - 1] == a + b[..n];
      TotalAppend(a, b[..n]);
    }
  }

  /** Replacing one line changes the total by the difference of the two line costs. */
  lemma {:induction false} TotalUpdate(lines: seq<LineItem>, i: nat, x: LineItem)
    requires i < |lines|
    ensures Total(lines[i := x]) == Total(lines) - LineCost(lines[i]) + LineCost(x)
  {
    assert lines == lines[..i] + [lines[i]] + lines[i + 1..];
    assert lines[i := x] == lines[..i] + [x] + lines[i + 1..];
    TotalAppend(lines[..i] + [lines[i]], lines[i + 1..]);
    TotalAppend(lines[..i], [lines[i]]);
    TotalAppend(lines[..i] + [x], lines[i + 1..]);
    TotalAppend(lines[..i], [x]);
    assert Total([x]) == LineCost(x) by { assert [x][..0] == []; }
    assert Total([lines[i]]) == LineCost(lines[i]) by { assert [lines[i]][..0] == []; }
  }

  /** The total is a plain sum: it does not depend on where a line sits, and a
      line with quantity 0 contributes nothing. */
  lemma {:induction false} ZeroQuantityLineAddsNothing(lines: seq<LineItem>, i: nat)
    requires i < |lines| && lines[i].quantity == 0
    ensures Total(lines[..i] + lines[i + 1..]) == Total(lines)
  {
    assert lines == lines[..i] + [lines[i]] + lines[i + 1..];
    TotalAppend(lines[..i] + [lines[i]], lines[i + 1..]);
    TotalAppend(lines[..i], [lines[i]]);
    TotalAppend(lines[..i], lines[i + 1..]);
    assert Total([lines[i]]) == 0 by { assert [lines[i]][..0] == []; }
  }

  /** The empty cart costs nothing. */
  lemma {:induction false} TotalEmpty()
    ensures Total([]) == 0
  {
  }

  /** With non-negative prices and quantities the total is non-negative, and it
      is positive as soon as one line has a positive price and quantity. */
  lemma {:induction false} TotalPositive(lines: seq<LineItem>)
    requires forall j :: 0 <= j < |lines| ==> lines[j].price >= 0 && lines[j].quantity >= 0
    ensures Total(lines) >= 0
    ensures (exists j :: 0 <= j < |lines| && lines[j].price > 0 && lines[j].quantity > 0) ==> Total(lines) > 0
  {
    if lines != [] {
      var init := lines[..|lines| - 1];
      TotalPositive(init);
      var last := lines[|lines| - 1];
      assert LineCost(last) >= 0;
      if exists j :: 0 <= j < |lines| && lines[j].price > 0 && lines[j].quantity > 0 {
        var j :| 0 <= j < |lines| && lines[j].price > 0 && lines[j].quantity > 0;
        if j < |lines| - 1 {
          assert init[j] == lines[j];
        } else {
          assert LineCost(last) > 0;
        }
      }
    }
  }

  /** With unique keys, `Add` on a present key touches exactly that line. */
  lemma {:induction false} AddExisting(lines: seq<LineItem>, item: LineItem)
    requires UniqueKeys(lines) && HasKey(lines, KeyOf(item))
    ensures |Add(lines, item)| == |lines|
    ensures forall j :: 0 <= j < |lines| ==>
      Add(lines, item)[j] ==
        if KeyOf(lines[j]) == KeyOf(item)
        then lines[j].(quantity := lines[j].quantity + IncomingQuantity(item))
        else lines[j]
  {
  }

  lemma {:induction false} AddKeepsKeysUnique(lines: seq<LineItem>, item: LineItem)
    requires UniqueKeys(lines)
    ensures UniqueKeys(Add(lines, item))
  {
    var r := Add(lines, item);
    if HasKey(lines, KeyOf(item)) {
      forall j | 0 <= j < |lines|
        ensures KeyOf(r[j]) == KeyOf(lines[j])
      {
      }
    } else {
      forall i, j | 0 <= i < j < |r|
        ensures KeyOf(r[i]) != KeyOf(r[j])
      {
        if j == |lines| {
          assert KeyOf(r[i]) == KeyOf(lines[i]);
        }
      }
    }
  }

  /** Adding moves the total by the incoming quantity times the price of the
      line it lands on: the existing line's price when merging (the incoming
      price is ignored), the item's own price when appending. */
  lemma {:induction false} AddTotal(lines: seq<LineItem>, item: LineItem)
    ensures var i := IndexOfKey(lines, KeyOf(item));
      Total(Add(lines, item)) ==
        Total(lines) + (if i.Some? then lines[i.value].price else item.price) * IncomingQuantity(item)
  {
    var i := IndexOfKey(lines, KeyOf(item));
    if i.Some? {
      var x := lines[i.value];
      TotalUpdate(lines, i.value, x.(quantity := x.quantity + IncomingQuantity(item)));
      assert x.price * (x.quantity + IncomingQuantity(item)) == x.price * x.quantity + x.price * IncomingQuantity(item);
    } else {
      var added := item.(quantity := IncomingQuantity(item));
      TotalAppend(lines, [added]);
      assert Total([added]) == LineCost(added) by { assert [added][..0] == []; }
    }
  }

  /** With unique keys, `SetQuantity` on a present key sets exactly that line. */
  lemma {:induction false} SetQuantityExact(lines: seq<LineItem>, k: Key, q: int)
    requires UniqueKeys(lines)
    ensures forall j :: 0 <= j < |lines| ==>
      SetQuantity(lines, k, q)[j] == if KeyOf(lines[j]) == k then lines[j].(quantity := ClampQuantity(q)) else lines[j]
  {
  }

  lemma {:induction false} SetQuantityKeepsKeysUnique(lines: seq<LineItem>, k: Key, q: int)
    requires UniqueKeys(lines)
    ensures UniqueKeys(SetQuantity(lines, k, q))
  {
  }

  lemma {:induction false} WithoutKeepsKeysUnique(lines: seq<LineItem>, k: Key)
    requires UniqueKeys(lines)
    ensures UniqueKeys(Without(lines, k))
  {
    if lines != [] {
      WithoutKeepsKeysUnique(lines[1..], k);
      if KeyOf(lines[0]) != k {
        var rest := Without(lines[1..], k);
        var r := [lines[0]] + rest;
        forall i, j | 0 <= i < j < |r|
          ensures KeyOf(r[i]) != KeyOf(r[j])
        {
          if i == 0 {
            assert r[j] == rest[j - 1] && rest[j - 1] in rest;
            var m :| 0 <= m < |lines[1..]| && lines[1..][m] == r[j];
            assert lines[m + 1] == r[j];
          } else {
            assert r[i] == rest[i - 1] && r[j] == rest[j - 1];
          }
        }
      }
    }
  }

  /** The cart as React state that each operation replaces. */
  class ShoppingCart {
    var lines: seq<LineItem>

    ghost predicate Valid()
      reads this
    {
      UniqueKeys(lines)
    }

    constructor ()
      ensures Valid() && lines == []
    {
      lines := [];
    }

    /** `addToCart`: copy the lines, bump the matching line's quantity, or
        append the item with its quantity defaulted. */
    method AddToCart(item: LineItem)
      requires Valid()
      modifies this
      ensures Valid()
      ensures lines == Add(old(lines), item)
    {
      var i := IndexOfKey(lines, KeyOf(item));
      if i.Some? {
        var updated := lines;
        updated := updated[i.value := updated[i.value].(quantity := updated[i.value].quantity + IncomingQuantity(item))];
        lines := updated;
      } else {
        lines := lines + [item.(quantity := IncomingQuantity(item))];
      }
      AddKeepsKeysUnique(old(lines), item);
    }

    /** `updateQuantity(name, restaurantId, quantity)`. */
    method UpdateQuantity(name: string, restaurantId: Option<string>, quantity: int)
      requires Valid()
      modifies this
      ensures Valid()
      ensures lines == SetQuantity(old(lines), Key(name, restaurantId), quantity)
    {
      SetQuantityKeepsKeysUnique(lines, Key(name, restaurantId), quantity);
      lines := SetQuantity(lines, Key(name, restaurantId), quantity);
    }

    /** `removeItem(name, restaurantId)`. */
    method RemoveItem(name: string, restaurantId: Option<string>)
      requires Valid()
      modifies this
      ensures Valid()
      ensures lines == Without(old(lines), Key(name, restaurantId))
    {
      WithoutKeepsKeysUnique(lines, Key(name, restaurantId));
      lines := Without(lines, Key(name, restaurantId));
    }

    /** `clearCart`. */
    method ClearCart()
      modifies this
      ensures Valid() && lines == []
    {
      lines := [];
    }
  }
}
