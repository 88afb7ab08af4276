/** The cart page: the quantity box and the remove button of each line. */
module CartPage {
  import opened Common
  import opened Cart

  /** What the page's conversion of the box's text (empty means 0, otherwise
      `Number`) sees: the empty box, text that
      parses to NaN, a parse that overflows to an infinity, or a finite number. */
  datatype QuantityInput = EmptyInput | NotANumber | Infinite | Finite(value: real)

  predicate IsWholeNumber(x: real)
  {
    x == x.Floor as real
  }

  /** The quantity `handleQuantityChange` passes on, if any: the empty box
      means 0, and only a finite, non-negative, whole number gets through. */
  function QuantityToApply(v: QuantityInput): (r: Option<nat>)
    ensures r.None? <==> v.NotANumber? || v.Infinite? || (v.Finite? && (v.value < 0.0 || !IsWholeNumber(v.value)))
    ensures v.EmptyInput? ==> r == Some(0)
    ensures r.Some? && v.Finite? ==> r.value as real == v.value
  {
    match v
    case EmptyInput => Some(0)
    case NotANumber => None
    case Infinite => None
    case Finite(x) => if x >= 0.0 && IsWholeNumber(x) then Some(x.Floor as nat) else None
  }

  /** The cart after a quantity edit: the line keyed by the item's name and
      restaurant id takes the new quantity; a refused input changes nothing. */
  function QuantityChange(lines: seq<LineItem>, item: LineItem, v: QuantityInput): (r: seq<LineItem>)
    ensures QuantityToApply(v).None? ==> r == lines
    ensures QuantityToApply(v).Some? ==> r == SetQuantity(lines, KeyOf(item), QuantityToApply(v).value)
  {
    match QuantityToApply(v)
    case None => lines
    case Some(q) => SetQuantity(lines, KeyOf(item), q)
  }

  /** A quantity edit on a cart with no negative quantity leaves none, keeps
      every key in place and, when the item is in the cart, lands exactly the
      accepted value on its line. */
  lemma {:induction false} QuantityChangeEffect(lines: seq<LineItem>, item: LineItem, v: QuantityInput)
    requires UniqueKeys(lines)
    requires forall j :: 0 <= j < |lines| ==> lines[j].quantity >= 0
    ensures var r := QuantityChange(lines, item, v);
      && |r| == |lines|
      && UniqueKeys(r)
      && (forall j :: 0 <= j < |r| ==> r[j].quantity >= 0 && KeyOf(r[j]) == KeyOf(lines[j]))
      && (forall j :: 0 <= j < |r| && KeyOf(lines[j]) == KeyOf(item) && QuantityToApply(v).Some? ==>
            r[j].quantity == QuantityToApply(v).value)
  {
    if QuantityToApply(v).Some? {
      SetQuantityExact(lines, KeyOf(item), QuantityToApply(v).value);
      SetQuantityKeepsKeysUnique(lines, KeyOf(item), QuantityToApply(v).value);
    }
  }

  /** The "quantity set to 0" warning is shown exactly when 0 was applied,
      that is for the empty box and for the number zero. */
  function WarnsZero(v: QuantityInput): (w: bool)
    ensures w <==> v.EmptyInput? || v == Finite(0.0)
  {
    QuantityToApply(v) == Some(0)
  }

  /** `handleQuantityChange(item, value)`: dispatch the accepted quantity to
      the cart and report whether the zero-quantity warning was raised. */
  method HandleQuantityChange(cart: ShoppingCart, item: LineItem, v: QuantityInput) returns (warned: bool)
    requires cart.Valid()
    modifies cart
    ensures cart.Valid()
    ensures cart.lines == QuantityChange(old(cart.lines), item, v)
    ensures warned == WarnsZero(v)
  {
    var q := QuantityToApply(v);
    if q.Some? {
      cart.UpdateQuantity(item.name, item.restaurantId, q.value);
    }
    warned := q == Some(0);
  }

  /** `handleRemoveItem(item)`: remove by the item's name and restaurant id. */
  method HandleRemoveItem(cart: ShoppingCart, item: LineItem)
    requires cart.Valid()
    modifies cart
    ensures cart.Valid()
    ensures cart.lines == Without(old(cart.lines), KeyOf(item))
    ensures !HasKey(cart.lines, KeyOf(item))
  {
    cart.RemoveItem(item.name, item.restaurantId);
  }
}
