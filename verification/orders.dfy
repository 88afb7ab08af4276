/** Order placement and listing of the order routes. An order snapshots item
    name/price/quantity triples (the Order schema keeps only those fields), the
    declared total, the owner and its creation time. */
module Orders {
  import opened Common

  type UserId = nat

  const PendingStatus: string := "Pending"

  datatype OrderItem = OrderItem(name: string, price: int, quantity: int)

  datatype Order = Order(
    id: nat,
    user: UserId,
    items: seq<OrderItem>,
    totalPrice: int,
    status: string,
    createdAt: nat)

  /** The `items` field of the request body as JSON gives it. */
  datatype ItemsField = ItemsMissing | ItemsNotArray | ItemsArray(elements: seq<OrderItem>)

  /** The `totalPrice` field of the request body: missing, of another JSON type,
      or a number (in paise). */
  datatype PriceField = PriceMissing | PriceNotNumber | PriceNumber(amount: int)

  datatype OrderError = InvalidOrderData   // 400

  /** The `error` field of the route's refusal. */
  function ErrorText(e: OrderError): (t: string)
    ensures t != ""
  {
    match e
    case InvalidOrderData => "Invalid order data"
  }

  /** The guard of the POST handler: a missing, non-array or empty `items`, or a
      missing, zero, non-number or non-positive `totalPrice`, is rejected. */
  predicate Rejected(items: ItemsField, totalPrice: PriceField)
  {
    || items.ItemsMissing? || items.ItemsNotArray? || |items.elements| == 0
    || totalPrice.PriceMissing? || (totalPrice.PriceNumber? && totalPrice.amount == 0)
    || totalPrice.PriceNotNumber? || totalPrice.amount <= 0
  }

  /** The order the POST handler saves: the caller's id, the items and the
      declared total as given, status "Pending". The total is never compared
      with the items, and item quantities are not looked at. */
  function NewOrder(user: UserId, items: ItemsField, totalPrice: PriceField, id: nat, createdAt: nat)
    : (r: Result<Order, OrderError>)
    ensures r.Ok? <==> items.ItemsArray? && |items.elements| > 0 && totalPrice.PriceNumber? && totalPrice.amount > 0
    ensures r.Ok? ==> r.value == Order(id, user, items.elements, totalPrice.amount, PendingStatus, createdAt)
  {
    if Rejected(items, totalPrice) then Err(InvalidOrderData)
    else Ok(Order(id, user, items.elements, totalPrice.amount, PendingStatus, createdAt))
  }

  /** Nothing checks the declared total against the items: an order of one
      free dish at quantity 0 with a total of 1 paisa is accepted. */
  lemma {:induction false} DeclaredTotalIsTrusted(user: UserId, id: nat, createdAt: nat)
    ensures var items := [OrderItem("Pizza", 0, 0)];
      NewOrder(user, ItemsArray(items), PriceNumber(1), id, createdAt).Ok?
  {
  }

  predicate NewestFirst(orders: seq<Order>)
  {
    forall i, j :: 0 <= i < j < |orders| ==> orders[i].createdAt >= orders[j].createdAt
  }

  /** `Order.find({ user })`: every one of the user's orders, as often as it
      is stored, and no other, in stored order. */
  function OrdersOf(orders: seq<Order>, user: UserId): (r: seq<Order>)
    ensures forall o :: o in r <==> o in orders && o.user == user
    ensures forall o :: multiset(r)[o] == if o.user == user then multiset(orders)[o] else 0
    ensures SubsequenceOf(r, orders)
  {
    if orders == [] then []
    else
      var rest := OrdersOf(orders[1..], user);
      assert orders == [orders[0]] + orders[1..];
      if orders[0].user == user then [orders[0]] + rest
      else rest
  }

  /** Insert one order into a newest-first list. */
  function InsertByDate(o: Order, sorted: seq<Order>): (r: seq<Order>)
    requires NewestFirst(sorted)
    ensures NewestFirst(r)
    ensures |r| == |sorted| + 1
    ensures r[0] == o || (sorted != [] && r[0] == sorted[0])
  {
    if sorted == [] then [o]
    else if o.createdAt >= sorted[0].createdAt then [o] + sorted
    else
      var rest := InsertByDate(o, sorted[1..]);
      var r := [sorted[0]] + rest;
      forall i, j | 0 <= i < j < |r|
        ensures r[i].createdAt >= r[j].createdAt
      {
        if i == 0 {
          assert rest[0].createdAt <= sorted[0].createdAt;
          assert j == 1 || rest[0].createdAt >= rest[j - 1].createdAt;
        } else {
          assert r[i] == rest[i - 1] && r[j] == rest[j - 1];
        }
      }
      r
  }

  lemma {:induction false} InsertByDatePermutes(o: Order, sorted: seq<Order>)
    requires NewestFirst(sorted)
    ensures multiset(InsertByDate(o, sorted)) == multiset(sorted) + multiset{o}
  {
    if sorted != [] && o.createdAt < sorted[0].createdAt {
      InsertByDatePermutes(o, sorted[1..]);
      assert sorted == [sorted[0]] + sorted[1..];
    }
  }

  /** `.sort({ createdAt: -1 })`, as an insertion sort. Orders created at the
      same instant may come in any order; only the order of dates is promised. */
  function SortNewestFirst(orders: seq<Order>): (r: seq<Order>)
    ensures NewestFirst(r)
    ensures |r| == |orders|
  {
    if orders == [] then [] else InsertByDate(orders[0], SortNewestFirst(orders[1..]))
  }

  /** Sorting only reorders: the result is a permutation of its input. */
  lemma {:induction false} SortNewestFirstPermutes(orders: seq<Order>)
    ensures multiset(SortNewestFirst(orders)) == multiset(orders)
  {
    if orders != [] {
      SortNewestFirstPermutes(orders[1..]);
      InsertByDatePermutes(orders[0], SortNewestFirst(orders[1..]));
      assert orders == [orders[0]] + orders[1..];
    }
  }

  /** The GET handler: the caller's orders, newest first. */
  function ListOrders(orders: seq<Order>, user: UserId): (r: seq<Order>)
    ensures NewestFirst(r)
    ensures multiset(r) == multiset(OrdersOf(orders, user))
    ensures forall o :: o in r <==> o in orders && o.user == user
  {
    var mine := OrdersOf(orders, user);
    var r := SortNewestFirst(mine);
    SortNewestFirstPermutes(mine);
    assert forall o :: o in r <==> o in multiset(r);
    assert forall o :: o in mine <==> o in multiset(mine);
    r
  }

  /** The orders collection. */
  class OrderStore {
    var orders: seq<Order>
    var nextId: nat

    constructor ()
      ensures orders == [] && nextId == 0
    {
      orders := [];
      nextId := 0;
    }

    /** POST `/` for the authenticated user: validate, then save the new order. */
    method PlaceOrder(user: UserId, items: ItemsField, totalPrice: PriceField, now: nat)
      returns (r: Result<Order, OrderError>)
      modifies this
      ensures r == NewOrder(user, items, totalPrice, old(nextId), now)
      ensures r.Ok? ==> orders == old(orders) + [r.value] && nextId == old(nextId) + 1
      ensures r.Err? ==> orders == old(orders) && nextId == old(nextId)
    {
      r := NewOrder(user, items, totalPrice, nextId, now);
      if r.Ok? {
        orders := orders + [r.value];
        nextId := nextId + 1;
      }
    }
  }
}
