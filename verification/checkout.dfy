/** The checkout page: the zero-quantity gate, the order request built from
    the cart, and what each reply does to the cart. */
module Checkout {
  import opened Common
  import opened Cart
  import Orders

  /** `hasZeroQuantity`: some line's quantity is exactly 0. */
  function HasZeroQuantity(lines: seq<LineItem>): (r: bool)
    ensures r <==> exists i :: 0 <= i < |lines| && lines[i].quantity == 0
  {
    if lines == [] then false
    else if lines[0].quantity == 0 then true
    else
      var rest := HasZeroQuantity(lines[1..]);
      assert rest <==> exists i :: 1 <= i < |lines| && lines[i].quantity == 0 by {
        if rest {
          var i :| 0 <= i < |lines[1..]| && lines[1..][i].quantity == 0;
          assert lines[i + 1].quantity == 0;
        }
        if exists i :: 1 <= i < |lines| && lines[i].quantity == 0 {
          var i :| 1 <= i < |lines| && lines[i].quantity == 0;
          assert lines[1..][i - 1].quantity == 0;
        }
      }
      rest
  }

  /** What the page shows: the empty-cart message, or the lines with a
      "Place Order" button that is enabled only when no line is at zero. */
  datatype View = EmptyMessage | Controls(placeOrderEnabled: bool)

  function ViewOf(lines: seq<LineItem>): (r: View)
    ensures r.EmptyMessage? <==> |lines| == 0
    ensures r.Controls? ==> (r.placeOrderEnabled <==> forall i :: 0 <= i < |lines| ==> lines[i].quantity != 0)
  {
    if |lines| == 0 then EmptyMessage else Controls(!HasZeroQuantity(lines))
  }

  /** The order request body `{ items: cart, totalPrice }`. */
  datatype Payload = Payload(items: seq<LineItem>, totalPrice: int)

  function PayloadOf(lines: seq<LineItem>): (p: Payload)
    ensures p.items == lines && p.totalPrice == Total(lines)
  {
    Payload(lines, Total(lines))
  }

  /** The order item the server keeps of a cart line: the schema stores only
      name, price and quantity. */
  function AsOrderItem(x: LineItem): (o: Orders.OrderItem)
    ensures o.name == x.name && o.price == x.price && o.quantity == x.quantity
  {
    Orders.OrderItem(x.name, x.price, x.quantity)
  }

  function AsOrderItems(lines: seq<LineItem>): (r: seq<Orders.OrderItem>)
    ensures |r| == |lines|
    ensures forall i :: 0 <= i < |lines| ==> r[i] == AsOrderItem(lines[i])
  {
    seq(|lines|, i requires 0 <= i < |lines| => AsOrderItem(lines[i]))
  }

  /** A checkout the button allows, from a cart of non-negative prices with at
      least one priced line, is accepted by the order route, which stores the
      cart's own total. */
  lemma {:induction false} AllowedCheckoutAccepted(lines: seq<LineItem>, user: Orders.UserId, id: nat, now: nat)
    requires ViewOf(lines) == Controls(true)
    requires forall i :: 0 <= i < |lines| ==> lines[i].price >= 0 && lines[i].quantity >= 0
    requires exists i :: 0 <= i < |lines| && lines[i].price > 0
    ensures Orders.NewOrder(user, Orders.ItemsArray(AsOrderItems(PayloadOf(lines).items)),
                            Orders.PriceNumber(PayloadOf(lines).totalPrice), id, now)
         == Ok(Orders.Order(id, user, AsOrderItems(lines), Total(lines), Orders.PendingStatus, now))
  {
    var i :| 0 <= i < |lines| && lines[i].price > 0;
    assert lines[i].quantity > 0;
    TotalPositive(lines);
  }

  /** The server's reply to the order request. */
  datatype Reply = Created | Unauthorized | OtherError(error: Option<string>)

  /** What the page does after "Place Order". */
  datatype Outcome =
    | LoginFirst               // no token, or an empty one: "Please log in to place an order.", to /login
    | Placed                   // "Order placed successfully!", cart cleared, to /orders
    | SessionExpired           // 401: logout, to /login
    | Failed(message: string)  // any other error, shown as a toast

  const DefaultFailureText: string := "Failed to place order. Please check your cart."

  /** The toast text of a failed order: the reply's `error` field or the default. */
  function FailureText(error: Option<string>): (r: string)
    ensures error.Some? && error.value != "" ==> r == error.value
    ensures error.None? || error == Some("") ==> r == DefaultFailureText
  {
    if error.Some? && error.value != "" then error.value else DefaultFailureText
  }

  /** Every refusal of the order route shows the route's own reason. */
  lemma {:induction false} RejectedOrderShowsReason(e: Orders.OrderError)
    ensures FailureText(Some(Orders.ErrorText(e))) == Orders.ErrorText(e)
  {
    assert Orders.ErrorText(e) != "";
  }

  /** `user?.token` is truthy: a token is present and not empty. */
  predicate HasToken(token: Option<string>)
  {
    token.Some? && token.value != ""
  }

  /** `placeOrder`. Without a token no request is sent and the cart is left as
      it is; otherwise the request carries the payload of the current cart,
      and only a created order clears the cart. */
  method PlaceOrder(cart: ShoppingCart, token: Option<string>, reply: Reply)
    returns (sent: Option<Payload>, outcome: Outcome)
    requires cart.Valid()
    modifies cart
    ensures cart.Valid()
    ensures sent.None? <==> !HasToken(token)
    ensures sent.Some? ==> sent.value == PayloadOf(old(cart.lines))
    ensures !HasToken(token) ==> outcome == LoginFirst
    ensures HasToken(token) ==> outcome == match reply
      case Created => Placed
      case Unauthorized => SessionExpired
      case OtherError(e) => Failed(FailureText(e))
    ensures cart.lines == if outcome == Placed then [] else old(cart.lines)
  {
    if !HasToken(token) {
      return None, LoginFirst;
    }
    sent := Some(PayloadOf(cart.lines));
    match reply
    case Created =>
      cart.ClearCart();
      outcome := Placed;
    case Unauthorized =>
      outcome := SessionExpired;
    case OtherError(e) =>
      outcome := Failed(FailureText(e));
  }
}
