/** The restaurant list page: the cuisine and name filter over the fetched
    restaurants, and the "Add to Cart" button of each menu item. */
module RestaurantList {
  import opened Common
  import opened Text
  import opened Cart

  /** A menu entry as the restaurant document holds it; a missing description
      or image is "". It carries no restaurant id and no quantity. */
  datatype MenuItem = MenuItem(name: string, description: string, price: int, image: string)

  /** A fetched restaurant; `cuisine` is optional in the schema. */
  datatype Restaurant = Restaurant(name: string, cuisine: Option<string>, menu: seq<MenuItem>)

  /** The value of the cuisine selector that imposes no constraint. */
  const AllCuisines: string := "all"

  /** The filter's test: the cuisine matches (or "all" was chosen) and the
      lower-cased name contains the lower-cased search text. */
  predicate Matches(r: Restaurant, cuisine: string, search: string)
  {
    (cuisine == AllCuisines || r.cuisine == Some(cuisine))
    && Contains(ToLower(r.name), ToLower(search))
  }

  /** `filtered`: the restaurants that match, in the order they were fetched. */
  function Filtered(restaurants: seq<Restaurant>, cuisine: string, search: string): (r: seq<Restaurant>)
    ensures forall x :: x in r <==> x in restaurants && Matches(x, cuisine, search)
    ensures forall x :: multiset(r)[x] == if Matches(x, cuisine, search) then multiset(restaurants)[x] else 0
    ensures SubsequenceOf(r, restaurants)
    ensures |r| <= |restaurants|
    decreases |restaurants|
  {
    if restaurants == [] then []
    else
      var rest := Filtered(restaurants[1..], cuisine, search);
      assert restaurants == [restaurants[0]] + restaurants[1..];
      if Matches(restaurants[0], cuisine, search) then [restaurants[0]] + rest
      else rest
  }

  /** With "all" cuisines and an empty search nothing is filtered out. */
  lemma {:induction false} UnfilteredKeepsEverything(restaurants: seq<Restaurant>)
    ensures Filtered(restaurants, AllCuisines, "") == restaurants
    decreases |restaurants|
  {
    if restaurants != [] {
      ContainsEmpty(ToLower(restaurants[0].name));
      assert ToLower("") == "";
      UnfilteredKeepsEverything(restaurants[1..]);
    }
  }

  /** The search ignores case: searching for the lower-cased text finds the
      same restaurants. */
  lemma {:induction false} SearchIgnoresCase(restaurants: seq<Restaurant>, cuisine: string, search: string)
    ensures Filtered(restaurants, cuisine, ToLower(search)) == Filtered(restaurants, cuisine, search)
    decreases |restaurants|
  {
    ToLowerIdempotent(search);
    if restaurants != [] {
      SearchIgnoresCase(restaurants[1..], cuisine, search);
    }
  }

  /** The object `addToCart` receives: the menu item as it is, so no
      restaurant id and no quantity (one unit is added). */
  function AsCartItem(item: MenuItem): (x: LineItem)
    ensures x.name == item.name && x.price == item.price
    ensures x.description == item.description && x.image == item.image
    ensures x.restaurantId.None? && IncomingQuantity(x) == 1
  {
    LineItem(item.name, None, item.price, 0, item.description, item.image)
  }

  /** Menu items carry no restaurant id, so the same dish name from two
      restaurants lands on one cart line, at the price of the first one added. */
  lemma {:induction false} SameDishFromTwoRestaurantsMerges(lines: seq<LineItem>, a: MenuItem, b: MenuItem)
    requires a.name == b.name
    requires !HasKey(lines, Key(a.name, None))
    ensures Add(Add(lines, AsCartItem(a)), AsCartItem(b)) == lines + [AsCartItem(a).(quantity := 2)]
  {
    var l := lines + [AsCartItem(a).(quantity := 1)];
    assert Add(lines, AsCartItem(a)) == l;
    assert l[|lines|] == AsCartItem(a).(quantity := 1);
    forall j | 0 <= j < |lines|
      ensures KeyOf(l[j]) != KeyOf(AsCartItem(b))
    {
      assert l[j] == lines[j];
    }
    assert IndexOfKey(l, KeyOf(AsCartItem(b))) == Some(|lines|);
    assert l[|lines| := AsCartItem(a).(quantity := 2)] == lines + [AsCartItem(a).(quantity := 2)];
  }

  /** `handleAddToCart(item)`: without a user the cart is not touched (the page
      sends the visitor to the login page); with one the item is added. */
  method HandleAddToCart(cart: ShoppingCart, loggedIn: bool, item: MenuItem)
    requires cart.Valid()
    modifies cart
    ensures cart.Valid()
    ensures !loggedIn ==> cart.lines == old(cart.lines)
    ensures loggedIn ==> cart.lines == Add(old(cart.lines), AsCartItem(item))
  {
    if !loggedIn {
      return;
    }
    cart.AddToCart(AsCartItem(item));
  }
}
