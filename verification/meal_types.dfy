/** The meal-type strip of the home page: the search over meal names and
    descriptions, and the cart item built when a meal is added. */
module MealTypes {
  import opened Common
  import opened Text
  import opened Cart

  /** A fetched meal type. A price the page reads as falsy is 0; a missing or
      empty restaurant id is None or Some(""). Prices are integer paise. */
  datatype Meal = Meal(name: string, description: string, price: int, image: string, restaurantId: Option<string>)

  /** 299.99, in paise: the price given to a meal whose price is falsy. */
  const DefaultPrice: int := 29999

  /** The restaurant id given to a meal that has none. */
  const DefaultRestaurantId: string := "68522d746255d89a9c1fcad3"

  /** The search test: the lower-cased query occurs in the lower-cased name or
      in the lower-cased description. */
  predicate MealMatches(m: Meal, query: string)
  {
    Contains(ToLower(m.name), ToLower(query)) || Contains(ToLower(m.description), ToLower(query))
  }

  /** `filteredMeals`: the meals that match, in their original order. */
  function FilteredMeals(meals: seq<Meal>, query: string): (r: seq<Meal>)
    ensures forall m :: m in r <==> m in meals && MealMatches(m, query)
    ensures forall m :: multiset(r)[m] == if MealMatches(m, query) then multiset(meals)[m] else 0
    ensures SubsequenceOf(r, meals)
    ensures |r| <= |meals|
    decreases |meals|
  {
    if meals == [] then []
    else
      var rest := FilteredMeals(meals[1..], query);
      assert meals == [meals[0]] + meals[1..];
      if MealMatches(meals[0], query) then [meals[0]] + rest
      else rest
  }

  /** An empty query keeps every meal. */
  lemma {:induction false} EmptyQueryKeepsAllMeals(meals: seq<Meal>)
    ensures FilteredMeals(meals, "") == meals
    decreases |meals|
  {
    if meals != [] {
      ContainsEmpty(ToLower(meals[0].name));
      assert ToLower("") == "";
      EmptyQueryKeepsAllMeals(meals[1..]);
    }
  }

  /** A query that occurs in a meal's name keeps that meal, whatever its case. */
  lemma {:induction false} NameMatchKept(meals: seq<Meal>, query: string, i: nat)
    requires i < |meals| && Contains(meals[i].name, query)
    ensures meals[i] in FilteredMeals(meals, query)
  {
    var n := meals[i].name;
    var k: nat :| k <= |n| && OccursAt(n, query, k);
    var ln := ToLower(n);
    var lq := ToLower(query);
    assert ln[k..k + |query|] == lq by {
      forall j | 0 <= j < |query|
        ensures ln[k..k + |query|][j] == lq[j]
      {
        assert n[k + j] == query[j];
      }
    }
    assert OccursAt(ln, lq, k);
  }

  /** The object `addToCart` receives: the meal's fields, one unit, a falsy
      price replaced by 299.99 and a falsy restaurant id by the fixed one. */
  function MealCartItem(m: Meal): (x: LineItem)
    ensures x.name == m.name && x.description == m.description && x.image == m.image
    ensures x.quantity == 1
    ensures x.price == if m.price == 0 then DefaultPrice else m.price
    ensures x.restaurantId == if m.restaurantId.None? || m.restaurantId == Some("") then Some(DefaultRestaurantId) else m.restaurantId
  {
    LineItem(
      m.name,
      if m.restaurantId.None? || m.restaurantId == Some("") then Some(DefaultRestaurantId) else m.restaurantId,
      if m.price == 0 then DefaultPrice else m.price,
      1,
      m.description,
      m.image)
  }

  /** Every meal in the cart has a non-empty restaurant id and a non-zero price. */
  lemma {:induction false} MealCartItemDefaults(m: Meal)
    ensures MealCartItem(m).restaurantId.Some? && MealCartItem(m).restaurantId.value != ""
    ensures MealCartItem(m).price != 0
    ensures m.price >= 0 ==> MealCartItem(m).price > 0
  {
  }

  /** Adding a meal adds exactly one unit of it to the cart total, priced at
      the line it lands on. */
  lemma {:induction false} MealAddsOneUnit(lines: seq<LineItem>, m: Meal)
    ensures var i := IndexOfKey(lines, KeyOf(MealCartItem(m)));
      Total(Add(lines, MealCartItem(m))) ==
        Total(lines) + (if i.Some? then lines[i.value].price else MealCartItem(m).price)
  {
    var x := MealCartItem(m);
    assert IncomingQuantity(x) == 1;
    AddTotal(lines, x);
  }

  /** `handleAddToCart(meal)`: without a user no add happens (the page sends
      the visitor to the login page); with one the cart item is added. */
  method HandleAddToCart(cart: ShoppingCart, loggedIn: bool, m: Meal)
    requires cart.Valid()
    modifies cart
    ensures cart.Valid()
    ensures !loggedIn ==> cart.lines == old(cart.lines)
    ensures loggedIn ==> cart.lines == Add(old(cart.lines), MealCartItem(m))
  {
    if !loggedIn {
      return;
    }
    cart.AddToCart(MealCartItem(m));
  }
}
