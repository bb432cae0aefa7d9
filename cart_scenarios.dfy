/** The concrete scenarios of typescript/src/shoppingCart.spec.ts, written as
    methods on the cart class whose postconditions give the expected values. */
module CartScenarios {
  import opened Results
  import opened Catalog
  import opened Cart

  /** A fresh cart: add `add` of a code, then remove `remove` of it. The add
      returns `add`; the remove returns what is left, and the entry is gone
      exactly when nothing is left. */
  method AddThenRemove(code: ProductCode, add: int, remove: int)
    returns (added: int, left: int, present: bool)
    ensures added == add
    ensures left == add - remove
    ensures present <==> add != remove
  {
    var cart := new ShoppingCart();
    added := cart.Add(code, add);
    left := cart.Remove(code, remove);
    present := code in cart.products;
  }

  /** Without a count, remove takes out one item. */
  method RemoveDefaultsToOne(code: ProductCode) returns (left: int)
    ensures left == 1
  {
    var cart := new ShoppingCart();
    var added := cart.Add(code, 2);
    left := cart.Remove(code);
  }

  /** Ordering from a fresh cart fails. */
  method OrderEmpty() returns (r: Result<Order, CartError>)
    ensures r == Failure(EmptyCart)
  {
    var cart := new ShoppingCart();
    r := cart.PlaceOrder();
  }

  /** apple 3, apple 3, apple 3 orders 9 items for 450. */
  method OrderApples() returns (r: Result<Order, CartError>)
    ensures r == Success(Order(9, 450))
  {
    var cart := new ShoppingCart();
    var n := cart.Add(Apple, 3);
    AddedTotals(map[], Apple, 3);
    var m1 := cart.products;
    n := cart.Add(Apple, 3);
    AddedTotals(m1, Apple, 3);
    var m2 := cart.products;
    n := cart.Add(Apple, 3);
    AddedTotals(m2, Apple, 3);
    r := cart.PlaceOrder();
  }

  /** apple 20, grape 4, orange 8 orders 32 items for 1960. */
  method OrderMixed() returns (r: Result<Order, CartError>)
    ensures r == Success(Order(32, 1960))
  {
    var cart := new ShoppingCart();
    var n := cart.Add(Apple, 20);
    n := cart.Add(Grape, 4);
    n := cart.Add(Orange, 8);
    TotalsAgree(cart.products);
    r := cart.PlaceOrder();
  }

  /** grape 3, orange 9 orders 12 items for 930. */
  method OrderGrapesAndOranges() returns (r: Result<Order, CartError>)
    ensures r == Success(Order(12, 930))
  {
    var cart := new ShoppingCart();
    var n := cart.Add(Grape, 3);
    AddedTotals(map[], Grape, 3);
    var m1 := cart.products;
    n := cart.Add(Orange, 9);
    AddedTotals(m1, Orange, 9);
    r := cart.PlaceOrder();
  }

  /** An entry removed down to exactly zero is gone, so the order does not
      count it. */
  method OrderAfterRemovingAll() returns (r: Result<Order, CartError>)
    ensures r == Success(Order(1, 100))
  {
    var cart := new ShoppingCart();
    var n := cart.Add(Apple, 2);
    AddedTotals(map[], Apple, 2);
    var m1 := cart.products;
    n := cart.Add(Grape, 1);
    AddedTotals(m1, Grape, 1);
    var m2 := cart.products;
    n := cart.Remove(Apple, 2);
    RemovedTotals(m2, Apple, 2);
    assert Apple !in cart.products;
    r := cart.PlaceOrder();
  }
}
