/** The shopping cart of typescript/src/shoppingCart.ts: a mutable dictionary
    from product code to stock, with add, remove and order. */
module Cart {
  import opened Results
  import opened Catalog

  /** A cart entry: the product built on first add and its accumulated count. */
  datatype Stock = Stock(product: Product, count: int)

  /** An order summary: number of items and total price. */
  datatype Order = Order(count: int, total: int)

  datatype CartError = EmptyCart

  type Entries = map<ProductCode, Stock>

  /** Every entry holds the catalog product of its own code. */
  ghost predicate WellFormed(m: Entries)
  {
    forall c :: c in m ==> m[c].product == NewProduct(c)
  }

  /** Every entry has a positive count. Not an invariant of the cart: it holds
      only under the conditions of the lemmas below. */
  ghost predicate AllPositive(m: Entries)
  {
    forall c :: c in m ==> m[c].count > 0
  }

  /** The contribution of one entry to an order. */
  function Line(s: Stock): Order
  {
    Order(s.count, s.product.price * s.count)
  }

  function Plus(a: Order, b: Order): Order
  {
    Order(a.count + b.count, a.total + b.total)
  }

  lemma PlusRearrange(a: Order, b: Order, c: Order)
    ensures Plus(a, Plus(b, c)) == Plus(b, Plus(a, c))
    ensures Plus(a, Plus(b, c)) == Plus(c, Plus(a, b))
  {
  }

  lemma PlusZero(a: Order, b: Order)
    ensures Plus(Order(0, 0), Plus(a, b)) == Plus(a, b)
    ensures Plus(a, Plus(Order(0, 0), b)) == Plus(a, b)
    ensures Plus(a, Plus(b, Order(0, 0))) == Plus(a, b)
  {
  }

  /** The sum of all lines of the cart, taken in an unspecified key order. */
  ghost function Totals(m: Entries): Order
    decreases |m|
  {
    if m == map[] then Order(0, 0)
    else
      var k :| k in m;
      Plus(Line(m[k]), Totals(m - {k}))
  }

  /** The sum does not depend on which key is taken first. */
  lemma {:induction false} TotalsAnyKey(m: Entries, k: ProductCode)
    requires k in m
    ensures Totals(m) == Plus(Line(m[k]), Totals(m - {k}))
    decreases |m|
  {
    var j :| j in m && Totals(m) == Plus(Line(m[j]), Totals(m - {j}));
    if j != k {
      var rest := m - {j} - {k};
      assert m - {k} - {j} == rest;
      TotalsAnyKey(m - {j}, k);
      TotalsAnyKey(m - {k}, j);
      var a, b, t := Line(m[j]), Line(m[k]), Totals(rest);
      assert Totals(m) == Plus(a, Plus(b, t));
      assert Totals(m - {k}) == Plus(a, t);
      PlusRearrange(a, b, t);
    }
  }

  /** The line of one code, or nothing when the code has no entry. */
  function LineOf(m: Entries, c: ProductCode): Order
  {
    if c in m then Line(m[c]) else Order(0, 0)
  }

  /** Reference sum: the three codes of the closed type, one after the other. */
  function TotalsByCode(m: Entries): Order
  {
    Plus(LineOf(m, Grape), Plus(LineOf(m, Apple), LineOf(m, Orange)))
  }

  lemma TotalsByCodeSplit(m: Entries, k: ProductCode)
    requires k in m
    ensures TotalsByCode(m) == Plus(Line(m[k]), TotalsByCode(m - {k}))
  {
    var m' := m - {k};
    var g, a, o := LineOf(m, Grape), LineOf(m, Apple), LineOf(m, Orange);
    var z := Order(0, 0);
    assert LineOf(m', k) == z;
    PlusRearrange(g, a, o);
    if k == Grape {
      assert LineOf(m', Apple) == a;
      assert LineOf(m', Orange) == o;
      assert TotalsByCode(m') == Plus(z, Plus(a, o));
      PlusZero(a, o);
    } else if k == Apple {
      assert LineOf(m', Grape) == g;
      assert LineOf(m', Orange) == o;
      assert TotalsByCode(m') == Plus(g, Plus(z, o));
      PlusZero(g, o);
    } else {
      assert LineOf(m', Grape) == g;
      assert LineOf(m', Apple) == a;
      assert TotalsByCode(m') == Plus(g, Plus(a, z));
      PlusZero(g, a);
    }
  }

  /** The unordered sum equals the code-by-code reference sum. */
  lemma {:induction false} TotalsAgree(m: Entries)
    ensures Totals(m) == TotalsByCode(m)
    decreases |m|
  {
    if m != map[] {
      var k :| k in m;
      TotalsAnyKey(m, k);
      TotalsAgree(m - {k});
      TotalsByCodeSplit(m, k);
    }
  }

  /** With positive counts and catalog prices, the item count is at least the
      number of entries and the total is non-negative. */
  lemma {:induction false} TotalsOfPositive(m: Entries)
    requires WellFormed(m) && AllPositive(m)
    ensures Totals(m).count >= |m|
    ensures Totals(m).total >= 0
    decreases |m|
  {
    if m != map[] {
      var k :| k in m;
      TotalsAnyKey(m, k);
      TotalsOfPositive(m - {k});
      LineTotalNonNegative(k, m[k].count);
    }
  }

  /** The entries after `add(code, count)`: an existing entry's count grows
      by `count`, otherwise a new entry holds `count`. No count is rejected. */
  function Added(m: Entries, code: ProductCode, count: int): (m': Entries)
    ensures code in m'
    ensures m'[code].count == (if code in m then m[code].count else 0) + count
    ensures forall c :: c != code ==> (c in m' <==> c in m)
    ensures forall c :: c != code && c in m ==> m'[c] == m[c]
    ensures WellFormed(m) ==> WellFormed(m')
  {
    if code in m then m[code := m[code].(count := m[code].count + count)]
    else m[code := Stock(NewProduct(code), count)]
  }

  /** The entries after `remove(code, count)`: nothing for an absent code;
      otherwise the count drops by `count` and the entry goes only when the
      count is then exactly zero. */
  function Removed(m: Entries, code: ProductCode, count: int): (m': Entries)
    ensures code !in m ==> m' == m
    ensures code in m ==> (code in m' <==> m[code].count - count != 0)
    ensures code in m' ==> m'[code] == m[code].(count := m[code].count - count)
    ensures forall c :: c != code ==> (c in m' <==> c in m)
    ensures forall c :: c != code && c in m ==> m'[c] == m[c]
    ensures WellFormed(m) ==> WellFormed(m')
  {
    if code !in m then m
    else if m[code].count - count == 0 then m - {code}
    else m[code := m[code].(count := m[code].count - count)]
  }

  /** Changing an entry's count by `d` changes its line by `d` items at the
      entry's price. */
  lemma LineShift(s: Stock, d: int)
    ensures Line(s.(count := s.count + d)) == Plus(Line(s), Order(d, s.product.price * d))
  {
    assert s.product.price * (s.count + d) == s.product.price * s.count + s.product.price * d;
  }

  /** Adding `count` of a catalog product adds `count` items and
      `price * count` to the order. */
  lemma AddedTotals(m: Entries, code: ProductCode, count: int)
    requires WellFormed(m)
    ensures Totals(Added(m, code, count))
         == Plus(Totals(m), Order(count, Lookup(code).price * count))
  {
    var m' := Added(m, code, count);
    var rest := Totals(m - {code});
    var delta := Order(count, Lookup(code).price * count);
    TotalsAnyKey(m', code);
    assert m' - {code} == m - {code};
    if code in m {
      assert m[code].product.price == Lookup(code).price;
      TotalsAnyKey(m, code);
      LineShift(m[code], count);
      PlusRearrange(Line(m[code]), delta, rest);
    } else {
      assert m - {code} == m;
      assert Line(m'[code]) == delta;
    }
  }

  /** Removing `count` of a present code takes `count` items and
      `price * count` off the order, whether or not the entry goes. */
  lemma RemovedTotals(m: Entries, code: ProductCode, count: int)
    requires WellFormed(m) && code in m
    ensures Totals(Removed(m, code, count))
         == Plus(Totals(m), Order(-count, -(Lookup(code).price * count)))
  {
    var m' := Removed(m, code, count);
    var rest := Totals(m - {code});
    var delta := Order(-count, -(Lookup(code).price * count));
    assert m[code].product.price == Lookup(code).price;
    TotalsAnyKey(m, code);
    if code in m' {
      TotalsAnyKey(m', code);
      assert m' - {code} == m - {code};
      LineShift(m[code], -count);
      PlusRearrange(Line(m[code]), delta, rest);
    } else {
      assert m' == m - {code} && m[code].count == count;
      assert Plus(Line(m[code]), delta) == Order(0, 0);
    }
  }

  /** An add keeps every count positive exactly when the code's new count is
      positive; otherwise the entry stays at zero or below, since add never
      deletes. */
  lemma AddedPositive(m: Entries, code: ProductCode, count: int)
    requires AllPositive(m)
    ensures AllPositive(Added(m, code, count))
        <==> (if code in m then m[code].count + count > 0 else count > 0)
  {
    if code in m && m[code].count + count <= 0 {
      assert Added(m, code, count)[code].count <= 0;
    }
  }

  /** A remove keeps every count positive exactly when the code is absent or
      at most the stored count is taken; taking more leaves a negative entry. */
  lemma RemovedPositive(m: Entries, code: ProductCode, count: int)
    requires AllPositive(m)
    ensures AllPositive(Removed(m, code, count)) <==> code !in m || count <= m[code].count
  {
  }

  /** Removing what was just added restores the entries, unless the code was
      stored with count zero, which the remove then deletes. */
  lemma RemoveUndoesAdd(m: Entries, code: ProductCode, count: int)
    ensures code !in m || m[code].count != 0 ==> Removed(Added(m, code, count), code, count) == m
    ensures code in m && m[code].count == 0 ==> Removed(Added(m, code, count), code, count) == m - {code}
  {
  }

  class ShoppingCart {
    /** The `products` dictionary. */
    var products: Entries

    ghost predicate Valid()
      reads this
    {
      WellFormed(products)
    }

    constructor ()
      ensures Valid() && products == map[]
    {
      products := map[];
    }

    /** Adds `count` of `code` and returns the code's new stored count. */
    method Add(code: ProductCode, count: int) returns (n: int)
      requires Valid()
      modifies this
      ensures Valid()
      ensures products == Added(old(products), code, count)
      ensures n == products[code].count
    {
      if code in products {
        var stock := products[code];
        products := products[code := stock.(count := stock.count + count)];
        return products[code].count;
      }
      products := products[code := Stock(NewProduct(code), count)];
      return products[code].count;
    }

    /** Takes `count` (one by default) of `code` out and returns the code's
        remaining count, or 0 when the code is absent or its entry went. */
    method Remove(code: ProductCode, count: int := 1) returns (n: int)
      requires Valid()
      modifies this
      ensures Valid()
      ensures products == Removed(old(products), code, count)
      ensures n == if code in products then products[code].count else 0
    {
      if code !in products {
        return 0;
      }
      var stock := products[code];
      products := products[code := stock.(count := stock.count - count)];
      if products[code].count == 0 {
        products := products - {code};
        assert products == Removed(old(products), code, count);
        return 0;
      }
      assert products == Removed(old(products), code, count);
      return products[code].count;
    }

    /** Fails on an empty cart; otherwise the summary of all entries. */
    method PlaceOrder() returns (r: Result<Order, CartError>)
      requires Valid()
      ensures r.Failure? <==> products == map[]
      ensures r.Failure? ==> r.error == EmptyCart
      ensures r.Success? ==> r.value == Totals(products)
    {
      if |products| == 0 {
        return Failure(EmptyCart);
      }
      var order := CalcOrder();
      return Success(order);
    }

    /** Sums counts and `price * count` over the entries, visiting them in
        whatever order the dictionary yields. */
    method CalcOrder() returns (order: Order)
      ensures order == Totals(products)
    {
      order := Order(0, 0);
      var rest := products;
      while rest != map[]
        invariant Plus(order, Totals(rest)) == Totals(products)
        decreases |rest|
      {
        var k :| k in rest;
        TotalsAnyKey(rest, k);
        var stock := rest[k];
        order := Order(order.count + stock.count, order.total + stock.product.price * stock.count);
        rest := rest - {k};
      }
    }
  }
}
