/** The fixed product catalog of typescript/src/product.ts: a static table from
    product code to display name and unit price, and the `Product` record that
    copies one row of it. */
module Catalog {
  import opened Results

  /** The closed set of codes, `keyof typeof Product.productsInfo`. */
  datatype ProductCode = Grape | Apple | Orange

  /** One row of the static table. */
  datatype ProductInfo = ProductInfo(name: string, price: int)

  /** A constructed product: its code and the fields copied from its row. */
  datatype Product = Product(code: ProductCode, name: string, price: int)

  datatype Error = UnknownProduct(key: string)

  /** The object key under which a code's row is stored. */
  function Key(code: ProductCode): string
  {
    match code
    case Grape => "grape"
    case Apple => "apple"
    case Orange => "orange"
  }

  /** The row of a code. */
  function Lookup(code: ProductCode): (info: ProductInfo)
    ensures info.price > 0
  {
    match code
    case Grape => ProductInfo("ぶどう", 100)
    case Apple => ProductInfo("りんご", 50)
    case Orange => ProductInfo("みかん", 70)
  }

  /** The static `productsInfo` table, keyed by strings as in the source. */
  function ProductsInfo(): map<string, ProductInfo>
  {
    map[Key(Grape) := Lookup(Grape), Key(Apple) := Lookup(Apple), Key(Orange) := Lookup(Orange)]
  }

  /** Reads a string key back as a code; None for a key outside the table. */
  function ParseCode(key: string): (r: Option<ProductCode>)
    ensures r.Some? <==> key in ProductsInfo()
    ensures r.Some? ==> Key(r.value) == key
  {
    if key == "grape" then Some(Grape)
    else if key == "apple" then Some(Apple)
    else if key == "orange" then Some(Orange)
    else None
  }

  /** `new Product(code)` for a code of the closed type: the code and the
      fields of its row. */
  function NewProduct(code: ProductCode): Product
  {
    var info := Lookup(code);
    Product(code, info.name, info.price)
  }

  /** `new Product(key)` for an arbitrary runtime key: the lookup either finds
      a row, whose fields the product copies, or throws. */
  function NewProductFromKey(key: string): (r: Result<Product, Error>)
    ensures r.Failure? <==> key !in ProductsInfo()
    ensures r.Failure? ==> r.error == UnknownProduct(key)
    ensures r.Success? ==> Key(r.value.code) == key && ParseCode(key) == Some(r.value.code)
    ensures r.Success? ==> r.value.name == ProductsInfo()[key].name
    ensures r.Success? ==> r.value.price == ProductsInfo()[key].price
  {
    match ParseCode(key)
    case None => Failure(UnknownProduct(key))
    case Some(code) => Success(NewProduct(code))
  }

  /** The constructor the cart uses agrees with the string-keyed one: for
      every code, construction from its key succeeds with the same product. */
  lemma NewProductMatchesKey(code: ProductCode)
    ensures NewProductFromKey(Key(code)) == Success(NewProduct(code))
  {
  }

  /** The catalog holds exactly three rows, with the listed prices. */
  lemma CatalogRows()
    ensures ProductsInfo().Keys == {"grape", "apple", "orange"}
    ensures forall code: ProductCode :: ProductsInfo()[Key(code)] == Lookup(code)
    ensures |ProductsInfo()| == 3
    ensures ProductsInfo()["grape"].price == 100
    ensures ProductsInfo()["apple"].price == 50
    ensures ProductsInfo()["orange"].price == 70
  {
  }

  /** The code set is exactly the table's keys: every code is a key that reads
      back as itself, and every key reads back as a code whose key it is. */
  lemma CodesAreCatalogKeys(code: ProductCode, key: string)
    ensures Key(code) in ProductsInfo() && ParseCode(Key(code)) == Some(code)
    ensures key in ProductsInfo() <==> exists c: ProductCode :: Key(c) == key
  {
  }

  /** Prices are positive, so a line total with a non-negative count is
      non-negative. */
  lemma LineTotalNonNegative(code: ProductCode, count: int)
    requires count >= 0
    ensures Lookup(code).price * count >= 0
  {
  }
}
