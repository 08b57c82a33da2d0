/** The stock entity of the newer tree (src/core/domain/Product.ts): one
    product's quantity, changed only through a guarded debit and a guarded
    credit, and the two threshold predicates that drive the alerts. Prices
    are whole numbers of the smallest currency unit. */
module Stock {
  import opened Base

  /** A product as the repository stores it: `{id, name, price, _stock, minStock}`. */
  datatype ProductRecord = ProductRecord(id: string, name: string, price: int, stock: int, minStock: int)

  /** A stored product row as JSON may present it: the current field `_stock`
      and the field `stock` of rows written before the rename. */
  datatype ProductJson = ProductJson(
    id: string, name: string, price: int,
    underscoreStock: Option<int>, stock: Option<int>, minStock: int)

  // ---------------------------------------------------------------------
  // The rules, on values

  /** `decreaseStock(quantity)` applied to a product. */
  function Debit(p: ProductRecord, quantity: int): Result<ProductRecord, Error>
  {
    if quantity <= 0 then Failure(InvalidQuantity)
    else if p.stock < quantity then Failure(InsufficientStock(p.name))
    else Success(p.(stock := p.stock - quantity))
  }

  /** `increaseStock(quantity)` applied to a product. */
  function Credit(p: ProductRecord, quantity: int): Result<ProductRecord, Error>
  {
    if quantity <= 0 then Failure(InvalidQuantity)
    else Success(p.(stock := p.stock + quantity))
  }

  /** `isOut()`: nothing left. */
  predicate OutOfStock(p: ProductRecord)
  {
    p.stock == 0
  }

  /** `isLow()`: something left, but no more than the threshold. */
  predicate LowStock(p: ProductRecord)
  {
    p.stock <= p.minStock && p.stock > 0
  }

  /** A debit is refused exactly when the quantity is not positive or exceeds
      the stock; a refused debit names the reason, and an accepted one takes
      the quantity off the stock, changes nothing else and never leaves the
      stock negative. */
  lemma DebitGuards(p: ProductRecord, quantity: int)
    ensures Debit(p, quantity).Success? <==> 0 < quantity <= p.stock
    ensures quantity <= 0 ==> Debit(p, quantity) == Failure(InvalidQuantity)
    ensures 0 < quantity && p.stock < quantity ==> Debit(p, quantity) == Failure(InsufficientStock(p.name))
    ensures Debit(p, quantity).Success? ==>
      var q := Debit(p, quantity).value;
      q.stock == p.stock - quantity && q.stock >= 0 && q == p.(stock := q.stock)
  {
  }

  /** A credit is refused exactly for a non-positive quantity; otherwise it
      adds the quantity and changes nothing else. */
  lemma CreditGuards(p: ProductRecord, quantity: int)
    ensures Credit(p, quantity).Success? <==> quantity > 0
    ensures quantity <= 0 ==> Credit(p, quantity) == Failure(InvalidQuantity)
    ensures Credit(p, quantity).Success? ==>
      Credit(p, quantity).value == p.(stock := p.stock + quantity) && Credit(p, quantity).value.stock > p.stock
  {
  }

  /** A successful debit followed by a credit of the same quantity gives the
      product back exactly as it was. */
  lemma DebitThenCredit(p: ProductRecord, quantity: int)
    requires Debit(p, quantity).Success?
    ensures Credit(Debit(p, quantity).value, quantity) == Success(p)
  {
  }

  /** The two alert predicates never hold together; on a non-negative stock
      exactly one of "out", "low" and "above the threshold" holds. */
  lemma AlertLevelsPartition(p: ProductRecord)
    ensures !(OutOfStock(p) && LowStock(p))
    ensures OutOfStock(p) <==> p.stock == 0
    ensures LowStock(p) <==> 0 < p.stock <= p.minStock
    ensures p.stock >= 0 ==> (OutOfStock(p) || LowStock(p) || p.stock > p.minStock)
  {
  }

  /** `Product.fromJSON`: the stock comes from `_stock` when present and
      falls back to `stock`. A row with neither field is not represented. */
  function FromJson(json: ProductJson): (p: ProductRecord)
    requires json.underscoreStock.Some? || json.stock.Some?
    ensures p.id == json.id && p.name == json.name && p.price == json.price && p.minStock == json.minStock
    ensures json.underscoreStock.Some? ==> p.stock == json.underscoreStock.value
    ensures json.underscoreStock.None? ==> p.stock == json.stock.value
  {
    ProductRecord(json.id, json.name, json.price,
      if json.underscoreStock.Some? then json.underscoreStock.value else json.stock.value,
      json.minStock)
  }

  /** The row the repository writes for a product. */
  function ToJson(p: ProductRecord): ProductJson
  {
    ProductJson(p.id, p.name, p.price, Some(p.stock), None, p.minStock)
  }

  /** Writing a product and reading it back gives the same product. */
  lemma JsonRoundTrip(p: ProductRecord)
    ensures FromJson(ToJson(p)) == p
  {
  }

  // ---------------------------------------------------------------------
  // The entity

  class Product {
    const id: string
    const name: string
    const price: int
    var stock: int
    const minStock: int

    constructor(id: string, name: string, price: int, stock: int, minStock: int)
      ensures Record() == ProductRecord(id, name, price, stock, minStock)
    {
      this.id := id;
      this.name := name;
      this.price := price;
      this.stock := stock;
      this.minStock := minStock;
    }

    /** The product's current state as a value. */
    function Record(): ProductRecord
      reads this
    {
      ProductRecord(id, name, price, stock, minStock)
    }

    /** `Product.fromJSON(json)`. */
    constructor FromJSON(json: ProductJson)
      requires json.underscoreStock.Some? || json.stock.Some?
      ensures Record() == FromJson(json)
    {
      id := json.id;
      name := json.name;
      price := json.price;
      stock := if json.underscoreStock.Some? then json.underscoreStock.value else json.stock.value;
      minStock := json.minStock;
    }

    /** `decreaseStock(quantity)`: a refused debit leaves the stock as it was. */
    method DecreaseStock(quantity: int) returns (r: Outcome<Error>)
      modifies this
      ensures quantity <= 0 ==> r == Fail(InvalidQuantity)
      ensures 0 < quantity && old(stock) < quantity ==> r == Fail(InsufficientStock(name))
      ensures r.Pass? <==> Debit(old(Record()), quantity).Success?
      ensures r.Pass? ==> Record() == Debit(old(Record()), quantity).value
      ensures r.Fail? ==> stock == old(stock)
      ensures old(stock) >= 0 ==> stock >= 0
    {
      if quantity <= 0 {
        return Fail(InvalidQuantity);
      }
      if stock < quantity {
        return Fail(InsufficientStock(name));
      }
      stock := stock - quantity;
      r := Pass;
    }

    /** `increaseStock(quantity)`: a refused credit leaves the stock as it was. */
    method IncreaseStock(quantity: int) returns (r: Outcome<Error>)
      modifies this
      ensures quantity <= 0 ==> r == Fail(InvalidQuantity)
      ensures r.Pass? <==> Credit(old(Record()), quantity).Success?
      ensures r.Pass? ==> Record() == Credit(old(Record()), quantity).value
      ensures r.Fail? ==> stock == old(stock)
    {
      if quantity <= 0 {
        return Fail(InvalidQuantity);
      }
      stock := stock + quantity;
      r := Pass;
    }

    /** `isOut()` */
    predicate IsOut()
      reads this
      ensures IsOut() <==> OutOfStock(Record())
    {
      stock == 0
    }

    /** `isLow()` */
    predicate IsLow()
      reads this
      ensures IsLow() <==> LowStock(Record())
      ensures IsLow() ==> !IsOut()
    {
      stock <= minStock && stock > 0
    }
  }
}
