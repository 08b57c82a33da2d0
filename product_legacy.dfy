/** The stock entity of the older tree
    (Sistema-de-Ordenes/src/core/domain/Product.ts). Its debit is the same
    guarded debit as the newer one; its credit has no guard at all. */
module LegacyStock {
  import opened Base
  import opened Stock

  /** The older `increaseStock(quantity)`: adds any quantity, negative ones
      included. */
  function UncheckedCredit(p: ProductRecord, quantity: int): ProductRecord
  {
    p.(stock := p.stock + quantity)
  }

  /** Without the guard a negative credit lowers the stock, and can take a
      product below zero; the newer credit refuses the same call. */
  lemma UncheckedCreditCanGoNegative(p: ProductRecord, quantity: int)
    requires quantity < 0
    ensures UncheckedCredit(p, quantity).stock < p.stock
    ensures p.stock < -quantity ==> UncheckedCredit(p, quantity).stock < 0
    ensures Credit(p, quantity) == Failure(InvalidQuantity)
  {
  }

  /** For a positive quantity the older credit agrees with the newer one, so
      an accepted debit followed by the older credit restores the product. */
  lemma UncheckedCreditAgrees(p: ProductRecord, quantity: int)
    ensures quantity > 0 ==> Credit(p, quantity) == Success(UncheckedCredit(p, quantity))
    ensures Debit(p, quantity).Success? ==> UncheckedCredit(Debit(p, quantity).value, quantity) == p
  {
  }

  class LegacyProduct {
    const id: string
    const name: string
    const price: int
    var stock: int
    const minStock: int

    constructor(id: string, name: string, price: int, stock: int, minStock: int)
      ensures Record() == ProductRecord(id, name, price, stock, minStock)
    {
      this.id := id;
      this.name := name;
      this.price := price;
      this.stock := stock;
      this.minStock := minStock;
    }

    function Record(): ProductRecord
      reads this
    {
      ProductRecord(id, name, price, stock, minStock)
    }

    /** `decreaseStock(quantity)`: the same guarded debit as the newer
        entity's, so the refusals and their reasons are those `DebitGuards`
        describes, and the stock never goes below zero. */
    method DecreaseStock(quantity: int) returns (r: Outcome<Error>)
      modifies this
      ensures var d := Debit(old(Record()), quantity);
        && (r.Pass? <==> d.Success?)
        && (r.Pass? ==> Record() == d.value)
        && (r.Fail? ==> r.error == d.error && Record() == old(Record()))
      ensures old(stock) >= 0 ==> stock >= 0
    {
      var d := Debit(Record(), quantity);
      if d.Failure? {
        return Fail(d.error);
      }
      stock := d.value.stock;
      r := Pass;
    }

    /** `increaseStock(quantity)`: never refuses. */
    method IncreaseStock(quantity: int)
      modifies this
      ensures Record() == UncheckedCredit(old(Record()), quantity)
    {
      stock := stock + quantity;
    }

    /** `isOut()`: the shared threshold rule on the current state. */
    predicate IsOut()
      reads this
      ensures IsOut() <==> stock == 0
    {
      OutOfStock(Record())
    }

    /** `isLow()`: the shared threshold rule on the current state. */
    predicate IsLow()
      reads this
      ensures IsLow() <==> 0 < stock <= minStock
      ensures IsLow() ==> !IsOut()
    {
      LowStock(Record())
    }
  }
}
