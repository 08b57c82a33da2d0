/** The order entity (src/core/domain/Order.ts): its line items, the total
    recomputed from them, and the one-way cancellation. */
module Orders {
  import opened Base

  datatype OrderStatus = Pending | Completed | Cancelled

  /** A line item: the price is the unit price at the time of ordering. */
  datatype OrderItem = OrderItem(productId: string, quantity: int, price: int)

  /** An order as the order store holds it. */
  datatype OrderRecord = OrderRecord(
    id: string, clientId: string, items: seq<OrderItem>, status: OrderStatus, createdAt: string)

  /** `Order.calculateTotal(items)`: price times quantity summed over the
      items by a fold from the left, starting at 0. */
  function CalculateTotal(items: seq<OrderItem>): int
  {
    if items == [] then 0
    else CalculateTotal(items[..|items| - 1]) + items[|items| - 1].price * items[|items| - 1].quantity
  }

  /** The plain sum of price times quantity, taken from the front: the
      reference the fold is checked against. */
  function LineSum(items: seq<OrderItem>): int
  {
    if items == [] then 0 else items[0].price * items[0].quantity + LineSum(items[1..])
  }

  /** The sum is additive over concatenation. */
  lemma {:induction false} LineSumConcat(xs: seq<OrderItem>, ys: seq<OrderItem>)
    ensures LineSum(xs + ys) == LineSum(xs) + LineSum(ys)
  {
    if xs != [] {
      LineSumConcat(xs[1..], ys);
      assert (xs + ys)[1..] == xs[1..] + ys;
    } else {
      assert xs + ys == ys;
    }
  }

  /** The fold computes the sum of price times quantity over the items; an
      empty list totals 0. */
  lemma {:induction false} TotalIsLineSum(items: seq<OrderItem>)
    ensures CalculateTotal(items) == LineSum(items)
    ensures items == [] ==> CalculateTotal(items) == 0
  {
    if items != [] {
      var init, last := items[..|items| - 1], items[|items| - 1];
      TotalIsLineSum(init);
      LineSumConcat(init, [last]);
      assert init + [last] == items;
    }
  }

  /** Appending an item adds exactly its price times quantity; more generally
      the total of a concatenation is the sum of the totals. */
  lemma {:induction false} TotalAppend(xs: seq<OrderItem>, ys: seq<OrderItem>)
    ensures CalculateTotal(xs + ys) == CalculateTotal(xs) + CalculateTotal(ys)
    ensures |ys| == 1 ==> CalculateTotal(xs + ys) == CalculateTotal(xs) + ys[0].price * ys[0].quantity
  {
    TotalIsLineSum(xs + ys);
    TotalIsLineSum(xs);
    TotalIsLineSum(ys);
    LineSumConcat(xs, ys);
  }

  class Order {
    const id: string
    const clientId: string
    const items: seq<OrderItem>
    var status: OrderStatus
    const createdAt: string

    /** `new Order(id, clientId, items, status = "completed", createdAt)`: the
        status defaults to completed; the creation time (`new Date()` in the
        source) is given by the caller. */
    constructor(id: string, clientId: string, items: seq<OrderItem>, createdAt: string, status: OrderStatus := Completed)
      ensures Record() == OrderRecord(id, clientId, items, status, createdAt)
    {
      this.id := id;
      this.clientId := clientId;
      this.items := items;
      this.status := status;
      this.createdAt := createdAt;
    }

    /** `Order.fromJSON(json)`: every field is taken over unchanged. */
    constructor FromJSON(json: OrderRecord)
      ensures Record() == json
    {
      id := json.id;
      clientId := json.clientId;
      items := json.items;
      status := json.status;
      createdAt := json.createdAt;
    }

    function Record(): OrderRecord
      reads this
    {
      OrderRecord(id, clientId, items, status, createdAt)
    }

    /** The `total` getter: recomputed from the items, never stored, and so it
        is the sum of price times quantity whatever the status. */
    function Total(): (t: int)
      ensures t == LineSum(items)
    {
      TotalIsLineSum(items);
      CalculateTotal(items)
    }

    /** `cancel()`: completed or pending becomes cancelled; a second cancel is
        refused and the order stays cancelled. */
    method Cancel() returns (r: Outcome<Error>)
      modifies this
      ensures old(status) == Cancelled <==> r == Fail(AlreadyCancelled)
      ensures r.Pass? <==> old(status) != Cancelled
      ensures status == Cancelled
    {
      if status == Cancelled {
        return Fail(AlreadyCancelled);
      }
      status := Cancelled;
      r := Pass;
    }
  }
}
