/** The shopping cart of the `useOrder` hooks (src/presentation/hooks/useOrder.ts
    and its older copy Sistema-de-Ordenes/src/presentation/hooks/useOrder.ts).
    The `setCart` updaters are pure functions from the previous cart to the
    next one; the hook itself is a class whose `cart` field they replace. Both
    copies write the updaters identically, so one set of members models both. */
module Cart {
  import opened Base
  import opened Stock
  import opened Orders
  import opened Batch
  import opened OrderLifecycle

  function CartIds(cart: seq<OrderItem>): (ids: seq<string>)
    ensures |ids| == |cart| && forall k :: 0 <= k < |cart| ==> ids[k] == cart[k].productId
  {
    seq(|cart|, k requires 0 <= k < |cart| => cart[k].productId)
  }

  /** The quantity of the first cart line for the product, or 0 when it has none. */
  function CurrentQuantity(cart: seq<OrderItem>, id: string): int
  {
    match FindIndex(CartIds(cart), id)
    case None => 0
    case Some(k) => cart[k].quantity
  }

  /** The cart as a list of distinct products, which the updaters keep. */
  predicate UniqueLines(cart: seq<OrderItem>)
  {
    Distinct(CartIds(cart))
  }

  // ---------------------------------------------------------------------
  // Filtering, shared by decreaseQuantity and removeFromCart

  /** `xs.filter(keep)` */
  function Keep(xs: seq<OrderItem>, keep: OrderItem -> bool): (r: seq<OrderItem>)
    ensures |r| <= |xs|
  {
    if xs == [] then []
    else Keep(xs[..|xs| - 1], keep) + (if keep(xs[|xs| - 1]) then [xs[|xs| - 1]] else [])
  }

  /** A filter keeps exactly the lines that pass it. */
  lemma {:induction false} KeepMembership(xs: seq<OrderItem>, keep: OrderItem -> bool)
    ensures forall x :: x in Keep(xs, keep) <==> x in xs && keep(x)
  {
    if xs != [] {
      KeepMembership(xs[..|xs| - 1], keep);
      assert xs == xs[..|xs| - 1] + [xs[|xs| - 1]];
    }
  }

  /** A filter works line by line, so the kept lines stay in their order. */
  lemma {:induction false} KeepConcat(xs: seq<OrderItem>, ys: seq<OrderItem>, keep: OrderItem -> bool)
    ensures Keep(xs + ys, keep) == Keep(xs, keep) + Keep(ys, keep)
    decreases |ys|
  {
    if ys == [] {
      assert xs + ys == xs;
    } else {
      KeepConcat(xs, ys[..|ys| - 1], keep);
      assert (xs + ys)[..|xs + ys| - 1] == xs + ys[..|ys| - 1];
    }
  }

  /** A filter every line passes changes nothing. */
  lemma {:induction false} KeepAll(xs: seq<OrderItem>, keep: OrderItem -> bool)
    requires forall i :: 0 <= i < |xs| ==> keep(xs[i])
    ensures Keep(xs, keep) == xs
  {
    if xs != [] {
      KeepAll(xs[..|xs| - 1], keep);
      assert xs == xs[..|xs| - 1] + [xs[|xs| - 1]];
    }
  }

  /** Dropping lines cannot make two lines share a product. */
  lemma {:induction false} KeepUnique(xs: seq<OrderItem>, keep: OrderItem -> bool)
    requires UniqueLines(xs)
    ensures UniqueLines(Keep(xs, keep))
    ensures forall id :: id in CartIds(Keep(xs, keep)) ==> id in CartIds(xs)
  {
    if xs != [] {
      var init, last := xs[..|xs| - 1], xs[|xs| - 1];
      assert UniqueLines(init) by {
        forall i, j | 0 <= i < j < |init| ensures CartIds(init)[i] != CartIds(init)[j] {
          assert CartIds(xs)[i] != CartIds(xs)[j];
        }
      }
      KeepUnique(init, keep);
      var kept := Keep(init, keep);
      assert last.productId !in CartIds(init) by {
        forall i | 0 <= i < |init| ensures CartIds(init)[i] != last.productId {
          assert CartIds(xs)[i] != CartIds(xs)[|xs| - 1];
        }
      }
      var r := Keep(xs, keep);
      forall id | id in CartIds(r) ensures id in CartIds(xs) {
        var k :| 0 <= k < |r| && CartIds(r)[k] == id;
        if k < |kept| {
          assert r[k] == kept[k];
          assert id in CartIds(kept);
          var m :| 0 <= m < |init| && CartIds(init)[m] == id;
          assert CartIds(xs)[m] == id;
        } else {
          assert r[k] == last;
          assert CartIds(xs)[|xs| - 1] == id;
        }
      }
      forall i, j | 0 <= i < j < |r| ensures CartIds(r)[i] != CartIds(r)[j] {
        if j < |kept| {
          assert CartIds(kept)[i] != CartIds(kept)[j];
        } else {
          assert r[j] == last && r[i] == kept[i];
          assert CartIds(kept)[i] in CartIds(kept);
        }
      }
    }
  }

  // ---------------------------------------------------------------------
  // addToCart

  /** Every line for the product gains the quantity; the other lines stay as they are. */
  function Bumped(cart: seq<OrderItem>, id: string, quantity: int): (r: seq<OrderItem>)
    ensures |r| == |cart| && CartIds(r) == CartIds(cart)
  {
    var r := seq(|cart|, i requires 0 <= i < |cart| =>
      if cart[i].productId == id then cart[i].(quantity := cart[i].quantity + quantity) else cart[i]);
    assert CartIds(r) == CartIds(cart);
    r
  }

  /** The `addToCart(product, quantity)` updater: refused, leaving the cart as
      it was, when the product's line would exceed its stock; otherwise the
      existing line grows or a new line is appended at the product's price. */
  function AddedToCart(prev: seq<OrderItem>, product: ProductRecord, quantity: int): seq<OrderItem>
  {
    if CurrentQuantity(prev, product.id) + quantity > product.stock then prev
    else if product.id in CartIds(prev) then Bumped(prev, product.id, quantity)
    else prev + [OrderItem(product.id, quantity, product.price)]
  }

  /** The three outcomes of an add, line by line: a refusal changes nothing;
      an add to an existing line changes only that product's quantity and
      keeps every line's product, price and position; an add of a new
      product appends exactly one line at the end. */
  lemma AddedToCartEffect(prev: seq<OrderItem>, product: ProductRecord, quantity: int)
    ensures CurrentQuantity(prev, product.id) + quantity > product.stock ==>
      AddedToCart(prev, product, quantity) == prev
    ensures CurrentQuantity(prev, product.id) + quantity <= product.stock && product.id in CartIds(prev) ==>
      var r := AddedToCart(prev, product, quantity);
      && |r| == |prev|
      && forall i :: 0 <= i < |prev| ==>
           && r[i].productId == prev[i].productId && r[i].price == prev[i].price
           && r[i].quantity == prev[i].quantity + (if prev[i].productId == product.id then quantity else 0)
    ensures CurrentQuantity(prev, product.id) + quantity <= product.stock && product.id !in CartIds(prev) ==>
      AddedToCart(prev, product, quantity) == prev + [OrderItem(product.id, quantity, product.price)]
  {
  }

  /** Read as a map from product to quantity, an accepted add raises the
      added product's quantity by `quantity` and leaves every other product's
      quantity alone; a refused one changes nothing. An accepted add keeps
      that product within its stock, and one line per product stays one line
      per product. */
  lemma {:induction false} AddedToCartQuantities(prev: seq<OrderItem>, product: ProductRecord, quantity: int, id: string)
    ensures var r := AddedToCart(prev, product, quantity);
      var accepted := CurrentQuantity(prev, product.id) + quantity <= product.stock;
      && CurrentQuantity(r, id) == CurrentQuantity(prev, id) + (if accepted && id == product.id then quantity else 0)
      && (accepted ==> product.id in CartIds(r) && CurrentQuantity(r, product.id) <= product.stock)
      && (UniqueLines(prev) ==> UniqueLines(r))
  {
    var r := AddedToCart(prev, product, quantity);
    var ids := CartIds(prev);
    if CurrentQuantity(prev, product.id) + quantity <= product.stock && product.id !in ids {
      var line := OrderItem(product.id, quantity, product.price);
      assert CartIds(r) == ids + [product.id];
      FindIndexSnoc(ids, product.id, id);
      FindIndexSnoc(ids, product.id, product.id);
      if UniqueLines(prev) {
        forall i, j | 0 <= i < j < |r| ensures CartIds(r)[i] != CartIds(r)[j] {
          if j == |prev| {
            assert CartIds(r)[i] == ids[i];
            assert ids[i] in ids;
          } else {
            assert ids[i] != ids[j];
          }
        }
      }
    }
  }

  // ---------------------------------------------------------------------
  // decreaseQuantity

  /** Every line for the product loses one unit, stopping at zero; the other lines stay as they are. */
  function Decremented(cart: seq<OrderItem>, id: string): (r: seq<OrderItem>)
    ensures |r| == |cart| && CartIds(r) == CartIds(cart)
  {
    var r := seq(|cart|, i requires 0 <= i < |cart| =>
      if cart[i].productId == id then cart[i].(quantity := if cart[i].quantity - 1 > 0 then cart[i].quantity - 1 else 0)
      else cart[i]);
    assert CartIds(r) == CartIds(cart);
    r
  }

  /** Only the lines with a positive quantity, in order. */
  function Positive(cart: seq<OrderItem>): seq<OrderItem>
  {
    Keep(cart, (item: OrderItem) => item.quantity > 0)
  }

  /** The `decreaseQuantity(productId)` updater. */
  function QuantityDecreased(prev: seq<OrderItem>, id: string): seq<OrderItem>
  {
    Positive(Decremented(prev, id))
  }

  /** Whatever the cart held, every line left after a decrease has a positive
      quantity, no line appears that was not there with the same product and
      price, and one line per product stays one line per product. */
  lemma {:induction false} QuantityDecreasedLines(prev: seq<OrderItem>, id: string)
    ensures forall x :: x in QuantityDecreased(prev, id) ==> x.quantity > 0
    ensures forall x :: x in QuantityDecreased(prev, id) ==>
      exists i :: 0 <= i < |prev| && prev[i].productId == x.productId && prev[i].price == x.price
    ensures UniqueLines(prev) ==> UniqueLines(QuantityDecreased(prev, id))
  {
    var keep := (item: OrderItem) => item.quantity > 0;
    var d := Decremented(prev, id);
    KeepMembership(d, keep);
    forall x | x in QuantityDecreased(prev, id)
      ensures exists i :: 0 <= i < |prev| && prev[i].productId == x.productId && prev[i].price == x.price
    {
      var i :| 0 <= i < |d| && d[i] == x;
      assert prev[i].productId == x.productId && prev[i].price == x.price;
    }
    if UniqueLines(prev) {
      KeepUnique(d, keep);
    }
  }

  /** A filter that only one line can fail either keeps the list whole or
      drops that line and closes up the rest. */
  lemma {:induction false} KeepAllBut(xs: seq<OrderItem>, k: nat, keep: OrderItem -> bool)
    requires k < |xs|
    requires forall i :: 0 <= i < |xs| && i != k ==> keep(xs[i])
    ensures Keep(xs, keep) == if keep(xs[k]) then xs else xs[..k] + xs[k + 1..]
  {
    var before, x, after := xs[..k], xs[k], xs[k + 1..];
    assert xs == before + [x] + after;
    KeepAll(before, keep);
    KeepAll(after, keep);
    KeepOne(x, keep);
    KeepConcat(before, [x], keep);
    KeepConcat(before + [x], after, keep);
    if !keep(x) {
      assert Keep(before + [x], keep) == before;
    }
  }

  lemma {:induction false} KeepOne(x: OrderItem, keep: OrderItem -> bool)
    ensures Keep([x], keep) == if keep(x) then [x] else []
  {
    assert [x][..0] == [];
  }

  /** In a cart of distinct products only the product's own line is
      decremented. */
  lemma {:induction false} DecrementedOne(prev: seq<OrderItem>, id: string, k: nat)
    requires UniqueLines(prev)
    requires FindIndex(CartIds(prev), id) == Some(k)
    ensures Decremented(prev, id) ==
      prev[k := prev[k].(quantity := if prev[k].quantity - 1 > 0 then prev[k].quantity - 1 else 0)]
  {
    forall i | 0 <= i < |prev| && i != k ensures prev[i].productId != id {
      if i < k {
        assert CartIds(prev)[i] != CartIds(prev)[k];
      } else {
        assert CartIds(prev)[k] != CartIds(prev)[i];
      }
    }
  }

  /** On a cart of distinct products with positive quantities the updater
      does what its name says: a missing product changes nothing; a line with
      more than one unit loses one unit where it stands; a line with one unit
      is removed and the others close up in order. */
  lemma {:induction false} QuantityDecreasedReference(prev: seq<OrderItem>, id: string)
    requires UniqueLines(prev)
    requires forall i :: 0 <= i < |prev| ==> prev[i].quantity > 0
    ensures id !in CartIds(prev) ==> QuantityDecreased(prev, id) == prev
    ensures id in CartIds(prev) ==>
      var k := FindIndex(CartIds(prev), id).value;
      QuantityDecreased(prev, id) ==
        if prev[k].quantity > 1 then prev[k := prev[k].(quantity := prev[k].quantity - 1)]
        else prev[..k] + prev[k + 1..]
  {
    var keep := (item: OrderItem) => item.quantity > 0;
    if id !in CartIds(prev) {
      assert Decremented(prev, id) == prev;
      KeepAll(prev, keep);
    } else {
      var k := FindIndex(CartIds(prev), id).value;
      DecrementedOne(prev, id, k);
      var d := Decremented(prev, id);
      KeepAllBut(d, k, keep);
      assert d[..k] == prev[..k] && d[k + 1..] == prev[k + 1..];
    }
  }

  // ---------------------------------------------------------------------
  // removeFromCart / removeItem

  /** The `removeFromCart(productId)` updater (`removeItem` in the older hook
      is the same filter): every line for another product, in order. */
  function RemovedFromCart(prev: seq<OrderItem>, id: string): seq<OrderItem>
  {
    Keep(prev, (item: OrderItem) => item.productId != id)
  }

  /** Removal drops every line of that product and keeps every other line,
      in order; removing a product the cart does not hold changes nothing. */
  lemma {:induction false} RemovedFromCartEffect(prev: seq<OrderItem>, more: seq<OrderItem>, id: string)
    ensures forall x :: x in RemovedFromCart(prev, id) <==> x in prev && x.productId != id
    ensures id !in CartIds(RemovedFromCart(prev, id))
    ensures RemovedFromCart(prev + more, id) == RemovedFromCart(prev, id) + RemovedFromCart(more, id)
    ensures id !in CartIds(prev) ==> RemovedFromCart(prev, id) == prev
    ensures UniqueLines(prev) ==> UniqueLines(RemovedFromCart(prev, id))
  {
    var keep := (item: OrderItem) => item.productId != id;
    var r := RemovedFromCart(prev, id);
    KeepMembership(prev, keep);
    KeepConcat(prev, more, keep);
    forall k | 0 <= k < |r| ensures CartIds(r)[k] != id {
      assert r[k] in r;
    }
    if id !in CartIds(prev) {
      forall i | 0 <= i < |prev| ensures keep(prev[i]) {
        assert CartIds(prev)[i] != id;
      }
      KeepAll(prev, keep);
    }
    if UniqueLines(prev) {
      KeepUnique(prev, keep);
    }
  }

  // ---------------------------------------------------------------------
  // The hook

  class CartHook {
    const orderService: OrderService
    var cart: seq<OrderItem>

    /** `useState<OrderItem[]>([])` */
    constructor(orderService: OrderService)
      ensures this.orderService == orderService && cart == []
    {
      this.orderService := orderService;
      cart := [];
    }

    /** `addToCart(product, quantity = 1)`: the stock guard reads the
        product's stock as the screen holds it. */
    method AddToCart(product: Product, quantity: int)
      modifies this`cart
      ensures cart == AddedToCart(old(cart), product.Record(), quantity)
    {
      cart := AddedToCart(cart, product.Record(), quantity);
    }

    method DecreaseQuantity(productId: string)
      modifies this`cart
      ensures cart == QuantityDecreased(old(cart), productId)
    {
      cart := QuantityDecreased(cart, productId);
    }

    method RemoveFromCart(productId: string)
      modifies this`cart
      ensures cart == RemovedFromCart(old(cart), productId)
    {
      cart := RemovedFromCart(cart, productId);
    }

    /** `checkout(clientId)`: the cart is handed to `createOrder` as it is;
        it is emptied exactly when the order was created, and otherwise kept
        for another try. A refused checkout leaves the orders, the stock and
        both listener lists' deliveries as they were; an accepted one stores
        the completed order and debits the catalog. Either way the alerts of
        the lines the debit pass reached are on the bus. */
    method Checkout(clientId: string, orderId: string, createdAt: string, now: int) returns (ok: bool)
      modifies this`cart, orderService`orders, orderService`deliveries
      modifies orderService.inventory`catalog, orderService.inventory`deliveries
      modifies orderService.inventory.notifier`storage, orderService.inventory.notifier`nextId
      modifies orderService.inventory.notifier`emitted, orderService.inventory.notifier`deliveries
      ensures ok <==> old(cart) != [] && DebitRun(old(orderService.inventory.catalog), Lines(old(cart))).result.Success?
      ensures ok ==> cart == []
      ensures !ok ==> cart == old(cart)
      ensures !ok ==>
        && orderService.orders == old(orderService.orders)
        && orderService.deliveries == old(orderService.deliveries)
        && orderService.inventory.catalog == old(orderService.inventory.catalog)
        && orderService.inventory.deliveries == old(orderService.inventory.deliveries)
      ensures ok ==>
        && orderService.orders == Upsert(old(orderService.orders), OrderRecord(orderId, clientId, old(cart), Completed, createdAt))
        && orderService.deliveries == old(orderService.deliveries) + orderService.listeners
        && orderService.inventory.catalog == DebitRun(old(orderService.inventory.catalog), Lines(old(cart))).result.value
        && orderService.inventory.deliveries ==
             old(orderService.inventory.deliveries) + Broadcast(orderService.inventory.listeners, orderService.inventory.catalog)
      ensures orderService.inventory.Announced(
                old(orderService.inventory.notifier.emitted), old(orderService.inventory.notifier.nextId),
                old(orderService.inventory.notifier.GetHistory()), old(orderService.inventory.notifier.deliveries),
                if old(cart) == [] then [] else DebitRun(old(orderService.inventory.catalog), Lines(old(cart))).alerts, now)
    {
      var created := orderService.CreateOrder(clientId, cart, orderId, createdAt, now);
      if created.Success? {
        cart := [];
        ok := true;
      } else {
        ok := false;
      }
    }

    /** `total`: the order total of what the cart holds, the sum of price
        times quantity over its lines. */
    function Total(): (t: int)
      reads this
      ensures t == LineSum(cart)
      ensures cart == [] ==> t == 0
    {
      TotalIsLineSum(cart);
      CalculateTotal(cart)
    }
  }
}
