/** Shared vocabulary: failure-carrying results, the error taxonomy of the
    services, listener identities and the list helpers (`filter`, `forEach`
    dispatch, number formatting) that several services use. */
module Base {

  datatype Option<+T> = None | Some(value: T)

  /** The value of an operation that may throw. */
  datatype Result<+T, +E> = Success(value: T) | Failure(error: E)

  /** The outcome of an operation that returns nothing but may throw. */
  datatype Outcome<+E> = Pass | Fail(error: E)

  /** Every error the core throws, with the datum its message carries. */
  datatype Error =
    | InvalidQuantity                        // "La cantidad debe ser mayor a 0"
    | InsufficientStock(productName: string) // "Stock insuficiente para <name>"
    | ProductNotFound(productId: string)     // "Producto <id> no encontrado"
    | UnknownProduct                         // "Producto no encontrado" (updateProduct)
    | EmptyCart                              // "Carrito vacío"
    | OrderNotFound                          // "Orden no encontrada"
    | AlreadyCancelled                       // "Esta orden ya fue cancelada"
    | UnreadableStorage                      // JSON.parse of a corrupt notification log

  /** A subscribed callback, identified the way the source removes it: by
      reference equality. */
  type ListenerId = nat

  /** One call of a listener with the value it was given. */
  datatype Delivery<+S> = Delivery(listener: ListenerId, payload: S)

  /** The list with every copy of `x` removed and the rest in order. */
  function Without<T(==)>(xs: seq<T>, x: T): (r: seq<T>)
  {
    if xs == [] then []
    else Without(xs[..|xs| - 1], x) + (if xs[|xs| - 1] == x then [] else [xs[|xs| - 1]])
  }

  /** Concatenation regroups freely. */
  lemma AppendAssoc<T>(a: seq<T>, b: seq<T>, c: seq<T>)
    ensures (a + b) + c == a + (b + c)
  {
  }

  /** Removing x drops every copy of it and keeps every other element. */
  lemma {:induction false} WithoutMembership<T>(xs: seq<T>, x: T)
    ensures x !in Without(xs, x)
    ensures forall y :: y != x ==> (y in Without(xs, x) <==> y in xs)
    ensures multiset(Without(xs, x))[x] == 0
    ensures forall y :: y != x ==> multiset(Without(xs, x))[y] == multiset(xs)[y]
  {
    WithoutCounts(xs, x);
    forall y | y != x
      ensures y in Without(xs, x) <==> y in xs
    {
      assert y in multiset(Without(xs, x)) <==> y in multiset(xs);
    }
  }

  /** `WithoutMembership` counted with multiplicity. */
  lemma {:induction false} WithoutCounts<T>(xs: seq<T>, x: T)
    ensures multiset(Without(xs, x))[x] == 0
    ensures forall y :: y != x ==> multiset(Without(xs, x))[y] == multiset(xs)[y]
  {
    if xs != [] {
      var init, last := xs[..|xs| - 1], xs[|xs| - 1];
      WithoutCounts(init, x);
      assert xs == init + [last];
      var kept := if last == x then [] else [last];
      assert Without(xs, x) == Without(init, x) + kept;
      assert multiset(Without(xs, x)) == multiset(Without(init, x)) + multiset(kept);
    }
  }

  /** Removal works element by element, so the kept elements stay in their
      original order: it distributes over concatenation. */
  lemma {:induction false} WithoutConcat<T>(xs: seq<T>, ys: seq<T>, x: T)
    ensures Without(xs + ys, x) == Without(xs, x) + Without(ys, x)
    decreases |ys|
  {
    if ys == [] {
      assert xs + ys == xs;
    } else {
      var init, last := ys[..|ys| - 1], ys[|ys| - 1];
      WithoutConcat(xs, init, x);
      assert (xs + ys)[..|xs + ys| - 1] == xs + init;
      AppendAssoc(Without(xs, x), Without(init, x), if last == x then [] else [last]);
    }
  }

  /** Removing an element that is not there changes nothing. */
  lemma {:induction false} WithoutAbsent<T>(xs: seq<T>, x: T)
    requires x !in xs
    ensures Without(xs, x) == xs
  {
    if xs != [] {
      var init := xs[..|xs| - 1];
      WithoutAbsent(init, x);
      assert xs == init + [xs[|xs| - 1]];
    }
  }

  /** No element occurs twice: for objects, no two positions hold the same
      reference. */
  predicate Distinct<T(==)>(xs: seq<T>)
  {
    forall i, j :: 0 <= i < j < |xs| ==> xs[i] != xs[j]
  }

  /** Calling each listener in turn: every registered listener, in
      registration order, is called once with the same payload. */
  function Broadcast<S>(listeners: seq<ListenerId>, payload: S): (r: seq<Delivery<S>>)
  {
    if listeners == [] then []
    else Broadcast(listeners[..|listeners| - 1], payload) + [Delivery(listeners[|listeners| - 1], payload)]
  }

  lemma {:induction false} BroadcastReachesEach<S>(listeners: seq<ListenerId>, payload: S)
    ensures |Broadcast(listeners, payload)| == |listeners|
    ensures forall i :: 0 <= i < |listeners| ==>
      Broadcast(listeners, payload)[i] == Delivery(listeners[i], payload)
  {
    if listeners != [] {
      BroadcastReachesEach(listeners[..|listeners| - 1], payload);
    }
  }

  /** The decimal digits of n, as JavaScript prints a non-negative integer. */
  function Decimal(n: nat): (s: string)
    ensures |s| >= 1
    ensures forall i :: 0 <= i < |s| ==> '0' <= s[i] <= '9'
  {
    if n < 10 then [Digit(n)] else Decimal(n / 10) + [Digit(n % 10)]
  }

  function Digit(d: nat): (c: char)
    requires d < 10
    ensures '0' <= c <= '9'
  {
    ['0', '1', '2', '3', '4', '5', '6', '7', '8', '9'][d]
  }
}
