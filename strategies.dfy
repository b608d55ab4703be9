/** The pluggable strategies of the network: activation, propagation,
    initialization and training. In the C++ source each is a shared pointer
    to a std::function built by a factory template; here each family is a
    value (or, for the stateful initializer, an object) of its own type. */
module Strategies {

  datatype Option<T> = None | Some(value: T)

  /** An activation strategy: the forward function (`dxdy`) and its
      first derivative expressed in terms of the output (`dydx`). */
  datatype ActFunction = ActFunction(forward: real -> real, derivative: real -> real)
  {
    /** The activation: the stored forward function applied to x. */
    function Dxdy(x: real): (y: real)
      ensures y == forward(x)
    {
      forward(x)
    }

    /** The derivative, taken at an output y: the stored derivative applied to y. */
    function Dydx(y: real): (d: real)
      ensures d == derivative(y)
    {
      derivative(y)
    }
  }

  /** Derivative of the logistic function written in terms of its output y;
      it never exceeds 1/4, the value it takes at y = 1/2. */
  function SigmoidDerivative(y: real): (d: real)
    ensures d <= 0.25
  {
    var h := y - 0.5;
    assert y * (1.0 - y) == 0.25 - h * h by {
      calc {
        y * (1.0 - y);
        (0.5 + h) * (0.5 - h);
        0.25 - h * h;
      }
    }
    y * (1.0 - y)
  }

  lemma SigmoidDerivativeAtHalf()
    ensures SigmoidDerivative(0.5) == 0.25
  {
  }

  /** The built-in sigmoid. Its forward function 1/(1+e^-x) is transcendental
      and is supplied by the caller; its derivative is exact. */
  function Sigmoid(forward: real -> real): (act: ActFunction)
    ensures act.forward == forward
    ensures forall y :: act.Dydx(y) == y * (1.0 - y)
  {
    ActFunction(forward, SigmoidDerivative)
  }

  /** A propagation strategy: the built-in dot product, or any total function
      of (input vector, weight vector). */
  datatype Propagation = DotProduct | Custom(apply: (seq<real>, seq<real>) -> real)

  /** The built-in dot product walks the first vector and reads the second in
      step, so it stays in bounds only when the second is at least as long. */
  predicate Fits(prop: Propagation, a: seq<real>, b: seq<real>)
  {
    prop.DotProduct? ==> |a| <= |b|
  }

  /** Applying a propagation strategy: the built-in one is the dot product,
      and a custom one is exactly the function it wraps. */
  function Propagate(prop: Propagation, a: seq<real>, b: seq<real>): (r: real)
    requires Fits(prop, a, b)
    ensures prop.DotProduct? ==> r == Dot(a, b)
    ensures prop.Custom? ==> r == prop.apply(a, b)
  {
    match prop
    case DotProduct => Dot(a, b)
    case Custom(f) => f(a, b)
  }

  /** Sum of a[i] * b[i] over the indices of a. */
  function Dot(a: seq<real>, b: seq<real>): real
    requires |a| <= |b|
    decreases |a|
  {
    if |a| == 0 then 0.0 else Dot(a[..|a| - 1], b) + a[|a| - 1] * b[|a| - 1]
  }

  /** The accumulating loop of `__dotprod`. */
  method DotProd(a: seq<real>, b: seq<real>) returns (c: real)
    requires |a| <= |b|
    ensures c == Dot(a, b)
  {
    c := 0.0;
    var k := 0;
    while k < |a|
      invariant 0 <= k <= |a|
      invariant c == Dot(a[..k], b)
    {
      assert a[..k + 1][..k] == a[..k];
      c := c + a[k] * b[k];
      k := k + 1;
    }
    assert a[..|a|] == a;
  }

  /** Entries of b past the length of a play no part in the dot product. */
  lemma {:induction false} DotIgnoresExcess(a: seq<real>, b: seq<real>)
    requires |a| <= |b|
    ensures Dot(a, b) == Dot(a, b[..|a|])
  {
    if |a| > 0 {
      var n := |a| - 1;
      DotIgnoresExcess(a[..n], b);
      DotIgnoresExcess(a[..n], b[..|a|]);
      assert b[..|a|][..n] == b[..n];
    }
  }

  /** For vectors of equal length the dot product is symmetric. */
  lemma {:induction false} DotSymmetric(a: seq<real>, b: seq<real>)
    requires |a| == |b|
    ensures Dot(a, b) == Dot(b, a)
  {
    if |a| > 0 {
      var n := |a| - 1;
      DotIgnoresExcess(a[..n], b);
      DotIgnoresExcess(b[..n], a);
      DotSymmetric(a[..n], b[..n]);
      assert b[..n][..n] == b[..n];
      assert a[..n][..n] == a[..n];
    }
  }

  lemma DotExample()
    ensures Dot([1.0, 2.0, 3.0], [4.0, 5.0, 6.0]) == 32.0
  {
    var a, b := [1.0, 2.0, 3.0], [4.0, 5.0, 6.0];
    assert a[..2] == [1.0, 2.0] && a[..2][..1] == [1.0] && a[..2][..1][..0] == [];
    assert Dot([1.0], b) == 4.0;
    assert Dot([1.0, 2.0], b) == 14.0;
  }

  /** The training strategy family. The only one the source defines is
      back propagation; it is run by `Machine.BackPropagate`. */
  datatype Training = BackPropagation

  /** An initialization strategy: a nullary producer of weights. Its state is
      the number of values drawn so far; the k-th call yields stream(k). Being
      an object, it is shared by every Parameters that holds it, as the
      source's shared pointer is. */
  class Initializer {
    const stream: nat -> real
    var calls: nat

    constructor (stream: nat -> real)
      ensures this.stream == stream && calls == 0
    {
      this.stream := stream;
      calls := 0;
    }

    method Next() returns (w: real)
      modifies this
      ensures w == stream(old(calls))
      ensures calls == old(calls) + 1
    {
      w := stream(calls);
      calls := calls + 1;
    }
  }
}
