/** The scalar operator prelude of the autodiff library: exact arithmetic and
    predicate operators over `real`, the chain-rule backward helpers, and the
    higher-order list combinators `Map`, `ZipWith` and `Reduce` with the list
    functions derived from them.

    Python floats become `real`, so every identity below is exact. The
    combinators take the function and the list(s) together rather than
    returning a closure. */
module Operators {
  import opened Wrappers

  /** Two values closer than this are "close" (1e-2). */
  const CloseTolerance: real := 0.01

  // ---------------------------------------------------------------------
  // Elementary functions
  // ---------------------------------------------------------------------

  function Mul(x: real, y: real): real { x * y }

  function Id(x: real): real { x }

  function Add(x: real, y: real): real { x + y }

  function Neg(x: real): real { -x }

  /** 1.0 when x is less than y, else 0.0. */
  function Lt(x: real, y: real): (r: real)
    ensures r == 0.0 || r == 1.0
    ensures r == 1.0 <==> x < y
  {
    if x < y then 1.0 else 0.0
  }

  /** 1.0 when x equals y, else 0.0. */
  function Eq(x: real, y: real): (r: real)
    ensures r == 0.0 || r == 1.0
    ensures r == 1.0 <==> x == y
  {
    if x == y then 1.0 else 0.0
  }

  /** x when x is greater than y, else y: the larger of the two. */
  function Max(x: real, y: real): (r: real)
    ensures r >= x && r >= y
    ensures r == x || r == y
  {
    if x > y then x else y
  }

  /** 1.0 when |x - y| < 1e-2, else 0.0. */
  function IsClose(x: real, y: real): (r: real)
    ensures r == 0.0 || r == 1.0
    ensures r == 1.0 <==> -CloseTolerance < x - y < CloseTolerance
  {
    if (if x - y < 0.0 then y - x else x - y) < CloseTolerance then 1.0 else 0.0
  }

  /** x when x is greater than 0, else 0: the positive part of x. */
  function Relu(x: real): (r: real)
    ensures r >= 0.0 && r >= x
    ensures r == x || r == 0.0
  {
    if x > 0.0 then x else 0.0
  }

  /** 1/x; dividing by zero is an error, as it is for Python floats. */
  function Inv(x: real): (r: Result<real>)
    ensures r.Err? <==> x == 0.0
    ensures r.Err? ==> r.error == ZeroDivision
    ensures r.Ok? ==> r.value * x == 1.0
  {
    if x == 0.0 then Err(ZeroDivision) else Ok(1.0 / x)
  }

  // ---------------------------------------------------------------------
  // Backward helpers: d times the derivative of the forward function at x
  // ---------------------------------------------------------------------

  /** d * log'(x) = d / x, on the domain of log (x > 0). */
  function LogBack(x: real, d: real): (r: Result<real>)
    ensures r.Err? <==> x <= 0.0
    ensures r.Err? ==> r.error == MathDomain
    ensures r.Ok? ==> r.value * x == d
  {
    if x <= 0.0 then Err(MathDomain) else Ok(d / x)
  }

  /** d * inv'(x) = d * (-1 / x^2); undefined where inv is, at x == 0. */
  function InvBack(x: real, d: real): (r: Result<real>)
    ensures r.Err? <==> x == 0.0
    ensures r.Err? ==> r.error == ZeroDivision
    ensures r.Ok? ==> r.value * (x * x) == -d
  {
    if x == 0.0 then Err(ZeroDivision)
    else
      var sq := x * x;
      assert sq != 0.0;
      Ok(d * (-1.0 / sq))
  }

  /** d * relu'(x): the gradient passes through where relu is the identity
      and is blocked where relu is constant. */
  function ReluBack(x: real, d: real): (r: real)
    ensures x > 0.0 ==> r == d
    ensures x <= 0.0 ==> r == 0.0
  {
    if x > 0.0 then d else 0.0
  }

  // ---------------------------------------------------------------------
  // Higher-order combinators
  // ---------------------------------------------------------------------

  /** Applies fn to every element, preserving length and order. */
  function Map(fn: real -> real, ls: seq<real>): (r: seq<real>)
    ensures |r| == |ls|
    ensures forall i :: 0 <= i < |ls| ==> r[i] == fn(ls[i])
  {
    if |ls| == 0 then [] else [fn(ls[0])] + Map(fn, ls[1..])
  }

  /** Negates every element of ls, as Map(Neg). */
  function NegList(ls: seq<real>): (r: seq<real>)
    ensures |r| == |ls|
    ensures forall i :: 0 <= i < |ls| ==> r[i] == -ls[i]
  {
    Map(Neg, ls)
  }

  /** The element-by-element combination of two equally long lists. */
  function Pairwise(fn: (real, real) -> real, a: seq<real>, b: seq<real>): (r: seq<real>)
    requires |a| == |b|
    ensures |r| == |a|
    ensures forall i :: 0 <= i < |a| ==> r[i] == fn(a[i], b[i])
  {
    if |a| == 0 then [] else [fn(a[0], b[0])] + Pairwise(fn, a[1..], b[1..])
  }

  /** Combines two lists elementwise with fn; lists of different lengths are
      a length-mismatch error. */
  function ZipWith(fn: (real, real) -> real, ls1: seq<real>, ls2: seq<real>): (r: Result<seq<real>>)
    ensures r.Err? <==> |ls1| != |ls2|
    ensures r.Err? ==> r.error == LengthMismatch
    ensures r.Ok? ==> |r.value| == |ls1|
    ensures r.Ok? ==> forall i :: 0 <= i < |ls1| ==> r.value[i] == fn(ls1[i], ls2[i])
  {
    if |ls1| != |ls2| then Err(LengthMismatch) else Ok(Pairwise(fn, ls1, ls2))
  }

  /** Adds two lists elementwise, as ZipWith(Add). */
  function AddLists(ls1: seq<real>, ls2: seq<real>): (r: Result<seq<real>>)
    ensures r.Err? <==> |ls1| != |ls2|
    ensures r.Err? ==> r.error == LengthMismatch
    ensures r.Ok? ==> |r.value| == |ls1|
    ensures r.Ok? ==> forall i :: 0 <= i < |ls1| ==> r.value[i] == ls1[i] + ls2[i]
  {
    ZipWith(Add, ls1, ls2)
  }

  /** The reduction of x1 .. xn from start x0: fn(xn, ... fn(x2, fn(x1, x0))).
      The last element is applied outermost. */
  function Reduce(fn: (real, real) -> real, start: real, ls: seq<real>): real
  {
    if |ls| == 0 then start else fn(ls[|ls| - 1], Reduce(fn, start, ls[..|ls| - 1]))
  }

  /** Sum of a list, as Reduce(Add, 0). */
  function Sum(ls: seq<real>): real
  {
    Reduce(Add, 0.0, ls)
  }

  /** Product of a list, as Reduce(Mul, 1). */
  function Prod(ls: seq<real>): real
  {
    Reduce(Mul, 1.0, ls)
  }

  /** The reduction as a Python loop computes it: one pass from the front,
      feeding each element and the accumulator to fn. */
  method ReduceIterative(fn: (real, real) -> real, start: real, ls: seq<real>) returns (acc: real)
    ensures acc == Reduce(fn, start, ls)
  {
    acc := start;
    var i := 0;
    while i < |ls|
      invariant 0 <= i <= |ls|
      invariant acc == Reduce(fn, start, ls[..i])
    {
      assert ls[..i + 1][..i] == ls[..i];
      acc := fn(ls[i], acc);
      i := i + 1;
    }
    assert ls[..|ls|] == ls;
  }

  // ---------------------------------------------------------------------
  // Algebraic facts about the elementary functions
  // ---------------------------------------------------------------------

  /** Negation is an involution and the additive inverse; id is the identity. */
  lemma NegInvolution(x: real)
    ensures Neg(Neg(x)) == x
    ensures Add(x, Neg(x)) == 0.0
    ensures Id(x) == x
  {
  }

  /** Add and Mul are commutative with units 0 and 1. */
  lemma AddMulLaws(x: real, y: real)
    ensures Add(x, y) == Add(y, x) && Mul(x, y) == Mul(y, x)
    ensures Add(x, 0.0) == x && Mul(x, 1.0) == x
  {
  }

  /** Exactly one of x < y, x == y, y < x holds. */
  lemma LtEqTrichotomy(x: real, y: real)
    ensures Lt(x, y) + Eq(x, y) + Lt(y, x) == 1.0
    ensures Eq(x, y) == Eq(y, x)
    ensures Lt(x, x) == 0.0 && Eq(x, x) == 1.0
  {
  }

  /** Max does not depend on argument order and is idempotent. */
  lemma MaxCommutative(x: real, y: real)
    ensures Max(x, y) == Max(y, x)
    ensures Max(x, x) == x
  {
  }

  /** Closeness is reflexive and symmetric. */
  lemma IsCloseReflexiveSymmetric(x: real, y: real)
    ensures IsClose(x, x) == 1.0
    ensures IsClose(x, y) == IsClose(y, x)
  {
  }

  /** relu is the maximum with zero, and applying it twice changes nothing. */
  lemma ReluIdempotent(x: real)
    ensures Relu(x) == Max(0.0, x)
    ensures Relu(Relu(x)) == Relu(x)
  {
  }

  /** inv_back is the chain rule for inv: d * (-(1/x)^2). */
  lemma InvBackIsChainRule(x: real, d: real)
    requires x != 0.0
    ensures InvBack(x, d).Ok? && Inv(x).Ok?
    ensures InvBack(x, d).value == -d * Inv(x).value * Inv(x).value
  {
  }

  /** log_back is the chain rule for log: d * (1/x) on log's domain. */
  lemma LogBackIsChainRule(x: real, d: real)
    requires x > 0.0
    ensures LogBack(x, d).Ok? && Inv(x).Ok?
    ensures LogBack(x, d).value == d * Inv(x).value
  {
  }

  /** Each backward helper is linear in the upstream gradient d. */
  lemma BackwardLinear(x: real, c: real, d1: real, d2: real)
    ensures ReluBack(x, c * d1 + d2) == c * ReluBack(x, d1) + ReluBack(x, d2)
    ensures x != 0.0 ==> InvBack(x, c * d1 + d2).value == c * InvBack(x, d1).value + InvBack(x, d2).value
    ensures x > 0.0 ==> LogBack(x, c * d1 + d2).value == c * LogBack(x, d1).value + LogBack(x, d2).value
  {
  }

  // ---------------------------------------------------------------------
  // Facts about the combinators
  // ---------------------------------------------------------------------

  /** Negating a list twice gives the list back. */
  lemma NegListInvolution(ls: seq<real>)
    ensures NegList(NegList(ls)) == ls
  {
  }

  /** Elementwise addition of lists is commutative. */
  lemma AddListsCommutative(ls1: seq<real>, ls2: seq<real>)
    ensures AddLists(ls1, ls2) == AddLists(ls2, ls1)
  {
    if |ls1| == |ls2| {
      var a := AddLists(ls1, ls2).value;
      var b := AddLists(ls2, ls1).value;
      assert |a| == |b|;
      forall i | 0 <= i < |a|
        ensures a[i] == b[i]
      {
      }
      assert a == b;
    }
  }

  /** Reducing the empty list gives the start value: sum [] = 0, prod [] = 1. */
  lemma ReduceEmpty(fn: (real, real) -> real, start: real)
    ensures Reduce(fn, start, []) == start
    ensures Sum([]) == 0.0 && Prod([]) == 1.0
  {
  }

  /** Fold order: the first element is combined with the start value first,
      so reducing x :: ls from start equals reducing ls from fn(x, start). */
  lemma {:induction false} ReduceCons(fn: (real, real) -> real, start: real, x: real, ls: seq<real>)
    ensures Reduce(fn, start, [x] + ls) == Reduce(fn, fn(x, start), ls)
    decreases |ls|
  {
    if |ls| == 0 {
      assert ([x] + ls)[..0] == [];
    } else {
      var n := |ls|;
      var p := ls[..n - 1];
      assert ([x] + ls)[..n] == [x] + p;
      assert ([x] + ls)[n] == ls[n - 1];
      ReduceCons(fn, start, x, p);
    }
  }

  /** The sum of a concatenation is the sum of the parts. */
  lemma {:induction false} SumAppend(a: seq<real>, b: seq<real>)
    ensures Sum(a + b) == Sum(a) + Sum(b)
    decreases |b|
  {
    if |b| == 0 {
      assert a + b == a;
    } else {
      var n := |b|;
      var c := a + b;
      assert c[..|c| - 1] == a + b[..n - 1];
      assert c[|c| - 1] == b[n - 1];
      SumAppend(a, b[..n - 1]);
    }
  }

  /** Summing x :: ls adds x to the sum of ls. */
  lemma SumCons(x: real, ls: seq<real>)
    ensures Sum([x] + ls) == x + Sum(ls)
  {
    assert [x][..0] == [];
    assert Reduce(Add, 0.0, [x]) == Add(x, Reduce(Add, 0.0, []));
    SumAppend([x], ls);
  }

  /** The product of a concatenation is the product of the parts. */
  lemma {:induction false} ProdAppend(a: seq<real>, b: seq<real>)
    ensures Prod(a + b) == Prod(a) * Prod(b)
    decreases |b|
  {
    if |b| == 0 {
      assert a + b == a;
    } else {
      var n := |b|;
      var c := a + b;
      assert c[..|c| - 1] == a + b[..n - 1];
      assert c[|c| - 1] == b[n - 1];
      ProdAppend(a, b[..n - 1]);
      calc {
        Prod(c);
        b[n - 1] * Prod(a + b[..n - 1]);
        b[n - 1] * (Prod(a) * Prod(b[..n - 1]));
        Prod(a) * (b[n - 1] * Prod(b[..n - 1]));
        Prod(a) * Prod(b);
      }
    }
  }

  /** A list that is the pointwise sum of two others sums to their total. */
  lemma {:induction false} SumPointwiseAdd(a: seq<real>, b: seq<real>, s: seq<real>)
    requires |a| == |b| == |s|
    requires forall i :: 0 <= i < |s| ==> s[i] == a[i] + b[i]
    ensures Sum(s) == Sum(a) + Sum(b)
    decreases |s|
  {
    if |s| > 0 {
      var n := |s| - 1;
      SumPointwiseAdd(a[..n], b[..n], s[..n]);
    }
  }

  /** A list that is another scaled by c sums to c times its sum. */
  lemma {:induction false} SumPointwiseScale(a: seq<real>, c: real, s: seq<real>)
    requires |a| == |s|
    requires forall i :: 0 <= i < |s| ==> s[i] == c * a[i]
    ensures Sum(s) == c * Sum(a)
    decreases |s|
  {
    if |s| > 0 {
      var n := |s| - 1;
      SumPointwiseScale(a[..n], c, s[..n]);
    }
  }

  /** sum(addLists(a, b)) = sum(a) + sum(b). */
  lemma SumAddLists(a: seq<real>, b: seq<real>)
    requires |a| == |b|
    ensures AddLists(a, b).Ok?
    ensures Sum(AddLists(a, b).value) == Sum(a) + Sum(b)
  {
    SumPointwiseAdd(a, b, AddLists(a, b).value);
  }

  /** sum(negList(ls)) = -sum(ls). */
  lemma SumNegList(ls: seq<real>)
    ensures Sum(NegList(ls)) == -Sum(ls)
  {
    SumPointwiseScale(ls, -1.0, NegList(ls));
  }
}
