/** The `Vector` value type: a fixed-length sequence of scalars with
    elementwise addition, scalar multiplication and the dot product. */
module Vectors {
  import opened Wrappers
  import opened Operators

  datatype Vector = Vector(values: seq<real>)

  /** Number of elements (`len(v)`). */
  function Length(v: Vector): nat
  {
    |v.values|
  }

  /** `v[idx]` with Python list indexing: a negative index counts from the
      end, and anything outside [-len, len) is an index error. */
  function Get(v: Vector, idx: int): (r: Result<real>)
    ensures r.Ok? <==> -(Length(v) as int) <= idx < Length(v)
    ensures r.Err? ==> r.error == IndexOutOfRange
    ensures 0 <= idx < Length(v) ==> r == Ok(v.values[idx])
  {
    if 0 <= idx < |v.values| then Ok(v.values[idx])
    else if -|v.values| <= idx < 0 then Ok(v.values[|v.values| + idx])
    else Err(IndexOutOfRange)
  }

  /** The reference dot product: the first pairwise product plus the dot
      product of the rest. */
  function DotSpec(a: seq<real>, b: seq<real>): real
    requires |a| == |b|
  {
    if |a| == 0 then 0.0 else a[0] * b[0] + DotSpec(a[1..], b[1..])
  }

  /** `v + w`: elementwise sum; vectors of different lengths are an error. */
  function Add(v: Vector, w: Vector): (r: Result<Vector>)
    ensures r.Err? <==> Length(v) != Length(w)
    ensures r.Err? ==> r.error == LengthMismatch
    ensures r.Ok? ==> Length(r.value) == Length(v)
    ensures r.Ok? ==> forall i :: 0 <= i < Length(v) ==> r.value.values[i] == v.values[i] + w.values[i]
  {
    var s :- AddLists(v.values, w.values);
    Ok(Vector(s))
  }

  /** `v * s`: every element multiplied by the scalar s. */
  function Scale(v: Vector, s: real): (r: Vector)
    ensures Length(r) == Length(v)
    ensures forall i :: 0 <= i < Length(v) ==> r.values[i] == v.values[i] * s
  {
    Vector(Map(x => Mul(x, s), v.values))
  }

  /** `v.dot(w)`: the sum of the pairwise products, computed with the
      operator library; vectors of different lengths are an error. */
  function Dot(v: Vector, w: Vector): (r: Result<real>)
    ensures r.Err? <==> Length(v) != Length(w)
    ensures r.Err? ==> r.error == LengthMismatch
    ensures r.Ok? ==> r.value == DotSpec(v.values, w.values)
  {
    if |v.values| != |w.values| then Err(LengthMismatch)
    else
      SumOfProductsIsDotSpec(v.values, w.values);
      Ok(Sum(Pairwise(Mul, v.values, w.values)))
  }

  /** Summing the pairwise products with the back-to-front reduction gives
      the front-to-back reference dot product. */
  lemma {:induction false} SumOfProductsIsDotSpec(a: seq<real>, b: seq<real>)
    requires |a| == |b|
    ensures Sum(Pairwise(Mul, a, b)) == DotSpec(a, b)
    decreases |a|
  {
    if |a| > 0 {
      var p := Pairwise(Mul, a, b);
      var rest := Pairwise(Mul, a[1..], b[1..]);
      assert p == [a[0] * b[0]] + rest;
      SumCons(a[0] * b[0], rest);
      SumOfProductsIsDotSpec(a[1..], b[1..]);
    }
  }

  /** The reference dot product does not depend on argument order. */
  lemma {:induction false} DotSpecSymmetric(a: seq<real>, b: seq<real>)
    requires |a| == |b|
    ensures DotSpec(a, b) == DotSpec(b, a)
    decreases |a|
  {
    if |a| > 0 {
      DotSpecSymmetric(a[1..], b[1..]);
    }
  }

  /** Index access agrees with the list it reads from: a negative index
      names the same element as the index len larger. */
  lemma GetNegativeIndex(v: Vector, idx: int)
    requires -(Length(v) as int) <= idx < 0
    ensures Get(v, idx) == Get(v, idx + Length(v))
    ensures Get(v, idx) == Ok(v.values[Length(v) + idx])
  {
  }

  /** Vector addition is commutative. */
  lemma AddCommutative(v: Vector, w: Vector)
    ensures Add(v, w) == Add(w, v)
  {
    AddListsCommutative(v.values, w.values);
  }

  /** The dot product is symmetric, including in its error case. */
  lemma DotSymmetric(v: Vector, w: Vector)
    ensures Dot(v, w) == Dot(w, v)
  {
    if Length(v) == Length(w) {
      DotSpecSymmetric(v.values, w.values);
    }
  }

  /** The reference dot product of a pointwise sum is the sum of the
      reference dot products. */
  lemma {:induction false} DotSpecAdd(a: seq<real>, b: seq<real>, s: seq<real>, w: seq<real>)
    requires |a| == |b| == |s| == |w|
    requires forall i :: 0 <= i < |s| ==> s[i] == a[i] + b[i]
    ensures DotSpec(s, w) == DotSpec(a, w) + DotSpec(b, w)
    decreases |s|
  {
    if |s| > 0 {
      DotSpecAdd(a[1..], b[1..], s[1..], w[1..]);
      assert s[0] * w[0] == a[0] * w[0] + b[0] * w[0];
    }
  }

  /** The reference dot product of a scaled sequence is the scaled
      reference dot product. */
  lemma {:induction false} DotSpecScale(a: seq<real>, c: real, s: seq<real>, w: seq<real>)
    requires |a| == |s| == |w|
    requires forall i :: 0 <= i < |s| ==> s[i] == a[i] * c
    ensures DotSpec(s, w) == c * DotSpec(a, w)
    decreases |s|
  {
    if |s| > 0 {
      DotSpecScale(a[1..], c, s[1..], w[1..]);
      var rest := DotSpec(a[1..], w[1..]);
      calc {
        DotSpec(s, w);
        s[0] * w[0] + c * rest;
        (a[0] * c) * w[0] + c * rest;
        c * (a[0] * w[0] + rest);
      }
    }
  }

  /** The dot product distributes over vector addition. */
  lemma DotDistributesOverAdd(u: Vector, v: Vector, w: Vector)
    requires Length(u) == Length(v) == Length(w)
    ensures Add(u, v).Ok?
    ensures Dot(Add(u, v).value, w).Ok? && Dot(u, w).Ok? && Dot(v, w).Ok?
    ensures Dot(Add(u, v).value, w).value == Dot(u, w).value + Dot(v, w).value
  {
    var s := Add(u, v).value;
    assert Length(s) == Length(w);
    DotSpecAdd(u.values, v.values, s.values, w.values);
    assert Dot(s, w).value == DotSpec(s.values, w.values);
  }

  /** Scaling one argument scales the dot product. */
  lemma DotScale(v: Vector, w: Vector, c: real)
    requires Length(v) == Length(w)
    ensures Dot(Scale(v, c), w).Ok? && Dot(v, w).Ok?
    ensures Dot(Scale(v, c), w).value == c * Dot(v, w).value
  {
    var s := Scale(v, c);
    assert Length(s) == Length(w);
    var rs, rv := Dot(s, w), Dot(v, w);
    assert rs.Ok? && rv.Ok?;
    DotSpecScale(v.values, c, s.values, w.values);
    assert rs.value == DotSpec(s.values, w.values);
    assert rv.value == DotSpec(v.values, w.values);
  }

  /** [1, 2, 3] + [4, 5, 6] = [5, 7, 9], and adding a length-2 vector fails. */
  lemma AddExample()
    ensures Add(Vector([1.0, 2.0, 3.0]), Vector([4.0, 5.0, 6.0])) == Ok(Vector([5.0, 7.0, 9.0]))
    ensures Add(Vector([1.0, 2.0, 3.0]), Vector([1.0, 2.0])) == Err(LengthMismatch)
  {
    var r := Add(Vector([1.0, 2.0, 3.0]), Vector([4.0, 5.0, 6.0])).value;
    assert r.values == [5.0, 7.0, 9.0];
  }

  /** [1, 2, 3] * 2.5 = [2.5, 5, 7.5]. */
  lemma ScaleExample()
    ensures Scale(Vector([1.0, 2.0, 3.0]), 2.5) == Vector([2.5, 5.0, 7.5])
  {
    var r := Scale(Vector([1.0, 2.0, 3.0]), 2.5);
    assert r.values == [2.5, 5.0, 7.5];
  }

  /** [1, 2, 3] . [4, 5, 6] = 32, and a length-2 argument fails. */
  lemma DotExample()
    ensures Dot(Vector([1.0, 2.0, 3.0]), Vector([4.0, 5.0, 6.0])) == Ok(32.0)
    ensures Dot(Vector([1.0, 2.0, 3.0]), Vector([1.0, 2.0])) == Err(LengthMismatch)
  {
    var a := [1.0, 2.0, 3.0];
    var b := [4.0, 5.0, 6.0];
    assert a[1..][1..][1..] == [];
    assert DotSpec(a, b) == 32.0;
  }
}
