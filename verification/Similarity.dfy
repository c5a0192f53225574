/** Cosine similarity and what is built on it (apps/agent-worker/eval/framework/metrics.py and
    apps/agent-worker/eval/runners/pipeline_eval.py), over the reals.

    `root` is any square root: non-negative, and squaring to its argument. Products go through `Mul`, whose
    definition the longer proofs hide: they use only the laws stated about it. */
module Similarity {
  import opened Wrappers

  type Vector = seq<real>

  function Mul(x: real, y: real): real {
    x * y
  }

  ghost predicate IsRoot(root: real -> real) {
    forall x :: x >= 0.0 ==> root(x) >= 0.0 && Mul(root(x), root(x)) == x
  }

  function Dot(a: Vector, b: Vector): real
    requires |a| == |b|
  {
    if a == [] then 0.0 else Mul(a[0], b[0]) + Dot(a[1..], b[1..])
  }

  function SumSquares(a: Vector): real {
    Dot(a, a)
  }

  /** _cosine: an error for empty or unequal vectors, 0 when a norm is 0. */
  function Cosine(root: real -> real, a: Vector, b: Vector): Result<real, string> {
    if a == [] || |a| != |b| then Err("Embedding vectors must be non-empty and of one dimension")
    else
      var na, nb := root(SumSquares(a)), root(SumSquares(b));
      if na == 0.0 || nb == 0.0 then Ok(0.0)
      else
        NonZeroProduct(na, nb);
        Ok(Dot(a, b) / Mul(na, nb))
  }

  function Scale(c: real, a: Vector): (r: Vector)
    ensures |r| == |a|
  {
    if a == [] then [] else [Mul(c, a[0])] + Scale(c, a[1..])
  }

  function Minus(a: Vector, b: Vector): (r: Vector)
    requires |a| == |b|
    ensures |r| == |a|
  {
    if a == [] then [] else [a[0] - b[0]] + Minus(a[1..], b[1..])
  }

  predicate AllZero(a: Vector) {
    forall i :: 0 <= i < |a| ==> a[i] == 0.0
  }

  // ----- laws of the product

  lemma Signs(x: real, y: real)
    ensures x > 0.0 && y > 0.0 ==> Mul(x, y) > 0.0
    ensures x >= 0.0 && y >= 0.0 ==> Mul(x, y) >= 0.0
    ensures x == 0.0 || y == 0.0 ==> Mul(x, y) == 0.0
  {
  }

  lemma NonZeroProduct(x: real, y: real)
    requires x != 0.0 && y != 0.0
    ensures Mul(x, y) != 0.0
  {
  }

  lemma Negate(x: real)
    ensures Mul(-x, -x) == Mul(x, x)
  {
  }

  lemma SquareSign(x: real)
    ensures Mul(x, x) >= 0.0 && (Mul(x, x) == 0.0 <==> x == 0.0)
  {
    hide Mul;
    Signs(x, x);
    Signs(-x, -x);
    Negate(x);
  }

  lemma Monotone(x: real, y: real, z: real)
    requires z >= 0.0
    ensures x <= y ==> Mul(x, z) <= Mul(y, z) && Mul(z, x) <= Mul(z, y)
    ensures x < y && z > 0.0 ==> Mul(x, z) < Mul(y, z) && Mul(z, x) < Mul(z, y)
  {
    hide Mul;
    Signs(y - x, z);
    Gap(x, y, z);
  }

  lemma Gap(x: real, y: real, z: real)
    ensures Mul(y, z) - Mul(x, z) == Mul(y - x, z) && Mul(z, y) == Mul(y, z) && Mul(z, x) == Mul(x, z)
  {
  }

  lemma LargerSquare(x: real, y: real)
    requires 0.0 <= y < x
    ensures Mul(y, y) < Mul(x, x)
  {
    hide Mul;
    Monotone(y, x, y);
    Monotone(y, x, x);
  }

  lemma ProductOfSquares(x: real, y: real)
    ensures Mul(Mul(x, y), Mul(x, y)) == Mul(Mul(x, x), Mul(y, y))
  {
  }

  lemma SameSquare(x: real, y: real)
    requires x >= 0.0 && y >= 0.0 && Mul(x, x) == Mul(y, y)
    ensures x == y
  {
    hide Mul;
    if x < y {
      LargerSquare(y, x);
    } else if y < x {
      LargerSquare(x, y);
    }
  }

  // ----- the Cauchy-Schwarz inequality

  lemma {:induction false} SumSquaresNonNegative(a: Vector)
    ensures SumSquares(a) >= 0.0
    ensures SumSquares(a) == 0.0 <==> AllZero(a)
  {
    hide Mul;
    if a != [] {
      SumSquaresNonNegative(a[1..]);
      SquareSign(a[0]);
      if a[0] == 0.0 && AllZero(a[1..]) {
        forall i | 0 <= i < |a| ensures a[i] == 0.0 {
          assert i > 0 ==> a[i] == a[1..][i - 1];
        }
      }
    }
  }

  /** The squared length of t·a − b, from the squared lengths s and u and the product d. */
  function Residual(s: real, d: real, u: real, t: real): real {
    Mul(Mul(t, t), s) - 2.0 * Mul(t, d) + u
  }

  lemma Expand(t: real, x: real, y: real, s: real, d: real, u: real)
    ensures Mul(Mul(t, x) - y, Mul(t, x) - y) + Residual(s, d, u, t)
         == Residual(Mul(x, x) + s, Mul(x, y) + d, Mul(y, y) + u, t)
  {
  }

  lemma {:induction false} ResidualIs(a: Vector, b: Vector, t: real)
    requires |a| == |b|
    ensures SumSquares(Minus(Scale(t, a), b)) == Residual(SumSquares(a), Dot(a, b), SumSquares(b), t)
  {
    hide Mul, Residual;
    if a == [] {
      EmptyResidual(t);
    } else {
      var x, y, rest := a[0], b[0], Minus(Scale(t, a[1..]), b[1..]);
      ResidualIs(a[1..], b[1..], t);
      assert Scale(t, a)[1..] == Scale(t, a[1..]);
      assert Minus(Scale(t, a), b) == [Mul(t, x) - y] + rest;
      assert ([Mul(t, x) - y] + rest)[1..] == rest;
      Expand(t, x, y, SumSquares(a[1..]), Dot(a[1..], b[1..]), SumSquares(b[1..]));
    }
  }

  lemma EmptyResidual(t: real)
    ensures Residual(0.0, 0.0, 0.0, t) == 0.0
  {
  }

  /** At the minimising t the residual decides the inequality, and is 0 where the inequality is an equality. */
  lemma Discriminant(s: real, d: real, u: real, t: real)
    requires s > 0.0 && Mul(t, s) == d
    ensures Mul(s, Residual(s, d, u, t)) == Mul(s, u) - Mul(d, d)
  {
    assert Mul(Mul(t, t), s) == Mul(t, d);
    assert Mul(s, Mul(t, d)) == Mul(d, d);
  }

  lemma Quotient(d: real, s: real) returns (t: real)
    requires s > 0.0
    ensures Mul(t, s) == d && (d > 0.0 ==> t > 0.0)
  {
    t := d / s;
  }

  lemma CauchySchwarz(a: Vector, b: Vector)
    requires |a| == |b|
    ensures Mul(Dot(a, b), Dot(a, b)) <= Mul(SumSquares(a), SumSquares(b))
  {
    hide Mul, Dot, Residual;
    var s, d, u := SumSquares(a), Dot(a, b), SumSquares(b);
    SumSquaresNonNegative(a);
    if s == 0.0 {
      ZeroDot(a, b);
      Signs(d, d);
      Signs(s, u);
    } else {
      var t := Quotient(d, s);
      ResidualIs(a, b, t);
      SumSquaresNonNegative(Minus(Scale(t, a), b));
      Discriminant(s, d, u, t);
      Signs(s, Residual(s, d, u, t));
    }
  }

  lemma {:induction false} ZeroDot(a: Vector, b: Vector)
    requires |a| == |b| && AllZero(a)
    ensures Dot(a, b) == 0.0
  {
    hide Mul;
    if a != [] {
      Signs(a[0], b[0]);
      assert forall i :: 0 <= i < |a[1..]| ==> a[1..][i] == a[i + 1];
      ZeroDot(a[1..], b[1..]);
    }
  }

  lemma QuotientBound(d: real, n: real)
    requires n > 0.0 && -n <= d <= n
    ensures -1.0 <= d / n <= 1.0
  {
  }

  lemma AbsoluteBound(d: real, n: real)
    requires n > 0.0 && Mul(d, d) <= Mul(n, n)
    ensures -n <= d <= n
  {
    hide Mul;
    Negate(d);
    if d > n {
      LargerSquare(d, n);
    } else if d < -n {
      LargerSquare(-d, n);
    }
  }

  lemma Norms(root: real -> real, a: Vector, b: Vector)
    requires IsRoot(root)
    ensures var na, nb := root(SumSquares(a)), root(SumSquares(b));
      && na >= 0.0 && nb >= 0.0
      && (na == 0.0 <==> AllZero(a)) && (nb == 0.0 <==> AllZero(b))
      && (na > 0.0 && nb > 0.0 ==> Mul(na, nb) > 0.0)
      && Mul(Mul(na, nb), Mul(na, nb)) == Mul(SumSquares(a), SumSquares(b))
  {
    hide Mul, Dot;
    SumSquaresNonNegative(a);
    SumSquaresNonNegative(b);
    var na, nb := root(SumSquares(a)), root(SumSquares(b));
    ProductOfSquares(na, nb);
    Signs(na, nb);
    Signs(na, na);
    Signs(nb, nb);
  }

  /** Cosine similarity is defined exactly for non-empty vectors of one dimension and lies in [-1, 1]. */
  lemma CosineIsBounded(root: real -> real, a: Vector, b: Vector)
    requires IsRoot(root)
    ensures Cosine(root, a, b).Ok? <==> a != [] && |a| == |b|
    ensures Cosine(root, a, b).Ok? ==> -1.0 <= Cosine(root, a, b).value <= 1.0
  {
    hide Mul, Dot;
    if a != [] && |a| == |b| {
      Norms(root, a, b);
      CauchySchwarz(a, b);
      var n := Mul(root(SumSquares(a)), root(SumSquares(b)));
      if n > 0.0 {
        AbsoluteBound(Dot(a, b), n);
        QuotientBound(Dot(a, b), n);
      }
    }
  }

  // ----- direction

  lemma Distribute(c: real, x: real, y: real, d: real)
    ensures Mul(Mul(c, x), y) + Mul(c, d) == Mul(c, Mul(x, y) + d)
    ensures Mul(y, Mul(c, x)) + Mul(c, d) == Mul(c, Mul(y, x) + d)
  {
  }

  lemma {:induction false} ScaleDot(c: real, a: Vector, b: Vector)
    requires |a| == |b|
    ensures Dot(Scale(c, a), b) == Mul(c, Dot(a, b))
    ensures Dot(b, Scale(c, a)) == Mul(c, Dot(b, a))
  {
    hide Mul;
    if a == [] {
      Signs(c, 0.0);
    } else {
      ScaleDot(c, a[1..], b[1..]);
      assert Scale(c, a)[1..] == Scale(c, a[1..]);
      Distribute(c, a[0], b[0], Dot(a[1..], b[1..]));
      Distribute(c, a[0], b[0], Dot(b[1..], a[1..]));
    }
  }

  lemma Regroup(c: real, n: real)
    ensures Mul(c, Mul(c, Mul(n, n))) == Mul(Mul(c, n), Mul(c, n))
    ensures Mul(n, Mul(c, n)) == Mul(c, Mul(n, n))
  {
  }

  lemma ScaleNorm(root: real -> real, c: real, a: Vector)
    requires IsRoot(root) && c > 0.0
    ensures root(SumSquares(Scale(c, a))) == Mul(c, root(SumSquares(a)))
  {
    hide Mul, Dot, Scale;
    ScaleDot(c, a, Scale(c, a));
    ScaleDot(c, a, a);
    SumSquaresNonNegative(a);
    SumSquaresNonNegative(Scale(c, a));
    var n := root(SumSquares(a));
    Regroup(c, n);
    Signs(c, n);
    SameSquare(root(SumSquares(Scale(c, a))), Mul(c, n));
  }

  lemma CancelFactor(c: real, d: real, n: real, m: real)
    requires c > 0.0 && Mul(n, m) > 0.0 && Mul(Mul(c, n), m) > 0.0
    ensures Mul(c, d) / Mul(Mul(c, n), m) == d / Mul(n, m)
  {
    var q := d / Mul(n, m);
    assert q * (c * n * m) == c * (q * (n * m));
    assert q * (n * m) == d;
  }

  /** Only the direction of the query matters. */
  lemma CosineIgnoresScale(root: real -> real, c: real, a: Vector, b: Vector)
    requires IsRoot(root) && c > 0.0
    ensures Cosine(root, Scale(c, a), b) == Cosine(root, a, b)
  {
    hide Mul, Dot, Scale;
    if a != [] && |a| == |b| {
      ScaleDot(c, a, b);
      ScaleNorm(root, c, a);
      Norms(root, a, b);
      Norms(root, Scale(c, a), b);
      var na, nb := root(SumSquares(a)), root(SumSquares(b));
      Signs(c, na);
      if na > 0.0 && nb > 0.0 {
        CancelFactor(c, Dot(a, b), na, nb);
      }
    }
  }

  /** The similarity of non-zero vectors is 1 exactly when one is a positive multiple of the other. */
  lemma CosineOneIsParallel(root: real -> real, a: Vector, b: Vector)
    requires IsRoot(root) && |a| == |b| && !AllZero(a) && !AllZero(b)
    ensures Cosine(root, a, b) == Ok(1.0) <==> exists t: real :: t > 0.0 && Scale(t, a) == b
  {
    hide Mul, Dot, Scale;
    if Cosine(root, a, b) == Ok(1.0) {
      var t := ParallelWhenOne(root, a, b);
    }
    if t: real :| t > 0.0 && Scale(t, a) == b {
      OneWhenParallel(root, a, t);
    }
  }

  lemma SelfQuotient(x: real)
    requires x != 0.0
    ensures x / x == 1.0
  {
  }

  lemma OneWhenParallel(root: real -> real, a: Vector, t: real)
    requires IsRoot(root) && !AllZero(a) && t > 0.0
    ensures Cosine(root, a, Scale(t, a)) == Ok(1.0)
  {
    hide Mul, Dot, Scale;
    var n := root(SumSquares(a));
    ScaleDot(t, a, a);
    ScaleNorm(root, t, a);
    SumSquaresNonNegative(a);
    Norms(root, a, a);
    Signs(t, n);
    Signs(n, Mul(t, n));
    Regroup(t, n);
    SelfQuotient(Mul(n, Mul(t, n)));
  }

  lemma UnitQuotient(d: real, n: real)
    requires n > 0.0 && d / n == 1.0
    ensures d == n
  {
  }

  lemma ParallelWhenOne(root: real -> real, a: Vector, b: Vector) returns (t: real)
    requires IsRoot(root) && |a| == |b| && !AllZero(a) && !AllZero(b)
    requires Cosine(root, a, b) == Ok(1.0)
    ensures t > 0.0 && Scale(t, a) == b
  {
    hide Mul, Dot, Scale, Residual;
    var s, d, u := SumSquares(a), Dot(a, b), SumSquares(b);
    Norms(root, a, b);
    SumSquaresNonNegative(a);
    UnitQuotient(d, Mul(root(s), root(u)));
    t := Quotient(d, s);
    Discriminant(s, d, u, t);
    ResidualIs(a, b, t);
    var r := Minus(Scale(t, a), b);
    SumSquaresNonNegative(r);
    Signs(s, SumSquares(r));
    ZeroMinus(Scale(t, a), b);
  }

  lemma {:induction false} ZeroMinus(a: Vector, b: Vector)
    requires |a| == |b| && AllZero(Minus(a, b))
    ensures a == b
  {
    if a != [] {
      var m := Minus(a, b);
      assert m[0] == a[0] - b[0] && m[1..] == Minus(a[1..], b[1..]);
      ZeroMinus(a[1..], b[1..]);
      assert a == [a[0]] + a[1..] && b == [b[0]] + b[1..];
    }
  }

  // ----- the value of the similarity

  /** The dot product from its other end: the last coordinates count like all others. */
  lemma {:induction false} DotFromTheEnd(a: Vector, b: Vector)
    requires |a| == |b| && a != []
    ensures var n := |a| - 1; Dot(a, b) == Dot(a[..n], b[..n]) + a[n] * b[n]
  {
    var n := |a| - 1;
    if n > 0 {
      DotFromTheEnd(a[1..], b[1..]);
      assert a[1..][..n - 1] == a[..n][1..] && b[1..][..n - 1] == b[..n][1..];
    }
  }

  lemma QuotientSign(d: real, n: real)
    requires n > 0.0
    ensures (d / n > 0.0 <==> d > 0.0) && (d / n < 0.0 <==> d < 0.0) && Mul(d / n, n) == d
  {
  }

  /** The similarity of two non-zero vectors has the sign of their dot product, and its square times both squared
      lengths is the square of that product: this determines it. A zero vector is similar to nothing. */
  lemma CosineIs(root: real -> real, a: Vector, b: Vector)
    requires IsRoot(root) && a != [] && |a| == |b|
    ensures AllZero(a) || AllZero(b) ==> Cosine(root, a, b) == Ok(0.0)
    ensures !AllZero(a) && !AllZero(b) ==>
      && Cosine(root, a, b).Ok?
      && var c := Cosine(root, a, b).value;
         && (c > 0.0 <==> Dot(a, b) > 0.0) && (c == 0.0 <==> Dot(a, b) == 0.0) && (c < 0.0 <==> Dot(a, b) < 0.0)
         && Mul(Mul(c, c), Mul(SumSquares(a), SumSquares(b))) == Mul(Dot(a, b), Dot(a, b))
  {
    hide Mul, Dot;
    Norms(root, a, b);
    if !AllZero(a) && !AllZero(b) {
      var n := Mul(root(SumSquares(a)), root(SumSquares(b)));
      var c := Dot(a, b) / n;
      QuotientSign(Dot(a, b), n);
      ProductOfSquares(c, n);
    }
  }

  /** Opposite vectors have opposite similarities. */
  lemma CosineIsOdd(root: real -> real, a: Vector, b: Vector)
    requires IsRoot(root) && a != [] && |a| == |b| && !AllZero(a) && !AllZero(b)
    ensures Cosine(root, Scale(-1.0, a), b).Ok? && Cosine(root, a, b).Ok?
    ensures Cosine(root, Scale(-1.0, a), b).value == -Cosine(root, a, b).value
  {
    var n := Scale(-1.0, a);
    ScaleDot(-1.0, a, b);
    ScaleDot(-1.0, a, a);
    ScaleDot(-1.0, n, a);
    ScaleDot(-1.0, a, n);
    MinusOnce(Dot(a, b));
    MinusOnce(Dot(a, a));
    MinusOnce(Dot(n, a));
    hide Mul, Dot, Scale;
    assert SumSquares(n) == SumSquares(a);
    SumSquaresNonNegative(a);
    SumSquaresNonNegative(n);
    Norms(root, a, b);
    Norms(root, n, b);
    MinusQuotient(Dot(a, b), Mul(root(SumSquares(a)), root(SumSquares(b))));
  }

  lemma MinusOnce(x: real)
    ensures Mul(-1.0, x) == -x
  {
  }

  lemma MinusQuotient(d: real, n: real)
    requires n != 0.0
    ensures (-d) / n == -(d / n)
  {
  }
}
