// Similarity of embedding vectors, over exact reals.
//
// The program compares cosines with positive cuts. `Similarity` is the cosine times its own
// absolute value, so that no root is needed: it orders vectors exactly as the cosine does, and a
// cosine is at least a cut c > 0 exactly when its `Similarity` is at least c * c.
module Vectors {
  type Vector = seq<real>

  function Dot(a: Vector, b: Vector): real
    requires |a| == |b|
  {
    if a == [] then 0.0 else a[0] * b[0] + Dot(a[1..], b[1..])
  }

  function Abs(x: real): real { if x < 0.0 then -x else x }

  // d times its absolute value, over n.
  function SignedSquareOver(d: real, n: real): real
    requires n != 0.0
  {
    d * Abs(d) / n
  }

  function Norms(a: Vector, b: Vector): real { Dot(a, a) * Dot(b, b) }

  function Similarity(a: Vector, b: Vector): real {
    if |a| != |b| || Norms(a, b) == 0.0 then 0.0 else SignedSquareOver(Dot(a, b), Norms(a, b))
  }

  lemma {:induction false} DotCommutes(a: Vector, b: Vector)
    requires |a| == |b|
    ensures Dot(a, b) == Dot(b, a)
  {
    if a != [] { DotCommutes(a[1..], b[1..]); }
  }

  lemma Symmetric(a: Vector, b: Vector)
    ensures Similarity(a, b) == Similarity(b, a)
  {
    if |a| == |b| { DotCommutes(a, b); }
  }

  lemma {:induction false} NormNonNegative(a: Vector)
    ensures Dot(a, a) >= 0.0
  {
    if a != [] { NormNonNegative(a[1..]); }
  }

  // 2abd <= a^2 y + b^2 x whenever d^2 <= xy and x, y >= 0.
  lemma MixedTerm(a: real, b: real, d: real, x: real, y: real)
    requires x >= 0.0 && y >= 0.0 && d * d <= x * y
    ensures 2.0 * (a * b) * d <= a * a * y + b * b * x
  {
    var l, r, ab := 2.0 * (a * b) * d, a * a * y + b * b * x, (a * b) * (a * b);
    assert r >= 0.0 by { assert a * a >= 0.0 && b * b >= 0.0; }
    assert l * l <= r * r by {
      assert l * l == 4.0 * (ab * (d * d)) && ab >= 0.0;
      assert ab * (d * d) <= ab * (x * y);
      var diff := a * a * y - b * b * x;
      assert r * r == diff * diff + 4.0 * (ab * (x * y));
    }
    if l > r { SquareGrows(r, l); }
  }

  lemma Positive(x: real, y: real)
    requires x > 0.0 && y > 0.0
    ensures x * y > 0.0
  {
  }

  lemma Product(x: real, y: real, p: real)
    requires x > 0.0 && y > 0.0 && p == x * y
    ensures p > 0.0
  {
  }

  lemma SquareGrows(r: real, l: real)
    requires 0.0 <= r < l
    ensures r * r < l * l
  {
    var x, y := l - r, l + r;
    Positive(x, y);
    assert x * y == l * l - r * r;
  }

  lemma OneMoreTerm(a: real, b: real, d: real, x: real, y: real, ab: real, aa: real, bb: real)
    requires x >= 0.0 && y >= 0.0 && d * d <= x * y
    requires ab == a * b + d && aa == a * a + x && bb == b * b + y
    ensures ab * ab <= aa * bb
  {
    MixedTerm(a, b, d, x, y);
    assert ab * ab == (a * b) * (a * b) + 2.0 * (a * b) * d + d * d;
    assert aa * bb == (a * b) * (a * b) + (a * a * y + b * b * x) + x * y;
  }

  lemma DotHead(a: Vector, b: Vector)
    requires |a| == |b| > 0
    ensures Dot(a, b) == a[0] * b[0] + Dot(a[1..], b[1..])
  {
  }

  // The square of a dot product, bounded through named parts so that nothing is multiplied out twice.
  ghost predicate Bounded(ab: real, aa: real, bb: real) { ab * ab <= aa * bb }

  lemma {:induction false} CauchySchwarz(a: Vector, b: Vector)
    requires |a| == |b|
    ensures Bounded(Dot(a, b), Dot(a, a), Dot(b, b))
  {
    if a != [] {
      var a', b' := a[1..], b[1..];
      CauchySchwarz(a', b');
      NormNonNegative(a');
      NormNonNegative(b');
      DotHead(a, b);
      DotHead(a, a);
      DotHead(b, b);
      hide Dot;
      OneMoreTerm(a[0], b[0], Dot(a', b'), Dot(a', a'), Dot(b', b'), Dot(a, b), Dot(a, a), Dot(b, b));
    }
  }

  // The documented range of a cosine.
  lemma Range(a: Vector, b: Vector)
    ensures -1.0 <= Similarity(a, b) <= 1.0
  {
    if |a| == |b| && Dot(a, a) * Dot(b, b) != 0.0 {
      CauchySchwarz(a, b);
      NormNonNegative(a);
      NormNonNegative(b);
      hide Dot;
      Quotient(Dot(a, b), Dot(a, a), Dot(b, b));
    }
  }

  lemma Quotient(d: real, x: real, y: real)
    requires Bounded(d, x, y) && x >= 0.0 && y >= 0.0 && x * y != 0.0
    ensures -1.0 <= d * Abs(d) / (x * y) <= 1.0
  {
    var n := x * y;
    assert n >= 0.0;
    assert d * Abs(d) == d * d || d * Abs(d) == -(d * d);
    assert d * d >= 0.0;
    Divide(d * Abs(d), n);
  }

  lemma Divide(x: real, n: real)
    requires n > 0.0 && -n <= x <= n
    ensures -1.0 <= x / n <= 1.0
  {
    var q := x / n;
    assert q * n == x && (q - 1.0) * n == q * n - n && (-1.0 - q) * n == -n - q * n;
    if q > 1.0 { Positive(q - 1.0, n); }
    if q < -1.0 { Positive(-1.0 - q, n); }
  }

  // ---------------------------------------------------------------- the sign, and the cut

  function Neg(a: Vector): Vector { seq(|a|, i requires 0 <= i < |a| => -a[i]) }

  lemma {:induction false} DotNeg(a: Vector, b: Vector)
    requires |a| == |b|
    ensures Dot(a, Neg(b)) == -Dot(a, b)
  {
    if a != [] {
      DotNeg(a[1..], b[1..]);
      assert Neg(b)[1..] == Neg(b[1..]);
    }
  }

  lemma NegNorm(b: Vector)
    ensures Dot(Neg(b), Neg(b)) == Dot(b, b)
  {
    DotNeg(Neg(b), b);
    DotCommutes(Neg(b), b);
    DotNeg(b, b);
  }

  lemma NormsNeg(a: Vector, b: Vector)
    ensures Norms(a, Neg(b)) == Norms(a, b)
  {
    NegNorm(b);
    hide Dot;
  }

  lemma NegQuotient(d: real, n: real)
    requires n != 0.0
    ensures SignedSquareOver(-d, n) == -SignedSquareOver(d, n)
  {
    var x := d * Abs(d);
    assert -d * Abs(-d) == -x;
  }

  // An opposite vector is as unlike as the vector is like.
  lemma Opposite(a: Vector, b: Vector)
    ensures Similarity(a, Neg(b)) == -Similarity(a, b)
  {
    hide Dot, Norms, SignedSquareOver;
    if |a| == |b| {
      DotNeg(a, b);
      NormsNeg(a, b);
      if Norms(a, b) != 0.0 { NegQuotient(Dot(a, b), Norms(a, b)); }
    }
  }

  // The dot product is a sum over positions.
  lemma {:induction false} DotSplits(a: Vector, b: Vector, c: Vector, d: Vector)
    requires |a| == |b| && |c| == |d|
    ensures Dot(a + c, b + d) == Dot(a, b) + Dot(c, d)
    ensures forall x: real, y: real :: Dot([x], [y]) == x * y
  {
    forall x: real, y: real ensures Dot([x], [y]) == x * y { assert [x][1..] == [] && [y][1..] == []; }
    if a == [] {
      assert a + c == c && b + d == d;
    } else {
      DotSplits(a[1..], b[1..], c, d);
      assert (a + c)[1..] == a[1..] + c && (b + d)[1..] == b[1..] + d;
    }
  }

  // The norms of both vectors are positive: only then is there a cosine.
  predicate Comparable(a: Vector, b: Vector) { |a| == |b| && Dot(a, a) > 0.0 && Dot(b, b) > 0.0 }

  lemma QuotientSign(x: real, n: real)
    requires n > 0.0
    ensures (x > 0.0 <==> x / n > 0.0) && (x < 0.0 <==> x / n < 0.0)
  {
    var q := x / n;
    assert q * n == x;
    if q > 0.0 { Positive(q, n); }
    if q < 0.0 { Positive(-q, n); assert -q * n == -(q * n); }
  }

  // Similarity has the sign of the dot product, and is nothing without a cosine.
  lemma Sign(a: Vector, b: Vector)
    ensures Similarity(a, b) > 0.0 <==> Comparable(a, b) && Dot(a, b) > 0.0
    ensures Similarity(a, b) < 0.0 <==> Comparable(a, b) && Dot(a, b) < 0.0
  {
    NormNonNegative(a);
    NormNonNegative(b);
    if |a| == |b| {
      var d, x, y := Dot(a, b), Dot(a, a), Dot(b, b);
      hide Dot;
      if Comparable(a, b) {
        Positive(x, y);
        if d > 0.0 { Positive(d, d); } else if d < 0.0 { Positive(-d, -d); assert -d * -d == d * d; }
        QuotientSign(d * Abs(d), x * y);
      }
    }
  }

  lemma Cut(d: real, n: real, k: real)
    requires n > 0.0 && k > 0.0
    ensures d * Abs(d) / n >= k <==> d > 0.0 && d * d >= k * n
  {
    var q := d * Abs(d) / n;
    assert q * n == d * Abs(d) && (q - k) * n == q * n - k * n && (k - q) * n == k * n - q * n;
    Positive(k, n);
    if d <= 0.0 { assert -d * -d == d * d && d * d >= 0.0; }
    if q < k { Positive(k - q, n); }
    if q > k { Positive(q - k, n); }
  }

  // What a cut on the similarity means: for c > 0 it is at least c * c exactly when the cosine,
  // the dot product over the root of the product of the norms, is at least c.
  lemma CutExact(a: Vector, b: Vector, c: real)
    requires Comparable(a, b) && c > 0.0
    ensures Similarity(a, b) >= c * c <==> Dot(a, b) > 0.0 && Dot(a, b) * Dot(a, b) >= c * c * (Dot(a, a) * Dot(b, b))
  {
    hide Dot;
    Positive(Dot(a, a), Dot(b, b));
    var k := c * c;
    Product(c, c, k);
    Cut(Dot(a, b), Dot(a, a) * Dot(b, b), k);
  }

  // A vector with a norm is wholly similar to itself.
  lemma SelfSimilar(a: Vector)
    requires Dot(a, a) > 0.0
    ensures Similarity(a, a) == 1.0
  {
    hide Dot;
    var d := Dot(a, a);
    var n := d * d;
    Product(d, d, n);
    assert d * Abs(d) == n && n / n == 1.0;
  }
}
