/** Cosine similarity over the reals (app/knowledge/vector_store.py:25-33). The square root is any
    function that is one; floating-point rounding is not modelled. */
module Cosine {
  import opened Common

  type Vector = seq<real>

  /** zip stops at the shorter vector; callers have checked the lengths. */
  function Dot(a: Vector, b: Vector): real
    requires |a| == |b|
  {
    if a == [] then 0.0 else a[0] * b[0] + Dot(a[1..], b[1..])
  }

  ghost predicate IsSquareRoot(sqrt: real -> real) {
    forall x :: x >= 0.0 ==> sqrt(x) >= 0.0 && sqrt(x) * sqrt(x) == x
  }

  function Norm(sqrt: real -> real, a: Vector): real {
    sqrt(Dot(a, a))
  }

  /** None is the ValueError for a dimension mismatch. */
  function Similarity(sqrt: real -> real, a: Vector, b: Vector): Option<real> {
    if |a| != |b| then None
    else
      var m, n := Norm(sqrt, a), Norm(sqrt, b);
      if m == 0.0 || n == 0.0 then Some(0.0)
      else Some(Ratio(Dot(a, b), m, n))
  }

  /** dot / (norm_a * norm_b) */
  function Ratio(dot: real, m: real, n: real): real
    requires m != 0.0 && n != 0.0
  {
    ProductIsNonZero(m, n);
    dot / (m * n)
  }

  lemma ProductIsNonZero(m: real, n: real)
    requires m != 0.0 && n != 0.0
    ensures m * n != 0.0
  {
    assert m == (m * n) / n;
  }

  // ---------------------------------------------------------------- Cauchy-Schwarz

  lemma SquareIsNonNegative(x: real)
    ensures x * x >= 0.0
  {
  }

  lemma ProductIsNonNegative(x: real, y: real)
    requires x >= 0.0 && y >= 0.0
    ensures x * y >= 0.0
  {
  }

  lemma ProductIsMonotone(x: real, y: real, z: real)
    requires x <= y && z >= 0.0
    ensures x * z <= y * z
  {
    ProductIsNonNegative(y - x, z);
  }

  lemma {:induction false} DotSelfNonNegative(a: Vector)
    ensures Dot(a, a) >= 0.0
    decreases |a|
  {
    if a != [] {
      DotSelfNonNegative(a[1..]);
      SquareIsNonNegative(a[0]);
    }
  }

  /** A square root of a product is at most the mean: w*w <= u*v gives 2w <= u+v. */
  lemma MeanBound(u: real, v: real, w: real)
    requires u >= 0.0 && v >= 0.0 && w * w <= u * v
    ensures 2.0 * w <= u + v
  {
    var s := u + v;
    SquareIsNonNegative(u - v);
    assert s * s == (u - v) * (u - v) + 4.0 * (u * v);
    assert (2.0 * w) * (2.0 * w) == 4.0 * (w * w);
    if 2.0 * w > s {
      StrictlyLarger(s, 2.0 * w);
    }
  }

  lemma StrictlyLarger(x: real, y: real)
    requires 0.0 <= x < y
    ensures x * x < y * y
  {
    ProductIsPositive(y - x, y + x);
    assert y * y - x * x == (y - x) * (y + x);
  }

  lemma ProductIsPositive(x: real, y: real)
    requires x > 0.0 && y > 0.0
    ensures x * y > 0.0
  {
  }

  /** The two-dimensional step: from d*d <= A*B to (d + xy)^2 <= (A + x^2)(B + y^2). */
  lemma CauchyStep(d: real, A: real, B: real, x: real, y: real)
    requires A >= 0.0 && B >= 0.0 && d * d <= A * B
    ensures (x * y + d) * (x * y + d) <= (x * x + A) * (y * y + B)
  {
    var u, v, w := A * (y * y), B * (x * x), d * (x * y);
    SquareIsNonNegative(x);
    SquareIsNonNegative(y);
    SquareIsNonNegative(x * y);
    ProductIsNonNegative(A, y * y);
    ProductIsNonNegative(B, x * x);
    ProductIsMonotone(d * d, A * B, (x * y) * (x * y));
    SquareOfProduct(d, x * y);
    Regroup(A, B, x, y);
    MeanBound(u, v, w);
    Expand(d, A, B, x, y);
  }

  lemma SquareOfProduct(p: real, q: real)
    ensures (p * q) * (p * q) == (p * p) * (q * q)
  {
    assert (p * q) * (p * q) == p * (q * (p * q));
    assert q * (p * q) == p * (q * q);
  }

  lemma Regroup(A: real, B: real, x: real, y: real)
    ensures (A * B) * ((x * y) * (x * y)) == (A * (y * y)) * (B * (x * x))
  {
    SquareOfProduct(x, y);
    var p, q := x * x, y * y;
    assert (A * B) * (p * q) == A * (B * (p * q));
    assert B * (p * q) == q * (B * p);
    assert A * (q * (B * p)) == (A * q) * (B * p);
  }

  lemma Expand(d: real, A: real, B: real, x: real, y: real)
    ensures (x * x + A) * (y * y + B) - (x * y + d) * (x * y + d)
         == (A * B - d * d) + (A * (y * y) + B * (x * x) - 2.0 * (d * (x * y)))
  {
    SquareOfProduct(x, y);
    var t := x * y;
    assert (t + d) * (t + d) == t * t + 2.0 * (d * t) + d * d;
    var p, q := x * x, y * y;
    assert (p + A) * (q + B) == p * q + p * B + A * q + A * B;
  }

  /** Cauchy-Schwarz, by induction on the dimension. */
  lemma {:induction false} CauchySchwarz(a: Vector, b: Vector)
    requires |a| == |b|
    ensures Dot(a, b) * Dot(a, b) <= Dot(a, a) * Dot(b, b)
    decreases |a|
  {
    if a != [] {
      CauchySchwarz(a[1..], b[1..]);
      DotSelfNonNegative(a[1..]);
      DotSelfNonNegative(b[1..]);
      CauchyStep(Dot(a[1..], b[1..]), Dot(a[1..], a[1..]), Dot(b[1..], b[1..]), a[0], b[0]);
      SquareInNames(a[0] * b[0] + Dot(a[1..], b[1..]), a[0] * a[0] + Dot(a[1..], a[1..]),
                    b[0] * b[0] + Dot(b[1..], b[1..]), Dot(a, b), Dot(a, a), Dot(b, b));
    }
  }

  lemma SquareInNames(d: real, x: real, y: real, d': real, x': real, y': real)
    requires d == d' && x == x' && y == y' && d * d <= x * y
    ensures d' * d' <= x' * y'
  {
  }

  lemma QuotientBound(d: real, m: real)
    requires m > 0.0 && d * d <= m * m
    ensures -1.0 <= d / m <= 1.0
  {
    assert (-d) * (-d) == d * d;
    if d > m {
      StrictlyLarger(m, d);
    } else if -d > m {
      StrictlyLarger(m, -d);
    }
    QuotientAtMost(d, m);
    QuotientAtMost(-d, m);
    assert (-d) / m == -(d / m);
  }

  lemma QuotientAtMost(d: real, m: real)
    requires m > 0.0 && d <= m
    ensures d / m <= 1.0
  {
    var q := d / m;
    assert q * m == d;
    assert (q - 1.0) * m == q * m - m;
    if q > 1.0 {
      ProductIsPositive(q - 1.0, m);
    }
  }

  /** The score of two vectors of one dimension lies in [-1, 1]; unequal dimensions have none. */
  lemma SimilarityIsBounded(sqrt: real -> real, a: Vector, b: Vector)
    requires IsSquareRoot(sqrt)
    ensures Similarity(sqrt, a, b).Some? <==> |a| == |b|
    ensures |a| == |b| ==> -1.0 <= Similarity(sqrt, a, b).value <= 1.0
  {
    if |a| == |b| {
      CauchySchwarz(a, b);
      DotSelfNonNegative(a);
      DotSelfNonNegative(b);
      var m, n := Norm(sqrt, a), Norm(sqrt, b);
      if m != 0.0 && n != 0.0 {
        RatioBound(Dot(a, b), Dot(a, a), Dot(b, b), m, n);
      }
    }
  }

  lemma RatioBound(d: real, x: real, y: real, m: real, n: real)
    requires m >= 0.0 && n >= 0.0 && m != 0.0 && n != 0.0 && m * m == x && n * n == y && d * d <= x * y
    ensures -1.0 <= Ratio(d, m, n) <= 1.0
  {
    SquareOfProduct(m, n);
    ProductIsPositive(m, n);
    QuotientBound(d, m * n);
  }

  lemma {:induction false} DotSymmetric(a: Vector, b: Vector)
    requires |a| == |b|
    ensures Dot(a, b) == Dot(b, a)
    decreases |a|
  {
    if a != [] { DotSymmetric(a[1..], b[1..]); }
  }

  lemma SimilaritySymmetric(sqrt: real -> real, a: Vector, b: Vector)
    ensures Similarity(sqrt, a, b) == Similarity(sqrt, b, a)
  {
    if |a| == |b| {
      DotSymmetric(a, b);
      var m, n := Norm(sqrt, a), Norm(sqrt, b);
      assert m * n == n * m;
    }
  }

  // ---------------------------------------------------------------- scaling

  function Scaled(c: real, a: Vector): (s: Vector)
    ensures |s| == |a| && forall i :: 0 <= i < |a| ==> s[i] == c * a[i]
  {
    if a == [] then [] else [c * a[0]] + Scaled(c, a[1..])
  }

  lemma {:induction false} DotScaled(c: real, a: Vector, b: Vector)
    requires |a| == |b|
    ensures Dot(Scaled(c, a), b) == c * Dot(a, b)
    decreases |a|
  {
    if a != [] {
      DotScaled(c, a[1..], b[1..]);
      assert Scaled(c, a)[1..] == Scaled(c, a[1..]);
      Distribute(c, a[0], b[0], Dot(a[1..], b[1..]));
    }
  }

  lemma Distribute(c: real, x: real, y: real, rest: real)
    ensures (c * x) * y + c * rest == c * (x * y + rest)
  {
    assert (c * x) * y == c * (x * y);
  }

  lemma RootsAreUnique(x: real, y: real)
    requires x >= 0.0 && y >= 0.0 && x * x == y * y
    ensures x == y
  {
    if x < y {
      StrictlyLarger(x, y);
    } else if y < x {
      StrictlyLarger(y, x);
    }
  }

  lemma NormScaled(sqrt: real -> real, c: real, a: Vector)
    requires IsSquareRoot(sqrt) && c > 0.0
    ensures Norm(sqrt, Scaled(c, a)) == c * Norm(sqrt, a)
  {
    DotScaled(c, a, Scaled(c, a));
    DotSymmetric(a, Scaled(c, a));
    DotScaled(c, a, a);
    DotSelfNonNegative(a);
    DotSelfNonNegative(Scaled(c, a));
    var m := Norm(sqrt, a);
    var n := Norm(sqrt, Scaled(c, a));
    ScaledRoot(c, Dot(a, a), m, n);
  }

  lemma ScaledRoot(c: real, x: real, m: real, n: real)
    requires c > 0.0 && m >= 0.0 && n >= 0.0 && m * m == x && n * n == c * (c * x)
    ensures n == c * m
  {
    var y := c * m;
    ProductIsNonNegative(c, m);
    SquareOfProduct(c, m);
    assert c * (c * x) == (c * c) * x;
    assert y * y == n * n;
    RootsAreUnique(n, y);
  }

  lemma CancelFactor(c: real, d: real, m: real)
    requires c > 0.0 && m != 0.0
    ensures c * m != 0.0 && (c * d) / (c * m) == d / m
  {
    ProductIsNonZero(c, m);
    var q := d / m;
    assert q * m == d;
    assert q * (c * m) == c * (q * m);
    assert (q * (c * m)) / (c * m) == q;
  }

  /** Only the direction of a vector matters: scaling either side by a positive constant changes nothing. */
  lemma SimilarityIgnoresScale(sqrt: real -> real, c: real, a: Vector, b: Vector)
    requires IsSquareRoot(sqrt) && c > 0.0
    ensures Similarity(sqrt, Scaled(c, a), b) == Similarity(sqrt, a, b)
    ensures Similarity(sqrt, a, Scaled(c, b)) == Similarity(sqrt, a, b)
  {
    ScaleLeft(sqrt, c, a, b);
    ScaleLeft(sqrt, c, b, a);
    SimilaritySymmetric(sqrt, a, b);
    SimilaritySymmetric(sqrt, a, Scaled(c, b));
  }

  lemma ScaleLeft(sqrt: real -> real, c: real, a: Vector, b: Vector)
    requires IsSquareRoot(sqrt) && c > 0.0
    ensures Similarity(sqrt, Scaled(c, a), b) == Similarity(sqrt, a, b)
  {
    if |a| == |b| {
      var s, m, n := Scaled(c, a), Norm(sqrt, a), Norm(sqrt, b);
      NormScaled(sqrt, c, a);
      DotScaled(c, a, b);
      ScaledZero(c, m);
      if m != 0.0 && n != 0.0 {
        ScaledRatio(c, Dot(a, b), m, n, Dot(s, b), Norm(sqrt, s));
      }
    }
  }

  lemma ScaledZero(c: real, m: real)
    requires c > 0.0
    ensures c * m == 0.0 <==> m == 0.0
  {
    if m != 0.0 { ProductIsNonZero(c, m); }
  }

  lemma ScaledRatio(c: real, d: real, m: real, n: real, p: real, q: real)
    requires c > 0.0 && m != 0.0 && n != 0.0 && p == c * d && q == c * m
    ensures q != 0.0 && Ratio(p, q, n) == Ratio(d, m, n)
  {
    ProductIsNonZero(c, m);
    ProductIsNonZero(m, n);
    CancelFactor(c, d, m * n);
    assert (c * m) * n == c * (m * n);
  }

  // ---------------------------------------------------------------- what a dot product and a score are

  function Plus(a: Vector, b: Vector): (s: Vector)
    requires |a| == |b|
    ensures |s| == |a| && forall i :: 0 <= i < |a| ==> s[i] == a[i] + b[i]
  {
    seq(|a|, i requires 0 <= i < |a| => a[i] + b[i])
  }

  /** 1 in dimension i, 0 in the others. */
  function Axis(n: nat, i: nat): (s: Vector)
    requires i < n
    ensures |s| == n && forall j :: 0 <= j < n ==> s[j] == if j == i then 1.0 else 0.0
  {
    seq(n, j => if j == i then 1.0 else 0.0)
  }

  lemma {:induction false} DotWithNothing(a: Vector, z: Vector)
    requires |a| == |z| && forall j :: 0 <= j < |z| ==> z[j] == 0.0
    ensures Dot(a, z) == 0.0
    decreases |a|
  {
    if a != [] {
      DotWithNothing(a[1..], z[1..]);
    }
  }

  /** The dot product with an axis is the coordinate; with linearity this leaves it no freedom. */
  lemma {:induction false} DotPicks(a: Vector, i: nat)
    requires i < |a|
    ensures Dot(a, Axis(|a|, i)) == a[i]
    decreases |a|
  {
    var e := Axis(|a|, i);
    if i == 0 {
      DotWithNothing(a[1..], e[1..]);
    } else {
      DotPicks(a[1..], i - 1);
      assert e[1..] == Axis(|a| - 1, i - 1);
    }
  }

  lemma {:induction false} DotIsLinear(a: Vector, b: Vector, c: Vector, x: real)
    requires |a| == |b| == |c|
    ensures Dot(a, Plus(b, c)) == Dot(a, b) + Dot(a, c)
    ensures Dot(a, Scaled(x, b)) == x * Dot(a, b)
    decreases |a|
  {
    DotSymmetric(a, Scaled(x, b));
    DotScaled(x, b, a);
    DotSymmetric(a, b);
    if a != [] {
      DotIsLinear(a[1..], b[1..], c[1..], x);
      assert Plus(b, c)[1..] == Plus(b[1..], c[1..]);
    }
  }

  predicate IsZero(a: Vector) {
    forall i :: 0 <= i < |a| ==> a[i] == 0.0
  }

  lemma {:induction false} OnlyZeroHasNoLength(a: Vector)
    ensures Dot(a, a) == 0.0 <==> IsZero(a)
    decreases |a|
  {
    if a != [] {
      OnlyZeroHasNoLength(a[1..]);
      DotSelfNonNegative(a[1..]);
      SquareIsNonNegative(a[0]);
      SquareIsZero(a[0]);
      assert forall i :: 1 <= i < |a| ==> a[i] == a[1..][i - 1];
      assert forall i :: 0 <= i < |a| - 1 ==> a[1..][i] == a[i + 1];
    }
  }

  lemma NegatedSquare(x: real)
    ensures (-x) * (-x) == x * x
  {
  }

  lemma SquareIsZero(x: real)
    ensures x * x == 0.0 <==> x == 0.0
  {
    if x > 0.0 {
      StrictlyLarger(0.0, x);
    } else if x < 0.0 {
      var y := -x;
      StrictlyLarger(0.0, y);
      NegatedSquare(x);
    }
  }

  lemma LengthIsZeroExactly(sqrt: real -> real, a: Vector)
    requires IsSquareRoot(sqrt)
    ensures Norm(sqrt, a) >= 0.0 && Norm(sqrt, a) * Norm(sqrt, a) == Dot(a, a)
    ensures Norm(sqrt, a) == 0.0 <==> IsZero(a)
  {
    DotSelfNonNegative(a);
    OnlyZeroHasNoLength(a);
    SquareIsZero(Norm(sqrt, a));
  }

  /** The score times both lengths is the dot product; with a zero vector it is 0. */
  lemma ScoreReads(sqrt: real -> real, a: Vector, b: Vector)
    requires IsSquareRoot(sqrt) && |a| == |b|
    ensures Similarity(sqrt, a, b).Some?
    ensures IsZero(a) || IsZero(b) ==> Similarity(sqrt, a, b).value == 0.0
    ensures Similarity(sqrt, a, b).value * (sqrt(Dot(a, a)) * sqrt(Dot(b, b))) == Dot(a, b)
  {
    LengthIsZeroExactly(sqrt, a);
    LengthIsZeroExactly(sqrt, b);
    if IsZero(a) {
      DotSymmetric(a, b);
      DotWithNothing(b, a);
    } else if IsZero(b) {
      DotWithNothing(a, b);
    } else {
      ProductIsNonZero(Norm(sqrt, a), Norm(sqrt, b));
    }
  }

  lemma DotOfSum(a: Vector, b: Vector)
    requires |a| == |b|
    ensures var v := Plus(a, b); Dot(v, v) == Dot(a, a) + 2.0 * Dot(a, b) + Dot(b, b)
  {
    var v := Plus(a, b);
    DotIsLinear(v, a, b, 0.0);
    DotSymmetric(v, a);
    DotSymmetric(v, b);
    DotIsLinear(a, a, b, 0.0);
    DotIsLinear(b, a, b, 0.0);
    DotSymmetric(b, a);
  }

  lemma DotWithMultiple(a: Vector, b: Vector, x: real)
    requires |a| == |b|
    ensures Dot(b, Scaled(x, a)) == x * Dot(a, b)
  {
    DotIsLinear(b, a, a, x);
    DotSymmetric(a, b);
  }

  lemma MultipleWithItself(a: Vector, x: real)
    ensures Dot(Scaled(x, a), Scaled(x, a)) == x * (x * Dot(a, a))
  {
    DotScaled(x, a, Scaled(x, a));
    DotWithMultiple(a, a, x);
  }

  lemma DotOfShift(a: Vector, b: Vector, e: real)
    requires |a| == |b|
    ensures var v := Plus(b, Scaled(e, a));
      Dot(v, v) == Dot(b, b) + 2.0 * (e * Dot(a, b)) + e * (e * Dot(a, a))
  {
    DotOfSum(b, Scaled(e, a));
    DotWithMultiple(a, b, e);
    MultipleWithItself(a, e);
  }

  lemma ShiftVanishes(a: Vector, b: Vector, m: real, c: real, p: real)
    requires |a| == |b| && p == c * m && m * m == Dot(a, a) && p * p == Dot(b, b) && p * m == Dot(a, b)
    ensures var v := Plus(b, Scaled(-c, a)); Dot(v, v) == 0.0
  {
    DotOfShift(a, b, -c);
    SquaresCancel(c, m, p, Dot(a, a), Dot(a, b), Dot(b, b));
  }

  /** b is the multiple of a that its dot product and length say. */
  lemma FullDotMeansMultiple(a: Vector, b: Vector, m: real, c: real, p: real)
    requires |a| == |b| && p == c * m && m * m == Dot(a, a) && p * p == Dot(b, b) && p * m == Dot(a, b)
    ensures b == Scaled(c, a)
  {
    ShiftVanishes(a, b, m, c, p);
    OnlyZeroHasNoLength(Plus(b, Scaled(-c, a)));
    DifferenceIsZero(a, b, c);
  }

  lemma DifferenceIsZero(a: Vector, b: Vector, c: real)
    requires |a| == |b| && IsZero(Plus(b, Scaled(-c, a)))
    ensures b == Scaled(c, a)
  {
    var n := Scaled(-c, a);
    var v := Plus(b, n);
    forall i | 0 <= i < |a| ensures b[i] == Scaled(c, a)[i] {
      assert v[i] == b[i] + n[i] && v[i] == 0.0;
      Negated(c, a[i]);
    }
  }

  lemma Negated(c: real, x: real)
    ensures (-c) * x == -(c * x)
  {
  }

  lemma MoveFactor(c: real, m: real, x: real)
    ensures c * (x * m) == x * (c * m)
  {
  }

  lemma SquaresCancel(c: real, m: real, p: real, aa: real, ab: real, bb: real)
    requires p == c * m && aa == m * m && ab == p * m && bb == p * p
    ensures bb + 2.0 * ((-c) * ab) + (-c) * ((-c) * aa) == 0.0
  {
    MoveFactor(c, m, p);
    MoveFactor(c, m, m);
    assert c * ab == bb;
    assert c * aa == ab by { assert c * (m * m) == m * p; }
    Negated(c, ab);
    Negated(c, aa);
    DoubleNegated(c, ab);
  }

  lemma DoubleNegated(c: real, x: real)
    ensures (-c) * (-x) == c * x
  {
  }

  /** b points the way of a (s = 1) or the opposite way (s = -1). */
  ghost predicate Aligned(a: Vector, b: Vector, s: real) {
    exists c :: c * s > 0.0 && b == Scaled(c, a)
  }

  /** For vectors that are not zero the score is 1 exactly if one is a positive multiple of the other, and -1
      exactly if a negative one. */
  lemma ScoreIsExtremeExactly(sqrt: real -> real, a: Vector, b: Vector, s: real)
    requires IsSquareRoot(sqrt) && |a| == |b| && !IsZero(a) && !IsZero(b) && (s == 1.0 || s == -1.0)
    ensures Similarity(sqrt, a, b) == Some(s) <==> Aligned(a, b, s)
  {
    if Similarity(sqrt, a, b) == Some(s) {
      ExtremeMeansMultiple(sqrt, a, b, s);
    }
    if Aligned(a, b, s) {
      var c :| c * s > 0.0 && b == Scaled(c, a);
      MultipleScores(sqrt, a, c, s);
    }
  }

  lemma ExtremeMeansMultiple(sqrt: real -> real, a: Vector, b: Vector, s: real)
    requires IsSquareRoot(sqrt) && |a| == |b| && !IsZero(a) && !IsZero(b) && (s == 1.0 || s == -1.0)
    requires Similarity(sqrt, a, b) == Some(s)
    ensures Aligned(a, b, s)
  {
    ScoreReads(sqrt, a, b);
    LengthIsZeroExactly(sqrt, a);
    LengthIsZeroExactly(sqrt, b);
    var m, n := Norm(sqrt, a), Norm(sqrt, b);
    var c := LengthRatio(m, n, s);
    FullDotMeansMultiple(a, b, m, c, c * m);
  }

  /** The factor between two lengths, with a sign. */
  lemma LengthRatio(m: real, n: real, s: real) returns (c: real)
    requires m > 0.0 && n > 0.0 && (s == 1.0 || s == -1.0)
    ensures c * s > 0.0 && (c * m) * (c * m) == n * n && (c * m) * m == s * (m * n)
  {
    var q := n / m;
    assert q * m == n;
    if q <= 0.0 {
      ProductIsNonNegative(-q, m);
      assert false;
    }
    c := s * q;
    assert c * m == s * n by {
      assert (s * q) * m == s * (q * m);
    }
    if s == 1.0 {
      assert c == q && (c * m) * m == n * m;
    } else {
      assert c == -q && c * m == -n;
      assert (-n) * (-n) == n * n && (-n) * m == -(n * m);
    }
  }

  lemma MultipleScores(sqrt: real -> real, a: Vector, c: real, s: real)
    requires IsSquareRoot(sqrt) && !IsZero(a) && c * s > 0.0 && (s == 1.0 || s == -1.0)
    ensures Similarity(sqrt, a, Scaled(c, a)) == Some(s)
  {
    var b, x := Scaled(s, a), if s == 1.0 then c else -c;
    assert x == c * s;
    ScaledTwice(a, x, s, c);
    SimilarityIgnoresScale(sqrt, x, a, b);
    UnitMultipleScores(sqrt, a, s);
  }

  /** Scaling by a sign and then by x is scaling by c, if x is c with that sign. */
  lemma {:induction false} ScaledTwice(a: Vector, x: real, s: real, c: real)
    requires (s == 1.0 && x == c) || (s == -1.0 && x == -c)
    ensures Scaled(x, Scaled(s, a)) == Scaled(c, a)
  {
    var b := Scaled(s, a);
    if s == 1.0 {
      assert forall i :: 0 <= i < |a| ==> b[i] == a[i];
      assert b == a;
    } else {
      var twice, once := Scaled(x, b), Scaled(c, a);
      forall i | 0 <= i < |a| ensures twice[i] == once[i] {
        assert b[i] == -a[i];
        SignsCancel(c, x, a[i], b[i], twice[i], once[i]);
      }
    }
  }

  lemma SignsCancel(c: real, d: real, y: real, z: real, l: real, r: real)
    requires d == -c && z == -y && l == d * z && r == c * y
    ensures l == r
  {
    DoubleNegated(c, y);
  }

  lemma Substituted(x: real, q: real, d: real, r: real)
    requires q == d && x * q == r
    ensures x * d == r
  {
  }

  lemma UnitMultipleScores(sqrt: real -> real, a: Vector, s: real)
    requires IsSquareRoot(sqrt) && !IsZero(a) && (s == 1.0 || s == -1.0)
    ensures Similarity(sqrt, a, Scaled(s, a)) == Some(s)
  {
    var b, d := Scaled(s, a), Dot(a, a);
    ScoreReads(sqrt, a, b);
    LengthIsZeroExactly(sqrt, a);
    OnlyZeroHasNoLength(a);
    DotWithMultiple(a, a, s);
    MultipleWithItself(a, s);
    SignTwice(s, d);
    UnitScore(Similarity(sqrt, a, b).value, sqrt(d), sqrt(Dot(b, b)), d, Dot(a, b), s);
  }

  lemma SignTwice(s: real, d: real)
    requires s == 1.0 || s == -1.0
    ensures s * (s * d) == d
  {
    if s == -1.0 {
      assert s * d == -d;
    }
  }

  lemma SameProduct(p: real, q: real, d: real)
    requires p == q && p * p == d
    ensures p * q == d
  {
  }

  lemma UnitScore(x: real, p: real, q: real, d: real, t: real, s: real)
    requires p == q && p * p == d && x * (p * q) == t && t == s * d && d != 0.0
    ensures x == s
  {
    SameProduct(p, q, d);
    Substituted(x, p * q, d, t);
    OneFactor(x, s, d);
  }

  lemma OneFactor(x: real, s: real, d: real)
    requires d != 0.0 && x * d == s * d
    ensures x == s
  {
    var y := x - s;
    assert y * d == 0.0;
    if y != 0.0 {
      ProductIsNonZero(y, d);
      assert false;
    }
  }
}
