/**
 Vector utilities over exact reals: normalization and cosine similarity. A square
 root is given as the non-negative number whose square is the sum of squares.
 */
module Vectors {

  function Dot(a: seq<real>, b: seq<real>): real
    requires |a| == |b|
  {
    if a == [] then 0.0 else a[0] * b[0] + Dot(a[1..], b[1..])
  }

  function SqSum(a: seq<real>): real {
    if a == [] then 0.0 else a[0] * a[0] + SqSum(a[1..])
  }

  /** `norm` is the square root of the sum of squares. */
  predicate IsNorm(a: seq<real>, norm: real) { norm >= 0.0 && norm * norm == SqSum(a) }

  /** The cosine similarity, given both norms; zero when either vector is zero. */
  function Cosine(a: seq<real>, b: seq<real>, normA: real, normB: real): real
    requires |a| == |b|
  {
    if normA == 0.0 || normB == 0.0 then 0.0 else
    assert normA * normB != 0.0;
    Dot(a, b) / (normA * normB)
  }

  function Divided(a: seq<real>, d: real): (r: seq<real>)
    requires d != 0.0
    ensures |r| == |a| && forall i :: 0 <= i < |a| ==> r[i] == a[i] / d
  {
    seq(|a|, i requires 0 <= i < |a| => a[i] / d)
  }

  function Normalized(a: seq<real>, norm: real): (r: seq<real>)
    requires norm >= 0.0
    ensures |r| == |a|
  {
    if norm > 0.0 then Divided(a, norm) else a
  }

  // ---- The inequality of Cauchy and Schwarz ------------------------------------------

  lemma SquareNonNegative(x: real)
    ensures x * x >= 0.0
  {
  }

  lemma {:induction false} SqSumNonNegative(a: seq<real>)
    ensures SqSum(a) >= 0.0
  {
    if a != [] {
      SquareNonNegative(a[0]);
      SqSumNonNegative(a[1..]);
    }
  }

  /** The squared length of x·b − y·a. */
  function Gap(a: seq<real>, b: seq<real>, x: real, y: real): real
    requires |a| == |b|
  {
    if a == [] then 0.0 else
    (x * b[0] - y * a[0]) * (x * b[0] - y * a[0]) + Gap(a[1..], b[1..], x, y)
  }

  lemma {:induction false} GapNonNegative(a: seq<real>, b: seq<real>, x: real, y: real)
    requires |a| == |b|
    ensures Gap(a, b, x, y) >= 0.0
  {
    if a != [] {
      SquareNonNegative(x * b[0] - y * a[0]);
      GapNonNegative(a[1..], b[1..], x, y);
    }
  }

  lemma SquareOfDifference(p: real, q: real, x: real, y: real)
    ensures (x * q - y * p) * (x * q - y * p) == (x * x) * (q * q) - 2.0 * (x * y) * (p * q) + (y * y) * (p * p)
  {
  }

  lemma Regroup(u: real, v: real, w: real, b: real, d: real, a: real, b': real, d': real, a': real)
    ensures (u * b - 2.0 * v * d + w * a) + (u * b' - 2.0 * v * d' + w * a')
         == u * (b + b') - 2.0 * v * (d + d') + w * (a + a')
  {
  }

  lemma {:induction false} GapExpansion(a: seq<real>, b: seq<real>, x: real, y: real)
    requires |a| == |b|
    ensures Gap(a, b, x, y) == (x * x) * SqSum(b) - 2.0 * (x * y) * Dot(a, b) + (y * y) * SqSum(a)
  {
    if a != [] {
      GapExpansion(a[1..], b[1..], x, y);
      SquareOfDifference(a[0], b[0], x, y);
      Regroup(x * x, x * y, y * y, b[0] * b[0], a[0] * b[0], a[0] * a[0],
              SqSum(b[1..]), Dot(a[1..], b[1..]), SqSum(a[1..]));
    }
  }

  /** The sign of a square, for a square that has a name. */
  lemma SquareSign(x: real, q: real)
    requires q == x * x
    ensures x == 0.0 ==> q == 0.0
    ensures x != 0.0 ==> q > 0.0
  {
    if x > 0.0 {
      ProductSign(x, x, q);
    } else if x < 0.0 {
      SquareOfOpposite(x, -x);
      ProductSign(-x, -x, q);
    }
  }

  lemma ProductSign(x: real, y: real, z: real)
    requires x > 0.0 && y > 0.0 && z == x * y
    ensures z > 0.0
  {
  }

  lemma SquareOfOpposite(x: real, y: real)
    requires y == -x
    ensures x * x == y * y
  {
  }

  lemma {:induction false} ZeroLength(a: seq<real>)
    ensures SqSum(a) == 0.0 <==> forall i :: 0 <= i < |a| ==> a[i] == 0.0
  {
    if a != [] {
      var rest := a[1..];
      ZeroLength(rest);
      var q, r := a[0] * a[0], SqSum(rest);
      SquareSign(a[0], q);
      SqSumNonNegative(rest);
      assert SqSum(a) == q + r;
      assert SqSum(a) == 0.0 <==> a[0] == 0.0 && SqSum(rest) == 0.0;
      assert forall i :: 0 <= i < |rest| ==> rest[i] == a[i + 1];
      assert (forall i :: 0 <= i < |a| ==> a[i] == 0.0) <==> a[0] == 0.0 && forall i :: 0 <= i < |rest| ==> rest[i] == 0.0 by {
        if a[0] == 0.0 && forall i :: 0 <= i < |rest| ==> rest[i] == 0.0 {
          forall i | 0 <= i < |a| ensures a[i] == 0.0 { assert i == 0 || a[i] == rest[i - 1]; }
        }
      }
    }
  }

  lemma {:induction false} DotWithZero(a: seq<real>, b: seq<real>)
    requires |a| == |b| && (forall i :: 0 <= i < |a| ==> a[i] == 0.0)
    ensures Dot(a, b) == 0.0
  {
    if a != [] { DotWithZero(a[1..], b[1..]); }
  }

  /** a²·b − 2a·d² + d²·a = a·(a·b − d²), so a non-negative left side bounds d². */
  lemma DivideOut(a: real, b: real, d: real)
    requires a > 0.0 && (a * a) * b - 2.0 * (a * d) * d + (d * d) * a >= 0.0
    ensures d * d <= a * b
  {
    var slack := a * b - d * d;
    assert (a * a) * b - 2.0 * (a * d) * d + (d * d) * a == a * slack;
    if slack < 0.0 { NegativeProduct(a, slack); }
  }

  lemma NegativeProduct(a: real, s: real)
    requires a > 0.0 && s < 0.0
    ensures a * s < 0.0
  {
  }

  lemma CauchySchwarzZero(a: seq<real>, b: seq<real>)
    requires |a| == |b| && SqSum(a) == 0.0
    ensures Dot(a, b) == 0.0
  {
    ZeroLength(a);
    DotWithZero(a, b);
  }

  lemma CauchySchwarzPositive(a: seq<real>, b: seq<real>, sa: real, sb: real, d: real)
    requires |a| == |b| && sa == SqSum(a) && sb == SqSum(b) && d == Dot(a, b) && sa > 0.0
    ensures d * d <= sa * sb
  {
    GapNonNegative(a, b, sa, d);
    GapExpansion(a, b, sa, d);
    DivideOut(sa, sb, d);
  }

  lemma ZeroProducts(x: real)
    ensures 0.0 * x == 0.0
  {
  }

  lemma CauchySchwarz(a: seq<real>, b: seq<real>)
    requires |a| == |b|
    ensures Dot(a, b) * Dot(a, b) <= SqSum(a) * SqSum(b)
  {
    SqSumNonNegative(a);
    var sa, sb, d := SqSum(a), SqSum(b), Dot(a, b);
    assert d * d <= sa * sb by {
      if sa == 0.0 {
        CauchySchwarzZero(a, b);
        ZeroProducts(sb);
      } else {
        CauchySchwarzPositive(a, b, sa, sb, d);
      }
    }
  }

  lemma PositiveProduct(x: real, y: real)
    requires x > 0.0 && y > 0.0
    ensures x * y > 0.0
  {
  }

  lemma Distribute(p: real, q: real, m: real)
    ensures (p + q) * m == p * m + q * m && (p - q) * m == p * m - q * m
  {
  }

  lemma Order(p: real, q: real, m: real)
    requires m > 0.0
    ensures p < q <==> p * m < q * m
    ensures p == q <==> p * m == q * m
  {
    Distribute(q, p, m);
    Distribute(p, q, m);
    if p < q { PositiveProduct(q - p, m); }
    if q < p { PositiveProduct(p - q, m); }
  }

  lemma DifferenceOfSquares(x: real, y: real)
    ensures (x - y) * (x + y) == x * x - y * y
  {
  }

  lemma SquareGrows(x: real, y: real)
    requires x > y >= 0.0
    ensures x * x > y * y
  {
    DifferenceOfSquares(x, y);
    PositiveProduct(x - y, x + y);
  }

  lemma RootBound(x: real, y: real)
    requires y >= 0.0 && x * x <= y * y
    ensures -y <= x <= y
  {
    if x > y { SquareGrows(x, y); }
    if -x > y { SquareGrows(-x, y); }
  }

  lemma ProductOfSquares(x: real, y: real)
    ensures (x * y) * (x * y) == (x * x) * (y * y)
  {
  }

  lemma QuotientBound(d: real, n: real)
    requires n > 0.0 && -n <= d <= n
    ensures -1.0 <= d / n <= 1.0
  {
    var q := d / n;
    assert q * n == d;
    Order(1.0, q, n);
    Order(q, -1.0, n);
  }

  /** Cosine similarity lies between minus one and one. */
  lemma CosineRange(a: seq<real>, b: seq<real>, normA: real, normB: real)
    requires |a| == |b| && IsNorm(a, normA) && IsNorm(b, normB)
    ensures -1.0 <= Cosine(a, b, normA, normB) <= 1.0
  {
    if normA != 0.0 && normB != 0.0 {
      CauchySchwarz(a, b);
      ProductOfSquares(normA, normB);
      PositiveProduct(normA, normB);
      RootBound(Dot(a, b), normA * normB);
      QuotientBound(Dot(a, b), normA * normB);
    }
  }

  // ---- Normalization --------------------------------------------------------------------

  lemma SquareOfQuotient(x: real, n: real, m: real)
    requires n != 0.0 && m == n * n
    ensures ((x / n) * (x / n)) * m == x * x
  {
    var q := x / n;
    assert q * n == x;
    ProductOfSquares(q, n);
  }

  lemma {:induction false} DividedSqSum(a: seq<real>, n: real, m: real)
    requires n != 0.0 && m == n * n
    ensures SqSum(Divided(a, n)) * m == SqSum(a)
  {
    if a != [] {
      DividedSqSum(a[1..], n, m);
      var r := Divided(a, n);
      assert r[1..] == Divided(a[1..], n);
      SquareOfQuotient(a[0], n, m);
      Distribute(r[0] * r[0], SqSum(r[1..]), m);
    }
  }

  lemma FactorOne(s: real, m: real)
    requires m > 0.0 && s * m == m
    ensures s == 1.0
  {
    Order(s, 1.0, m);
  }

  lemma NormPositive(n: real, m: real)
    requires n >= 0.0 && n * n == m
    ensures n > 0.0 <==> m > 0.0
    ensures n == 0.0 <==> m == 0.0
  {
    SquareSign(n, m);
  }

  /** Normalizing gives length one, or leaves a zero vector as it is. */
  lemma NormalizedLength(a: seq<real>, norm: real)
    requires IsNorm(a, norm)
    ensures SqSum(a) != 0.0 ==> SqSum(Normalized(a, norm)) == 1.0
    ensures SqSum(a) == 0.0 ==> Normalized(a, norm) == a
  {
    var m := SqSum(a);
    NormPositive(norm, m);
    if norm > 0.0 {
      DividedSqSum(a, norm, m);
      FactorOne(SqSum(Divided(a, norm)), m);
    }
  }

  lemma UnitNorm(n: real)
    requires n >= 0.0 && n * n == 1.0
    ensures n == 1.0
  {
    if n > 1.0 { SquareGrows(n, 1.0); }
    if n < 1.0 { SquareGrows(1.0, n); }
  }

  /** On normalized non-zero vectors the cosine is the plain dot product. */
  lemma CosineOfNormalized(a: seq<real>, b: seq<real>, normA: real, normB: real, unitA: real, unitB: real)
    requires |a| == |b| && IsNorm(a, normA) && IsNorm(b, normB) && SqSum(a) != 0.0 && SqSum(b) != 0.0
    requires IsNorm(Normalized(a, normA), unitA) && IsNorm(Normalized(b, normB), unitB)
    ensures var u, v := Normalized(a, normA), Normalized(b, normB);
            Cosine(u, v, unitA, unitB) == Dot(u, v) && -1.0 <= Dot(u, v) <= 1.0
  {
    NormalizedLength(a, normA);
    NormalizedLength(b, normB);
    UnitNorm(unitA);
    UnitNorm(unitB);
    CosineRange(Normalized(a, normA), Normalized(b, normB), unitA, unitB);
  }

  /** Normalizing twice changes nothing more. */
  lemma NormalizeTwice(a: seq<real>, norm: real, unit: real)
    requires IsNorm(a, norm) && IsNorm(Normalized(a, norm), unit)
    ensures Normalized(Normalized(a, norm), unit) == Normalized(a, norm)
  {
    NormalizedLength(a, norm);
    var u := Normalized(a, norm);
    if SqSum(a) != 0.0 {
      UnitNorm(unit);
      forall i | 0 <= i < |u| ensures Divided(u, 1.0)[i] == u[i] { assert u[i] / 1.0 == u[i]; }
    } else {
      NormalizedLength(u, unit);
    }
  }

  /** Normalization in place, given the square root of the sum of squares. */
  method L2Normalize(v: array<real>, norm: real)
    requires IsNorm(v[..], norm)
    modifies v
    ensures v[..] == Normalized(old(v[..]), norm)
  {
    if norm > 0.0 {
      var i := 0;
      while i < v.Length
        invariant 0 <= i <= v.Length
        invariant forall k :: 0 <= k < i ==> v[k] == old(v[k]) / norm
        invariant forall k :: i <= k < v.Length ==> v[k] == old(v[k])
      {
        v[i] := v[i] / norm;
        i := i + 1;
      }
    }
  }

  lemma {:induction false} ZeroVector(a: seq<real>)
    ensures SqSum(a) == 0.0 <==> forall i :: 0 <= i < |a| ==> a[i] == 0.0
  {
    if a != [] {
      ZeroVector(a[1..]);
      SqSumNonNegative(a[1..]);
      SquareNonNegative(a[0]);
      ZeroSquare(a[0]);
      assert forall i :: 0 < i < |a| ==> a[i] == a[1..][i - 1];
      if forall i :: 0 <= i < |a| ==> a[i] == 0.0 {
        assert forall i :: 0 <= i < |a[1..]| ==> a[1..][i] == a[i + 1];
      }
    }
  }

  lemma ZeroSquare(x: real)
    ensures x * x == 0.0 <==> x == 0.0
  {
    if x != 0.0 { assert x * x / x == x; }
  }

  ghost predicate IsZero(a: seq<real>) { forall i :: 0 <= i < |a| ==> a[i] == 0.0 }

  lemma QuotientUnique(dot: real, scale: real, r: real)
    requires scale != 0.0
    ensures r * scale == dot <==> r == dot / scale
  {
    assert dot / scale * scale == dot;
    if r * scale == dot { assert r * scale / scale == r; }
  }

  /**
   The similarity with a zero vector is zero; otherwise it is the one number that, times both
   lengths, is the dot product.
   */
  lemma CosineMeaning(a: seq<real>, b: seq<real>, normA: real, normB: real, r: real)
    requires |a| == |b| && IsNorm(a, normA) && IsNorm(b, normB)
    ensures IsZero(a) || IsZero(b) ==> Cosine(a, b, normA, normB) == 0.0
    ensures !IsZero(a) && !IsZero(b) ==> (r == Cosine(a, b, normA, normB) <==> r * (normA * normB) == Dot(a, b))
  {
    ZeroVector(a);
    ZeroVector(b);
    ZeroSquare(normA);
    ZeroSquare(normB);
    if normA != 0.0 && normB != 0.0 {
      PositiveProduct(normA, normB);
      QuotientUnique(Dot(a, b), normA * normB, r);
    }
  }

  /** Similarity of two stored vectors. */
  method CosineSimilarity(a: seq<real>, b: seq<real>, normA: real, normB: real) returns (r: real)
    requires |a| == |b| && IsNorm(a, normA) && IsNorm(b, normB)
    ensures r == Cosine(a, b, normA, normB) && -1.0 <= r <= 1.0
    ensures IsZero(a) || IsZero(b) ==> r == 0.0
    ensures !IsZero(a) && !IsZero(b) ==> r * (normA * normB) == Dot(a, b)
  {
    CosineMeaning(a, b, normA, normB, Cosine(a, b, normA, normB));
    CosineRange(a, b, normA, normB);
    if normA == 0.0 || normB == 0.0 { return 0.0; }
    PositiveProduct(normA, normB);
    return Dot(a, b) / (normA * normB);
  }
}
