/** Real-number primitives shared by the whole model.

    The C and C++ code computes with `double`; the model computes with exact
    `real`s. The two transcendental functions it takes from <cmath>/<math.h>
    are constants of subset types: nothing is assumed of `Exp` beyond being
    positive with `Exp(0) == 1`, and nothing of `Sqrt` beyond being
    non-negative, zero at zero and positive on positive arguments. */
module Numerics {

  /** Every function positive everywhere and equal to 1 at 0. */
  type ExpFunction = f: real -> real | (forall x :: f(x) > 0.0) && f(0.0) == 1.0
    witness (x: real) => 1.0

  /** `exp`, known only through its type. */
  const Exp: ExpFunction

  /** Every function that is non-negative, zero at zero and positive on positive arguments. */
  type SqrtFunction = f: real -> real |
    (forall x :: f(x) >= 0.0) && f(0.0) == 0.0 && (forall x :: x > 0.0 ==> f(x) > 0.0)
    witness (x: real) => if x > 0.0 then 1.0 else 0.0

  /** `sqrt`, known only through its type. */
  const Sqrt: SqrtFunction

  /** `std::abs` / `fabs`. */
  function Abs(x: real): real
  {
    if x < 0.0 then -x else x
  }

  function Square(x: real): real
  {
    x * x
  }

  lemma ProductOfPositives(a: real, b: real)
    requires a > 0.0 && b > 0.0
    ensures a * b > 0.0
  {
  }

  /** A square is positive away from zero (stated step by step: the solver
      does not combine the definition of `Square` with the product's sign). */
  lemma SquarePositive(x: real)
    requires x != 0.0
    ensures Square(x) > 0.0
  {
    if x > 0.0 {
      calc {
        Square(x);
        x * x;
      > { ProductOfPositives(x, x); }
        0.0;
      }
    } else {
      calc {
        Square(x);
        (-x) * (-x);
      > { ProductOfPositives(-x, -x); }
        0.0;
      }
    }
  }

  lemma SquareZero(x: real)
    ensures Square(x) == 0.0 <==> x == 0.0
  {
    if x != 0.0 {
      SquarePositive(x);
    }
  }

  lemma QuotientInUnitInterval(a: real, s: real)
    requires 0.0 < a <= s
    ensures 0.0 < a / s <= 1.0
  {
  }

  lemma QuotientTimesDivisor(a: real, s: real)
    requires s != 0.0
    ensures (a / s) * s == a
  {
  }

  /** Sum of the elements, accumulated from the left as the source's loops do. */
  function Sum(v: seq<real>): real
  {
    if |v| == 0 then 0.0 else Sum(v[..|v| - 1]) + v[|v| - 1]
  }

  /** Sum of all the entries of a matrix, row after row. */
  function Sum2(m: seq<seq<real>>): real
  {
    if |m| == 0 then 0.0 else Sum2(m[..|m| - 1]) + Sum(m[|m| - 1])
  }

  /** Sum of `f` over the elements. */
  function SumMap(v: seq<real>, f: real -> real): real
  {
    if |v| == 0 then 0.0 else SumMap(v[..|v| - 1], f) + f(v[|v| - 1])
  }

  /** Sum of `f` over the entries of a matrix, row after row. */
  function SumMap2(m: seq<seq<real>>, f: real -> real): real
  {
    if |m| == 0 then 0.0 else SumMap2(m[..|m| - 1], f) + SumMap(m[|m| - 1], f)
  }

  /** Sum of `f` over the entries of a three-dimensional tensor, layer after layer. */
  function SumMap3(t: seq<seq<seq<real>>>, f: real -> real): real
  {
    if |t| == 0 then 0.0 else SumMap3(t[..|t| - 1], f) + SumMap2(t[|t| - 1], f)
  }

  /** Element-wise difference over the length of `p` (`p[i] - t[i]`). */
  function Diff(p: seq<real>, t: seq<real>): (d: seq<real>)
    requires |p| <= |t|
  {
    seq(|p|, i requires 0 <= i < |p| => p[i] - t[i])
  }

  /** `std::inner_product(a.begin(), a.end(), b.begin(), 0.0)`: the first |a| products, summed from the left. */
  function Dot(a: seq<real>, b: seq<real>): real
    requires |a| <= |b|
  {
    if |a| == 0 then 0.0 else Dot(a[..|a| - 1], b) + a[|a| - 1] * b[|a| - 1]
  }

  /** Column `c` of `m` weighted by `e`: the sum of `e[j] * m[j][c]` over j < |e|. */
  function ColDot(e: seq<real>, m: seq<seq<real>>, c: nat): real
    requires |e| <= |m|
    requires forall j :: 0 <= j < |e| ==> c < |m[j]|
  {
    if |e| == 0 then 0.0 else ColDot(e[..|e| - 1], m, c) + e[|e| - 1] * m[|e| - 1][c]
  }

  /** Column `c` of a matrix. */
  function Column(m: seq<seq<real>>, c: nat): seq<real>
    requires forall j :: 0 <= j < |m| ==> c < |m[j]|
  {
    seq(|m|, j requires 0 <= j < |m| => m[j][c])
  }

  // Shapes

  predicate IsMatrix(m: seq<seq<real>>, rows: nat, cols: nat)
  {
    |m| == rows && forall i :: 0 <= i < rows ==> |m[i]| == cols
  }

  predicate IsTensor(t: seq<seq<seq<real>>>, d0: nat, d1: nat, d2: nat)
  {
    |t| == d0 && forall i :: 0 <= i < d0 ==> IsMatrix(t[i], d1, d2)
  }

  predicate AllZero(v: seq<real>)
  {
    forall i :: 0 <= i < |v| ==> v[i] == 0.0
  }

  predicate AllZero2(m: seq<seq<real>>)
  {
    forall i :: 0 <= i < |m| ==> AllZero(m[i])
  }

  predicate AllZero3(t: seq<seq<seq<real>>>)
  {
    forall i :: 0 <= i < |t| ==> AllZero2(t[i])
  }

  function Zeros(n: nat): (z: seq<real>)
    ensures |z| == n
  {
    seq(n, _ => 0.0)
  }

  function ZeroMatrix(rows: nat, cols: nat): seq<seq<real>>
  {
    seq(rows, _ => Zeros(cols))
  }

  function ZeroTensor(d0: nat, d1: nat, d2: nat): seq<seq<seq<real>>>
  {
    seq(d0, _ => ZeroMatrix(d1, d2))
  }

  /** `std::vector<std::vector<double>>(rows, std::vector<double>(cols, v))`. */
  function Filled(rows: nat, cols: nat, v: real): (m: seq<seq<real>>)
    ensures IsMatrix(m, rows, cols)
  {
    seq(rows, _ => seq(cols, _ => v))
  }

  lemma ZeroShapes(d0: nat, d1: nat, d2: nat)
    ensures |Zeros(d0)| == d0 && AllZero(Zeros(d0))
    ensures IsMatrix(ZeroMatrix(d0, d1), d0, d1) && AllZero2(ZeroMatrix(d0, d1))
    ensures IsTensor(ZeroTensor(d0, d1, d2), d0, d1, d2) && AllZero3(ZeroTensor(d0, d1, d2))
  {
  }

  // Facts about the sums

  /** A sum of values of a non-negative `f` is non-negative. */
  lemma {:induction false} SumMapNonneg(v: seq<real>, f: real -> real)
    requires forall x :: f(x) >= 0.0
    ensures SumMap(v, f) >= 0.0
  {
    if |v| > 0 {
      SumMapNonneg(v[..|v| - 1], f);
    }
  }

  lemma {:induction false} SumMap2Nonneg(m: seq<seq<real>>, f: real -> real)
    requires forall x :: f(x) >= 0.0
    ensures SumMap2(m, f) >= 0.0
  {
    if |m| > 0 {
      SumMap2Nonneg(m[..|m| - 1], f);
      SumMapNonneg(m[|m| - 1], f);
    }
  }

  lemma {:induction false} SumMap3Nonneg(t: seq<seq<seq<real>>>, f: real -> real)
    requires forall x :: f(x) >= 0.0
    ensures SumMap3(t, f) >= 0.0
  {
    if |t| > 0 {
      SumMap3Nonneg(t[..|t| - 1], f);
      SumMap2Nonneg(t[|t| - 1], f);
    }
  }

  /** Summing `f` over zeros gives zero when `f(0) == 0`. */
  lemma {:induction false} SumMapOfZeros(v: seq<real>, f: real -> real)
    requires f(0.0) == 0.0 && AllZero(v)
    ensures SumMap(v, f) == 0.0
  {
    if |v| > 0 {
      SumMapOfZeros(v[..|v| - 1], f);
    }
  }

  lemma {:induction false} SumMap3OfZeros(t: seq<seq<seq<real>>>, f: real -> real)
    requires f(0.0) == 0.0 && AllZero3(t)
    ensures SumMap3(t, f) == 0.0
  {
    if |t| > 0 {
      SumMap3OfZeros(t[..|t| - 1], f);
      var m := t[|t| - 1];
      assert SumMap2(m, f) == 0.0 by {
        SumMap2OfZeros(m, f);
      }
    }
  }

  lemma {:induction false} SumMap2OfZeros(m: seq<seq<real>>, f: real -> real)
    requires f(0.0) == 0.0 && AllZero2(m)
    ensures SumMap2(m, f) == 0.0
  {
    if |m| > 0 {
      SumMap2OfZeros(m[..|m| - 1], f);
      SumMapOfZeros(m[|m| - 1], f);
    }
  }

  /** A sum of non-negative values is zero only when every value is zero. */
  lemma {:induction false} SumMapZeroOnlyForZeros(v: seq<real>, f: real -> real)
    requires forall x :: f(x) >= 0.0
    requires SumMap(v, f) == 0.0
    ensures forall i :: 0 <= i < |v| ==> f(v[i]) == 0.0
  {
    if |v| > 0 {
      var init := v[..|v| - 1];
      SumMapNonneg(init, f);
      SumMapZeroOnlyForZeros(init, f);
      forall i | 0 <= i < |v| ensures f(v[i]) == 0.0 {
        if i < |v| - 1 {
          assert v[i] == init[i];
        }
      }
    }
  }

  lemma {:induction false} SumNonneg(v: seq<real>)
    requires forall i :: 0 <= i < |v| ==> v[i] >= 0.0
    ensures Sum(v) >= 0.0
  {
    if |v| > 0 {
      SumNonneg(v[..|v| - 1]);
    }
  }

  /** Each of a set of non-negative values is at most their sum. */
  lemma {:induction false} ElementAtMostSum(v: seq<real>, k: nat)
    requires forall i :: 0 <= i < |v| ==> v[i] >= 0.0
    requires k < |v|
    ensures v[k] <= Sum(v)
  {
    var init := v[..|v| - 1];
    if k < |v| - 1 {
      ElementAtMostSum(init, k);
    } else {
      SumNonneg(init);
    }
  }

  /** Dividing every element by `s` divides the sum by `s`. */
  lemma {:induction false} SumDivided(v: seq<real>, w: seq<real>, s: real)
    requires s != 0.0 && |w| == |v|
    requires forall i :: 0 <= i < |v| ==> w[i] == v[i] / s
    ensures Sum(w) == Sum(v) / s
  {
    if |v| > 0 {
      SumDivided(v[..|v| - 1], w[..|w| - 1], s);
    }
  }

  lemma {:induction false} Sum2NonnegAndBound(m: seq<seq<real>>, i: nat, j: nat)
    requires forall r, c :: 0 <= r < |m| && 0 <= c < |m[r]| ==> m[r][c] >= 0.0
    requires i < |m| && j < |m[i]|
    ensures m[i][j] <= Sum2(m)
  {
    Sum2Nonneg(m[..|m| - 1]);
    if i < |m| - 1 {
      Sum2NonnegAndBound(m[..|m| - 1], i, j);
      SumNonneg(m[|m| - 1]);
    } else {
      ElementAtMostSum(m[i], j);
    }
  }

  lemma {:induction false} Sum2Nonneg(m: seq<seq<real>>)
    requires forall r, c :: 0 <= r < |m| && 0 <= c < |m[r]| ==> m[r][c] >= 0.0
    ensures Sum2(m) >= 0.0
  {
    if |m| > 0 {
      Sum2Nonneg(m[..|m| - 1]);
      SumNonneg(m[|m| - 1]);
    }
  }

  /** Dividing every entry of a matrix by `s` divides its total by `s`. */
  lemma {:induction false} Sum2Divided(m: seq<seq<real>>, w: seq<seq<real>>, s: real)
    requires s != 0.0 && |w| == |m|
    requires forall r :: 0 <= r < |m| ==> |w[r]| == |m[r]|
    requires forall r, c :: 0 <= r < |m| && 0 <= c < |m[r]| ==> w[r][c] == m[r][c] / s
    ensures Sum2(w) == Sum2(m) / s
  {
    if |m| > 0 {
      var n := |m| - 1;
      Sum2Divided(m[..n], w[..n], s);
      SumDivided(m[n], w[n], s);
      AddQuotients(Sum2(m[..n]), Sum(m[n]), s);
    }
  }

  lemma AddQuotients(a: real, b: real, s: real)
    requires s != 0.0
    ensures a / s + b / s == (a + b) / s
  {
  }

  /** A weighted column with all-zero weights, or over an all-zero matrix, is zero. */
  lemma {:induction false} ColDotOfZeros(e: seq<real>, m: seq<seq<real>>, c: nat)
    requires |e| <= |m|
    requires forall j :: 0 <= j < |e| ==> c < |m[j]|
    requires AllZero(e) || forall j :: 0 <= j < |e| ==> m[j][c] == 0.0
    ensures ColDot(e, m, c) == 0.0
  {
    if |e| > 0 {
      ColDotOfZeros(e[..|e| - 1], m, c);
    }
  }

  lemma {:induction false} DotOfZeros(a: seq<real>, b: seq<real>)
    requires |a| <= |b|
    requires AllZero(a) || AllZero(b)
    ensures Dot(a, b) == 0.0
  {
    if |a| > 0 {
      DotOfZeros(a[..|a| - 1], b);
    }
  }

  // One more term of a left-to-right sum

  lemma DotStep(a: seq<real>, b: seq<real>, k: nat)
    requires k < |a| <= |b|
    ensures Dot(a[..k + 1], b) == Dot(a[..k], b) + a[k] * b[k]
  {
    assert a[..k + 1][..k] == a[..k];
  }

  lemma ColDotStep(e: seq<real>, m: seq<seq<real>>, c: nat, k: nat)
    requires k < |e| <= |m|
    requires forall j :: 0 <= j < |e| ==> c < |m[j]|
    ensures ColDot(e[..k + 1], m, c) == ColDot(e[..k], m, c) + e[k] * m[k][c]
  {
    assert e[..k + 1][..k] == e[..k];
  }

  lemma SumStep(v: seq<real>, k: nat)
    requires k < |v|
    ensures Sum(v[..k + 1]) == Sum(v[..k]) + v[k]
  {
    assert v[..k + 1][..k] == v[..k];
  }

  lemma SumMapStep(v: seq<real>, f: real -> real, k: nat)
    requires k < |v|
    ensures SumMap(v[..k + 1], f) == SumMap(v[..k], f) + f(v[k])
  {
    assert v[..k + 1][..k] == v[..k];
  }

  lemma SumMap2Step(m: seq<seq<real>>, f: real -> real, k: nat)
    requires k < |m|
    ensures SumMap2(m[..k + 1], f) == SumMap2(m[..k], f) + SumMap(m[k], f)
  {
    assert m[..k + 1][..k] == m[..k];
  }

  lemma SumMap3Step(t: seq<seq<seq<real>>>, f: real -> real, k: nat)
    requires k < |t|
    ensures SumMap3(t[..k + 1], f) == SumMap3(t[..k], f) + SumMap2(t[k], f)
  {
    assert t[..k + 1][..k] == t[..k];
  }

  lemma Sum2Step(m: seq<seq<real>>, k: nat)
    requires k < |m|
    ensures Sum2(m[..k + 1]) == Sum2(m[..k]) + Sum(m[k])
  {
    assert m[..k + 1][..k] == m[..k];
  }

  // Normalisation: dividing non-negative entries by their positive total

  /** Every entry divided by `total`. */
  function Normalised(e: seq<real>, total: real): (y: seq<real>)
    requires total != 0.0
    ensures |y| == |e|
    ensures forall i :: 0 <= i < |e| ==> y[i] == e[i] / total
  {
    seq(|e|, i requires 0 <= i < |e| => e[i] / total)
  }

  /** Every entry of a matrix divided by `total`. */
  function NormalisedMatrix(e: seq<seq<real>>, total: real): (y: seq<seq<real>>)
    requires total != 0.0
    ensures |y| == |e|
    ensures forall i :: 0 <= i < |e| ==> y[i] == Normalised(e[i], total)
  {
    seq(|e|, i requires 0 <= i < |e| => Normalised(e[i], total))
  }

  lemma SelfQuotient(s: real)
    requires s != 0.0
    ensures s / s == 1.0
  {
  }

  /** A non-negative part of a positive total, divided by the total. */
  lemma ShareOfTotal(a: real, q: real, total: real)
    requires 0.0 <= a <= total && total > 0.0 && q == a / total
    ensures 0.0 <= q <= 1.0 && q * total == a
    ensures a > 0.0 ==> q > 0.0
  {
    QuotientTimesDivisor(a, total);
    if a > 0.0 {
      QuotientInUnitInterval(a, total);
    }
  }

  /** Non-negative entries divided by their positive sum form a distribution. */
  lemma NormalisedIsDistribution(e: seq<real>, total: real)
    requires forall i :: 0 <= i < |e| ==> e[i] >= 0.0
    requires total == Sum(e) && total > 0.0
    ensures forall i :: 0 <= i < |e| ==>
      0.0 <= Normalised(e, total)[i] <= 1.0 && (e[i] > 0.0 ==> Normalised(e, total)[i] > 0.0)
    ensures Sum(Normalised(e, total)) == 1.0
  {
    var y := Normalised(e, total);
    SumDivided(e, y, total);
    SelfQuotient(total);
    forall i | 0 <= i < |y|
      ensures 0.0 <= y[i] <= 1.0 && (e[i] > 0.0 ==> y[i] > 0.0)
    {
      ElementAtMostSum(e, i);
      ShareOfTotal(e[i], y[i], total);
    }
  }

  /** The same for all the entries of a matrix and their total. */
  lemma NormalisedMatrixIsDistribution(e: seq<seq<real>>, total: real)
    requires forall i, j :: 0 <= i < |e| && 0 <= j < |e[i]| ==> e[i][j] >= 0.0
    requires total == Sum2(e) && total > 0.0
    ensures forall i, j :: 0 <= i < |e| && 0 <= j < |e[i]| ==>
      0.0 <= NormalisedMatrix(e, total)[i][j] <= 1.0 &&
      (e[i][j] > 0.0 ==> NormalisedMatrix(e, total)[i][j] > 0.0)
    ensures Sum2(NormalisedMatrix(e, total)) == 1.0
  {
    var y := NormalisedMatrix(e, total);
    Sum2Divided(e, y, total);
    SelfQuotient(total);
    forall i, j | 0 <= i < |e| && 0 <= j < |e[i]|
      ensures 0.0 <= y[i][j] <= 1.0 && (e[i][j] > 0.0 ==> y[i][j] > 0.0)
    {
      Sum2NonnegAndBound(e, i, j);
      ShareOfTotal(e[i][j], y[i][j], total);
    }
  }
}
