/** LOTA ("least of them all"): lift the entries by the magnitude of the
    smallest one, then divide by the sum, and its derivative
    (maths/src/basics/src/activations.cpp and activationsder.cpp). */
module Lota {
  import opened Numerics

  // Minimum and lifting

  /** `*std::min_element(v.begin(), v.end())`: the smallest entry of a
      non-empty vector (the source dereferences the end of an empty one). */
  function MinOf(v: seq<real>): (m: real)
    requires |v| > 0
    ensures forall i :: 0 <= i < |v| ==> m <= v[i]
    ensures exists i :: 0 <= i < |v| && m == v[i]
  {
    if |v| == 1 then v[0]
    else
      var r := MinOf(v[..|v| - 1]);
      assert forall i :: 0 <= i < |v| - 1 ==> v[..|v| - 1][i] == v[i];
      if v[|v| - 1] < r then v[|v| - 1] else r
  }

  lemma MinOfStep(v: seq<real>, j: nat)
    requires 0 < j < |v|
    ensures MinOf(v[..j + 1]) == if v[j] < MinOf(v[..j]) then v[j] else MinOf(v[..j])
  {
    assert v[..j + 1][..j] == v[..j];
  }

  /** Every entry plus `lift`. */
  function Shifted(v: seq<real>, lift: real): (w: seq<real>)
    ensures |w| == |v|
    ensures forall i :: 0 <= i < |v| ==> w[i] == v[i] + lift
  {
    seq(|v|, i requires 0 <= i < |v| => v[i] + lift)
  }

  /** The vector after the first `transform`: every entry plus `|min|`. All
      of them are non-negative, whatever the sign of the minimum. */
  function Lifted(y: seq<real>): (v: seq<real>)
    requires |y| > 0
    ensures |v| == |y|
    ensures forall i :: 0 <= i < |y| ==> v[i] >= 0.0 && v[i] - y[i] == Abs(MinOf(y))
  {
    Shifted(y, Abs(MinOf(y)))
  }

  // LOTA on a vector

  /** `LOTA(y)`: the lifted entries divided by their sum. The source divides
      even when the sum is 0; the model asks for a non-zero sum. */
  function Lota(y: seq<real>): (x: seq<real>)
    requires |y| > 0
    requires Sum(Lifted(y)) != 0.0
    ensures |x| == |y|
    ensures forall i :: 0 <= i < |y| ==> 0.0 <= x[i] <= 1.0
    ensures Sum(x) == 1.0
  {
    var v := Lifted(y);
    SumNonneg(v);
    NormalisedIsDistribution(v, Sum(v));
    Normalised(v, Sum(v))
  }

  /** Adding the same amount to every input preserves the order of the
      outputs: LOTA never swaps two entries. */
  lemma LotaKeepsOrder(y: seq<real>, i: nat, j: nat)
    requires |y| > 0 && Sum(Lifted(y)) != 0.0
    requires i < |y| && j < |y| && y[i] <= y[j]
    ensures Lota(y)[i] <= Lota(y)[j]
  {
    var v := Lifted(y);
    SumNonneg(v);
    QuotientMonotone(v[i], v[j], Sum(v));
  }

  lemma QuotientMonotone(a: real, b: real, s: real)
    requires a <= b && s > 0.0
    ensures a / s <= b / s
  {
  }

  // LOTA on a matrix

  /** The `min_val` loop of the matrix overloads: it starts at 0 and takes
      each row's `min_element`, so it is the smaller of 0 and every entry. */
  function Floor(m: seq<seq<real>>): (f: real)
    requires forall i :: 0 <= i < |m| ==> |m[i]| > 0
    ensures f <= 0.0
    ensures forall i, j :: 0 <= i < |m| && 0 <= j < |m[i]| ==> f <= m[i][j]
  {
    if |m| == 0 then 0.0
    else
      var f := Floor(m[..|m| - 1]);
      var v := MinOf(m[|m| - 1]);
      assert forall i :: 0 <= i < |m| - 1 ==> m[..|m| - 1][i] == m[i];
      if v < f then v else f
  }

  lemma FloorStep(m: seq<seq<real>>, i: nat)
    requires i < |m| && forall r :: 0 <= r < |m| ==> |m[r]| > 0
    ensures Floor(m[..i + 1]) == if MinOf(m[i]) < Floor(m[..i]) then MinOf(m[i]) else Floor(m[..i])
  {
    assert m[..i + 1][..i] == m[..i];
  }

  /** Every entry of a matrix plus `lift`. */
  function ShiftedMatrix(m: seq<seq<real>>, lift: real): (w: seq<seq<real>>)
    ensures |w| == |m|
    ensures forall i :: 0 <= i < |m| ==> w[i] == Shifted(m[i], lift)
  {
    seq(|m|, i requires 0 <= i < |m| => Shifted(m[i], lift))
  }

  /** The matrix after the lifting `transform`s: every entry plus the
      magnitude of the floor, hence non-negative. */
  function LiftedMatrix(y: seq<seq<real>>): (v: seq<seq<real>>)
    requires forall i :: 0 <= i < |y| ==> |y[i]| > 0
    ensures |v| == |y|
    ensures forall i :: 0 <= i < |y| ==> |v[i]| == |y[i]|
    ensures forall i, j :: 0 <= i < |y| && 0 <= j < |y[i]| ==>
      v[i][j] >= 0.0 && v[i][j] - y[i][j] == Abs(Floor(y))
  {
    ShiftedMatrix(y, Abs(Floor(y)))
  }

  /** What the matrix `LOTA` must be given: every row non-empty (for
      `min_element`) and, when there is a row, a non-zero total. */
  predicate LotaMatrixDefined(y: seq<seq<real>>)
  {
    (forall i :: 0 <= i < |y| ==> |y[i]| > 0) &&
    (|y| > 0 ==> Sum2(LiftedMatrix(y)) != 0.0)
  }

  /** The matrix `LOTA(y)`: the lifted entries divided by their total. */
  function LotaMatrixOf(y: seq<seq<real>>): (x: seq<seq<real>>)
    requires LotaMatrixDefined(y)
    ensures |x| == |y|
    ensures forall i :: 0 <= i < |y| ==> |x[i]| == |y[i]|
  {
    if |y| == 0 then [] else NormalisedMatrix(LiftedMatrix(y), Sum2(LiftedMatrix(y)))
  }

  /** The result is a distribution over all the entries of the matrix. */
  lemma LotaMatrixIsDistribution(y: seq<seq<real>>)
    requires LotaMatrixDefined(y) && |y| > 0
    ensures forall i, j :: 0 <= i < |y| && 0 <= j < |y[i]| ==> 0.0 <= LotaMatrixOf(y)[i][j] <= 1.0
    ensures Sum2(LotaMatrixOf(y)) == 1.0
  {
    var v := LiftedMatrix(y);
    Sum2Nonneg(v);
    NormalisedMatrixIsDistribution(v, Sum2(v));
  }

  /** The `min_val` loop: the floor of the matrix. */
  method FloorLoop(y: seq<seq<real>>) returns (minVal: real)
    requires forall i :: 0 <= i < |y| ==> |y[i]| > 0
    ensures minVal == Floor(y)
  {
    minVal := 0.0;
    for i := 0 to |y|
      invariant minVal == Floor(y[..i])
    {
      FloorStep(y, i);
      var val := MinOf(y[i]);
      if val < minVal {
        minVal := val;
      }
    }
    assert y[..|y|] == y;
  }

  /** The loop accumulating the row sums. */
  method TotalLoop(x: seq<seq<real>>) returns (sum: real)
    ensures sum == Sum2(x)
  {
    sum := 0.0;
    for i := 0 to |x|
      invariant sum == Sum2(x[..i])
    {
      Sum2Step(x, i);
      sum := sum + Sum(x[i]);
    }
    assert x[..|x|] == x;
  }

  /** `LOTA(std::vector<std::vector<double>>)`: the floor loop, the lifting
      loop, the total loop and the dividing loop over a local copy. */
  method LotaMatrix(y: seq<seq<real>>) returns (x: seq<seq<real>>)
    requires LotaMatrixDefined(y)
    ensures x == LotaMatrixOf(y)
  {
    var minVal := FloorLoop(y);
    minVal := Abs(minVal);
    x := LiftLoop(y, minVal);
    var sum := TotalLoop(x);
    ghost var v := x;
    for i := 0 to |x|
      invariant |x| == |y|
      invariant forall r :: 0 <= r < i ==> x[r] == Normalised(v[r], sum)
      invariant forall r :: i <= r < |x| ==> x[r] == v[r]
    {
      x := x[i := Normalised(x[i], sum)];
    }
  }

  // LOTA on the top-left block

  /** The top-left t-by-t block. */
  function Block(y: seq<seq<real>>, t: nat): (b: seq<seq<real>>)
    requires t <= |y| && forall i :: 0 <= i < t ==> t <= |y[i]|
    ensures IsMatrix(b, t, t)
  {
    seq(t, i requires 0 <= i < t => y[i][..t])
  }

  /** What `LOTA(y, t)` must be given: when it does not delegate, a block
      that fits inside `y` and whose lifted total is non-zero. A negative `t`
      never equals the unsigned size and runs no loop. */
  predicate LotaBlockDefined(y: seq<seq<real>>, t: int)
  {
    if t == |y| then LotaMatrixDefined(y)
    else
      t <= 0 ||
      (t <= |y| && (forall i :: 0 <= i < t ==> t <= |y[i]|) &&
       LotaMatrixDefined(Block(y, t)))
  }

  /** `y` with the first `t` entries of each row `i < t` replaced by the
      row `b[i]` of a t-by-t block. */
  function WithBlock(y: seq<seq<real>>, t: nat, b: seq<seq<real>>): (x: seq<seq<real>>)
    requires t <= |y| && forall i :: 0 <= i < t ==> t <= |y[i]|
    requires IsMatrix(b, t, t)
    ensures |x| == |y|
    ensures forall i :: 0 <= i < |y| ==> |x[i]| == |y[i]|
    ensures forall i :: t <= i < |y| ==> x[i] == y[i]
    ensures forall i :: 0 <= i < t ==> x[i][..t] == b[i] && x[i][t..] == y[i][t..]
  {
    seq(|y|, i requires 0 <= i < |y| => if i < t then b[i] + y[i][t..] else y[i])
  }

  /** Replacing the block and reading it back gives the new block. */
  lemma BlockOfWithBlock(y: seq<seq<real>>, t: nat, b: seq<seq<real>>)
    requires t <= |y| && forall i :: 0 <= i < t ==> t <= |y[i]|
    requires IsMatrix(b, t, t)
    ensures Block(WithBlock(y, t, b), t) == b
  {
  }

  /** Replacing the block twice keeps only the second replacement. */
  lemma WithBlockTwice(y: seq<seq<real>>, t: nat, b: seq<seq<real>>, c: seq<seq<real>>)
    requires t <= |y| && forall i :: 0 <= i < t ==> t <= |y[i]|
    requires IsMatrix(b, t, t) && IsMatrix(c, t, t)
    ensures WithBlock(WithBlock(y, t, b), t, c) == WithBlock(y, t, c)
  {
    var x := WithBlock(y, t, b);
    forall i | 0 <= i < |y| ensures WithBlock(x, t, c)[i] == WithBlock(y, t, c)[i] {
      if i < t {
        assert WithBlock(x, t, c)[i] == c[i] + x[i][t..];
      }
    }
  }

  /** `LOTA(y, t)`: the whole-matrix LOTA when `t` is the number of rows;
      otherwise the block LOTA'd on its own and every other entry kept. */
  function LotaBlockOf(y: seq<seq<real>>, t: int): (x: seq<seq<real>>)
    requires LotaBlockDefined(y, t)
    ensures |x| == |y|
  {
    if t == |y| then LotaMatrixOf(y)
    else if t <= 0 then y
    else WithBlock(y, t, LotaMatrixOf(Block(y, t)))
  }

  /** Outside the block nothing changes; inside it the entries form a
      distribution. */
  lemma LotaBlockProperties(y: seq<seq<real>>, t: int)
    requires LotaBlockDefined(y, t) && 0 < t < |y|
    ensures forall i :: t <= i < |y| ==> LotaBlockOf(y, t)[i] == y[i]
    ensures forall i :: 0 <= i < t ==>
      |LotaBlockOf(y, t)[i]| == |y[i]| && LotaBlockOf(y, t)[i][t..] == y[i][t..]
    ensures Block(LotaBlockOf(y, t), t) == LotaMatrixOf(Block(y, t))
    ensures forall i, j :: 0 <= i < t && 0 <= j < t ==> 0.0 <= LotaBlockOf(y, t)[i][j] <= 1.0
    ensures Sum2(Block(LotaBlockOf(y, t), t)) == 1.0
  {
    var b := LotaMatrixOf(Block(y, t));
    BlockOfWithBlock(y, t, b);
    LotaMatrixIsDistribution(Block(y, t));
    forall i, j | 0 <= i < t && 0 <= j < t ensures 0.0 <= LotaBlockOf(y, t)[i][j] <= 1.0 {
      assert LotaBlockOf(y, t)[i][j] == LotaBlockOf(y, t)[i][..t][j] == b[i][j];
    }
  }

  /** One row of the block scan: lowers the running floor `f` to the row's minimum. */
  method RowFloor(v: seq<real>, f: real) returns (minVal: real)
    requires |v| > 0
    ensures minVal == if MinOf(v) < f then MinOf(v) else f
  {
    minVal := f;
    for j := 0 to |v|
      invariant j == 0 ==> minVal == f
      invariant j > 0 ==> minVal == if MinOf(v[..j]) < f then MinOf(v[..j]) else f
    {
      if j > 0 {
        MinOfStep(v, j);
      } else {
        assert v[..1] == [v[0]];
      }
      if v[j] < minVal {
        minVal := v[j];
      }
    }
    assert v[..|v|] == v;
  }

  /** The block `min_val` loop over `i, j < t`. */
  method BlockFloorLoop(y: seq<seq<real>>, t: nat) returns (minVal: real)
    requires 0 < t <= |y| && forall i :: 0 <= i < t ==> t <= |y[i]|
    ensures minVal == Floor(Block(y, t))
  {
    var b := Block(y, t);
    minVal := 0.0;
    for i := 0 to t
      invariant minVal == Floor(b[..i])
    {
      FloorStep(b, i);
      minVal := RowFloor(b[i], minVal);
    }
    assert b[..t] == b;
  }

  /** The block lifting loop: the first `t` entries of rows `i < t` shifted. */
  method BlockLiftLoop(y: seq<seq<real>>, t: nat, lift: real) returns (x: seq<seq<real>>)
    requires t <= |y| && forall i :: 0 <= i < t ==> t <= |y[i]|
    ensures x == WithBlock(y, t, ShiftedMatrix(Block(y, t), lift))
  {
    x := y;
    for i := 0 to t
      invariant |x| == |y|
      invariant forall r :: 0 <= r < i ==> x[r] == Shifted(y[r][..t], lift) + y[r][t..]
      invariant forall r :: i <= r < |y| ==> x[r] == y[r]
    {
      x := x[i := Shifted(x[i][..t], lift) + x[i][t..]];
    }
  }

  /** The block total loop. */
  method BlockTotalLoop(x: seq<seq<real>>, t: nat) returns (sum: real)
    requires t <= |x| && forall i :: 0 <= i < t ==> t <= |x[i]|
    ensures sum == Sum2(Block(x, t))
  {
    var b := Block(x, t);
    sum := 0.0;
    for i := 0 to t
      invariant sum == Sum2(b[..i])
    {
      Sum2Step(b, i);
      sum := sum + Sum(x[i][..t]);
    }
    assert b[..t] == b;
  }

  /** The block dividing loop. */
  method BlockDivideLoop(y: seq<seq<real>>, t: nat, sum: real) returns (x: seq<seq<real>>)
    requires t <= |y| && forall i :: 0 <= i < t ==> t <= |y[i]|
    requires sum != 0.0
    ensures x == WithBlock(y, t, NormalisedMatrix(Block(y, t), sum))
  {
    x := y;
    for i := 0 to t
      invariant |x| == |y|
      invariant forall r :: 0 <= r < i ==> x[r] == Normalised(y[r][..t], sum) + y[r][t..]
      invariant forall r :: i <= r < |y| ==> x[r] == y[r]
    {
      x := x[i := Normalised(x[i][..t], sum) + x[i][t..]];
    }
  }

  /** `LOTA(y, t)`: delegation, or the four loops restricted to the block. */
  method LotaBlock(y: seq<seq<real>>, t: int) returns (x: seq<seq<real>>)
    requires LotaBlockDefined(y, t)
    ensures x == LotaBlockOf(y, t)
  {
    if t == |y| {
      x := LotaMatrix(y);
      return;
    }
    x := y;
    if t <= 0 {
      return;
    }
    var minVal := BlockFloorLoop(y, t);
    minVal := Abs(minVal);
    x := BlockLiftLoop(y, t, minVal);
    ghost var lifted := LiftedMatrix(Block(y, t));
    assert x == WithBlock(y, t, lifted);
    BlockOfWithBlock(y, t, lifted);
    var sum := BlockTotalLoop(x, t);
    x := BlockDivideLoop(x, t, sum);
    WithBlockTwice(y, t, lifted, NormalisedMatrix(lifted, sum));
  }

  // Derivatives

  /** `(S - v) / S^2` is `(1 - v / S) / S`, and is non-negative when
      `0 <= v <= S`. */
  lemma DerivativeEntry(v: real, s: real)
    requires s != 0.0
    ensures Square(s) > 0.0
    ensures (s - v) / Square(s) == (1.0 - v / s) / s
    ensures 0.0 <= v <= s ==> (s - v) / Square(s) >= 0.0
  {
    SquarePositive(s);
    var q := Square(s);
    var a := (s - v) / q;
    var b := (1.0 - v / s) / s;
    QuotientTimesDivisor(s - v, q);
    QuotientTimesDivisor(1.0 - v / s, s);
    QuotientTimesDivisor(v, s);
    assert b * q == (b * s) * s;
    assert (1.0 - v / s) * s == s - v;
    CancelFactor(a, b, q);
    if 0.0 <= v <= s {
      NonnegQuotient(s - v, q);
    }
  }

  lemma CancelFactor(a: real, b: real, q: real)
    requires q != 0.0 && a * q == b * q
    ensures a == b
  {
    assert (a - b) * q == 0.0;
  }

  lemma NonnegQuotient(a: real, q: real)
    requires a >= 0.0 && q > 0.0
    ensures a / q >= 0.0
  {
  }

  /** Each entry `v` of a lifted vector or row mapped to `(S - v) / S^2`,
      `S^2` being `std::pow(sum, 2)`. */
  function DerivativeRow(v: seq<real>, s: real): (d: seq<real>)
    requires s != 0.0
    ensures Square(s) > 0.0
    ensures |d| == |v|
    ensures forall j :: 0 <= j < |v| ==> d[j] == (s - v[j]) / Square(s)
  {
    DerivativeEntry(0.0, s);
    seq(|v|, j requires 0 <= j < |v| => (s - v[j]) / Square(s))
  }

  /** `LOTAder(y)`: `(S - v_i) / S^2` for the lifted vector `v` and its sum `S`. */
  function LotaDer(y: seq<real>): (d: seq<real>)
    requires |y| > 0
    requires Sum(Lifted(y)) != 0.0
    ensures |d| == |y|
  {
    DerivativeRow(Lifted(y), Sum(Lifted(y)))
  }

  /** The derivative is `(1 - LOTA(y)_i) / S`: non-negative, and largest for
      the smallest output. */
  lemma LotaDerFromLota(y: seq<real>)
    requires |y| > 0 && Sum(Lifted(y)) != 0.0
    ensures forall i :: 0 <= i < |y| ==>
      LotaDer(y)[i] == (1.0 - Lota(y)[i]) / Sum(Lifted(y)) && LotaDer(y)[i] >= 0.0
  {
    var v := Lifted(y);
    var s := Sum(v);
    SumNonneg(v);
    forall i | 0 <= i < |y|
      ensures LotaDer(y)[i] == (1.0 - Lota(y)[i]) / s && LotaDer(y)[i] >= 0.0
    {
      assert Lota(y)[i] == v[i] / s;
      ElementAtMostSum(v, i);
      DerivativeEntry(v[i], s);
    }
  }

  /** `LOTAder` on a matrix: `(S - v_ij) / S^2` for the lifted matrix and its
      total. */
  function LotaDerMatrixOf(y: seq<seq<real>>): (d: seq<seq<real>>)
    requires LotaMatrixDefined(y)
    ensures |d| == |y|
    ensures forall i :: 0 <= i < |y| ==> |d[i]| == |y[i]|
  {
    if |y| == 0 then []
    else
      var v := LiftedMatrix(y);
      seq(|y|, i requires 0 <= i < |y| => DerivativeRow(v[i], Sum2(v)))
  }

  lemma DerivativeOfNormalised(v: seq<seq<real>>, s: real, i: nat, j: nat)
    requires i < |v| && j < |v[i]| && 0.0 <= v[i][j] <= s && s > 0.0
    ensures DerivativeRow(v[i], s)[j] == (1.0 - NormalisedMatrix(v, s)[i][j]) / s
    ensures DerivativeRow(v[i], s)[j] >= 0.0
  {
    assert NormalisedMatrix(v, s)[i][j] == v[i][j] / s;
    DerivativeEntry(v[i][j], s);
  }

  lemma LotaDerMatrixEntry(y: seq<seq<real>>, i: nat, j: nat)
    requires LotaMatrixDefined(y) && i < |y| && j < |y[i]|
    ensures LotaDerMatrixOf(y)[i][j] == (1.0 - LotaMatrixOf(y)[i][j]) / Sum2(LiftedMatrix(y))
    ensures LotaDerMatrixOf(y)[i][j] >= 0.0
  {
    var v := LiftedMatrix(y);
    var s := Sum2(v);
    Sum2NonnegAndBound(v, i, j);
    assert LotaMatrixOf(y) == NormalisedMatrix(v, s);
    assert LotaDerMatrixOf(y)[i] == DerivativeRow(v[i], s);
    DerivativeOfNormalised(v, s, i, j);
  }

  /** Entry by entry, the derivative is `(1 - LOTA(y)_ij) / S >= 0`. */
  lemma LotaDerMatrixFromLota(y: seq<seq<real>>)
    requires LotaMatrixDefined(y) && |y| > 0
    ensures forall i, j :: 0 <= i < |y| && 0 <= j < |y[i]| ==>
      LotaDerMatrixOf(y)[i][j] == (1.0 - LotaMatrixOf(y)[i][j]) / Sum2(LiftedMatrix(y)) &&
      LotaDerMatrixOf(y)[i][j] >= 0.0
  {
    forall i, j | 0 <= i < |y| && 0 <= j < |y[i]|
      ensures LotaDerMatrixOf(y)[i][j] == (1.0 - LotaMatrixOf(y)[i][j]) / Sum2(LiftedMatrix(y))
      ensures LotaDerMatrixOf(y)[i][j] >= 0.0
    {
      LotaDerMatrixEntry(y, i, j);
    }
  }

  /** The lifting loop of the matrix overloads: every row shifted by `lift`. */
  method LiftLoop(y: seq<seq<real>>, lift: real) returns (x: seq<seq<real>>)
    ensures x == ShiftedMatrix(y, lift)
  {
    x := y;
    for i := 0 to |x|
      invariant |x| == |y|
      invariant forall r :: 0 <= r < i ==> x[r] == Shifted(y[r], lift)
      invariant forall r :: i <= r < |x| ==> x[r] == y[r]
    {
      x := x[i := Shifted(x[i], lift)];
    }
  }

  /** `LOTAder(std::vector<std::vector<double>>)`: the floor, lifting and
      total loops of the matrix LOTA, then each entry mapped to
      `(S - v) / S^2`. */
  method LotaDerMatrix(y: seq<seq<real>>) returns (x: seq<seq<real>>)
    requires LotaMatrixDefined(y)
    ensures x == LotaDerMatrixOf(y)
  {
    var minVal := FloorLoop(y);
    minVal := Abs(minVal);
    x := LiftLoop(y, minVal);
    var sum := TotalLoop(x);
    ghost var v := x;
    for i := 0 to |x|
      invariant |x| == |y|
      invariant forall r :: 0 <= r < i ==> x[r] == DerivativeRow(v[r], sum)
      invariant forall r :: i <= r < |x| ==> x[r] == v[r]
    {
      x := x[i := DerivativeRow(x[i], sum)];
    }
  }
}
