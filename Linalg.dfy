/** The linear-algebra helpers the network library ships: the inner-product
    matrices `iproduct` (maths/src/linalg/src/vec2.cpp) and the `mat` class
    with its constructors and assignment operators
    (maths/src/linalg/include/mat.hpp, maths/src/linalg/src/mat.cpp). */
module Linalg {
  import opened Numerics
  import opened Outcomes

  const EmptyEmbeddings := "embeddings must not be empty"
  const UnequalRows := "Rows must be of equal sizes"

  /** The matrix of inner products of every row of `a` with every row of
      `b`: |a| rows of |b| entries. */
  function Gram(a: seq<seq<real>>, b: seq<seq<real>>): (c: seq<seq<real>>)
    requires forall i, j :: 0 <= i < |a| && 0 <= j < |b| ==> |a[i]| <= |b[j]|
    ensures IsMatrix(c, |a|, |b|)
  {
    seq(|a|, i requires 0 <= i < |a| => seq(|b|, j requires 0 <= j < |b| => Dot(a[i], b[j])))
  }

  /** A dot product only reads as many entries of its second argument as
      the first has. */
  lemma {:induction false} DotReadsPrefix(u: seq<real>, v: seq<real>, w: seq<real>)
    requires |u| <= |v| && |u| <= |w| && v[..|u|] == w[..|u|]
    ensures Dot(u, v) == Dot(u, w)
  {
    if |u| > 0 {
      var n := |u| - 1;
      assert v[n] == v[..|u|][n] == w[..|u|][n] == w[n];
      assert v[..n] == w[..n] by {
        assert v[..n] == v[..|u|][..n] && w[..n] == w[..|u|][..n];
      }
      DotReadsPrefix(u[..n], v, w);
    }
  }

  /** The dot product of two vectors of equal length is symmetric. */
  lemma {:induction false} DotSymmetric(u: seq<real>, v: seq<real>)
    requires |u| == |v|
    ensures Dot(u, v) == Dot(v, u)
  {
    if |u| > 0 {
      var n := |u| - 1;
      DotSymmetric(u[..n], v[..n]);
      DotReadsPrefix(u[..n], v, v[..n]);
      DotReadsPrefix(v[..n], u, u[..n]);
    }
  }

  /** The dot product of a vector with itself is a sum of squares. */
  lemma {:induction false} DotSelfNonneg(u: seq<real>)
    ensures Dot(u, u) >= 0.0
  {
    if |u| > 0 {
      var n := |u| - 1;
      DotSelfNonneg(u[..n]);
      DotReadsPrefix(u[..n], u, u[..n]);
      assert u[n] * u[n] >= 0.0 by {
        if u[n] != 0.0 {
          SquarePositive(u[n]);
        }
      }
    }
  }

  /** The matrix `iproduct(a)` returns is symmetric with a non-negative
      diagonal. */
  lemma GramSymmetric(a: seq<seq<real>>)
    requires forall i, j :: 0 <= i < |a| && 0 <= j < |a| ==> |a[i]| <= |a[j]|
    ensures forall i, j :: 0 <= i < |a| && 0 <= j < |a| ==> Gram(a, a)[i][j] == Gram(a, a)[j][i]
    ensures forall i :: 0 <= i < |a| ==> Gram(a, a)[i][i] >= 0.0
  {
    forall i, j | 0 <= i < |a| && 0 <= j < |a|
      ensures Gram(a, a)[i][j] == Gram(a, a)[j][i]
    {
      DotSymmetric(a[i], a[j]);
    }
    forall i | 0 <= i < |a|
      ensures Gram(a, a)[i][i] >= 0.0
    {
      DotSelfNonneg(a[i]);
    }
  }

  /** `std::inner_product` over the whole of `u` and the start of `v`. */
  method InnerProduct(u: seq<real>, v: seq<real>) returns (sum: real)
    requires |u| <= |v|
    ensures sum == Dot(u, v)
  {
    sum := 0.0;
    for k := 0 to |u|
      invariant sum == Dot(u[..k], v)
    {
      DotStep(u, v, k);
      sum := sum + u[k] * v[k];
    }
    assert u[..|u|] == u;
  }

  /** One row of an inner-product matrix: the first |b| entries of a row of
      `cols` zeros replaced by the inner products of `u` with the rows of
      `b`. */
  method InnerProductRow(u: seq<real>, b: seq<seq<real>>, cols: nat) returns (row: seq<real>)
    requires |b| <= cols && forall j :: 0 <= j < |b| ==> |u| <= |b[j]|
    ensures |row| == cols
    ensures forall j :: 0 <= j < |b| ==> row[j] == Dot(u, b[j])
    ensures forall j :: |b| <= j < cols ==> row[j] == 0.0
  {
    row := seq(cols, _ => 0.0);
    for j := 0 to |b|
      invariant |row| == cols
      invariant forall k :: 0 <= k < j ==> row[k] == Dot(u, b[k])
      invariant forall k :: j <= k < cols ==> row[k] == 0.0
    {
      var d := InnerProduct(u, b[j]);
      row := row[j := d];
    }
  }

  /** `iproduct(a)`: `runtime_error` on no rows, otherwise the |a|×|a|
      matrix of inner products of every pair of rows. Rows of different
      lengths would read past the shorter one, so the model asks for rows
      of one length. */
  method Iproduct(a: seq<seq<real>>) returns (r: Result<seq<seq<real>>>)
    requires forall i, j :: 0 <= i < |a| && 0 <= j < |a| ==> |a[i]| <= |a[j]|
    ensures r.Fail? <==> |a| == 0
    ensures r.Fail? ==> r.error == RuntimeError(EmptyEmbeddings)
    ensures r.Ok? ==> r.value == Gram(a, a)
  {
    if |a| == 0 {
      return Fail(RuntimeError(EmptyEmbeddings));
    }
    var c := Filled(|a|, |a|, 0.0);
    for i := 0 to |a|
      invariant |c| == |a|
      invariant forall k :: 0 <= k < i ==> c[k] == Gram(a, a)[k]
    {
      var row := InnerProductRow(a[i], a, |a|);
      c := c[i := row];
    }
    return Ok(c);
  }

  /** What the loops of `iproduct(a, b)` leave, past its size check: a
      matrix of |b[0]| columns whose first |b| entries per row are written,
      or a write past the end of a row. */
  datatype Layout = Laid(m: seq<seq<real>>) | WritesPastRow

  /** `iproduct(a, b)` as written: the result has `b[0].size()` columns but
      the loop writes column j for every row j of `b`. */
  function IproductAsWritten(a: seq<seq<real>>, b: seq<seq<real>>): (r: Layout)
    requires |b| > 0
    requires forall i, j :: 0 <= i < |a| && 0 <= j < |b| ==> |a[i]| <= |b[j]|
    ensures r == WritesPastRow <==> |b| > |b[0]|
    ensures r.Laid? ==> IsMatrix(r.m, |a|, |b[0]|)
    ensures r.Laid? ==> forall i, j :: 0 <= i < |a| && |b| <= j < |b[0]| ==> r.m[i][j] == 0.0
  {
    if |b| > |b[0]| then WritesPastRow
    else Laid(seq(|a|, i requires 0 <= i < |a| =>
                seq(|b[0]|, j requires 0 <= j < |b[0]| => if j < |b| then Dot(a[i], b[j]) else 0.0)))
  }

  /** One row in each argument and two rows in `b`: the loop writes column
      1 of a one-column result. */
  lemma IproductOverrunsWithTwoRows()
    ensures IproductAsWritten([[1.0]], [[1.0], [2.0]]) == WritesPastRow
  {
  }

  /** Fewer rows than columns in `b`: the result carries a zero column that
      pairs no two rows. */
  lemma IproductPadsWithZeroColumns()
    ensures IproductAsWritten([[1.0, 0.0]], [[1.0, 0.0]]).m == [[1.0, 0.0]]
    ensures Gram([[1.0, 0.0]], [[1.0, 0.0]]) == [[1.0]]
  {
    var u := [1.0, 0.0];
    assert u[..1] == [1.0] && [1.0][..0] == [];
    assert Dot([1.0], u) == Dot([], u) + 1.0 * 1.0 == 1.0;
    assert Dot(u, u) == Dot([1.0], u) + 0.0 * 0.0 == 1.0;
    var laid := IproductAsWritten([u], [u]).m;
    assert laid[0][0] == 1.0 && laid[0][1] == 0.0;
    assert laid[0] == [1.0, 0.0];
    assert Gram([u], [u])[0] == [1.0];
  }

  /** `iproduct(a, b)` with the result sized as its loops use it:
      `runtime_error` when either argument has no rows or the first rows
      differ in length, otherwise the |a|×|b| matrix of inner products of
      every row of `a` with every row of `b`. */
  method IproductPair(a: seq<seq<real>>, b: seq<seq<real>>) returns (r: Result<seq<seq<real>>>)
    requires |a| > 0 && |b| > 0 && |a[0]| == |b[0]| ==>
               forall i, j :: 0 <= i < |a| && 0 <= j < |b| ==> |a[i]| <= |b[j]|
    ensures r.Fail? <==> |a| == 0 || |b| == 0 || |a[0]| != |b[0]|
    ensures r.Fail? ==> r.error == RuntimeError(UnequalRows)
    ensures r.Ok? ==> r.value == Gram(a, b)
  {
    if |a| == 0 || |b| == 0 || |a[0]| != |b[0]| {
      return Fail(RuntimeError(UnequalRows));
    }
    var c := Filled(|a|, |b|, 0.0);
    for i := 0 to |a|
      invariant |c| == |a|
      invariant forall k :: 0 <= k < i ==> c[k] == Gram(a, b)[k]
    {
      var row := InnerProductRow(a[i], b, |b|);
      c := c[i := row];
    }
    return Ok(c);
  }

  /** Class `mat`: a row count, a column count and the coefficients. */
  class Mat {
    var row: int
    var col: int
    var a: seq<seq<real>>

    /** The counts describe the coefficients: `row` rows of `col` entries. */
    ghost predicate Describes()
      reads this
    {
      row == |a| && forall i :: 0 <= i < |a| ==> |a[i]| == col
    }

    /** `mat()`: both counts zero and the coefficients {{0}}, which the
        counts do not describe. */
    constructor ()
      ensures row == 0 && col == 0 && a == [[0.0]]
      ensures !Describes()
    {
      row, col, a := 0, 0, [[0.0]];
    }

    /** `mat(x, y)`: x rows of y zeros. */
    constructor Sized(x: int, y: int)
      requires x >= 0 && y >= 0
      ensures row == x && col == y && a == Filled(x, y, 0.0)
      ensures Describes()
    {
      row, col, a := x, y, Filled(x, y, 0.0);
    }

    /** `mat(x)`: the x×x zero matrix. */
    constructor Square(x: int)
      requires x >= 0
      ensures row == x && col == x && a == Filled(x, x, 0.0)
      ensures Describes()
    {
      row, col, a := x, x, Filled(x, x, 0.0);
    }

    /** `mat(b)`: the counts taken from `b` and its first row. */
    constructor FromRows(b: seq<seq<real>>)
      requires |b| > 0
      ensures row == |b| && col == |b[0]| && a == b
      ensures Describes() <==> forall i :: 0 <= i < |b| ==> |b[i]| == |b[0]|
    {
      row, col, a := |b|, |b[0]|, b;
    }

    /** The copy constructors `mat(mat&)` and `mat(const mat&)`. */
    constructor Copy(b: Mat)
      ensures row == b.row && col == b.col && a == b.a
      ensures Describes() <==> b.Describes()
    {
      row, col, a := b.row, b.col, b.a;
    }

    /** `mat(mat&&)`: the counts and coefficients taken over, the source's
        counts reset to zero. The moved-from coefficients are left in a
        valid but unspecified state, here empty. */
    constructor Move(b: Mat)
      modifies b
      ensures row == old(b.row) && col == old(b.col) && a == old(b.a)
      ensures b.row == 0 && b.col == 0
      ensures Describes() <==> old(b.Describes())
    {
      row, col, a := b.row, b.col, b.a;
      new;
      b.row, b.col, b.a := 0, 0, [];
    }

    /** `operator=(mat)` as written: `row` is set twice, the second time to
        the source's column count; `col` keeps its value; the coefficients
        are copied; a default `mat` is returned. Assigning any non-square
        matrix leaves counts that do not describe the coefficients. */
    method AssignAsWritten(m: Mat) returns (r: Mat)
      modifies this
      ensures row == old(m.col) && col == old(col) && a == old(m.a)
      ensures fresh(r) && r.row == 0 && r.col == 0 && r.a == [[0.0]]
      ensures old(m.Describes()) && old(m.row) != old(m.col) ==> !Describes()
    {
      var source := new Mat.Copy(m);
      row := source.row;
      row := source.col;
      a := source.a;
      r := new Mat();
    }

    /** `operator=(mat)` as its documentation describes it: both counts and
        the coefficients copied, and the assigned value returned. */
    method Assign(m: Mat) returns (r: Mat)
      modifies this
      ensures row == old(m.row) && col == old(m.col) && a == old(m.a)
      ensures Describes() <==> old(m.Describes())
      ensures fresh(r) && r.row == row && r.col == col && r.a == a
    {
      var source := new Mat.Copy(m);
      row, col, a := source.row, source.col, source.a;
      r := new Mat.Copy(this);
    }

    /** `operator=(vector<vector<double>>)`: the counts from `b` and its
        first row, the coefficients `b`, and a default `mat` returned. */
    method AssignRows(b: seq<seq<real>>) returns (r: Mat)
      modifies this
      requires |b| > 0
      ensures row == |b| && col == |b[0]| && a == b
      ensures Describes() <==> forall i :: 0 <= i < |b| ==> |b[i]| == |b[0]|
      ensures fresh(r) && r.row == 0 && r.col == 0 && r.a == [[0.0]]
    {
      row, col, a := |b|, |b[0]|, b;
      r := new Mat();
    }
  }

  /** A 2×3 matrix assigned through `operator=` as written: the target ends
      with three rows counted and two held. */
  method AssignmentMiscountsRows() returns (target: Mat, source: Mat)
    ensures source.row == 2 && source.col == 3 && |source.a| == 2
    ensures target.row == 3 && |target.a| == 2 && !target.Describes()
  {
    source := new Mat.Sized(2, 3);
    target := new Mat();
    var ignored := target.AssignAsWritten(source);
  }

  /** The same assignment through the corrected operator: the counts and
      the coefficients agree again. */
  method AssignmentKeepsShape() returns (target: Mat, source: Mat)
    ensures source.row == 2 && source.col == 3
    ensures target.row == 2 && target.col == 3 && target.Describes()
  {
    source := new Mat.Sized(2, 3);
    target := new Mat();
    var copy := target.Assign(source);
  }
}
