/** The array versions of the error measures and the softmax of the C
    library (mlp/C/activations.c). The scalar activations are shared with the
    C++ code and live in Activations. */
module CActivations {
  import opened Numerics
  import opened Errors
  import opened Softmax

  /** `MSE(actual, expected, size)`: the mean squared error of the first
      `size` entries. The source divides by `size` whatever it is; the model
      asks for at least one entry. */
  method MSE(actual: array<real>, expected: array<real>, size: nat) returns (r: real)
    requires 0 < size <= actual.Length && size <= expected.Length
    ensures r == MeanSquaredError(actual[..size], expected[..size])
    ensures r >= 0.0
  {
    var sum := SquaredDifferences(actual, expected, size);
    MseNonneg(actual[..size], expected[..size]);
    r := sum / (size as real);
  }

  /** The accumulation loop of `MSE`. */
  method SquaredDifferences(actual: array<real>, expected: array<real>, size: nat) returns (sum: real)
    requires size <= actual.Length && size <= expected.Length
    ensures sum == SumMap(Diff(actual[..size], expected[..size]), Square)
  {
    ghost var p := actual[..size];
    ghost var t := expected[..size];
    sum := 0.0;
    for i := 0 to size
      invariant sum == SumMap(Diff(p[..i], t), Square)
    {
      var diff := actual[i] - expected[i];
      assert diff == p[i] - t[i];
      SquaredDifferenceStep(p, t, i);
      sum := sum + diff * diff;
    }
    assert p[..size] == p;
  }

  /** One more entry adds its squared difference. */
  lemma SquaredDifferenceStep(p: seq<real>, t: seq<real>, i: nat)
    requires i < |p| <= |t|
    ensures SumMap(Diff(p[..i + 1], t), Square) ==
      SumMap(Diff(p[..i], t), Square) + (p[i] - t[i]) * (p[i] - t[i])
  {
    assert Diff(p[..i + 1], t) == Diff(p[..i], t) + [p[i] - t[i]];
    SumMapStep(Diff(p[..i + 1], t), Square, i);
    assert Diff(p[..i + 1], t)[..i] == Diff(p[..i], t);
  }

  /** `rMSE`: the square root of `MSE`. */
  method RMSE(actual: array<real>, expected: array<real>, size: nat) returns (r: real)
    requires 0 < size <= actual.Length && size <= expected.Length
    ensures r == RootMeanSquaredError(actual[..size], expected[..size])
    ensures r >= 0.0
  {
    var m := MSE(actual, expected, size);
    r := Sqrt(m);
  }

  /** The first loop of `softmax`: each exponential stored and added to the
      sum. */
  method StoreExps(input: array<real>, size: nat, temperature: real, output: array<real>)
    returns (sum: real)
    requires size <= input.Length && output.Length == size && output != input
    requires temperature != 0.0
    modifies output
    ensures output[..] == Exps(input[..size], temperature)
    ensures sum == Sum(output[..])
  {
    ghost var x := input[..size];
    sum := 0.0;
    for i := 0 to size
      invariant forall k :: 0 <= k < i ==> output[k] == Exp(x[k] / temperature)
      invariant sum == Sum(output[..i])
    {
      output[i] := Exp(input[i] / temperature);
      sum := sum + output[i];
      SumStep(output[..], i);
      assert output[..i + 1] == output[..][..i + 1];
    }
    assert output[..] == Exps(x, temperature);
    assert output[..size] == output[..];
  }

  /** The second loop of `softmax`: every entry divided by the sum. */
  method DivideBy(output: array<real>, sum: real)
    requires sum != 0.0
    modifies output
    ensures output[..] == Normalised(old(output[..]), sum)
  {
    ghost var e := output[..];
    for i := 0 to output.Length
      invariant forall k :: 0 <= k < i ==> output[k] == e[k] / sum
      invariant forall k :: i <= k < output.Length ==> output[k] == e[k]
    {
      output[i] := output[i] / sum;
    }
  }

  /** `softmax(input, size, temperature)`: a new array holding the softmax of
      the first `size` inputs. */
  method SoftmaxArray(input: array<real>, size: nat, temperature: real) returns (output: array<real>)
    requires size <= input.Length
    requires temperature != 0.0
    ensures fresh(output)
    ensures output[..] == Softmax.Softmax(input[..size], temperature)
  {
    output := new real[size];
    var sum := StoreExps(input, size, temperature, output);
    if size == 0 {
      return;
    }
    PositiveSum(output[..]);
    DivideBy(output, sum);
  }

  /** The loop of `softmaxder`: a new array of `s * (1 - s)` per value. */
  method ComplementLoop(vals: array<real>) returns (output: array<real>)
    ensures fresh(output)
    ensures output[..] == ComplementProducts(vals[..])
  {
    ghost var v := vals[..];
    output := new real[vals.Length];
    for i := 0 to vals.Length
      invariant forall k :: 0 <= k < i ==> output[k] == v[k] * (1.0 - v[k])
    {
      output[i] := vals[i] * (1.0 - vals[i]);
    }
    assert forall k :: 0 <= k < |v| ==> output[..][k] == ComplementProducts(v)[k];
    assert output[..] == ComplementProducts(v);
  }

  /** `softmaxder`: `s * (1 - s)` for the softmax values `s`; unlike the C++
      versions it subtracts nothing, so it is the documented derivative. */
  method SoftmaxDerArray(input: array<real>, size: nat, temperature: real) returns (output: array<real>)
    requires size <= input.Length
    requires temperature != 0.0
    ensures fresh(output)
    ensures output[..] == SoftmaxDiagonalDer(input[..size], temperature)
  {
    var softmaxVals := SoftmaxArray(input, size, temperature);
    output := ComplementLoop(softmaxVals);
  }

  /** What the two-dimensional functions read: `rows` row pointers, each to
      at least `cols` values. */
  predicate RowsHold(input: array<array<real>>, rows: nat, cols: nat)
    reads input, set i | 0 <= i < rows && i < input.Length :: input[i]
  {
    rows <= input.Length && forall i :: 0 <= i < rows ==> cols <= input[i].Length
  }

  /** The first `cols` values of each of the first `rows` rows. */
  ghost function RowValues(input: array<array<real>>, rows: nat, cols: nat): (v: seq<seq<real>>)
    requires RowsHold(input, rows, cols)
    reads input, set i | 0 <= i < rows && i < input.Length :: input[i]
    ensures |v| == rows
    ensures forall k :: 0 <= k < rows ==> v[k] == input[k][..cols]
  {
    if rows == 0 then [] else RowValues(input, rows - 1, cols) + [input[rows - 1][..cols]]
  }

  /** Every row of `expected` is the softmax of the matching row of `vals`.
      The trigger keeps the solver from unfolding the softmax of a row
      unless a proof names it. */
  ghost predicate SoftmaxRows(expected: seq<seq<real>>, vals: seq<seq<real>>, temp: real)
    requires temp != 0.0
  {
    |expected| == |vals| &&
    forall k {:trigger Softmax.Softmax(vals[k], temp)} :: 0 <= k < |vals| ==> expected[k] == Softmax.Softmax(vals[k], temp)
  }

  /** Row `i` of `softmax2D`, through `SoftmaxArray`. */
  method SoftmaxRowAt(input: array<real>, cols: nat, temperature: real,
                      ghost vals: seq<seq<real>>, ghost expected: seq<seq<real>>, ghost i: nat)
    returns (row: array<real>)
    requires cols <= input.Length && temperature != 0.0
    requires i < |vals| && vals[i] == input[..cols]
    requires SoftmaxRows(expected, vals, temperature)
    ensures fresh(row) && row[..] == expected[i]
  {
    row := SoftmaxArray(input, cols, temperature);
    assert expected[i] == Softmax.Softmax(vals[i], temperature);
  }

  /** The loop of `softmax2D`, against the rows `expected` it must produce;
      `made` records the rows stored so far. */
  method FillSoftmaxRows(input: array<array<real>>, rows: nat, cols: nat, temperature: real,
                         ghost vals: seq<seq<real>>, ghost expected: seq<seq<real>>)
    returns (output: array<array<real>>)
    requires RowsHold(input, rows, cols) && temperature != 0.0
    requires |vals| == rows && forall k :: 0 <= k < rows ==> vals[k] == input[k][..cols]
    requires SoftmaxRows(expected, vals, temperature)
    ensures fresh(output) && output.Length == rows
    ensures forall k :: 0 <= k < rows ==> fresh(output[k]) && output[k][..] == expected[k]
  {
    var empty := new real[0];
    output := new array<real>[rows](_ => empty);
    for i := 0 to rows
      invariant fresh(output)
      invariant forall k :: 0 <= k < i ==> fresh(output[k]) && output[k][..] == expected[k]
    {
      var row := SoftmaxRowAt(input[i], cols, temperature, vals, expected, i);
      output[i] := row;
    }
  }

  /** `softmax2D`: a new array of `rows` new rows, each the softmax of the
      matching input row on its own. */
  method Softmax2D(input: array<array<real>>, rows: nat, cols: nat, temperature: real)
    returns (output: array<array<real>>)
    requires RowsHold(input, rows, cols)
    requires temperature != 0.0
    ensures fresh(output) && output.Length == rows
    ensures forall i :: 0 <= i < rows ==>
      fresh(output[i]) && output[i][..] == Softmax.Softmax(input[i][..cols], temperature)
  {
    ghost var vals := RowValues(input, rows, cols);
    ghost var expected := seq(rows, k requires 0 <= k < rows => Softmax.Softmax(vals[k], temperature));
    output := FillSoftmaxRows(input, rows, cols, temperature, vals, expected);
  }

  /** Every row of `expected` is the C `softmaxder` of the matching row of
      `vals`. */
  ghost predicate SoftmaxDerRows(expected: seq<seq<real>>, vals: seq<seq<real>>, temp: real)
    requires temp != 0.0
  {
    |expected| == |vals| &&
    forall k {:trigger SoftmaxDiagonalDer(vals[k], temp)} :: 0 <= k < |vals| ==> expected[k] == SoftmaxDiagonalDer(vals[k], temp)
  }

  /** Row `i` of `softmaxder2D`, through `SoftmaxDerArray`. */
  method SoftmaxDerRowAt(input: array<real>, cols: nat, temperature: real,
                         ghost vals: seq<seq<real>>, ghost expected: seq<seq<real>>, ghost i: nat)
    returns (row: array<real>)
    requires cols <= input.Length && temperature != 0.0
    requires i < |vals| && vals[i] == input[..cols]
    requires SoftmaxDerRows(expected, vals, temperature)
    ensures fresh(row) && row[..] == expected[i]
  {
    row := SoftmaxDerArray(input, cols, temperature);
    assert expected[i] == SoftmaxDiagonalDer(vals[i], temperature);
  }

  /** The loop of `softmaxder2D`, against the rows `expected` it must
      produce. */
  method FillSoftmaxDerRows(input: array<array<real>>, rows: nat, cols: nat, temperature: real,
                            ghost vals: seq<seq<real>>, ghost expected: seq<seq<real>>)
    returns (output: array<array<real>>)
    requires RowsHold(input, rows, cols) && temperature != 0.0
    requires |vals| == rows && forall k :: 0 <= k < rows ==> vals[k] == input[k][..cols]
    requires SoftmaxDerRows(expected, vals, temperature)
    ensures fresh(output) && output.Length == rows
    ensures forall k :: 0 <= k < rows ==> fresh(output[k]) && output[k][..] == expected[k]
  {
    var empty := new real[0];
    output := new array<real>[rows](_ => empty);
    for i := 0 to rows
      invariant fresh(output)
      invariant forall k :: 0 <= k < i ==> fresh(output[k]) && output[k][..] == expected[k]
    {
      var row := SoftmaxDerRowAt(input[i], cols, temperature, vals, expected, i);
      output[i] := row;
    }
  }

  /** `softmaxder2D`: each row replaced by its own `softmaxder`. */
  method SoftmaxDer2D(input: array<array<real>>, rows: nat, cols: nat, temperature: real)
    returns (output: array<array<real>>)
    requires RowsHold(input, rows, cols)
    requires temperature != 0.0
    ensures fresh(output) && output.Length == rows
    ensures forall i :: 0 <= i < rows ==>
      fresh(output[i]) && output[i][..] == SoftmaxDiagonalDer(input[i][..cols], temperature)
  {
    ghost var vals := RowValues(input, rows, cols);
    ghost var expected := seq(rows, k requires 0 <= k < rows => SoftmaxDiagonalDer(vals[k], temperature));
    output := FillSoftmaxDerRows(input, rows, cols, temperature, vals, expected);
  }
}
