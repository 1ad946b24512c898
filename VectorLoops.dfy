/** The inner loops of the network over vectors, as methods on sequence
    values, each proved to compute the function of Propagation (or Numerics)
    that specifies it. The class methods of MlpNet and CMlp run these loops
    in the order the source runs them. Each inner product is the
    accumulator loop `Linalg.InnerProduct`: `std::inner_product` in C++, the
    explicit `sum` loop in C. */
module VectorLoops {
  import opened Numerics
  import opened Activations
  import opened Propagation
  import Linalg

  /** `for (i < |w|) o[i] = inner_product(x, w[i])`: the output loop of
      `forward`, whose C version accumulates each `sum` in a loop. */
  method WeightedInto(x: seq<real>, w: seq<seq<real>>, o: seq<real>) returns (r: seq<real>)
    requires |o| == |w| && forall j :: 0 <= j < |w| ==> |x| <= |w[j]|
    ensures r == Weighted(x, w)
  {
    r := o;
    for i := 0 to |w|
      invariant |r| == |w|
      invariant forall k :: 0 <= k < i ==> r[k] == Dot(x, w[k])
    {
      var sum := Linalg.InnerProduct(x, w[i]);
      r := r[i := sum];
    }
  }

  /** `for (i < |w|) { h[i] = inner_product(x, w[i]); a[i] = sigmoid(h[i]); }`:
      one hidden-layer loop of `forward`. */
  method WeightedSigmoidInto(x: seq<real>, w: seq<seq<real>>, h: seq<real>, a: seq<real>)
    returns (h': seq<real>, a': seq<real>)
    requires |h| == |w| == |a| && forall j :: 0 <= j < |w| ==> |x| <= |w[j]|
    ensures h' == Weighted(x, w) && a' == SigmoidV(h')
  {
    h', a' := h, a;
    for i := 0 to |w|
      invariant |h'| == |a'| == |w|
      invariant forall k :: 0 <= k < i ==> h'[k] == Dot(x, w[k]) && a'[k] == Sigmoid(h'[k])
    {
      var sum := Linalg.InnerProduct(x, w[i]);
      h' := h'[i := sum];
      a' := a'[i := Sigmoid(sum)];
    }
  }

  /** `d[i] = p[i] - t[i]` for every i < |p|, into a fresh vector. */
  method Differences(p: seq<real>, t: seq<real>) returns (d: seq<real>)
    requires |p| <= |t|
    ensures d == Diff(p, t)
  {
    d := Zeros(|p|);
    for i := 0 to |p|
      invariant |d| == |p|
      invariant forall k :: 0 <= k < i ==> d[k] == p[k] - t[k]
    {
      d := d[i := p[i] - t[i]];
    }
  }

  /** `row[j] = s * v[j]` for every j. */
  method ScaledRow(s: real, v: seq<real>) returns (row: seq<real>)
    ensures |row| == |v| && forall j :: 0 <= j < |v| ==> row[j] == s * v[j]
  {
    row := Zeros(|v|);
    for j := 0 to |v|
      invariant |row| == |v|
      invariant forall k :: 0 <= k < j ==> row[k] == s * v[k]
    {
      row := row[j := s * v[j]];
    }
  }

  /** The nested loops `m[i][j] = u[i] * v[j]` (`ow` and `dweights[i]` of `backward`,
      the gradient tensors of `backprop`). */
  method OuterProduct(u: seq<real>, v: seq<real>) returns (m: seq<seq<real>>)
    ensures m == Outer(u, v)
  {
    m := ZeroMatrix(|u|, |v|);
    for i := 0 to |u|
      invariant |m| == |u|
      invariant forall k :: 0 <= k < i ==> m[k] == Outer(u, v)[k]
    {
      var row := ScaledRow(u[i], v);
      assert forall j :: 0 <= j < |v| ==> row[j] == Outer(u, v)[i][j];
      assert row == Outer(u, v)[i];
      m := m[i := row];
    }
  }

  /** `sum += e[j] * w[j][c]` for j < |e|. */
  method ColumnSum(e: seq<real>, w: seq<seq<real>>, c: nat) returns (sum: real)
    requires |e| <= |w| && forall j :: 0 <= j < |e| ==> c < |w[j]|
    ensures sum == ColDot(e, w, c)
  {
    sum := 0.0;
    for j := 0 to |e|
      invariant sum == ColDot(e[..j], w, c)
    {
      ColDotStep(e, w, c, j);
      sum := sum + e[j] * w[j][c];
    }
    assert e[..|e|] == e;
  }

  /** `sum += w[j][c] * g[j][c]` for j < |w|. */
  method ColumnProducts(w: seq<seq<real>>, g: seq<seq<real>>, c: nat) returns (sum: real)
    requires |w| <= |g| && forall j :: 0 <= j < |w| ==> c < |w[j]| && c < |g[j]|
    ensures sum == ColProducts(w, g, c)
  {
    sum := 0.0;
    for j := 0 to |w|
      invariant sum == ColProducts(w[..j], g, c)
    {
      assert w[..j + 1][..j] == w[..j];
      sum := sum + w[j][c] * g[j][c];
    }
    assert w[..|w|] == w;
  }

  /** The error step of `backward`: `d[j] = (sum over k of e[k] * w[k][j]) * sigmoidder(h[j])`. */
  method PropagateInto(e: seq<real>, w: seq<seq<real>>, h: seq<real>) returns (d: seq<real>)
    requires |e| <= |w| && forall k :: 0 <= k < |e| ==> |h| <= |w[k]|
    ensures d == Propagate(e, w, h)
  {
    ghost var target := Propagate(e, w, h);
    d := Zeros(|h|);
    for j := 0 to |h|
      invariant |d| == |h|
      invariant forall k :: 0 <= k < j ==> d[k] == target[k]
    {
      var sum := ColumnSum(e, w, j);
      PropagateAt(e, w, h, j, sum);
      d := d[j := sum * SigmoidDer(h[j])];
    }
  }

  /** `hidden_error` of `backprop`. */
  method GatedInto(e: seq<real>, w: seq<seq<real>>, a: seq<real>) returns (d: seq<real>)
    requires |e| <= |w| && forall j :: 0 <= j < |e| ==> |a| <= |w[j]|
    ensures d == Gated(e, w, a)
  {
    d := Zeros(|a|);
    for i := 0 to |a|
      invariant |d| == |a|
      invariant forall k :: 0 <= k < i ==> d[k] == Gated(e, w, a)[k]
    {
      var sum := ColumnSum(e, w, i);
      d := d[i := sum * a[i] * (1.0 - a[i])];
    }
  }

  /** `layer_error` of `backprop` at one layer. */
  method LayerErrorInto(w: seq<seq<real>>, g: seq<seq<real>>, a: seq<real>) returns (d: seq<real>)
    requires |w| <= |g| && forall j :: 0 <= j < |w| ==> |a| <= |w[j]| && |a| <= |g[j]|
    ensures d == LayerGradientError(w, g, a)
  {
    d := Zeros(|a|);
    for i := 0 to |a|
      invariant |d| == |a|
      invariant forall k :: 0 <= k < i ==> d[k] == LayerGradientError(w, g, a)[k]
    {
      var sum := ColumnProducts(w, g, i);
      d := d[i := sum * a[i] * (1.0 - a[i])];
    }
  }

  /** `w[i][j] += rate * d[i][j]` over a matrix. */
  method NudgeMatrix(w: seq<seq<real>>, rate: real, d: seq<seq<real>>) returns (r: seq<seq<real>>)
    requires |w| == |d| && forall i :: 0 <= i < |w| ==> |w[i]| == |d[i]|
    ensures r == Nudged(w, rate, d)
  {
    r := w;
    for i := 0 to |w|
      invariant |r| == |w|
      invariant forall k :: 0 <= k < i ==> r[k] == Nudged(w, rate, d)[k]
      invariant forall k :: i <= k < |w| ==> r[k] == w[k]
    {
      var row := r[i];
      for j := 0 to |row|
        invariant |row| == |w[i]|
        invariant forall m :: 0 <= m < j ==> row[m] == w[i][m] + rate * d[i][m]
        invariant forall m :: j <= m < |row| ==> row[m] == w[i][m]
      {
        row := row[j := row[j] + rate * d[i][j]];
      }
      assert forall m :: 0 <= m < |row| ==> row[m] == Nudged(w, rate, d)[i][m];
      assert row == Nudged(w, rate, d)[i];
      r := r[i := row];
    }
  }

  /** `iweights[i][j] += rate * delta[i]` for every column j. */
  method ShiftRows(w: seq<seq<real>>, rate: real, delta: seq<real>) returns (r: seq<seq<real>>)
    requires |w| <= |delta|
    ensures r == DeltaInputWeights(w, rate, delta)
  {
    r := w;
    for i := 0 to |w|
      invariant |r| == |w|
      invariant forall k :: 0 <= k < i ==> r[k] == DeltaInputWeights(w, rate, delta)[k]
      invariant forall k :: i <= k < |w| ==> r[k] == w[k]
    {
      var row := r[i];
      for j := 0 to |row|
        invariant |row| == |w[i]|
        invariant forall m :: 0 <= m < j ==> row[m] == w[i][m] + rate * delta[i]
        invariant forall m :: j <= m < |row| ==> row[m] == w[i][m]
      {
        row := row[j := row[j] + rate * delta[i]];
      }
      assert forall m :: 0 <= m < |row| ==> row[m] == DeltaInputWeights(w, rate, delta)[i][m];
      assert row == DeltaInputWeights(w, rate, delta)[i];
      r := r[i := row];
    }
  }

  /** The `backwithL1` loop over one matrix. */
  method L1MatrixLoop(w: seq<seq<real>>, g: seq<seq<real>>, rate: real) returns (r: seq<seq<real>>)
    requires |w| <= |g| && forall i :: 0 <= i < |w| ==> |w[i]| <= |g[i]|
    ensures r == L1Matrix(w, g, rate)
  {
    r := w;
    for i := 0 to |w|
      invariant |r| == |w|
      invariant forall k :: 0 <= k < i ==> r[k] == L1Matrix(w, g, rate)[k]
      invariant forall k :: i <= k < |w| ==> r[k] == w[k]
    {
      var row := r[i];
      for j := 0 to |row|
        invariant |row| == |w[i]|
        invariant forall m :: 0 <= m < j ==> row[m] == L1Step(w[i][m], g[i][m], rate)
        invariant forall m :: j <= m < |row| ==> row[m] == w[i][m]
      {
        var gradient := g[i][j];
        if row[j] > 0.0 {
          row := row[j := row[j] - rate * (Lambda + gradient)];
        } else {
          row := row[j := row[j] - rate * (-Lambda + gradient)];
        }
      }
      r := r[i := row];
    }
  }

  /** The `backwithL2` loop over one matrix. */
  method L2MatrixLoop(w: seq<seq<real>>, g: seq<seq<real>>, rate: real) returns (r: seq<seq<real>>)
    requires |w| <= |g| && forall i :: 0 <= i < |w| ==> |w[i]| <= |g[i]|
    ensures r == L2Matrix(w, g, rate)
  {
    r := w;
    for i := 0 to |w|
      invariant |r| == |w|
      invariant forall k :: 0 <= k < i ==> r[k] == L2Matrix(w, g, rate)[k]
      invariant forall k :: i <= k < |w| ==> r[k] == w[k]
    {
      var row := r[i];
      for j := 0 to |row|
        invariant |row| == |w[i]|
        invariant forall m :: 0 <= m < j ==> row[m] == L2Step(w[i][m], g[i][m], rate)
        invariant forall m :: j <= m < |row| ==> row[m] == w[i][m]
      {
        var gradient := g[i][j];
        row := row[j := row[j] - rate * (Lambda * row[j] + gradient)];
      }
      r := r[i := row];
    }
  }

  /** `acc += f(x)` for every element of `v`. */
  method AccumulateRow(acc: real, v: seq<real>, f: real -> real) returns (r: real)
    ensures r == acc + SumMap(v, f)
  {
    r := acc;
    for k := 0 to |v|
      invariant r == acc + SumMap(v[..k], f)
    {
      SumMapStep(v, f, k);
      r := r + f(v[k]);
    }
    assert v[..|v|] == v;
  }

  /** `acc += f(x)` for every entry of a matrix, row after row. */
  method AccumulateMatrix(acc: real, m: seq<seq<real>>, f: real -> real) returns (r: real)
    ensures r == acc + SumMap2(m, f)
  {
    r := acc;
    for i := 0 to |m|
      invariant r == acc + SumMap2(m[..i], f)
    {
      SumMap2Step(m, f, i);
      r := AccumulateRow(r, m[i], f);
    }
    assert m[..|m|] == m;
  }

  /** The range-based triple loop of the penalties: the sum of `f` over every
      entry of a three-dimensional tensor. */
  method TensorSum(t: seq<seq<seq<real>>>, f: real -> real) returns (penalty: real)
    ensures penalty == SumMap3(t, f)
  {
    penalty := 0.0;
    for l := 0 to |t|
      invariant penalty == SumMap3(t[..l], f)
    {
      SumMap3Step(t, f, l);
      penalty := AccumulateMatrix(penalty, t[l], f);
    }
    assert t[..|t|] == t;
  }

  /** `loss += f(outputs[i] - targets[i])` for i < |outputs|. */
  method SumOfDifferences(outputs: seq<real>, targets: seq<real>, f: real -> real) returns (loss: real)
    requires |outputs| <= |targets|
    ensures loss == SumMap(Diff(outputs, targets), f)
  {
    loss := 0.0;
    for i := 0 to |outputs|
      invariant loss == SumMap(Diff(outputs, targets)[..i], f)
    {
      SumMapStep(Diff(outputs, targets), f, i);
      loss := loss + f(outputs[i] - targets[i]);
    }
    assert Diff(outputs, targets)[..|outputs|] == Diff(outputs, targets);
  }

  /** One weight of `rprop`: the three-way sign rule with its clamped step. */
  method RpropCellStep(grad: real, weight: real, memory: real, step: real)
    returns (weight': real, memory': real, step': real)
    ensures RpropCell(weight', memory', step') == RpropUpdate(grad, RpropCell(weight, memory, step))
  {
    weight', memory', step' := weight, memory, step;
    if grad * memory > 0.0 {
      step' := if step * EtaPlus <= DeltaMax then step * EtaPlus else DeltaMax;
      weight' := weight + (if grad > 0.0 then -step' else step');
      memory' := grad;
    } else if grad * memory < 0.0 {
      step' := if step * EtaMinus >= DeltaMin then step * EtaMinus else DeltaMin;
      weight' := weight + (if grad > 0.0 then -step' else step');
      memory' := 0.0;
    } else {
      weight' := weight + (if grad > 0.0 then -step' else step');
      memory' := grad;
    }
  }

  /** The nested `rprop` loops over one matrix of weights, with the matching
      matrices of gradients, remembered gradients and steps. */
  method RpropMatrixLoop(w: seq<seq<real>>, grads: seq<seq<real>>, memory: seq<seq<real>>, steps: seq<seq<real>>)
    returns (w': seq<seq<real>>, memory': seq<seq<real>>, steps': seq<seq<real>>)
    requires |w| == |grads| == |memory| == |steps|
    requires forall i :: 0 <= i < |w| ==> |grads[i]| == |w[i]| && |memory[i]| == |w[i]| && |steps[i]| == |w[i]|
    ensures (w', memory', steps') == RpropMatrix(w, grads, memory, steps)
  {
    ghost var target := RpropMatrix(w, grads, memory, steps);
    w', memory', steps' := w, memory, steps;
    for i := 0 to |w|
      invariant |w'| == |memory'| == |steps'| == |w|
      invariant forall k :: 0 <= k < i ==> w'[k] == target.0[k] && memory'[k] == target.1[k] && steps'[k] == target.2[k]
      invariant forall k :: i <= k < |w| ==> w'[k] == w[k] && memory'[k] == memory[k] && steps'[k] == steps[k]
    {
      var rw, rm, rs := w'[i], memory'[i], steps'[i];
      for j := 0 to |rw|
        invariant |rw| == |rm| == |rs| == |w[i]|
        invariant forall m :: 0 <= m < j ==> rw[m] == target.0[i][m] && rm[m] == target.1[i][m] && rs[m] == target.2[i][m]
        invariant forall m :: j <= m < |rw| ==> rw[m] == w[i][m] && rm[m] == memory[i][m] && rs[m] == steps[i][m]
      {
        var a, b, c := RpropCellStep(grads[i][j], rw[j], rm[j], rs[j]);
        rw, rm, rs := rw[j := a], rm[j := b], rs[j := c];
      }
      assert rw == target.0[i] && rm == target.1[i] && rs == target.2[i];
      w', memory', steps' := w'[i := rw], memory'[i := rm], steps'[i := rs];
    }
    assert w' == target.0 && memory' == target.1 && steps' == target.2;
  }
}
