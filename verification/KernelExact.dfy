/** What the paired-row kernel computes: with exact arithmetic, dot products. */
module KernelExact {
  import opened Kernel

  /** Operations on the reals; scales are whatever their half-precision encoding stands for. */
  ghost predicate Exact(ops: Ops<real>) {
    && ops.zero == 0.0
    && (forall a, b, c :: ops.fma(a, b, c) == a * b + c)
    && (forall a, b :: ops.add(a, b) == a + b)
    && (forall a, b :: ops.mul(a, b) == a * b)
    && (forall i :: ops.fromInt(i) == i as real)
  }

  /** Row `o` of the matrix holds the weights `w`: two to a byte, low nibble first, each stored as
      itself plus 8. */
  ghost predicate RowHolds(W: seq<byte>, rowbytes: nat, o: nat, w: seq<int>) {
    && |w| == 2 * rowbytes && (forall j :: 0 <= j < |w| ==> -8 <= w[j] <= 7)
    && o * rowbytes + rowbytes <= |W|
    && forall i :: 0 <= i < rowbytes ==> W[o * rowbytes + i] as int == (w[2 * i] + 8) + 16 * (w[2 * i + 1] + 8)
  }

  /** The scales of row `o`. */
  ghost predicate ScalesHold(ops: Ops<real>, ws: seq<int>, ng: nat, o: nat, scales: seq<real>) {
    |scales| == ng && o * ng + ng <= |ws| && forall k :: 0 <= k < ng ==> scales[k] == ops.fromHalf(ws[o * ng + k])
  }

  /** The scaled dot product over the first `n` columns. */
  function Dot(scales: seq<real>, group: nat, w: seq<int>, xs: seq<real>, n: nat): real
    requires group > 0 && n <= |w| && n <= |xs| && n <= |scales| * group
  {
    if n == 0 then 0.0
    else
      ColumnInRange(n - 1, group, |scales|);
      Dot(scales, group, w, xs, n - 1) + scales[(n - 1) / group] * (w[n - 1] as real * xs[n - 1])
  }

  lemma ColumnInRange(j: nat, group: nat, groups: nat)
    requires group > 0 && j < groups * group
    ensures 0 <= j / group < groups
  {
    assert j == j / group * group + j % group;
    if j / group >= groups {
      MulAtLeast(j / group, groups, group);
    }
  }

  lemma MulAtLeast(a: int, b: int, c: nat)
    requires a >= b
    ensures a * c >= b * c
  {
    assert (a - b) * c >= 0;
  }

  lemma GroupOfColumn(k: nat, group: nat, i: nat)
    requires i < group
    ensures (k * group + i) / group == k
  {
    var q, r := (k * group + i) / group, (k * group + i) % group;
    assert q * group + r == k * group + i;
    if q < k {
      MulAtLeast(k, q + 1, group);
    } else if q > k {
      MulAtLeast(q, k + 1, group);
    }
  }

  /** The unscaled sum over `n` columns from `from` on. */
  function Plain(w: seq<int>, xs: seq<real>, from: nat, n: nat): real
    requires from + n <= |w| && from + n <= |xs|
  {
    if n == 0 then 0.0 else Plain(w, xs, from, n - 1) + w[from + n - 1] as real * xs[from + n - 1]
  }

  function LaneSum(s: Lanes<real>): real { s.a + s.b + s.c + s.d }

  lemma WeightIs(row: seq<byte>, w: seq<int>, j: nat)
    requires |w| == 2 * |row| && j < |w| && forall i :: 0 <= i < |w| ==> -8 <= w[i] <= 7
    requires forall i :: 0 <= i < |row| ==> row[i] as int == (w[2 * i] + 8) + 16 * (w[2 * i + 1] + 8)
    ensures Weight(row, j) == w[j]
  {
    var i := j / 2;
    assert row[i] as int == (w[2 * i] + 8) + 16 * (w[2 * i + 1] + 8);
    assert j == 2 * i || j == 2 * i + 1;
  }

  lemma OneMoreWeight(ops: Ops<real>, s: Lanes<real>, j: nat, q: int, x: real)
    requires Exact(ops)
    ensures LaneSum(Accumulate(ops, s, j, q, x)) == LaneSum(s) + q as real * x
  {}

  lemma PlainStep(w: seq<int>, xs: seq<real>, from: nat, n: nat, q: int, x: real)
    requires from + n < |w| && from + n < |xs| && q == w[from + n] && x == xs[from + n]
    ensures Plain(w, xs, from, n + 1) == Plain(w, xs, from, n) + q as real * x
  {}

  ghost predicate Weighs(row: seq<byte>, w: seq<int>) {
    |w| == 2 * |row| && forall j :: 0 <= j < |w| ==> Weight(row, j) == w[j]
  }

  /** However the lanes are dealt, together they hold the sum. */
  lemma {:induction false} LanesHoldTheSum(ops: Ops<real>, row: seq<byte>, w: seq<int>, xs: seq<real>, from: nat, n: nat)
    requires Exact(ops) && Weighs(row, w) && from + n <= |w| && from + n <= |xs|
    ensures LaneSum(LaneSums(ops, Zeros(ops), row, xs, from, n)) == Plain(w, xs, from, n)
  {
    if n > 0 {
      var j := n - 1;
      var q, x := w[from + j], xs[from + j];
      LanesHoldTheSum(ops, row, w, xs, from, j);
      LaneSumsStep(ops, Zeros(ops), row, xs, from, j, q, x);
      PlainStep(w, xs, from, j, q, x);
      OneMoreWeight(ops, LaneSums(ops, Zeros(ops), row, xs, from, j), j, q, x);
    }
  }

  lemma TotalIsSum(ops: Ops<real>, s: Lanes<real>)
    requires Exact(ops)
    ensures LaneTotal(ops, s) == LaneSum(s)
  {}

  /** The sum over `n` columns from `from` on, each product scaled. */
  function Scaled(scale: real, w: seq<int>, xs: seq<real>, from: nat, n: nat): real
    requires from + n <= |w| && from + n <= |xs|
  {
    if n == 0 then 0.0 else Scaled(scale, w, xs, from, n - 1) + scale * (w[from + n - 1] as real * xs[from + n - 1])
  }

  /** Scaling the sum is scaling the products. */
  lemma {:induction false} ScaledSum(scale: real, w: seq<int>, xs: seq<real>, from: nat, n: nat)
    requires from + n <= |w| && from + n <= |xs|
    ensures Scaled(scale, w, xs, from, n) == scale * Plain(w, xs, from, n)
  {
    if n > 0 {
      ScaledSum(scale, w, xs, from, n - 1);
      Distribute(scale, Plain(w, xs, from, n - 1), w[from + n - 1] as real * xs[from + n - 1]);
    }
  }

  lemma Distribute(s: real, x: real, y: real)
    ensures s * (x + y) == s * x + s * y
  {}

  lemma DotStep(scales: seq<real>, group: nat, w: seq<int>, xs: seq<real>, n: nat, k: nat, at: nat, i: nat)
    requires group > 0 && n < |w| && n < |xs| && n < |scales| * group && k < |scales| && n / group == k && n == at + i
    ensures Dot(scales, group, w, xs, n + 1) - Dot(scales, group, w, xs, n)
            == Scaled(scales[k], w, xs, at, i + 1) - Scaled(scales[k], w, xs, at, i)
  {}

  /** One group adds its scaled sum to the dot product. */
  lemma {:induction false} GroupAdds(scales: seq<real>, group: nat, w: seq<int>, xs: seq<real>, k: nat, at: nat, n: nat)
    requires k < |scales| && n <= group && 0 < group && at == k * group && at + n <= |w| && at + n <= |xs|
    requires at + group <= |scales| * group
    ensures Dot(scales, group, w, xs, at + n) == Dot(scales, group, w, xs, at) + Scaled(scales[k], w, xs, at, n)
  {
    if n > 0 {
      GroupAdds(scales, group, w, xs, k, at, n - 1);
      GroupOfColumn(k, group, n - 1);
      DotStep(scales, group, w, xs, at + (n - 1), k, at, n - 1);
    }
  }

  /** The columns the first `k` groups cover. */
  function Covers(group: nat, cols: nat, k: nat): nat { if k * group < cols then k * group else cols }

  lemma CoversStep(group: nat, cols: nat, k: nat, groups: nat)
    requires k < groups && k * group <= cols
    ensures Covers(group, cols, k) == k * group && Covers(group, cols, k + 1) == k * group + Limit(cols, group, k)
    ensures (k + 1) * group == k * group + group <= groups * group && (k > 0 ==> (k - 1) * group <= k * group <= cols)
  {
    assert (k + 1) * group == k * group + group;
    MulAtLeast(groups, k + 1, group);
    if k > 0 {
      assert (k - 1) * group + group == k * group;
    }
  }

  /** The scalar value of one group, scaled. */
  lemma GroupIsScaled(ops: Ops<real>, row: seq<byte>, w: seq<int>, xs: seq<real>, scale: int, from: nat, n: nat)
    requires Exact(ops) && Weighs(row, w) && from + n <= |w| && from + n <= |xs|
    ensures ops.mul(ops.fromHalf(scale), LaneTotal(ops, LaneSums(ops, Zeros(ops), row, xs, from, n)))
            == Scaled(ops.fromHalf(scale), w, xs, from, n)
  {
    var lanes := LaneSums(ops, Zeros(ops), row, xs, from, n);
    LanesHoldTheSum(ops, row, w, xs, from, n);
    TotalIsSum(ops, lanes);
    ScaledSum(ops.fromHalf(scale), w, xs, from, n);
    ScalesTotal(ops, ops.fromHalf(scale), LaneTotal(ops, lanes), Plain(w, xs, from, n));
  }

  lemma ScalesTotal(ops: Ops<real>, scale: real, total: real, sum: real)
    requires Exact(ops) && total == sum
    ensures ops.mul(scale, total) == scale * sum
  {}

  lemma RowSumStep(ops: Ops<real>, row: seq<byte>, ws: seq<int>, xs: seq<real>, group: nat, cols: nat, k: nat, at: nat)
    requires k < |ws| && at == k * group <= cols && at + group <= 2 * |row| && cols <= |xs|
    requires k > 0 ==> (k - 1) * group <= cols
    ensures (k + 1) * group == at + group && (k + 1 - 1) * group <= cols
    ensures RowSum(ops, row, ws, xs, group, cols, k + 1)
            == ops.add(RowSum(ops, row, ws, xs, group, cols, k),
                       ops.mul(ops.fromHalf(ws[k]),
                               LaneTotal(ops, LaneSums(ops, Zeros(ops), row, xs, at, Limit(cols, group, k)))))
  {
    assert (k + 1) * group == k * group + group;
  }

  lemma RowGroupAdds(ops: Ops<real>, row: seq<byte>, ws: seq<int>, scales: seq<real>, w: seq<int>,
                     xs: seq<real>, group: nat, cols: nat, k: nat, at: nat)
    requires Exact(ops) && group > 0 && Weighs(row, w)
    requires |scales| == |ws| && forall i :: 0 <= i < |ws| ==> scales[i] == ops.fromHalf(ws[i])
    requires k < |ws| && at == k * group <= cols <= |xs| && at + group <= 2 * |row| && at + group <= |scales| * group
    requires (k > 0 ==> (k - 1) * group <= cols) && (k + 1) * group == at + group
    requires RowSum(ops, row, ws, xs, group, cols, k) == Dot(scales, group, w, xs, at)
    ensures RowSum(ops, row, ws, xs, group, cols, k + 1) == Dot(scales, group, w, xs, at + Limit(cols, group, k))
  {
    var n := Limit(cols, group, k);
    RowSumStep(ops, row, ws, xs, group, cols, k, at);
    GroupIsScaled(ops, row, w, xs, ws[k], at, n);
    GroupAdds(scales, group, w, xs, k, at, n);
  }

  /** The scalar form computes the dot product. */
  lemma {:induction false} RowSumIsDot(ops: Ops<real>, row: seq<byte>, ws: seq<int>, scales: seq<real>, w: seq<int>,
                                       xs: seq<real>, group: nat, cols: nat, k: nat)
    requires Exact(ops) && group > 0 && Weighs(row, w)
    requires |scales| == |ws| && forall i :: 0 <= i < |ws| ==> scales[i] == ops.fromHalf(ws[i])
    requires k <= |ws| && |ws| * group <= 2 * |row| && k * group <= 2 * |row| && cols <= |xs|
    requires (k > 0 ==> (k - 1) * group <= cols) && cols <= |scales| * group
    ensures RowSum(ops, row, ws, xs, group, cols, k) == Dot(scales, group, w, xs, Covers(group, cols, k))
    decreases k
  {
    if k > 0 {
      var j := k - 1;
      var at := j * group;
      CoversStep(group, cols, j, |ws|);
      RowSumIsDot(ops, row, ws, scales, w, xs, group, cols, j);
      assert Covers(group, cols, j) == at && Covers(group, cols, k) == at + Limit(cols, group, j);
      RowGroupAdds(ops, row, ws, scales, w, xs, group, cols, j, at);
    }
  }

  /** With exact arithmetic, the value the kernel writes to each row of its range is the scaled dot
      product of the row's weights with the activations; other rows keep their value. */
  lemma WrittenIsDot(ops: Ops<real>, a: Arg<real>, rows: nat, y: seq<real>, b: nat, e: nat, o: nat, w: seq<int>,
                     scales: seq<real>)
    requires Exact(ops) && Holds(a, rows) && |y| == rows && o < rows && a.group > 0
    requires RowHolds(a.W, a.rowbytes, o, w) && ScalesHold(ops, a.ws, a.ng, o, scales)
    ensures a.cols <= |w| && a.cols <= |scales| * a.group
    ensures Written(ops, a, rows, y, b, e)[o] == if b <= o < e then Dot(scales, a.group, w, a.xs, a.cols) else y[o]
  {
    var row, ws := RowBytes(a, rows, o), RowScales(a, rows, o);
    RowWeighs(a, rows, o, w);
    RowIsScaled(ops, a, rows, o, scales);
    RowSumIsDot(ops, row, ws, scales, w, a.xs, a.group, a.cols, a.ng);
    assert Covers(a.group, a.cols, a.ng) == a.cols;
  }

  lemma RowWeighs(a: Arg<real>, rows: nat, o: nat, w: seq<int>)
    requires |a.W| >= rows * a.rowbytes && o < rows && RowHolds(a.W, a.rowbytes, o, w)
    ensures Weighs(RowBytes(a, rows, o), w)
  {
    var row := RowBytes(a, rows, o);
    forall i | 0 <= i < |row| ensures row[i] as int == (w[2 * i] + 8) + 16 * (w[2 * i + 1] + 8) {
      assert row[i] == a.W[o * a.rowbytes + i];
    }
    forall j | 0 <= j < |w| ensures Weight(row, j) == w[j] {
      WeightIs(row, w, j);
    }
  }

  lemma RowIsScaled(ops: Ops<real>, a: Arg<real>, rows: nat, o: nat, scales: seq<real>)
    requires |a.ws| >= rows * a.ng && o < rows && ScalesHold(ops, a.ws, a.ng, o, scales)
    ensures |scales| == |RowScales(a, rows, o)|
    ensures forall i :: 0 <= i < |scales| ==> scales[i] == ops.fromHalf(RowScales(a, rows, o)[i])
  {
    forall i | 0 <= i < |scales| ensures scales[i] == ops.fromHalf(RowScales(a, rows, o)[i]) {
      assert RowScales(a, rows, o)[i] == a.ws[o * a.ng + i];
    }
  }
}
