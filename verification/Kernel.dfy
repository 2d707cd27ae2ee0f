/** The paired-row Q4 projection kernel and the scalar arithmetic it must reproduce bit for bit.
    Floating-point operations are uninterpreted, so equal results mean the same operations on the
    same operands in the same order. */
module Kernel {

  newtype byte = b: int | 0 <= b < 256

  /** The float operations the kernel uses: fused multiply-add `a * b + c`, addition, multiplication,
      conversion of a small integer, and expansion of a half-precision scale. */
  datatype Ops<!F> = Ops(
    zero: F,
    fma: (F, F, F) -> F,
    add: (F, F) -> F,
    mul: (F, F) -> F,
    fromInt: int -> F,
    fromHalf: int -> F)

  /** A four-lane vector register. */
  datatype Lanes<F> = Lanes(a: F, b: F, c: F, d: F)

  function Zeros<F>(ops: Ops<F>): Lanes<F> {
    Lanes(ops.zero, ops.zero, ops.zero, ops.zero)
  }

  // ----- the scalar form

  /** The `j`-th 4-bit weight of a packed row: low nibble first, biased by 8. */
  function Weight(packed: seq<byte>, j: nat): int
    requires j / 2 < |packed|
  {
    (if j % 2 == 1 then packed[j / 2] as int / 16 else packed[j / 2] as int % 16) - 8
  }

  /** One scalar step: weight times activation into the lane `j % 4`. */
  function Accumulate<F>(ops: Ops<F>, lanes: Lanes<F>, j: nat, q: int, x: F): Lanes<F> {
    var w := ops.fromInt(q);
    if j % 4 == 0 then lanes.(a := ops.fma(w, x, lanes.a))
    else if j % 4 == 1 then lanes.(b := ops.fma(w, x, lanes.b))
    else if j % 4 == 2 then lanes.(c := ops.fma(w, x, lanes.c))
    else lanes.(d := ops.fma(w, x, lanes.d))
  }

  /** `n` scalar steps over the weights from position `from` on. */
  function LaneSums<F>(ops: Ops<F>, lanes: Lanes<F>, row: seq<byte>, xs: seq<F>, from: nat, n: nat): Lanes<F>
    requires from + n <= 2 * |row| && from + n <= |xs|
  {
    if n == 0 then lanes
    else
      var j := n - 1;
      Accumulate(ops, LaneSums(ops, lanes, row, xs, from, j), j, Weight(row, from + j), xs[from + j])
  }

  /** The horizontal sum: adjacent lanes first. */
  function LaneTotal<F>(ops: Ops<F>, s: Lanes<F>): F {
    ops.add(ops.add(s.a, s.b), ops.add(s.c, s.d))
  }

  /** How many columns group `k` has: all of them, or what is left of the row. */
  function Limit(cols: nat, group: nat, k: nat): (n: nat)
    requires k * group <= cols
    ensures n <= group && k * group + n <= cols
  {
    if cols - k * group < group then cols - k * group else group
  }

  /** The scalar dot product of one row over its first `k` groups, the last of which may be partial. */
  function RowSum<F>(ops: Ops<F>, row: seq<byte>, scales: seq<int>, xs: seq<F>, group: nat, cols: nat, k: nat): F
    requires k <= |scales| && k * group <= 2 * |row| && cols <= |xs| && (k > 0 ==> (k - 1) * group <= cols)
    decreases k
  {
    if k == 0 then ops.zero
    else
      var j := k - 1;
      assert j * group + group == k * group;
      assert j > 0 ==> (j - 1) * group + group == j * group;
      var lanes := LaneSums(ops, Zeros(ops), row, xs, j * group, Limit(cols, group, j));
      ops.add(RowSum(ops, row, scales, xs, group, cols, j), ops.mul(ops.fromHalf(scales[j]), LaneTotal(ops, lanes)))
  }

  // ----- the vector form

  function Fma4<F>(ops: Ops<F>, sum: Lanes<F>, q: Lanes<int>, x: Lanes<F>): Lanes<F> {
    Lanes(ops.fma(ops.fromInt(q.a), x.a, sum.a), ops.fma(ops.fromInt(q.b), x.b, sum.b),
          ops.fma(ops.fromInt(q.c), x.c, sum.c), ops.fma(ops.fromInt(q.d), x.d, sum.d))
  }

  /** Four consecutive elements from position `i`. */
  function Load4<T>(s: seq<T>, i: nat): Lanes<T>
    requires i + 4 <= |s|
  {
    Lanes(s[i], s[i + 1], s[i + 2], s[i + 3])
  }

  /** Interleave two equally long registers. */
  function Zip(lo: seq<int>, hi: seq<int>): (z: seq<int>)
    requires |lo| == |hi|
    ensures |z| == 2 * |lo|
    ensures forall i :: 0 <= i < |lo| ==> z[2 * i] == lo[i] && z[2 * i + 1] == hi[i]
  {
    if lo == [] then []
    else Zip(lo[..|lo| - 1], hi[..|hi| - 1]) + [lo[|lo| - 1], hi[|hi| - 1]]
  }

  /** Four consecutive weights from position `i`. */
  function WeightsAt(row: seq<byte>, i: nat): Lanes<int>
    requires i + 4 <= 2 * |row|
  {
    Lanes(Weight(row, i), Weight(row, i + 1), Weight(row, i + 2), Weight(row, i + 3))
  }

  /** Four scalar steps aligned with the lanes are one vector step. */
  lemma FourStepsAreOne<F>(ops: Ops<F>, lanes: Lanes<F>, row: seq<byte>, xs: seq<F>, from: nat, n: nat)
    requires n % 4 == 0 && from + n + 4 <= 2 * |row| && from + n + 4 <= |xs|
    ensures LaneSums(ops, lanes, row, xs, from, n + 4)
            == Fma4(ops, LaneSums(ops, lanes, row, xs, from, n),
                    WeightsAt(row, from + n),
                    Load4(xs, from + n))
  {
    var s0 := LaneSums(ops, lanes, row, xs, from, n);
    LaneSumsStep(ops, lanes, row, xs, from, n, Weight(row, from + n), xs[from + n]);
    LaneSumsStep(ops, lanes, row, xs, from, n + 1, Weight(row, from + n + 1), xs[from + n + 1]);
    LaneSumsStep(ops, lanes, row, xs, from, n + 2, Weight(row, from + n + 2), xs[from + n + 2]);
    LaneSumsStep(ops, lanes, row, xs, from, n + 3, Weight(row, from + n + 3), xs[from + n + 3]);
    FourLanes(ops, s0, n,
              WeightsAt(row, from + n),
              Load4(xs, from + n));
  }

  lemma FourLanes<F>(ops: Ops<F>, s: Lanes<F>, n: nat, q: Lanes<int>, x: Lanes<F>)
    requires n % 4 == 0
    ensures Accumulate(ops, Accumulate(ops, Accumulate(ops, Accumulate(ops, s, n, q.a, x.a), n + 1, q.b, x.b),
                                       n + 2, q.c, x.c), n + 3, q.d, x.d)
            == Fma4(ops, s, q, x)
  {
    assert (n + 1) % 4 == 1 && (n + 2) % 4 == 2 && (n + 3) % 4 == 3;
  }

  /** Split 16 packed bytes into 32 weights: mask and shift, unbias, interleave. */
  method Unpack(packed: seq<byte>) returns (z: seq<int>)
    requires |packed| == 16
    ensures |z| == 32 && forall j :: 0 <= j < 32 ==> z[j] == Weight(packed, j)
  {
    var lo, hi: seq<int> := [], [];
    for i := 0 to 16
      invariant |lo| == |hi| == i
      invariant forall k :: 0 <= k < i ==> lo[k] == packed[k] as int % 16 - 8 && hi[k] == packed[k] as int / 16 - 8
    {
      lo := lo + [packed[i] as int % 16 - 8];
      hi := hi + [packed[i] as int / 16 - 8];
    }
    z := Zip(lo, hi);
    forall j | 0 <= j < 32 ensures z[j] == Weight(packed, j) {
      if j % 2 == 0 {
        assert z[2 * (j / 2)] == lo[j / 2];
      } else {
        assert z[2 * (j / 2) + 1] == hi[j / 2];
      }
    }
  }

  /** One vector step over unpacked weights. */
  lemma VectorStep<F>(ops: Ops<F>, sum: Lanes<F>, packed: seq<byte>, x: seq<F>, z: seq<int>, i: nat)
    requires |packed| == 16 && |x| == 32 && |z| == 32 && i % 4 == 0 && i < 32
    requires forall j :: 0 <= j < 32 ==> z[j] == Weight(packed, j)
    ensures Fma4(ops, LaneSums(ops, sum, packed, x, 0, i), Load4(z, i), Load4(x, i))
            == LaneSums(ops, sum, packed, x, 0, i + 4)
  {
    FourStepsAreOne(ops, sum, packed, x, 0, i);
    assert Load4(z, i) == WeightsAt(packed, i);
  }

  /** `mvq4_acc32`: 32 weights into the lanes, eight vector steps in two halves. */
  method Acc32<F>(ops: Ops<F>, sum: Lanes<F>, packed: seq<byte>, x: seq<F>) returns (r: Lanes<F>)
    requires |packed| == 16 && |x| == 32
    ensures r == LaneSums(ops, sum, packed, x, 0, 32)
  {
    var z := Unpack(packed);
    r := sum;
    for h := 0 to 2
      invariant r == LaneSums(ops, sum, packed, x, 0, 16 * h)
    {
      for q := 0 to 4
        invariant r == LaneSums(ops, sum, packed, x, 0, 16 * h + 4 * q)
      {
        var i := 16 * h + 4 * q;
        assert i % 4 == 0 && i < 32;
        VectorStep(ops, sum, packed, x, z, i);
        r := Fma4(ops, r, Load4(z, i), Load4(x, i));
      }
    }
  }

  /** A slice of a row and of the activations continues the sums of the whole row. */
  lemma {:induction false} SliceContinues<F>(ops: Ops<F>, init: Lanes<F>, row: seq<byte>, xs: seq<F>, from: nat, n: nat,
                                             at: nat, packed: seq<byte>, x: seq<F>, middle: Lanes<F>, m: nat)
    requires n % 4 == 0 && from + n == 2 * at && m <= 32
    requires at + 16 <= |row| && from + n + 32 <= |xs|
    requires packed == row[at..at + 16] && x == xs[from + n..from + n + 32]
    requires middle == LaneSums(ops, init, row, xs, from, n)
    ensures LaneSums(ops, middle, packed, x, 0, m) == LaneSums(ops, init, row, xs, from, n + m)
  {
    if m > 0 {
      SliceContinues(ops, init, row, xs, from, n, at, packed, x, middle, m - 1);
      SliceStep(ops, init, middle, row, packed, xs, x, from, n, at, m - 1);
    }
  }

  lemma SliceStep<F>(ops: Ops<F>, init: Lanes<F>, middle: Lanes<F>, row: seq<byte>, packed: seq<byte>,
                     xs: seq<F>, x: seq<F>, from: nat, n: nat, at: nat, j: nat)
    requires n % 4 == 0 && from + n == 2 * at && j < 32 && at + 16 <= |row| && from + n + 32 <= |xs|
    requires packed == row[at..at + 16] && x == xs[from + n..from + n + 32]
    requires LaneSums(ops, middle, packed, x, 0, j) == LaneSums(ops, init, row, xs, from, n + j)
    ensures LaneSums(ops, middle, packed, x, 0, j + 1) == LaneSums(ops, init, row, xs, from, n + (j + 1))
  {
    SliceWeight(row, at, j);
    var q, v := Weight(row, 2 * at + j), xs[2 * at + j];
    LaneSumsStep(ops, middle, packed, x, 0, j, q, v);
    LaneSumsStep(ops, init, row, xs, from, n + j, q, v);
    SameLane(ops, LaneSums(ops, init, row, xs, from, n + j), n, j, q, v);
  }

  lemma LaneSumsStep<F>(ops: Ops<F>, init: Lanes<F>, row: seq<byte>, xs: seq<F>, from: nat, j: nat, q: int, x: F)
    requires from + j < 2 * |row| && from + j < |xs| && q == Weight(row, from + j) && x == xs[from + j]
    ensures LaneSums(ops, init, row, xs, from, j + 1) == Accumulate(ops, LaneSums(ops, init, row, xs, from, j), j, q, x)
  {}

  lemma SameLane<F>(ops: Ops<F>, lanes: Lanes<F>, n: nat, j: nat, q: int, x: F)
    requires n % 4 == 0
    ensures Accumulate(ops, lanes, n + j, q, x) == Accumulate(ops, lanes, j, q, x)
  {
    assert (n + j) % 4 == j % 4;
  }

  lemma SliceWeight(row: seq<byte>, at: nat, j: nat)
    requires at + 16 <= |row| && j < 32
    ensures (2 * at + j) / 2 < |row| && Weight(row[at..at + 16], j) == Weight(row, 2 * at + j)
  {
    assert (2 * at + j) / 2 == at + j / 2 && (2 * at + j) % 2 == j % 2;
  }

  // ----- the kernel

  /** The weights, scales and activations one call works on. */
  datatype Arg<F> = Arg(W: seq<byte>, ws: seq<int>, xs: seq<F>, ng: nat, group: nat, bits: nat, rowbytes: nat, cols: nat)

  /** The memory the caller hands over really holds `rows` rows of `ng` groups that cover the columns. */
  ghost predicate Holds<F>(a: Arg<F>, rows: nat) {
    && |a.W| >= rows * a.rowbytes && |a.ws| >= rows * a.ng && |a.xs| >= a.cols
    && a.ng * a.group <= 2 * a.rowbytes
    && a.cols <= a.ng * a.group && (a.ng > 0 ==> (a.ng - 1) * a.group < a.cols)
  }

  /** The dispatch guard of the patched `waste_mvq_rows_f32`. */
  predicate PairedPath<F>(a: Arg<F>) {
    a.bits == 4 && a.group > 0 && a.group % 32 == 0 && a.cols % a.group == 0
  }

  function RowBytes<F>(a: Arg<F>, rows: nat, o: nat): (row: seq<byte>)
    requires |a.W| >= rows * a.rowbytes && o < rows
    ensures |row| == a.rowbytes
  {
    RowFits(o, rows, a.rowbytes);
    a.W[o * a.rowbytes..o * a.rowbytes + a.rowbytes]
  }

  function RowScales<F>(a: Arg<F>, rows: nat, o: nat): (scales: seq<int>)
    requires |a.ws| >= rows * a.ng && o < rows
    ensures |scales| == a.ng
  {
    RowFits(o, rows, a.ng);
    a.ws[o * a.ng..o * a.ng + a.ng]
  }

  lemma RowFits(o: nat, rows: nat, width: nat)
    requires o < rows
    ensures 0 <= o * width && o * width + width <= rows * width
  {
    if rows > o + 1 {
      RowFits(o, rows - 1, width);
      assert rows * width == (rows - 1) * width + width;
    }
  }

  /** The scalar value of output row `o`. */
  function RowValue<F>(ops: Ops<F>, a: Arg<F>, rows: nat, o: nat): F
    requires Holds(a, rows) && o < rows
  {
    RowSum(ops, RowBytes(a, rows, o), RowScales(a, rows, o), a.xs, a.group, a.cols, a.ng)
  }

  lemma BlockStart(half: nat, j: nat)
    requires j % 32 == 0
    ensures j % 4 == 0 && 2 * half + j == 2 * (half + j / 2)
  {}

  /** The next 32 weights of a row, `j` columns into the group that starts at byte `half`. */
  method NextBlock<F>(ops: Ops<F>, sum: Lanes<F>, row: seq<byte>, xs: seq<F>, half: nat, j: nat) returns (s: Lanes<F>)
    requires j % 32 == 0 && 2 * half + j + 32 <= 2 * |row| && 2 * half + j + 32 <= |xs|
    requires sum == LaneSums(ops, Zeros(ops), row, xs, 2 * half, j)
    ensures s == LaneSums(ops, Zeros(ops), row, xs, 2 * half, j + 32)
  {
    var off, at := half + j / 2, 2 * half + j;
    BlockStart(half, j);
    var packed, x := row[off..off + 16], xs[at..at + 32];
    SliceContinues(ops, Zeros(ops), row, xs, 2 * half, j, off, packed, x, sum, 32);
    s := Acc32(ops, sum, packed, x);
  }

  /** The same for two rows side by side. */
  method NextPair<F>(ops: Ops<F>, sum0: Lanes<F>, sum1: Lanes<F>, r0: seq<byte>, r1: seq<byte>,
                      xs: seq<F>, half: nat, j: nat)
    returns (s0: Lanes<F>, s1: Lanes<F>)
    requires j % 32 == 0 && 2 * half + j + 32 <= 2 * |r0| && |r1| == |r0| && 2 * half + j + 32 <= |xs|
    requires sum0 == LaneSums(ops, Zeros(ops), r0, xs, 2 * half, j)
    requires sum1 == LaneSums(ops, Zeros(ops), r1, xs, 2 * half, j)
    ensures s0 == LaneSums(ops, Zeros(ops), r0, xs, 2 * half, j + 32)
    ensures s1 == LaneSums(ops, Zeros(ops), r1, xs, 2 * half, j + 32)
  {
    s0 := NextBlock(ops, sum0, r0, xs, half, j);
    s1 := NextBlock(ops, sum1, r1, xs, half, j);
  }

  lemma BlockFits(j: nat, group: nat)
    requires j % 32 == 0 && group % 32 == 0 && j < group
    ensures j + 32 <= group && (j + 32) % 32 == 0
  {}

  /** One group of two rows: 32 weights of each at a time. */
  method PairLanes<F>(ops: Ops<F>, r0: seq<byte>, r1: seq<byte>, xs: seq<F>, half: nat, group: nat)
    returns (s0: Lanes<F>, s1: Lanes<F>)
    requires group % 32 == 0 && 2 * half + group <= 2 * |r0| && |r1| == |r0| && 2 * half + group <= |xs|
    ensures s0 == LaneSums(ops, Zeros(ops), r0, xs, 2 * half, group)
    ensures s1 == LaneSums(ops, Zeros(ops), r1, xs, 2 * half, group)
  {
    s0, s1 := Zeros(ops), Zeros(ops);
    var j := 0;
    while j < group
      invariant j % 32 == 0 && j <= group
      invariant s0 == LaneSums(ops, Zeros(ops), r0, xs, 2 * half, j)
      invariant s1 == LaneSums(ops, Zeros(ops), r1, xs, 2 * half, j)
    {
      BlockFits(j, group);
      s0, s1 := NextPair(ops, s0, s1, r0, r1, xs, half, j);
      j := j + 32;
    }
  }

  /** One group of the odd last row. */
  method SingleLanes<F>(ops: Ops<F>, row: seq<byte>, xs: seq<F>, half: nat, group: nat) returns (s: Lanes<F>)
    requires group % 32 == 0 && 2 * half + group <= 2 * |row| && 2 * half + group <= |xs|
    ensures s == LaneSums(ops, Zeros(ops), row, xs, 2 * half, group)
  {
    s := Zeros(ops);
    var j := 0;
    while j < group
      invariant j % 32 == 0 && j <= group
      invariant s == LaneSums(ops, Zeros(ops), row, xs, 2 * half, j)
    {
      BlockFits(j, group);
      s := NextBlock(ops, s, row, xs, half, j);
      j := j + 32;
    }
  }

  lemma GroupFits(k: nat, ng: nat, group: nat)
    requires k < ng && group % 32 == 0
    ensures k * group == 2 * (k * group / 2) && 0 <= k * group
    ensures (k + 1) * group == k * group + group <= ng * group
  {
    RowFits(k, ng, group);
    assert k * group == 2 * (k * (group / 2)) by {
      assert group == 2 * (group / 2);
    }
  }

  lemma WholeGroups(cols: nat, ng: nat, group: nat)
    requires group > 0 && cols % group == 0
    requires cols <= ng * group && (ng > 0 ==> (ng - 1) * group < cols)
    ensures ng * group == cols
  {
    var n := cols / group;
    assert n * group == cols;
    if ng < n {
      RowFits(ng, n, group);
    }
    if ng > 0 && n < ng - 1 {
      RowFits(n, ng - 1, group);
    }
  }

  /** Under the guard the groups fill the columns exactly, so no group is partial. */
  lemma GuardMeansWholeGroups<F>(a: Arg<F>, rows: nat)
    requires Holds(a, rows) && PairedPath(a)
    ensures a.ng * a.group == a.cols
  {
    WholeGroups(a.cols, a.ng, a.group);
  }

  /** Both sums of a pair of rows. */
  method PairSums<F>(ops: Ops<F>, r0: seq<byte>, r1: seq<byte>, w0: seq<int>, w1: seq<int>, xs: seq<F>, group: nat, ng: nat)
    returns (y0: F, y1: F)
    requires group % 32 == 0 && |r1| == |r0| && |w0| == |w1| == ng && ng * group <= 2 * |r0| && ng * group <= |xs|
    ensures ng > 0 ==> (ng - 1) * group <= ng * group
    ensures y0 == RowSum(ops, r0, w0, xs, group, ng * group, ng)
    ensures y1 == RowSum(ops, r1, w1, xs, group, ng * group, ng)
  {
    y0, y1 := ops.zero, ops.zero;
    ghost var cols := ng * group;
    for k := 0 to ng
      invariant k * group <= cols && (k > 0 ==> (k - 1) * group <= cols)
      invariant y0 == RowSum(ops, r0, w0, xs, group, cols, k) && y1 == RowSum(ops, r1, w1, xs, group, cols, k)
    {
      GroupFits(k, ng, group);
      var s0, s1 := PairLanes(ops, r0, r1, xs, k * group / 2, group);
      y0 := ops.add(y0, ops.mul(ops.fromHalf(w0[k]), LaneTotal(ops, s0)));
      y1 := ops.add(y1, ops.mul(ops.fromHalf(w1[k]), LaneTotal(ops, s1)));
    }
  }

  method SingleSum<F>(ops: Ops<F>, row: seq<byte>, ws: seq<int>, xs: seq<F>, group: nat, ng: nat) returns (y: F)
    requires group % 32 == 0 && |ws| == ng && ng * group <= 2 * |row| && ng * group <= |xs|
    ensures ng > 0 ==> (ng - 1) * group <= ng * group
    ensures y == RowSum(ops, row, ws, xs, group, ng * group, ng)
  {
    y := ops.zero;
    ghost var cols := ng * group;
    for k := 0 to ng
      invariant k * group <= cols && (k > 0 ==> (k - 1) * group <= cols)
      invariant y == RowSum(ops, row, ws, xs, group, cols, k)
    {
      GroupFits(k, ng, group);
      var s := SingleLanes(ops, row, xs, k * group / 2, group);
      y := ops.add(y, ops.mul(ops.fromHalf(ws[k]), LaneTotal(ops, s)));
    }
  }

  method PairOfRows<F>(ops: Ops<F>, a: Arg<F>, rows: nat, o: nat) returns (y0: F, y1: F)
    requires Holds(a, rows) && PairedPath(a) && o + 1 < rows
    ensures y0 == RowValue(ops, a, rows, o) && y1 == RowValue(ops, a, rows, o + 1)
  {
    GuardMeansWholeGroups(a, rows);
    y0, y1 := PairSums(ops, RowBytes(a, rows, o), RowBytes(a, rows, o + 1),
                       RowScales(a, rows, o), RowScales(a, rows, o + 1), a.xs, a.group, a.ng);
  }

  method OddRow<F>(ops: Ops<F>, a: Arg<F>, rows: nat, o: nat) returns (y: F)
    requires Holds(a, rows) && PairedPath(a) && o < rows
    ensures y == RowValue(ops, a, rows, o)
  {
    GuardMeansWholeGroups(a, rows);
    y := SingleSum(ops, RowBytes(a, rows, o), RowScales(a, rows, o), a.xs, a.group, a.ng);
  }

  // ----- ranges

  /** The output after one call on rows [b, e). */
  function Written<F>(ops: Ops<F>, a: Arg<F>, rows: nat, y: seq<F>, b: nat, e: nat): (out: seq<F>)
    requires |y| == rows && Holds(a, rows)
    ensures |out| == rows
    ensures forall o :: 0 <= o < rows ==> out[o] == if b <= o < e then RowValue(ops, a, rows, o) else y[o]
  {
    seq(rows, o requires 0 <= o < rows => if b <= o < e then RowValue(ops, a, rows, o) else y[o])
  }

  /** `mvq4_rows_pair`: rows in pairs, then the odd one.  Every row of the range gets exactly the
      scalar value, and nothing outside the range is written. */
  method RowsPair<F>(ops: Ops<F>, b: nat, e: nat, a: Arg<F>, y: array<F>)
    requires e <= y.Length && Holds(a, y.Length) && PairedPath(a)
    modifies y
    ensures y[..] == Written(ops, a, y.Length, old(y[..]), b, e)
  {
    var o := b;
    while o + 1 < e
      invariant b <= o && (o <= e || o == b)
      invariant forall i :: 0 <= i < y.Length ==>
                  y[i] == if b <= i < o && i < e then RowValue(ops, a, y.Length, i) else old(y[i])
    {
      var y0, y1 := PairOfRows(ops, a, y.Length, o);
      y[o] := y0;
      y[o + 1] := y1;
      o := o + 2;
    }
    if o < e {
      var v := OddRow(ops, a, y.Length, o);
      y[o] := v;
    }
  }

  /** The output after a list of calls on row ranges. */
  function WrittenAll<F>(ops: Ops<F>, a: Arg<F>, rows: nat, y: seq<F>, ranges: seq<(nat, nat)>): (out: seq<F>)
    requires |y| == rows && Holds(a, rows)
    ensures |out| == rows
  {
    if ranges == [] then y
    else
      var last := ranges[|ranges| - 1];
      Written(ops, a, rows, WrittenAll(ops, a, rows, y, ranges[..|ranges| - 1]), last.0, last.1)
  }

  predicate Covered(ranges: seq<(nat, nat)>, o: nat) {
    exists i :: 0 <= i < |ranges| && ranges[i].0 <= o < ranges[i].1
  }

  /** A row's value depends on whether it was covered, not on how the rows were cut into ranges. */
  lemma {:induction false} RangesDoNotMatter<F>(ops: Ops<F>, a: Arg<F>, rows: nat, y: seq<F>,
                                                ranges: seq<(nat, nat)>, o: nat)
    requires |y| == rows && Holds(a, rows) && o < rows
    ensures WrittenAll(ops, a, rows, y, ranges)[o] == if Covered(ranges, o) then RowValue(ops, a, rows, o) else y[o]
  {
    if ranges != [] {
      var n := |ranges| - 1;
      RangesDoNotMatter(ops, a, rows, y, ranges[..n], o);
      assert forall i :: 0 <= i < n ==> ranges[..n][i] == ranges[i];
    }
  }

  /** Any two ways to cut the same rows into ranges give identical outputs. */
  lemma PartitionsAgree<F>(ops: Ops<F>, a: Arg<F>, rows: nat, y: seq<F>, p: seq<(nat, nat)>, q: seq<(nat, nat)>)
    requires |y| == rows && Holds(a, rows)
    requires forall o :: 0 <= o < rows ==> (Covered(p, o) <==> Covered(q, o))
    ensures WrittenAll(ops, a, rows, y, p) == WrittenAll(ops, a, rows, y, q)
  {
    forall o | 0 <= o < rows
      ensures WrittenAll(ops, a, rows, y, p)[o] == WrittenAll(ops, a, rows, y, q)[o]
    {
      RangesDoNotMatter(ops, a, rows, y, p, o);
      RangesDoNotMatter(ops, a, rows, y, q, o);
    }
  }
}
