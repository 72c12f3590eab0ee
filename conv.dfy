/**
  `Conv2D`: a bank of square filters slid over a two-dimensional grid of
  input nodes, each window's weighted sum plus the filter's bias passed
  through tanh.

  Filters and biases are leaves of the arena; the layer holds their
  indices.  The forward pass builds, for every filter and every output
  position in row-major order, the expression
  `tanh(sum over the window of input * weight + bias)`.
 */
module Conv {
  import opened Graph
  import opened Backprop
  import opened Nn

  datatype Option<T> = None | Some(value: T)

  datatype Conv2D = Conv2D(
    inputHeight: nat, inputWidth: nat, kernelSize: nat, numFilters: nat,
    outputHeight: int, outputWidth: int,
    filters: seq<seq<nat>>, biases: seq<nat>)

  /** The number of output rows the forward loops produce (`i <= inputHeight - kernelSize`). */
  function Rows(c: Conv2D): nat
  {
    if c.kernelSize <= c.inputHeight then c.inputHeight - c.kernelSize + 1 else 0
  }

  /** The number of output columns the forward loops produce. */
  function Cols(c: Conv2D): nat
  {
    if c.kernelSize <= c.inputWidth then c.inputWidth - c.kernelSize + 1 else 0
  }

  /** The stored output dimensions are the loop counts whenever they are not negative. */
  lemma OutputDimensions(c: Conv2D)
    requires c.outputHeight == c.inputHeight - c.kernelSize + 1
    requires c.outputWidth == c.inputWidth - c.kernelSize + 1
    ensures Rows(c) == if c.outputHeight < 0 then 0 else c.outputHeight
    ensures Cols(c) == if c.outputWidth < 0 then 0 else c.outputWidth
  {
  }

  /** The filters and biases of c are nodes of t, with numFilters filters of k * k weights. */
  predicate ConvOk(t: Arena, c: Conv2D)
  {
    |c.filters| == c.numFilters && |c.biases| == c.numFilters && Fit(t, c.biases)
    && forall f :: 0 <= f < |c.filters| ==>
      |c.filters[f]| == c.kernelSize * c.kernelSize && Fit(t, c.filters[f])
  }

  /** The input grid has every cell the windows read, each a node of t. */
  predicate InputOk(t: Arena, c: Conv2D, xs: seq<seq<nat>>)
  {
    0 < c.kernelSize <= c.inputHeight && c.kernelSize <= c.inputWidth ==>
      forall r: nat, q: nat :: r < c.inputHeight && q < c.inputWidth ==> CellIn(t, xs, r, q)
  }

  /** Cell (r, q) of the grid exists and is a node of t. */
  predicate CellIn(t: Arena, xs: seq<seq<nat>>, r: nat, q: nat)
  {
    r < |xs| && q < |xs[r]| && xs[r][q] < |t|
  }

  /** The k-by-k window at (i, j) lies inside the grid. */
  predicate InWindow(t: Arena, xs: seq<seq<nat>>, i: nat, j: nat, k: nat)
  {
    forall r: nat, q: nat :: i <= r < i + k && j <= q < j + k ==> CellIn(t, xs, r, q)
  }

  lemma InWindowGrow(t: Arena, t': Arena, xs: seq<seq<nat>>, i: nat, j: nat, k: nat)
    requires InWindow(t, xs, i, j, k) && |t| <= |t'|
    ensures InWindow(t', xs, i, j, k)
  {
    forall r: nat, q: nat | i <= r < i + k && j <= q < j + k ensures CellIn(t', xs, r, q) {
      assert CellIn(t, xs, r, q);
    }
  }

  lemma InputWindow(t: Arena, c: Conv2D, xs: seq<seq<nat>>, i: nat, j: nat)
    requires InputOk(t, c, xs) && i < Rows(c) && j < Cols(c)
    ensures InWindow(t, xs, i, j, c.kernelSize)
  {
    var k := c.kernelSize;
    forall r: nat, q: nat | i <= r < i + k && j <= q < j + k ensures CellIn(t, xs, r, q) {
      assert r < c.inputHeight && q < c.inputWidth;
    }
  }

  /** Row-major positions: a cell before (i, j) has a smaller flat index. */
  lemma RowMajor(a: nat, b: nat, i: nat, j: nat, n: nat)
    requires b < n && j <= n && (a < i || (a == i && b < j))
    ensures a * n + b < i * n + j
  {
    if a < i {
      assert (a + 1) * n <= i * n by {
        assert i * n == (a + 1) * n + (i - a - 1) * n;
      }
    }
  }

  /** The flat filter index ki * k + kj stays below k * k. */
  lemma FilterIndexBound(k: nat, ki: nat, kj: nat)
    requires ki < k && kj < k
    ensures Times(ki, k) + kj < Times(k, k)
  {
    TimesIsProduct(ki, k);
    TimesIsProduct(k, k);
    RowMajor(ki, kj, k, 0, k);
  }

  /**
    The window sum at (i, j) over the cells visited before (ki, kj), in the
    order of the forward loops; Window(.., k, 0) is the whole window.
   */
  function Window(t: Arena, xs: seq<seq<nat>>, filter: seq<nat>, k: nat, i: nat, j: nat, ki: nat, kj: nat): real
    requires InWindow(t, xs, i, j, k) && |filter| == Times(k, k) && Fit(t, filter)
    requires ki <= k && kj <= k && (kj == 0 || ki < k)
    decreases ki, kj
  {
    if kj == 0 then
      if ki == 0 then 0.0 else Window(t, xs, filter, k, i, j, ki - 1, k)
    else
      FilterIndexBound(k, ki, kj - 1);
      assert CellIn(t, xs, i + ki, j + kj - 1);
      Window(t, xs, filter, k, i, j, ki, kj - 1)
        + Prod(t[xs[i + ki][j + kj - 1]].data, t[filter[Times(ki, k) + kj - 1]].data)
  }

  lemma {:induction false} WindowExtends(t: Arena, t': Arena, xs: seq<seq<nat>>, filter: seq<nat>, k: nat, i: nat, j: nat, ki: nat, kj: nat)
    requires Extends(t, t') && InWindow(t, xs, i, j, k) && |filter| == Times(k, k) && Fit(t, filter)
    requires ki <= k && kj <= k && (kj == 0 || ki < k)
    ensures InWindow(t', xs, i, j, k) && Fit(t', filter)
    ensures Window(t', xs, filter, k, i, j, ki, kj) == Window(t, xs, filter, k, i, j, ki, kj)
    decreases ki, kj
  {
    InWindowGrow(t, t', xs, i, j, k);
    if kj == 0 {
      if ki > 0 {
        WindowExtends(t, t', xs, filter, k, i, j, ki - 1, k);
      }
    } else {
      FilterIndexBound(k, ki, kj - 1);
      WindowExtends(t, t', xs, filter, k, i, j, ki, kj - 1);
      assert CellIn(t, xs, i + ki, j + kj - 1);
      ExtendsAt(t, t', xs[i + ki][j + kj - 1]);
      ExtendsAt(t, t', filter[Times(ki, k) + kj - 1]);
    }
  }

  /** What the forward pass computes at output (i, j) of filter f. */
  function ConvAt(t: Arena, c: Conv2D, xs: seq<seq<nat>>, f: nat, i: nat, j: nat, exp: ExpFn): real
    requires ConvOk(t, c) && InputOk(t, c, xs) && f < c.numFilters && i < Rows(c) && j < Cols(c)
  {
    InputWindow(t, c, xs, i, j);
    var k := c.kernelSize;
    TimesIsProduct(k, k);
    TanhOf(exp, Window(t, xs, c.filters[f], k, i, j, k, 0) + t[c.biases[f]].data)
  }

  /**
    Node out of t is output (i, j) of filter f: a tanh node holding ConvAt
    over the arena t0 the pass started from, from which the filter's bias
    and every weight of the filter are reachable.
   */
  ghost predicate PixelOk(t0: Arena, t: Arena, c: Conv2D, xs: seq<seq<nat>>, f: nat, i: nat, j: nat, exp: ExpFn, out: nat)
    requires ConvOk(t0, c) && InputOk(t0, c, xs) && f < c.numFilters && i < Rows(c) && j < Cols(c)
    requires WellFormed(t)
  {
    out < |t| && t[out].op.Tanh? && t[out].data == ConvAt(t0, c, xs, f, i, j, exp)
    && c.biases[f] in Reach(t, out)
    && forall q :: 0 <= q < |c.filters[f]| ==> c.filters[f][q] in Reach(t, out)
  }

  lemma PixelOkExtends(t0: Arena, t: Arena, t': Arena, c: Conv2D, xs: seq<seq<nat>>, f: nat, i: nat, j: nat, exp: ExpFn, out: nat)
    requires ConvOk(t0, c) && InputOk(t0, c, xs) && f < c.numFilters && i < Rows(c) && j < Cols(c)
    requires WellFormed(t) && WellFormed(t') && Extends(t, t')
    requires PixelOk(t0, t, c, xs, f, i, j, exp, out)
    ensures PixelOk(t0, t', c, xs, f, i, j, exp, out)
  {
    ExtendsAt(t, t', out);
    ReachExtends(t, t', out);
  }

  /** The state of the window loops of the forward pass after the cells before (ki, kj). */
  ghost predicate PixelAcc(t: Arena, t': Arena, xs: seq<seq<nat>>, filter: seq<nat>, k: nat, i: nat, j: nat,
                           ki: nat, kj: nat, idx: nat, sum: Option<nat>)
    requires InWindow(t, xs, i, j, k) && |filter| == Times(k, k) && Fit(t, filter)
    requires ki <= k && kj <= k && (kj == 0 || ki < k)
  {
    WellFormed(t') && Extends(t, t') && idx == Times(ki, k) + kj && idx <= |filter|
    && (sum.None? <==> idx == 0)
    && (sum.Some? ==>
      sum.value < |t'| && t'[sum.value].data == Window(t, xs, filter, k, i, j, ki, kj)
      && forall q :: 0 <= q < idx ==> filter[q] in Reach(t', sum.value))
  }

  /** One cell: `inputVal.mul(filter[idx])`, added to the running sum unless it is the first. */
  function WindowStep(t: Arena, sum: Option<nat>, input: nat, weight: nat): (r: Arena)
    requires WellFormed(t) && input < |t| && weight < |t| && (sum.Some? ==> sum.value < |t|)
  {
    if sum.None? then MulOp(t, input, Ref(weight)) else MulAdd(t, sum.value, input, Ref(weight))
  }

  lemma WindowStepFacts(t: Arena, t': Arena, xs: seq<seq<nat>>, filter: seq<nat>, k: nat, i: nat, j: nat,
                        ki: nat, kj: nat, idx: nat, sum: Option<nat>)
    requires InWindow(t, xs, i, j, k) && |filter| == Times(k, k) && Fit(t, filter)
    requires ki < k && kj < k
    requires PixelAcc(t, t', xs, filter, k, i, j, ki, kj, idx, sum)
    ensures CellIn(t', xs, i + ki, j + kj) && idx < |filter| && filter[idx] < |t'|
    ensures var t2 := WindowStep(t', sum, xs[i + ki][j + kj], filter[idx]);
      PixelAcc(t, t2, xs, filter, k, i, j, ki, kj + 1, idx + 1, Some(|t2| - 1))
  {
    if sum.None? {
      FirstCell(t, t', xs, filter, k, i, j, ki, kj, idx, sum);
    } else {
      NextCell(t, t', xs, filter, k, i, j, ki, kj, idx, sum);
    }
  }

  lemma FirstCell(t: Arena, t': Arena, xs: seq<seq<nat>>, filter: seq<nat>, k: nat, i: nat, j: nat,
                  ki: nat, kj: nat, idx: nat, sum: Option<nat>)
    requires InWindow(t, xs, i, j, k) && |filter| == Times(k, k) && Fit(t, filter)
    requires ki < k && kj < k
    requires PixelAcc(t, t', xs, filter, k, i, j, ki, kj, idx, sum)
    requires sum.None?
    ensures CellIn(t', xs, i + ki, j + kj) && idx < |filter| && filter[idx] < |t'|
    ensures var t2 := WindowStep(t', sum, xs[i + ki][j + kj], filter[idx]);
      PixelAcc(t, t2, xs, filter, k, i, j, ki, kj + 1, idx + 1, Some(|t2| - 1))
  {
    FilterIndexBound(k, ki, kj);
    assert CellIn(t, xs, i + ki, j + kj);
    var input := xs[i + ki][j + kj];
    var w := filter[idx];
    ExtendsAt(t, t', input);
    ExtendsAt(t, t', w);
    var t2 := WindowStep(t', sum, input, w);
    var s := |t2| - 1;
    ChildReach(t2, s, w);
    assert t2[s].data == Window(t, xs, filter, k, i, j, ki, kj + 1) by {
      assert ki == 0 && kj == 0;
    }
  }

  lemma NextCell(t: Arena, t': Arena, xs: seq<seq<nat>>, filter: seq<nat>, k: nat, i: nat, j: nat,
                 ki: nat, kj: nat, idx: nat, sum: Option<nat>)
    requires InWindow(t, xs, i, j, k) && |filter| == Times(k, k) && Fit(t, filter)
    requires ki < k && kj < k
    requires PixelAcc(t, t', xs, filter, k, i, j, ki, kj, idx, sum)
    requires sum.Some?
    ensures CellIn(t', xs, i + ki, j + kj) && idx < |filter| && filter[idx] < |t'|
    ensures var t2 := WindowStep(t', sum, xs[i + ki][j + kj], filter[idx]);
      PixelAcc(t, t2, xs, filter, k, i, j, ki, kj + 1, idx + 1, Some(|t2| - 1))
  {
    FilterIndexBound(k, ki, kj);
    assert CellIn(t, xs, i + ki, j + kj);
    var input := xs[i + ki][j + kj];
    var w := filter[idx];
    ExtendsAt(t, t', input);
    ExtendsAt(t, t', w);
    var t2 := WindowStep(t', sum, input, w);
    var s := |t2| - 1;
    MulAddFacts(t', sum.value, input, Ref(w));
    ExtendsTrans(t, t', t2);
    assert t2[s].data == Window(t, xs, filter, k, i, j, ki, kj + 1);
  }

  /**
    The window loops of `Conv2D.forward` at (i, j): over (ki, kj) in
    row-major order, with the running flat filter index.  The sum stays
    absent (`null`) when the kernel is empty.
   */
  method WindowSum(t: Arena, xs: seq<seq<nat>>, filter: seq<nat>, k: nat, i: nat, j: nat) returns (t': Arena, sum: Option<nat>)
    requires WellFormed(t) && InWindow(t, xs, i, j, k) && |filter| == Times(k, k) && Fit(t, filter)
    ensures PixelAcc(t, t', xs, filter, k, i, j, k, 0, Times(k, k), sum)
  {
    t' := t;
    assert t[..|t|] == t;
    sum := None;
    var filterIdx: nat := 0;
    for ki := 0 to k
      invariant PixelAcc(t, t', xs, filter, k, i, j, ki, 0, filterIdx, sum)
    {
      t', filterIdx, sum := WindowRow(t, t', xs, filter, k, i, j, ki, filterIdx, sum);
      NextRow(t, t', xs, filter, k, i, j, ki, filterIdx, sum);
    }
  }

  /** The inner loop of the window: the cells (ki, 0) .. (ki, k - 1). */
  method WindowRow(t: Arena, t0: Arena, xs: seq<seq<nat>>, filter: seq<nat>, k: nat, i: nat, j: nat, ki: nat,
                   idx0: nat, sum0: Option<nat>) returns (t': Arena, filterIdx: nat, sum: Option<nat>)
    requires InWindow(t, xs, i, j, k) && |filter| == Times(k, k) && Fit(t, filter) && ki < k
    requires PixelAcc(t, t0, xs, filter, k, i, j, ki, 0, idx0, sum0)
    ensures PixelAcc(t, t', xs, filter, k, i, j, ki, k, filterIdx, sum)
  {
    t', filterIdx, sum := t0, idx0, sum0;
    for kj := 0 to k
      invariant PixelAcc(t, t', xs, filter, k, i, j, ki, kj, filterIdx, sum)
    {
      WindowStepFacts(t, t', xs, filter, k, i, j, ki, kj, filterIdx, sum);
      t' := WindowStep(t', sum, xs[i + ki][j + kj], filter[filterIdx]);
      sum := Some(|t'| - 1);
      filterIdx := filterIdx + 1;
    }
  }

  /** The end of row ki is the start of row ki + 1. */
  lemma NextRow(t: Arena, t': Arena, xs: seq<seq<nat>>, filter: seq<nat>, k: nat, i: nat, j: nat, ki: nat,
                idx: nat, sum: Option<nat>)
    requires InWindow(t, xs, i, j, k) && |filter| == Times(k, k) && Fit(t, filter) && ki < k
    requires PixelAcc(t, t', xs, filter, k, i, j, ki, k, idx, sum)
    ensures PixelAcc(t, t', xs, filter, k, i, j, ki + 1, 0, idx, sum)
  {
    assert Times(ki + 1, k) == Times(ki, k) + k;
    if sum.Some? {
      assert Window(t, xs, filter, k, i, j, ki + 1, 0) == Window(t, xs, filter, k, i, j, ki, k);
    }
  }

  /** The fallback `new Value(0.0)` for an empty kernel, then `sum.add(bias).tanh()`. */
  function PixelTail(t: Arena, sum: Option<nat>, b: nat, exp: ExpFn): (r: Arena)
    requires WellFormed(t) && b < |t| && (sum.Some? ==> sum.value < |t|)
  {
    if sum.None? then
      PushWellFormed(t, Node(0.0, Leaf));
      AddBiasTanh(t + [Node(0.0, Leaf)], |t|, b, exp)
    else
      AddBiasTanh(t, sum.value, b, exp)
  }

  lemma PixelTailFacts(t: Arena, t': Arena, c: Conv2D, xs: seq<seq<nat>>, f: nat, i: nat, j: nat, exp: ExpFn, sum: Option<nat>)
    requires WellFormed(t) && ConvOk(t, c) && InputOk(t, c, xs)
    requires f < c.numFilters && i < Rows(c) && j < Cols(c)
    requires InWindow(t, xs, i, j, c.kernelSize)
    requires |c.filters[f]| == Times(c.kernelSize, c.kernelSize)
    requires PixelAcc(t, t', xs, c.filters[f], c.kernelSize, i, j, c.kernelSize, 0, Times(c.kernelSize, c.kernelSize), sum)
    ensures c.biases[f] < |t'| && (sum.Some? ==> sum.value < |t'|)
    ensures var r := PixelTail(t', sum, c.biases[f], exp);
      WellFormed(r) && Extends(t, r) && |t| < |r| && PixelOk(t, r, c, xs, f, i, j, exp, |r| - 1)
  {
    var b := c.biases[f];
    ExtendsAt(t, t', b);
    var r := PixelTail(t', sum, b, exp);
    if sum.None? {
      var t1 := t' + [Node(0.0, Leaf)];
      PushWellFormed(t', Node(0.0, Leaf));
      assert t1[..|t'|] == t';
      ExtendsTrans(t, t', t1);
      ExtendsAt(t', t1, b);
      AddBiasTanhFacts(t1, |t'|, b, exp);
      ExtendsTrans(t, t1, r);
      assert c.kernelSize == 0;
    } else {
      AddBiasTanhFacts(t', sum.value, b, exp);
      ExtendsTrans(t, t', r);
    }
  }

  /**
    One output of `Conv2D.forward`: the window sum, then the bias and tanh.
    The result is the last node appended.
   */
  method ConvPixel(t: Arena, c: Conv2D, xs: seq<seq<nat>>, f: nat, i: nat, j: nat, exp: ExpFn) returns (t': Arena)
    requires WellFormed(t) && ConvOk(t, c) && InputOk(t, c, xs)
    requires f < c.numFilters && i < Rows(c) && j < Cols(c)
    ensures WellFormed(t') && Extends(t, t') && |t| < |t'|
    ensures PixelOk(t, t', c, xs, f, i, j, exp, |t'| - 1)
  {
    InputWindow(t, c, xs, i, j);
    TimesIsProduct(c.kernelSize, c.kernelSize);
    var t1, sum := WindowSum(t, xs, c.filters[f], c.kernelSize, i, j);
    PixelTailFacts(t, t1, c, xs, f, i, j, exp, sum);
    t' := PixelTail(t1, sum, c.biases[f], exp);
  }

  // ---------------------------------------------------------------------
  // Moving results to a larger arena
  // ---------------------------------------------------------------------

  lemma ConvOkGrow(t: Arena, t': Arena, c: Conv2D)
    requires ConvOk(t, c) && |t| <= |t'|
    ensures ConvOk(t', c)
  {
    forall f | 0 <= f < |c.filters| ensures Fit(t', c.filters[f]) {
      assert Fit(t, c.filters[f]);
    }
  }

  lemma InputOkGrow(t: Arena, t': Arena, c: Conv2D, xs: seq<seq<nat>>)
    requires InputOk(t, c, xs) && |t| <= |t'|
    ensures InputOk(t', c, xs)
  {
    if 0 < c.kernelSize <= c.inputHeight && c.kernelSize <= c.inputWidth {
      forall r: nat, q: nat | r < c.inputHeight && q < c.inputWidth ensures CellIn(t', xs, r, q) {
        assert CellIn(t, xs, r, q);
      }
    }
  }

  /** An output's value depends only on nodes already in the arena. */
  lemma ConvAtExtends(t: Arena, t': Arena, c: Conv2D, xs: seq<seq<nat>>, f: nat, i: nat, j: nat, exp: ExpFn)
    requires Extends(t, t') && ConvOk(t, c) && InputOk(t, c, xs)
    requires f < c.numFilters && i < Rows(c) && j < Cols(c)
    ensures ConvOk(t', c) && InputOk(t', c, xs)
    ensures ConvAt(t', c, xs, f, i, j, exp) == ConvAt(t, c, xs, f, i, j, exp)
  {
    ConvOkGrow(t, t', c);
    InputOkGrow(t, t', c, xs);
    InputWindow(t, c, xs, i, j);
    var k := c.kernelSize;
    TimesIsProduct(k, k);
    WindowExtends(t, t', xs, c.filters[f], k, i, j, k, 0);
    ExtendsAt(t, t', c.biases[f]);
  }

  /**
    A pixel result stays one when the pass it is stated against started
    from an older arena (t0 rather than t0') and when more nodes are
    appended (t' rather than t).
   */
  lemma PixelOkMove(t0: Arena, t0': Arena, t: Arena, t': Arena, c: Conv2D, xs: seq<seq<nat>>, f: nat, i: nat, j: nat, exp: ExpFn, out: nat)
    requires Extends(t0, t0') && ConvOk(t0, c) && InputOk(t0, c, xs)
    requires f < c.numFilters && i < Rows(c) && j < Cols(c)
    requires WellFormed(t) && WellFormed(t') && Extends(t, t')
    requires ConvOk(t0', c) && InputOk(t0', c, xs) && PixelOk(t0', t, c, xs, f, i, j, exp, out)
    ensures PixelOk(t0, t', c, xs, f, i, j, exp, out)
  {
    ConvAtExtends(t0, t0', c, xs, f, i, j, exp);
    PixelOkExtends(t0', t, t', c, xs, f, i, j, exp, out);
  }

  // ---------------------------------------------------------------------
  // Channels and the whole forward pass
  // ---------------------------------------------------------------------

  /** Entry (a, b) of channel ch, at flat position a * Cols + b, is output (a, b) of filter f. */
  ghost predicate ChannelCell(t0: Arena, t: Arena, c: Conv2D, xs: seq<seq<nat>>, f: nat, exp: ExpFn, ch: seq<nat>, a: nat, b: nat)
    requires ConvOk(t0, c) && InputOk(t0, c, xs) && f < c.numFilters && a < Rows(c) && b < Cols(c)
    requires WellFormed(t)
  {
    Times(a, Cols(c)) + b < |ch| && PixelOk(t0, t, c, xs, f, a, b, exp, ch[Times(a, Cols(c)) + b])
  }

  /**
    ch is output channel f of the pass started from t0: Rows * Cols nodes
    in row-major order, each the output at its position.
   */
  ghost predicate ChannelOk(t0: Arena, t: Arena, c: Conv2D, xs: seq<seq<nat>>, f: nat, exp: ExpFn, ch: seq<nat>)
    requires ConvOk(t0, c) && InputOk(t0, c, xs) && f < c.numFilters && WellFormed(t)
  {
    |ch| == Rows(c) * Cols(c)
    && forall a: nat, b: nat :: a < Rows(c) && b < Cols(c) ==> ChannelCell(t0, t, c, xs, f, exp, ch, a, b)
  }

  /** Row-major positions counted with Times. */
  lemma TimesRowMajor(a: nat, b: nat, i: nat, j: nat, n: nat)
    requires b < n && j <= n && (a < i || (a == i && b < j))
    ensures Times(a, n) + b < Times(i, n) + j
  {
    TimesIsProduct(a, n);
    TimesIsProduct(i, n);
    RowMajor(a, b, i, j, n);
  }

  /** The invariant of the column loop of one channel, before position (i, j). */
  ghost predicate ChannelPrefix(t0: Arena, t: Arena, c: Conv2D, xs: seq<seq<nat>>, f: nat, exp: ExpFn, ch: seq<nat>, i: nat, j: nat)
    requires ConvOk(t0, c) && InputOk(t0, c, xs) && f < c.numFilters && i <= Rows(c)
  {
    WellFormed(t) && Extends(t0, t) && |ch| == Times(i, Cols(c)) + j
    && forall a: nat, b: nat :: a <= i && a < Rows(c) && b < Cols(c) && (a < i || b < j) ==>
      ChannelCell(t0, t, c, xs, f, exp, ch, a, b)
  }

  lemma ChannelStep(t0: Arena, t: Arena, t1: Arena, c: Conv2D, xs: seq<seq<nat>>, f: nat, exp: ExpFn, ch: seq<nat>, i: nat, j: nat)
    requires ConvOk(t0, c) && InputOk(t0, c, xs) && f < c.numFilters && i < Rows(c) && j < Cols(c)
    requires ChannelPrefix(t0, t, c, xs, f, exp, ch, i, j)
    requires WellFormed(t1) && Extends(t, t1) && |t| < |t1|
    requires ConvOk(t, c) && InputOk(t, c, xs) && PixelOk(t, t1, c, xs, f, i, j, exp, |t1| - 1)
    ensures ChannelPrefix(t0, t1, c, xs, f, exp, ch + [|t1| - 1], i, j + 1)
  {
    var ch' := ch + [|t1| - 1];
    ExtendsTrans(t0, t, t1);
    forall a: nat, b: nat | a <= i && a < Rows(c) && b < Cols(c) && (a < i || b < j + 1)
      ensures ChannelCell(t0, t1, c, xs, f, exp, ch', a, b)
    {
      if a < i || b < j {
        assert ChannelCell(t0, t, c, xs, f, exp, ch, a, b);
        EarlierCell(t0, t, t1, c, xs, f, exp, ch, |t1| - 1, i, j, a, b);
      } else {
        NewCell(t0, t, t1, c, xs, f, exp, ch, i, j);
      }
    }
  }

  /** An output listed before position (i, j) stays where it was, and stays correct. */
  lemma EarlierCell(t0: Arena, t: Arena, t1: Arena, c: Conv2D, xs: seq<seq<nat>>, f: nat, exp: ExpFn, ch: seq<nat>, out: nat,
                    i: nat, j: nat, a: nat, b: nat)
    requires ConvOk(t0, c) && InputOk(t0, c, xs) && f < c.numFilters && a < Rows(c) && b < Cols(c)
    requires (a < i || (a == i && b < j)) && j <= Cols(c) && |ch| == Times(i, Cols(c)) + j
    requires WellFormed(t) && WellFormed(t1) && Extends(t, t1)
    requires ChannelCell(t0, t, c, xs, f, exp, ch, a, b)
    ensures ChannelCell(t0, t1, c, xs, f, exp, ch + [out], a, b)
  {
    TimesRowMajor(a, b, i, j, Cols(c));
    PixelOkMove(t0, t0, t, t1, c, xs, f, a, b, exp, ch[Times(a, Cols(c)) + b]);
  }

  /** The output just pushed sits at position (i, j). */
  lemma NewCell(t0: Arena, t: Arena, t1: Arena, c: Conv2D, xs: seq<seq<nat>>, f: nat, exp: ExpFn, ch: seq<nat>, i: nat, j: nat)
    requires ConvOk(t0, c) && InputOk(t0, c, xs) && f < c.numFilters && i < Rows(c) && j < Cols(c)
    requires Extends(t0, t) && |ch| == Times(i, Cols(c)) + j
    requires WellFormed(t1) && Extends(t, t1) && |t| < |t1|
    requires ConvOk(t, c) && InputOk(t, c, xs) && PixelOk(t, t1, c, xs, f, i, j, exp, |t1| - 1)
    ensures ChannelCell(t0, t1, c, xs, f, exp, ch + [|t1| - 1], i, j)
  {
    PixelOkMove(t0, t, t1, t1, c, xs, f, i, j, exp, |t1| - 1);
  }

  lemma ChannelRowDone(t0: Arena, t: Arena, c: Conv2D, xs: seq<seq<nat>>, f: nat, exp: ExpFn, ch: seq<nat>, i: nat)
    requires ConvOk(t0, c) && InputOk(t0, c, xs) && f < c.numFilters && i < Rows(c)
    requires ChannelPrefix(t0, t, c, xs, f, exp, ch, i, Cols(c))
    ensures ChannelPrefix(t0, t, c, xs, f, exp, ch, i + 1, 0)
  {
  }

  lemma ChannelDone(t0: Arena, t: Arena, c: Conv2D, xs: seq<seq<nat>>, f: nat, exp: ExpFn, ch: seq<nat>)
    requires ConvOk(t0, c) && InputOk(t0, c, xs) && f < c.numFilters
    requires ChannelPrefix(t0, t, c, xs, f, exp, ch, Rows(c), 0)
    ensures ChannelOk(t0, t, c, xs, f, exp, ch)
  {
    TimesIsProduct(Rows(c), Cols(c));
  }

  /**
    The loops over output positions of one filter in `Conv2D.forward`:
    row i from 0 while `i <= inputHeight - kernelSize`, column j likewise,
    each output pushed onto `outputChannel`.
   */
  method ConvChannel(t: Arena, c: Conv2D, xs: seq<seq<nat>>, f: nat, exp: ExpFn) returns (t': Arena, channel: seq<nat>)
    requires WellFormed(t) && ConvOk(t, c) && InputOk(t, c, xs) && f < c.numFilters
    ensures WellFormed(t') && Extends(t, t')
    ensures ChannelOk(t, t', c, xs, f, exp, channel)
  {
    t' := t;
    assert t[..|t|] == t;
    channel := [];
    for i := 0 to Rows(c)
      invariant ChannelPrefix(t, t', c, xs, f, exp, channel, i, 0)
    {
      for j := 0 to Cols(c)
        invariant ChannelPrefix(t, t', c, xs, f, exp, channel, i, j)
      {
        ConvOkGrow(t, t', c);
        InputOkGrow(t, t', c, xs);
        var t1 := ConvPixel(t', c, xs, f, i, j, exp);
        ChannelStep(t, t', t1, c, xs, f, exp, channel, i, j);
        channel := channel + [|t1| - 1];
        t' := t1;
      }
      ChannelRowDone(t, t', c, xs, f, exp, channel, i);
    }
    ChannelDone(t, t', c, xs, f, exp, channel);
  }

  lemma ChannelOkMove(t0: Arena, t0': Arena, t: Arena, t': Arena, c: Conv2D, xs: seq<seq<nat>>, f: nat, exp: ExpFn, ch: seq<nat>)
    requires Extends(t0, t0') && ConvOk(t0, c) && InputOk(t0, c, xs) && f < c.numFilters
    requires WellFormed(t) && WellFormed(t') && Extends(t, t')
    requires ConvOk(t0', c) && InputOk(t0', c, xs) && ChannelOk(t0', t, c, xs, f, exp, ch)
    ensures ChannelOk(t0, t', c, xs, f, exp, ch)
  {
    forall a: nat, b: nat | a < Rows(c) && b < Cols(c) ensures ChannelCell(t0, t', c, xs, f, exp, ch, a, b) {
      assert ChannelCell(t0', t, c, xs, f, exp, ch, a, b);
      PixelOkMove(t0, t0', t, t', c, xs, f, a, b, exp, ch[Times(a, Cols(c)) + b]);
    }
  }

  /**
    `Conv2D.forward(xs)`: one channel per filter, in filter order.  Channel f
    holds (H - k + 1) * (W - k + 1) outputs in row-major order (none when the
    kernel is larger than the input); the output at (i, j) is tanh of the sum
    over the window at (i, j) of input * weight, plus the filter's bias, and
    the filter's weights and bias are all reachable from it.
   */
  method ConvForward(t: Arena, c: Conv2D, xs: seq<seq<nat>>, exp: ExpFn) returns (t': Arena, results: seq<seq<nat>>)
    requires WellFormed(t) && ConvOk(t, c) && InputOk(t, c, xs)
    ensures WellFormed(t') && Extends(t, t')
    ensures |results| == c.numFilters
    ensures forall f :: 0 <= f < |results| ==> ChannelOk(t, t', c, xs, f, exp, results[f])
  {
    t' := t;
    assert t[..|t|] == t;
    results := [];
    for f := 0 to c.numFilters
      invariant WellFormed(t') && Extends(t, t') && |results| == f
      invariant forall g :: 0 <= g < f ==> ChannelOk(t, t', c, xs, g, exp, results[g])
    {
      ConvOkGrow(t, t', c);
      InputOkGrow(t, t', c, xs);
      var t1, channel := ConvChannel(t', c, xs, f, exp);
      forall g | 0 <= g < f ensures ChannelOk(t, t1, c, xs, g, exp, results[g]) {
        ChannelOkMove(t, t, t', t1, c, xs, g, exp, results[g]);
      }
      ChannelOkMove(t, t', t1, t1, c, xs, f, exp, channel);
      ExtendsTrans(t, t', t1);
      results := results + [channel];
      t' := t1;
    }
  }

  // ---------------------------------------------------------------------
  // Construction and parameters
  // ---------------------------------------------------------------------

  /** Draws scaled by 0.1, the initial values of filter weights and biases. */
  function Scaled(draws: seq<real>): (r: seq<real>)
    ensures |r| == |draws|
    ensures forall m :: 0 <= m < |r| ==> r[m] == draws[m] * 0.1
  {
    seq(|draws|, m requires 0 <= m < |draws| => draws[m] * 0.1)
  }

  /** Appending the leaf of the next scaled draw extends the leaves of the prefix before it. */
  lemma AppendScaledOne(t: Arena, t': Arena, draws: seq<real>, m: nat)
    requires m < |draws| && t' == t + Leaves(Scaled(draws[..m]))
    ensures t' + [Node(draws[m] * 0.1, Leaf)] == t + Leaves(Scaled(draws[..m + 1]))
  {
    var r := t + Leaves(Scaled(draws[..m + 1]));
    var r' := t' + [Node(draws[m] * 0.1, Leaf)];
    assert |r'| == |r|;
    forall q | 0 <= q < |r| ensures r'[q] == r[q] {
      if q >= |t| {
        assert r[q] == Leaves(Scaled(draws[..m + 1]))[q - |t|];
        if q < |t'| {
          assert r'[q] == Leaves(Scaled(draws[..m]))[q - |t|];
        }
      }
    }
  }

  /** Appending the leaves of the next chunk of scaled draws extends the leaves of the prefix before it. */
  lemma AppendScaled(t: Arena, t': Arena, t1: Arena, draws: seq<real>, a: nat, b: nat)
    requires a <= b <= |draws|
    requires t' == t + Leaves(Scaled(draws[..a])) && t1 == t' + Leaves(Scaled(draws[a..b]))
    ensures t1 == t + Leaves(Scaled(draws[..b]))
  {
    var r := t + Leaves(Scaled(draws[..b]));
    assert |t1| == |r|;
    forall q | 0 <= q < |r| ensures t1[q] == r[q] {
      if q >= |t'| {
        assert t1[q] == Leaves(Scaled(draws[a..b]))[q - |t'|];
      } else if q >= |t| {
        assert t1[q] == t'[q] == Leaves(Scaled(draws[..a]))[q - |t|];
      }
    }
  }

  /** The filters one after another. */
  function Flatten(fs: seq<seq<nat>>): seq<nat>
  {
    if fs == [] then [] else Flatten(fs[..|fs| - 1]) + fs[|fs| - 1]
  }

  lemma FlattenPush(fs: seq<seq<nat>>, x: seq<nat>)
    ensures Flatten(fs + [x]) == Flatten(fs) + x
  {
    assert (fs + [x])[..|fs|] == fs;
  }

  /** Filters of n weights each hold n * |fs| weights in all. */
  lemma {:induction false} FlattenLength(fs: seq<seq<nat>>, n: nat)
    requires forall f :: 0 <= f < |fs| ==> |fs[f]| == n
    ensures |Flatten(fs)| == Times(|fs|, n)
  {
    if fs != [] {
      FlattenLength(fs[..|fs| - 1], n);
    }
  }

  /**
    The inner loops of the constructor for one filter: k * k leaves, row by
    row, each holding the next draw scaled by 0.1.
   */
  method NewFilter(t: Arena, k: nat, draws: seq<real>) returns (t': Arena, filter: seq<nat>)
    requires WellFormed(t) && |draws| == Times(k, k)
    ensures t' == t + Leaves(Scaled(draws)) && WellFormed(t')
    ensures filter == Range(|t|, |t'|)
  {
    t' := t;
    filter := [];
    assert t + Leaves(Scaled(draws[..0])) == t;
    for i := 0 to k
      invariant Times(i, k) <= Times(k, k)
      invariant FilterBuilt(t, t', filter, draws, Times(i, k))
    {
      t', filter := NewFilterRow(t, t', filter, k, i, draws);
    }
    assert draws[..Times(k, k)] == draws;
    LeavesWellFormed(t, Scaled(draws));
  }

  /** Row i of a filter: the inner loop of the constructor, k leaves. */
  method NewFilterRow(t: Arena, t0: Arena, filter0: seq<nat>, k: nat, i: nat, draws: seq<real>) returns (t': Arena, filter: seq<nat>)
    requires i < k && |draws| == Times(k, k) && FilterBuilt(t, t0, filter0, draws, Times(i, k))
    ensures FilterBuilt(t, t', filter, draws, Times(i + 1, k))
  {
    t', filter := t0, filter0;
    for j := 0 to k
      invariant FilterBuilt(t, t', filter, draws, Times(i, k) + j)
    {
      FilterIndexBound(k, i, j);
      var m := Times(i, k) + j;
      FilterStep(t, t', filter, draws, m);
      filter := filter + [|t'|];
      t' := t' + [Node(draws[m] * 0.1, Leaf)];
    }
  }

  /** The invariant of the weight loops of one filter, after m weights. */
  ghost predicate FilterBuilt(t: Arena, t': Arena, filter: seq<nat>, draws: seq<real>, m: nat)
  {
    m <= |draws| && t' == t + Leaves(Scaled(draws[..m])) && filter == Range(|t|, |t'|)
  }

  lemma FilterStep(t: Arena, t': Arena, filter: seq<nat>, draws: seq<real>, m: nat)
    requires FilterBuilt(t, t', filter, draws, m) && m < |draws|
    ensures FilterBuilt(t, t' + [Node(draws[m] * 0.1, Leaf)], filter + [|t'|], draws, m + 1)
  {
    AppendScaledOne(t, t', draws, m);
  }

  /** The invariant of the filter loop of the constructor, after f filters of n leaves. */
  ghost predicate FiltersBuilt(t: Arena, t': Arena, filters: seq<seq<nat>>, n: nat, draws: seq<real>, f: nat)
  {
    Times(f, n) <= |draws| && t' == t + Leaves(Scaled(draws[..Times(f, n)])) && WellFormed(t')
    && |filters| == f && Flatten(filters) == Range(|t|, |t'|)
    && forall g :: 0 <= g < f ==> |filters[g]| == n && Fit(t', filters[g])
  }

  lemma FiltersBuiltStep(t: Arena, t': Arena, filters: seq<seq<nat>>, n: nat, draws: seq<real>, f: nat, t1: Arena, filter: seq<nat>)
    requires FiltersBuilt(t, t', filters, n, draws, f) && Times(f + 1, n) <= |draws|
    requires t1 == t' + Leaves(Scaled(draws[Times(f, n)..Times(f + 1, n)])) && WellFormed(t1)
    requires filter == Range(|t'|, |t1|)
    ensures FiltersBuilt(t, t1, filters + [filter], n, draws, f + 1)
  {
    var fs := filters + [filter];
    AppendScaled(t, t', t1, draws, Times(f, n), Times(f + 1, n));
    assert Flatten(fs) == Range(|t|, |t1|) by {
      FlattenPush(filters, filter);
      RangeConcat(|t|, |t'|, |t1|);
    }
    forall g | 0 <= g < f + 1 ensures |fs[g]| == n && Fit(t1, fs[g]) {
      if g < f {
        assert Fit(t', filters[g]);
      }
    }
  }

  /** The filter loop of the constructor: nf filters of k * k leaves each. */
  method NewFilters(t: Arena, k: nat, nf: nat, draws: seq<real>) returns (t': Arena, filters: seq<seq<nat>>)
    requires WellFormed(t) && |draws| == Times(nf, Times(k, k))
    ensures t' == t + Leaves(Scaled(draws)) && WellFormed(t')
    ensures |filters| == nf && Flatten(filters) == Range(|t|, |t'|)
    ensures forall g :: 0 <= g < nf ==> |filters[g]| == Times(k, k) && Fit(t', filters[g])
  {
    var n := Times(k, k);
    t' := t;
    filters := [];
    assert t + Leaves(Scaled(draws[..0])) == t;
    for f := 0 to nf
      invariant Times(f, n) <= Times(nf, n)
      invariant FiltersBuilt(t, t', filters, n, draws, f)
    {
      var used := Times(f, n);
      TimesMonotonic(f + 1, nf, n);
      var t1, filter := NewFilter(t', k, draws[used..used + n]);
      FiltersBuiltStep(t, t', filters, n, draws, f, t1, filter);
      filters := filters + [filter];
      t' := t1;
    }
    assert draws[..Times(nf, n)] == draws;
  }

  /** The bias loop of the constructor: nf leaves, each holding the next draw scaled by 0.1. */
  method NewBiases(t: Arena, nf: nat, draws: seq<real>) returns (t': Arena, biases: seq<nat>)
    requires WellFormed(t) && |draws| == nf
    ensures t' == t + Leaves(Scaled(draws)) && WellFormed(t')
    ensures biases == Range(|t|, |t'|)
  {
    t' := t;
    biases := [];
    assert t + Leaves(Scaled(draws[..0])) == t;
    for f := 0 to nf
      invariant FilterBuilt(t, t', biases, draws, f)
    {
      FilterStep(t, t', biases, draws, f);
      biases := biases + [|t'|];
      t' := t' + [Node(draws[f] * 0.1, Leaf)];
    }
    assert draws[..nf] == draws;
    LeavesWellFormed(t, Scaled(draws));
  }

  /**
    `new Conv2D(inputHeight, inputWidth, kernelSize, numFilters)`: the output
    dimensions H - k + 1 and W - k + 1; then numFilters filters of k * k
    weight leaves in filter, row, column order; then one bias leaf per
    filter.  Every leaf holds the next draw scaled by 0.1.
   */
  method NewConv(t: Arena, h: nat, w: nat, k: nat, nf: nat, draws: seq<real>) returns (t': Arena, c: Conv2D)
    requires WellFormed(t) && |draws| == nf * (k * k) + nf
    ensures t' == t + Leaves(Scaled(draws)) && WellFormed(t')
    ensures c.inputHeight == h && c.inputWidth == w && c.kernelSize == k && c.numFilters == nf
    ensures c.outputHeight == h - k + 1 && c.outputWidth == w - k + 1
    ensures ConvOk(t', c)
    ensures Flatten(c.filters) == Range(|t|, |t| + nf * (k * k))
    ensures c.biases == Range(|t| + nf * (k * k), |t'|)
  {
    var n := Times(k, k);
    TimesIsProduct(k, k);
    var total := Times(nf, n);
    TimesIsProduct(nf, n);
    assert total == nf * (k * k);
    var t1, filters := NewFilters(t, k, nf, draws[..total]);
    var biases;
    t', biases := NewBiases(t1, nf, draws[total..]);
    assert draws[..total] == draws[..total][..total] && draws[total..] == draws[total..|draws|];
    AppendScaled(t, t1, t', draws, total, |draws|);
    assert draws[..|draws|] == draws;
    forall g | 0 <= g < nf ensures Fit(t', filters[g]) {
      assert Fit(t1, filters[g]);
    }
    c := Conv2D(h, w, k, nf, h - k + 1, w - k + 1, filters, biases);
  }

  /** `Conv2D.params()`: the biases, then filter 0, filter 1, ... up to numFilters. */
  function ConvParamList(c: Conv2D): seq<nat>
    requires c.numFilters <= |c.filters|
  {
    c.biases + Flatten(c.filters[..c.numFilters])
  }

  /** `Conv2D.params()` as the loop the source runs. */
  method ConvParams(c: Conv2D) returns (result: seq<nat>)
    requires c.numFilters <= |c.filters|
    ensures result == ConvParamList(c)
  {
    result := c.biases;
    for f := 0 to c.numFilters
      invariant result == c.biases + Flatten(c.filters[..f])
    {
      assert c.filters[..f + 1] == c.filters[..f] + [c.filters[f]];
      FlattenPush(c.filters[..f], c.filters[f]);
      result := result + c.filters[f];
    }
  }

  /** A layer of numFilters filters of k * k weights has numFilters * (k * k + 1) parameters. */
  lemma ConvParamCount(t: Arena, c: Conv2D)
    requires ConvOk(t, c)
    ensures |ConvParamList(c)| == c.numFilters * (c.kernelSize * c.kernelSize + 1)
  {
    var k := c.kernelSize;
    assert c.filters[..c.numFilters] == c.filters;
    FlattenLength(c.filters, k * k);
    TimesIsProduct(c.numFilters, k * k);
  }

  /**
    The parameters of a newly built layer are exactly the leaves it
    appended, each listed once (biases first although they were appended
    last).
   */
  lemma NewConvParams(t: Arena, t': Arena, c: Conv2D, mid: nat)
    requires |c.filters| == c.numFilters && |t| <= mid <= |t'|
    requires Flatten(c.filters) == Range(|t|, mid) && c.biases == Range(mid, |t'|)
    ensures Distinct(ConvParamList(c)) && Elems(ConvParamList(c)) == Interval(|t|, |t'|)
  {
    var ws, bs := Flatten(c.filters), c.biases;
    assert c.filters[..c.numFilters] == c.filters;
    RangeDistinct(|t|, mid);
    RangeDistinct(mid, |t'|);
    ConcatFreshSwapped(bs, ws, |t|, mid, |t'|);
  }

  // ---------------------------------------------------------------------
  // The 3-by-3 example
  // ---------------------------------------------------------------------

  /** Grid cells 1 .. 9 at nodes 0 .. 8, four weights 0.5 at 9 .. 12, bias 0 at 13. */
  function GridArena(): Arena
  {
    [Node(1.0, Leaf), Node(2.0, Leaf), Node(3.0, Leaf),
     Node(4.0, Leaf), Node(5.0, Leaf), Node(6.0, Leaf),
     Node(7.0, Leaf), Node(8.0, Leaf), Node(9.0, Leaf),
     Node(0.5, Leaf), Node(0.5, Leaf), Node(0.5, Leaf), Node(0.5, Leaf),
     Node(0.0, Leaf)]
  }

  function GridInput(): seq<seq<nat>>
  {
    [[0, 1, 2], [3, 4, 5], [6, 7, 8]]
  }

  function GridConv(): Conv2D
  {
    Conv2D(3, 3, 2, 1, 2, 2, [[9, 10, 11, 12]], [13])
  }

  /**
    A 2-by-2 filter of weights 0.5 and bias 0 over the grid 1 .. 9 gives one
    channel of four outputs: tanh of 6, 8, 12 and 14.
   */
  lemma GridExample(exp: ExpFn)
    ensures ConvOk(GridArena(), GridConv()) && InputOk(GridArena(), GridConv(), GridInput())
    ensures Rows(GridConv()) * Cols(GridConv()) == 4
    ensures ConvAt(GridArena(), GridConv(), GridInput(), 0, 0, 0, exp) == TanhOf(exp, 6.0)
    ensures ConvAt(GridArena(), GridConv(), GridInput(), 0, 0, 1, exp) == TanhOf(exp, 8.0)
    ensures ConvAt(GridArena(), GridConv(), GridInput(), 0, 1, 0, exp) == TanhOf(exp, 12.0)
    ensures ConvAt(GridArena(), GridConv(), GridInput(), 0, 1, 1, exp) == TanhOf(exp, 14.0)
  {
    GridShape();
    GridTopLeft(exp);
    GridTopRight(exp);
    GridBottomLeft(exp);
    GridBottomRight(exp);
  }

  lemma GridShape()
    ensures ConvOk(GridArena(), GridConv()) && InputOk(GridArena(), GridConv(), GridInput())
  {
    var t, c, xs := GridArena(), GridConv(), GridInput();
    forall r: nat, q: nat | r < 3 && q < 3 ensures CellIn(t, xs, r, q) {
    }
  }

  lemma GridTopLeft(exp: ExpFn)
    requires ConvOk(GridArena(), GridConv()) && InputOk(GridArena(), GridConv(), GridInput())
    ensures ConvAt(GridArena(), GridConv(), GridInput(), 0, 0, 0, exp) == TanhOf(exp, 6.0)
  {
  }

  lemma GridTopRight(exp: ExpFn)
    requires ConvOk(GridArena(), GridConv()) && InputOk(GridArena(), GridConv(), GridInput())
    ensures ConvAt(GridArena(), GridConv(), GridInput(), 0, 0, 1, exp) == TanhOf(exp, 8.0)
  {
  }

  lemma GridBottomLeft(exp: ExpFn)
    requires ConvOk(GridArena(), GridConv()) && InputOk(GridArena(), GridConv(), GridInput())
    ensures ConvAt(GridArena(), GridConv(), GridInput(), 0, 1, 0, exp) == TanhOf(exp, 12.0)
  {
  }

  lemma GridBottomRight(exp: ExpFn)
    requires ConvOk(GridArena(), GridConv()) && InputOk(GridArena(), GridConv(), GridInput())
    ensures ConvAt(GridArena(), GridConv(), GridInput(), 0, 1, 1, exp) == TanhOf(exp, 14.0)
  {
  }
}
