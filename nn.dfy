/**
  The small network layer built on the engine: `Neuron`, `Layer` and `MLP`.

  A model's parameters are leaves of the arena; a model value only holds
  their indices.  The constructors draw each initial value from the
  Box-Muller generator `randn_bm`; here the successive draws are an input
  sequence, consumed in the order the source calls the generator.  The
  forward passes append the nodes of the expression they build and return
  the indices of the results.
 */
module Nn {
  import opened Graph
  import opened Backprop

  datatype Neuron = Neuron(weights: seq<nat>, bias: nat)
  datatype Layer = Layer(neurons: seq<Neuron>)
  datatype Mlp = Mlp(layers: seq<Layer>)

  // ---------------------------------------------------------------------
  // Fresh leaves
  // ---------------------------------------------------------------------

  /** One fresh leaf per draw, in order: what `new Value(randn_bm())` appends. */
  function Leaves(draws: seq<real>): (r: Arena)
    ensures |r| == |draws|
    ensures forall k :: 0 <= k < |r| ==> r[k] == Node(draws[k], Leaf)
  {
    seq(|draws|, k requires 0 <= k < |draws| => Node(draws[k], Leaf))
  }

  lemma LeavesWellFormed(t: Arena, draws: seq<real>)
    requires WellFormed(t)
    ensures WellFormed(t + Leaves(draws)) && Extends(t, t + Leaves(draws))
  {
    var t' := t + Leaves(draws);
    forall v | 0 <= v < |t'| ensures NodeOk(t', v) {
      if v < |t| {
        assert NodeOk(t, v);
      }
    }
    assert t'[..|t|] == t;
  }

  lemma LeavesPush(draws: seq<real>, w: nat)
    requires w < |draws|
    ensures Leaves(draws[..w + 1]) == Leaves(draws[..w]) + [Node(draws[w], Leaf)]
  {
  }

  /** The indices lo, lo + 1, ..., hi - 1. */
  function Range(lo: nat, hi: nat): (r: seq<nat>)
    requires lo <= hi
    ensures |r| == hi - lo
    ensures forall k :: 0 <= k < |r| ==> r[k] == lo + k
    decreases hi - lo
  {
    if lo == hi then [] else Range(lo, hi - 1) + [hi - 1]
  }

  /** The same indices as a set. */
  function Interval(lo: nat, hi: nat): (r: set<nat>)
    requires lo <= hi
    ensures forall x :: x in r <==> lo <= x < hi
  {
    var r := Range(lo, hi);
    forall x | lo <= x < hi ensures x in Elems(r) {
      assert r[x - lo] == x;
    }
    Elems(r)
  }

  /** A node appended to the arena: its index lies at or above the old length. */
  lemma ExtendsAt(t: Arena, t': Arena, x: nat)
    requires Extends(t, t') && x < |t|
    ensures t'[x] == t[x]
  {
    assert t'[..|t|][x] == t'[x];
  }

  /** Two index lists without repetitions and without common entries concatenate to one without repetitions. */
  lemma DisjointConcat(a: seq<nat>, b: seq<nat>)
    requires Distinct(a) && Distinct(b) && Elems(a) !! Elems(b)
    ensures Distinct(a + b) && Elems(a + b) == Elems(a) + Elems(b)
  {
    forall i, j | 0 <= i < j < |a + b| ensures (a + b)[i] != (a + b)[j] {
      if i < |a| && j >= |a| {
        assert a[i] in Elems(a) && b[j - |a|] in Elems(b);
      } else if i >= |a| {
        assert (a + b)[i] == b[i - |a|] && (a + b)[j] == b[j - |a|];
      }
    }
    assert Elems(a + b) == Elems(a) + Elems(b);
  }

  /**
    Two index lists without repetitions that cover adjacent intervals
    concatenate to a list without repetitions covering their union.
   */
  lemma ConcatFresh(a: seq<nat>, b: seq<nat>, lo: nat, mid: nat, hi: nat)
    requires lo <= mid <= hi
    requires Distinct(a) && Elems(a) == Interval(lo, mid)
    requires Distinct(b) && Elems(b) == Interval(mid, hi)
    ensures Distinct(a + b) && Elems(a + b) == Interval(lo, hi)
  {
    DisjointConcat(a, b);
  }

  /** The same with the later indices listed first. */
  lemma ConcatFreshSwapped(a: seq<nat>, b: seq<nat>, lo: nat, mid: nat, hi: nat)
    requires lo <= mid <= hi
    requires Distinct(a) && Elems(a) == Interval(mid, hi)
    requires Distinct(b) && Elems(b) == Interval(lo, mid)
    ensures Distinct(a + b) && Elems(a + b) == Interval(lo, hi)
  {
    assert Elems(a) !! Elems(b) by {
      forall x | x in Elems(a) ensures x !in Elems(b) {
        assert mid <= x;
      }
    }
    DisjointConcat(a, b);
    assert Interval(mid, hi) + Interval(lo, mid) == Interval(lo, hi);
  }

  lemma RangeDistinct(lo: nat, hi: nat)
    requires lo <= hi
    ensures Distinct(Range(lo, hi)) && Elems(Range(lo, hi)) == Interval(lo, hi)
  {
  }

  lemma RangeConcat(lo: nat, mid: nat, hi: nat)
    requires lo <= mid <= hi
    ensures Range(lo, mid) + Range(mid, hi) == Range(lo, hi)
  {
  }

  /**
    a * b by repeated addition: the loops over chunks of parameters and over
    filter positions count with it, so that their proofs stay within linear
    arithmetic.
   */
  function Times(a: nat, b: nat): nat
  {
    if a == 0 then 0 else Times(a - 1, b) + b
  }

  lemma {:induction false} TimesIsProduct(a: nat, b: nat)
    ensures Times(a, b) == a * b
  {
    if a > 0 {
      TimesIsProduct(a - 1, b);
    }
  }

  lemma {:induction false} TimesMonotonic(a: nat, b: nat, n: nat)
    requires a <= b
    ensures Times(a, n) <= Times(b, n)
    decreases b - a
  {
    if a < b {
      TimesMonotonic(a, b - 1, n);
    }
  }

  // ---------------------------------------------------------------------
  // Neuron
  // ---------------------------------------------------------------------

  /** The nodes of n are nodes of t. */
  predicate NeuronIn(t: Arena, n: Neuron)
  {
    n.bias < |t| && Fit(t, n.weights)
  }

  /**
    `new Neuron(tw)`: tw weight leaves, then the bias leaf, each holding the
    next draw.
   */
  method NewNeuron(t: Arena, tw: nat, draws: seq<real>) returns (t': Arena, n: Neuron)
    requires WellFormed(t) && |draws| == tw + 1
    ensures t' == t + Leaves(draws) && WellFormed(t')
    ensures n.weights == Range(|t|, |t| + tw) && n.bias == |t| + tw
    ensures NeuronIn(t', n)
  {
    t' := t;
    var ws := [];
    var w := 0;
    while w < tw
      invariant 0 <= w <= tw
      invariant t' == t + Leaves(draws[..w])
      invariant ws == Range(|t|, |t| + w)
    {
      LeavesPush(draws, w);
      ws := ws + [|t'|];
      t' := t' + [Node(draws[w], Leaf)];
      w := w + 1;
    }
    n := Neuron(ws, |t'|);
    LeavesPush(draws, tw);
    assert draws[..tw + 1] == draws;
    t' := t' + [Node(draws[tw], Leaf)];
    LeavesWellFormed(t, draws);
  }

  /** `Neuron.params()`: the bias first, then the weights. */
  function NeuronParams(n: Neuron): (ps: seq<nat>)
  {
    [n.bias] + n.weights
  }

  /** A new neuron's parameters are exactly the leaves it appended, each once. */
  lemma NewNeuronParams(t: Arena, tw: nat, n: Neuron)
    requires n.weights == Range(|t|, |t| + tw) && n.bias == |t| + tw
    ensures |NeuronParams(n)| == tw + 1
    ensures Distinct(NeuronParams(n)) && Elems(NeuronParams(n)) == Interval(|t|, |t| + tw + 1)
  {
    var ps := NeuronParams(n);
    forall x | x in Interval(|t|, |t| + tw + 1) ensures x in Elems(ps) {
      if x < |t| + tw {
        assert ps[x - |t| + 1] == x;
      } else {
        assert ps[0] == x;
      }
    }
  }

  /** The values of the operands xs. */
  function Values(t: Arena, xs: seq<Operand>): (r: seq<real>)
    requires forall i :: 0 <= i < |xs| ==> Fits(t, xs[i])
    ensures |r| == |xs|
    ensures forall i :: 0 <= i < |xs| ==> r[i] == ValueOf(t, xs[i])
  {
    seq(|xs|, i requires 0 <= i < |xs| => ValueOf(t, xs[i]))
  }

  predicate OperandsIn(t: Arena, xs: seq<Operand>)
  {
    forall i :: 0 <= i < |xs| ==> Fits(t, xs[i])
  }

  /** The weighted sum of the inputs, accumulated left to right from 0. */
  function WeightedSum(t: Arena, ws: seq<nat>, xs: seq<real>): real
    requires Fit(t, ws) && |ws| <= |xs|
  {
    if ws == [] then 0.0
    else WeightedSum(t, ws[..|ws| - 1], xs) + Prod(t[ws[|ws| - 1]].data, xs[|ws| - 1])
  }

  /** What `Neuron.forward` computes: tanh of the weighted sum plus the bias. */
  function NeuronOut(t: Arena, n: Neuron, xs: seq<real>, exp: ExpFn): real
    requires NeuronIn(t, n) && |n.weights| <= |xs|
  {
    TanhOf(exp, WeightedSum(t, n.weights, xs) + t[n.bias].data)
  }

  lemma {:induction false} WeightedSumExtends(t: Arena, t': Arena, ws: seq<nat>, xs: seq<real>)
    requires Extends(t, t') && Fit(t, ws) && |ws| <= |xs|
    ensures Fit(t', ws) && WeightedSum(t', ws, xs) == WeightedSum(t, ws, xs)
    decreases |ws|
  {
    if ws != [] {
      WeightedSumExtends(t, t', ws[..|ws| - 1], xs);
      ExtendsAt(t, t', ws[|ws| - 1]);
    }
  }

  /** A neuron's output depends only on nodes already in the arena. */
  lemma NeuronOutExtends(t: Arena, t': Arena, n: Neuron, xs: seq<real>, exp: ExpFn)
    requires Extends(t, t') && NeuronIn(t, n) && |n.weights| <= |xs|
    ensures NeuronIn(t', n) && NeuronOut(t', n, xs, exp) == NeuronOut(t, n, xs, exp)
  {
    WeightedSumExtends(t, t', n.weights, xs);
    ExtendsAt(t, t', n.bias);
  }

  lemma ValuesExtends(t: Arena, t': Arena, xs: seq<Operand>)
    requires Extends(t, t') && OperandsIn(t, xs)
    ensures OperandsIn(t', xs) && Values(t', xs) == Values(t, xs)
  {
    forall i | 0 <= i < |xs| ensures ValueOf(t', xs[i]) == ValueOf(t, xs[i]) {
      if xs[i].Ref? {
        ExtendsAt(t, t', xs[i].index);
      }
    }
  }

  /** One step of the forward loops: `sum.add(w.mul(x))`. */
  function MulAdd(t: Arena, acc: nat, w: nat, x: Operand): (r: Arena)
    requires WellFormed(t) && acc < |t| && w < |t| && Fits(t, x)
  {
    var t1 := MulOp(t, w, x);
    AddOp(t1, acc, Ref(|t1| - 1))
  }

  lemma MulAddFacts(t: Arena, acc: nat, w: nat, x: Operand)
    requires WellFormed(t) && acc < |t| && w < |t| && Fits(t, x)
    ensures WellFormed(MulAdd(t, acc, w, x)) && Extends(t, MulAdd(t, acc, w, x))
    ensures |MulAdd(t, acc, w, x)| > |t|
    ensures Last(MulAdd(t, acc, w, x)).data == t[acc].data + Prod(t[w].data, ValueOf(t, x))
    ensures Reach(t, acc) <= Reach(MulAdd(t, acc, w, x), |MulAdd(t, acc, w, x)| - 1)
    ensures w in Reach(MulAdd(t, acc, w, x), |MulAdd(t, acc, w, x)| - 1)
    ensures x.Ref? ==> x.index in Reach(MulAdd(t, acc, w, x), |MulAdd(t, acc, w, x)| - 1)
  {
    var t1 := MulOp(t, w, x);
    var g := |t1| - 1;
    var r := AddOp(t1, acc, Ref(g));
    var s := |r| - 1;
    ExtendsAt(t, t1, acc);
    ExtendsTrans(t, t1, r);
    ExtendsAt(t1, r, g);
    ChildReach(t1, g, w);
    if x.Ref? {
      ChildReach(t1, g, x.index);
    }
    ReachExtends(t1, r, g);
    ReachExtends(t, r, acc);
    ChildReach(r, s, acc);
    ChildReach(r, s, g);
  }

  /**
    The state of `Neuron.forward` after i weights: the running sum is the
    last node, holds the weighted sum of the first i inputs and reaches the
    first i weights.
   */
  ghost predicate Accumulated(t: Arena, t': Arena, sum: nat, ws: seq<nat>, i: nat, xs: seq<real>)
    requires Fit(t, ws) && i <= |ws| <= |xs|
  {
    WellFormed(t') && Extends(t, t') && sum == |t'| - 1
    && t'[sum].data == WeightedSum(t, ws[..i], xs)
    && forall k :: 0 <= k < i ==> ws[k] in Reach(t', sum)
  }

  lemma AccumulateStep(t: Arena, t': Arena, sum: nat, ws: seq<nat>, i: nat, xs: seq<Operand>)
    requires WellFormed(t) && Fit(t, ws) && i < |ws| <= |xs| && OperandsIn(t, xs)
    requires Accumulated(t, t', sum, ws, i, Values(t, xs))
    ensures OperandsIn(t', xs) && ws[i] < |t'|
    ensures var t2 := MulAdd(t', sum, ws[i], xs[i]);
      Accumulated(t, t2, |t2| - 1, ws, i + 1, Values(t, xs))
  {
    ValuesExtends(t, t', xs);
    ExtendsAt(t, t', ws[i]);
    var t2 := MulAdd(t', sum, ws[i], xs[i]);
    MulAddFacts(t', sum, ws[i], xs[i]);
    ExtendsTrans(t, t', t2);
    assert ws[..i + 1][..i] == ws[..i];
    assert t2[|t2| - 1].data == WeightedSum(t, ws[..i + 1], Values(t, xs));
  }

  /** The bias and the activation: `sum.add(this.bias).tanh()`. */
  function AddBiasTanh(t: Arena, sum: nat, bias: nat, exp: ExpFn): (r: Arena)
    requires WellFormed(t) && sum < |t| && bias < |t|
  {
    var t1 := AddOp(t, sum, Ref(bias));
    TanhOp(t1, |t1| - 1, exp)
  }

  lemma AddBiasTanhFacts(t: Arena, sum: nat, bias: nat, exp: ExpFn)
    requires WellFormed(t) && sum < |t| && bias < |t|
    ensures var r := AddBiasTanh(t, sum, bias, exp);
      WellFormed(r) && Extends(t, r) && |t| < |r| && Last(r).op.Tanh?
      && Last(r).data == TanhOf(exp, t[sum].data + t[bias].data)
      && Reach(t, sum) <= Reach(r, |r| - 1) && bias in Reach(r, |r| - 1)
  {
    var t1 := AddOp(t, sum, Ref(bias));
    var r := TanhOp(t1, |t1| - 1, exp);
    ExtendsTrans(t, t1, r);
    ReachExtends(t, t1, sum);
    ChildReach(t1, |t1| - 1, sum);
    ChildReach(t1, |t1| - 1, bias);
    ReachExtends(t1, r, |t1| - 1);
    ChildReach(r, |r| - 1, |t1| - 1);
  }

  /**
    `Neuron.forward(xs)`: starting from a fresh leaf 0.0, adds `w_i * x_i`
    for every weight, then the bias, and takes tanh.  The result is the last
    node appended; the bias and every weight are reachable from it, so the
    backward pass from it reaches all of the neuron's parameters.
   */
  method NeuronForward(t: Arena, n: Neuron, xs: seq<Operand>, exp: ExpFn) returns (t': Arena)
    requires WellFormed(t) && NeuronIn(t, n) && OperandsIn(t, xs) && |n.weights| <= |xs|
    ensures WellFormed(t') && Extends(t, t') && |t| < |t'|
    ensures Last(t').op.Tanh?
    ensures Last(t').data == NeuronOut(t, n, Values(t, xs), exp)
    ensures n.bias in Reach(t', |t'| - 1)
    ensures forall i :: 0 <= i < |n.weights| ==> n.weights[i] in Reach(t', |t'| - 1)
  {
    var t1, sum := AccumulateWeights(t, n.weights, xs);
    NeuronTail(t, t1, sum, n, xs, exp);
    t' := AddBiasTanh(t1, sum, n.bias, exp);
  }

  /** The loop of `Neuron.forward`: from `new Value(0)`, `sum = sum.add(w.mul(x))` for each weight. */
  method AccumulateWeights(t: Arena, ws: seq<nat>, xs: seq<Operand>) returns (t': Arena, sum: nat)
    requires WellFormed(t) && Fit(t, ws) && OperandsIn(t, xs) && |ws| <= |xs|
    ensures Accumulated(t, t', sum, ws, |ws|, Values(t, xs))
  {
    t' := t + [Node(0.0, Leaf)];
    PushWellFormed(t, Node(0.0, Leaf));
    assert t'[..|t|] == t;
    sum := |t|;
    for i := 0 to |ws|
      invariant Accumulated(t, t', sum, ws, i, Values(t, xs))
    {
      AccumulateStep(t, t', sum, ws, i, xs);
      t' := MulAdd(t', sum, ws[i], xs[i]);
      sum := |t'| - 1;
    }
  }

  /** The bias and tanh after the loop give the neuron's output, reaching its bias and weights. */
  lemma NeuronTail(t: Arena, t1: Arena, sum: nat, n: Neuron, xs: seq<Operand>, exp: ExpFn)
    requires WellFormed(t) && NeuronIn(t, n) && OperandsIn(t, xs) && |n.weights| <= |xs|
    requires Accumulated(t, t1, sum, n.weights, |n.weights|, Values(t, xs))
    ensures sum < |t1| && n.bias < |t1|
    ensures var r := AddBiasTanh(t1, sum, n.bias, exp);
      && WellFormed(r) && Extends(t, r) && |t| < |r|
      && Last(r).op.Tanh?
      && Last(r).data == NeuronOut(t, n, Values(t, xs), exp)
      && n.bias in Reach(r, |r| - 1)
      && forall i :: 0 <= i < |n.weights| ==> n.weights[i] in Reach(r, |r| - 1)
  {
    var ws := n.weights;
    assert ws[..|ws|] == ws;
    ExtendsAt(t, t1, n.bias);
    var r := AddBiasTanh(t1, sum, n.bias, exp);
    AddBiasTanhFacts(t1, sum, n.bias, exp);
    ExtendsTrans(t, t1, r);
  }

  // ---------------------------------------------------------------------
  // Layer
  // ---------------------------------------------------------------------

  /** Appending the leaves of the next chunk of draws extends the leaves of the prefix before it. */
  lemma AppendLeaves(t: Arena, t': Arena, t1: Arena, draws: seq<real>, a: nat, b: nat)
    requires a <= b <= |draws|
    requires t' == t + Leaves(draws[..a]) && t1 == t' + Leaves(draws[a..b])
    ensures t1 == t + Leaves(draws[..b])
  {
    var r := t + Leaves(draws[..b]);
    assert |t1| == |r|;
    forall k | 0 <= k < |r| ensures t1[k] == r[k] {
      if k >= |t'| {
        assert t1[k] == Leaves(draws[a..b])[k - |t'|];
      } else if k >= |t| {
        assert t1[k] == t'[k] == Leaves(draws[..a])[k - |t|];
      }
    }
  }

  /**
    The number of parameters of a layer of sout neurons with sin weights and a
    bias each.  Naming the product lets callers match it without nonlinear
    arithmetic.
   */
  function LayerSize(sin: nat, sout: nat): nat
  {
    sout * (sin + 1)
  }

  predicate LayerIn(t: Arena, l: Layer)
  {
    forall k :: 0 <= k < |l.neurons| ==> NeuronIn(t, l.neurons[k])
  }

  /** Every neuron of l reads at most `width` inputs. */
  predicate Takes(l: Layer, width: nat)
  {
    forall k :: 0 <= k < |l.neurons| ==> |l.neurons[k].weights| <= width
  }

  /** The parameters of the neurons ns, concatenated in order. */
  function NeuronsParams(ns: seq<Neuron>): seq<nat>
  {
    if ns == [] then [] else NeuronsParams(ns[..|ns| - 1]) + NeuronParams(ns[|ns| - 1])
  }

  /** What `Layer.params()` returns. */
  function LayerParamList(l: Layer): seq<nat>
  {
    NeuronsParams(l.neurons)
  }

  lemma NeuronInGrow(t: Arena, t': Arena, n: Neuron)
    requires NeuronIn(t, n) && |t| <= |t'|
    ensures NeuronIn(t', n)
  {
  }

  /** The invariant of the constructor loop of `Layer`, after s neurons. */
  ghost predicate LayerBuilt(t: Arena, t': Arena, ns: seq<Neuron>, sin: nat, draws: seq<real>, s: nat)
  {
    Times(s, sin + 1) <= |draws| && t' == t + Leaves(draws[..Times(s, sin + 1)]) && WellFormed(t')
    && |ns| == s && (forall k :: 0 <= k < s ==> |ns[k].weights| == sin && NeuronIn(t', ns[k]))
    && Distinct(NeuronsParams(ns)) && Elems(NeuronsParams(ns)) == Interval(|t|, |t'|)
  }

  lemma LayerBuiltStart(t: Arena, sin: nat, draws: seq<real>)
    requires WellFormed(t)
    ensures LayerBuilt(t, t, [], sin, draws, 0)
  {
    assert t + Leaves(draws[..0]) == t;
    assert Interval(|t|, |t|) == {};
  }

  lemma LayerBuiltStep(t: Arena, t': Arena, ns: seq<Neuron>, sin: nat, draws: seq<real>, s: nat, t1: Arena, n: Neuron)
    requires LayerBuilt(t, t', ns, sin, draws, s) && Times(s + 1, sin + 1) <= |draws|
    requires t1 == t' + Leaves(draws[Times(s, sin + 1)..Times(s + 1, sin + 1)]) && WellFormed(t1)
    requires n.weights == Range(|t'|, |t'| + sin) && n.bias == |t'| + sin && NeuronIn(t1, n)
    ensures LayerBuilt(t, t1, ns + [n], sin, draws, s + 1)
  {
    var used := Times(s, sin + 1);
    var ns' := ns + [n];
    assert Times(s + 1, sin + 1) == used + sin + 1;
    assert |t1| == |t'| + sin + 1;
    AppendLeaves(t, t', t1, draws, used, used + sin + 1);
    assert Distinct(NeuronsParams(ns')) && Elems(NeuronsParams(ns')) == Interval(|t|, |t1|) by {
      assert ns'[..s] == ns;
      assert NeuronsParams(ns') == NeuronsParams(ns) + NeuronParams(n);
      NewNeuronParams(t', sin, n);
      ConcatFresh(NeuronsParams(ns), NeuronParams(n), |t|, |t'|, |t1|);
    }
    forall k | 0 <= k < s + 1 ensures |ns'[k].weights| == sin && NeuronIn(t1, ns'[k]) {
      if k < s {
        NeuronInGrow(t', t1, ns[k]);
      }
    }
  }

  /**
    `new Layer(sin, sout)`: sout neurons of sin weights each, made one after
    the other; their parameters are exactly the leaves appended, each once.
   */
  method NewLayer(t: Arena, sin: nat, sout: nat, draws: seq<real>) returns (t': Arena, l: Layer)
    requires WellFormed(t) && |draws| == LayerSize(sin, sout)
    ensures t' == t + Leaves(draws) && WellFormed(t')
    ensures |l.neurons| == sout
    ensures forall k :: 0 <= k < sout ==> |l.neurons[k].weights| == sin
    ensures LayerIn(t', l)
    ensures Distinct(LayerParamList(l)) && Elems(LayerParamList(l)) == Interval(|t|, |t'|)
  {
    TimesIsProduct(sout, sin + 1);
    t' := t;
    var ns: seq<Neuron> := [];
    LayerBuiltStart(t, sin, draws);
    for s := 0 to sout
      invariant Times(s, sin + 1) <= Times(sout, sin + 1)
      invariant LayerBuilt(t, t', ns, sin, draws, s)
    {
      var used := Times(s, sin + 1);
      TimesMonotonic(s + 1, sout, sin + 1);
      var t1, n := NewNeuron(t', sin, draws[used..used + sin + 1]);
      LayerBuiltStep(t, t', ns, sin, draws, s, t1, n);
      ns := ns + [n];
      t' := t1;
    }
    assert draws[..Times(sout, sin + 1)] == draws;
    l := Layer(ns);
  }

  /** What `Layer.forward` computes: each neuron's output on the same inputs. */
  function LayerOut(t: Arena, l: Layer, xs: seq<real>, exp: ExpFn): (r: seq<real>)
    requires LayerIn(t, l) && Takes(l, |xs|)
    ensures |r| == |l.neurons|
  {
    seq(|l.neurons|, k requires 0 <= k < |l.neurons| => NeuronOut(t, l.neurons[k], xs, exp))
  }

  lemma LayerOutExtends(t: Arena, t': Arena, l: Layer, xs: seq<real>, exp: ExpFn)
    requires Extends(t, t') && LayerIn(t, l) && Takes(l, |xs|)
    ensures LayerIn(t', l) && LayerOut(t', l, xs, exp) == LayerOut(t, l, xs, exp)
  {
    forall k | 0 <= k < |l.neurons| ensures NeuronIn(t', l.neurons[k])
      && NeuronOut(t', l.neurons[k], xs, exp) == NeuronOut(t, l.neurons[k], xs, exp)
    {
      NeuronOutExtends(t, t', l.neurons[k], xs, exp);
    }
  }

  /** `Layer.forward(xs)`: the neurons' outputs, in order, as nodes of the arena. */
  method LayerForward(t: Arena, l: Layer, xs: seq<Operand>, exp: ExpFn) returns (t': Arena, outs: seq<nat>)
    requires WellFormed(t) && LayerIn(t, l) && OperandsIn(t, xs) && Takes(l, |xs|)
    ensures WellFormed(t') && Extends(t, t') && Fit(t', outs)
    ensures |outs| == |l.neurons|
    ensures forall k :: 0 <= k < |outs| ==> t'[outs[k]].data == LayerOut(t, l, Values(t, xs), exp)[k]
  {
    t' := t;
    outs := [];
    assert t[..|t|] == t;
    for i := 0 to |l.neurons|
      invariant LayerRan(t, t', l, outs, i, Values(t, xs), exp)
    {
      var n := l.neurons[i];
      assert NeuronIn(t, n);
      ValuesExtends(t, t', xs);
      var t1 := NeuronForward(t', n, xs, exp);
      LayerRanStep(t, t', t1, l, xs, outs, i, exp);
      outs := outs + [|t1| - 1];
      t' := t1;
    }
  }

  /** The state of `Layer.forward` after i neurons: outs holds their outputs. */
  ghost predicate LayerRan(t: Arena, t': Arena, l: Layer, outs: seq<nat>, i: nat, vals: seq<real>, exp: ExpFn)
    requires LayerIn(t, l) && Takes(l, |vals|) && i <= |l.neurons|
  {
    WellFormed(t') && Extends(t, t') && Fit(t', outs) && |outs| == i
    && forall k :: 0 <= k < i ==> t'[outs[k]].data == NeuronOut(t, l.neurons[k], vals, exp)
  }

  lemma LayerRanStep(t: Arena, t': Arena, t1: Arena, l: Layer, xs: seq<Operand>, outs: seq<nat>, i: nat, exp: ExpFn)
    requires WellFormed(t) && LayerIn(t, l) && OperandsIn(t, xs) && Takes(l, |xs|) && i < |l.neurons|
    requires LayerRan(t, t', l, outs, i, Values(t, xs), exp)
    requires NeuronIn(t', l.neurons[i]) && OperandsIn(t', xs)
    requires WellFormed(t1) && Extends(t', t1) && |t'| < |t1|
    requires Last(t1).data == NeuronOut(t', l.neurons[i], Values(t', xs), exp)
    ensures LayerRan(t, t1, l, outs + [|t1| - 1], i + 1, Values(t, xs), exp)
  {
    var vals := Values(t, xs);
    var n := l.neurons[i];
    assert NeuronIn(t, n);
    NeuronOutExtends(t, t', n, vals, exp);
    ValuesExtends(t, t', xs);
    forall k | 0 <= k < i ensures t1[outs[k]] == t'[outs[k]] {
      ExtendsAt(t', t1, outs[k]);
    }
    ExtendsTrans(t, t', t1);
  }

  /** `Layer.params()`: the neurons' parameter lists concatenated in order. */
  method LayerParams(l: Layer) returns (result: seq<nat>)
    ensures result == LayerParamList(l)
  {
    result := [];
    for ni := 0 to |l.neurons|
      invariant result == NeuronsParams(l.neurons[..ni])
    {
      assert l.neurons[..ni + 1][..ni] == l.neurons[..ni];
      result := result + NeuronParams(l.neurons[ni]);
    }
    assert l.neurons[..|l.neurons|] == l.neurons;
  }

  /** A layer of neurons with `sin` weights each has LayerSize(sin, |neurons|) parameters. */
  lemma {:induction false} LayerParamCount(ns: seq<Neuron>, sin: nat)
    requires forall k :: 0 <= k < |ns| ==> |ns[k].weights| == sin
    ensures |NeuronsParams(ns)| == LayerSize(sin, |ns|)
    decreases |ns|
  {
    if ns != [] {
      LayerParamCount(ns[..|ns| - 1], sin);
      assert |ns| * (sin + 1) == (|ns| - 1) * (sin + 1) + sin + 1;
    }
  }

  // ---------------------------------------------------------------------
  // MLP
  // ---------------------------------------------------------------------

  predicate MlpIn(t: Arena, ls: seq<Layer>)
  {
    forall l :: 0 <= l < |ls| ==> LayerIn(t, ls[l])
  }

  /**
    The layers chain: layer 0 reads at most `width` inputs and layer l + 1
    at most as many as layer l has neurons.
   */
  predicate Fed(ls: seq<Layer>, width: nat)
  {
    ls == [] || (Fed(ls[..|ls| - 1], width) && Takes(ls[|ls| - 1], InWidth(ls, width)))
  }

  /** The number of inputs the last layer of ls receives. */
  function InWidth(ls: seq<Layer>, width: nat): nat
    requires ls != []
  {
    if |ls| == 1 then width else |ls[|ls| - 2].neurons|
  }

  lemma {:induction false} FedPrefix(ls: seq<Layer>, width: nat, j: nat)
    requires Fed(ls, width) && j <= |ls|
    ensures Fed(ls[..j], width)
    decreases |ls|
  {
    if j < |ls| {
      FedPrefix(ls[..|ls| - 1], width, j);
      assert ls[..|ls| - 1][..j] == ls[..j];
    } else {
      assert ls[..j] == ls;
    }
  }

  lemma MlpInPrefix(t: Arena, ls: seq<Layer>, j: nat)
    requires MlpIn(t, ls) && j <= |ls|
    ensures MlpIn(t, ls[..j])
  {
    forall l | 0 <= l < j ensures LayerIn(t, ls[..j][l]) {
      assert ls[..j][l] == ls[l];
    }
  }

  /** What `MLP.forward` computes: the layers applied in order. */
  function MlpOut(t: Arena, ls: seq<Layer>, xs: seq<real>, exp: ExpFn): (r: seq<real>)
    requires MlpIn(t, ls) && Fed(ls, |xs|)
    ensures |r| == if ls == [] then |xs| else |ls[|ls| - 1].neurons|
    decreases |ls|
  {
    if ls == [] then xs
    else
      var front := ls[..|ls| - 1];
      MlpInPrefix(t, ls, |ls| - 1);
      LayerOut(t, ls[|ls| - 1], MlpOut(t, front, xs, exp), exp)
  }

  /** The operands naming the nodes outs. */
  function Refs(outs: seq<nat>): (r: seq<Operand>)
    ensures |r| == |outs|
    ensures forall k :: 0 <= k < |outs| ==> r[k] == Ref(outs[k])
  {
    seq(|outs|, k requires 0 <= k < |outs| => Ref(outs[k]))
  }

  /** The state of `MLP.forward` after its first li layers: ys hold their outputs in t'. */
  ghost predicate MlpRan(t: Arena, t': Arena, ls: seq<Layer>, li: nat, xs: seq<Operand>, ys: seq<Operand>, exp: ExpFn)
    requires OperandsIn(t, xs)
  {
    li <= |ls| && WellFormed(t') && Extends(t, t') && OperandsIn(t', ys) &&
    MlpIn(t, ls[..li]) && Fed(ls[..li], |xs|) &&
    Values(t', ys) == MlpOut(t, ls[..li], Values(t, xs), exp)
  }

  /** Layer li can run on the outputs of the layers before it, and computes the same in t' as in t. */
  lemma MlpRanFeeds(t: Arena, t': Arena, ls: seq<Layer>, li: nat, xs: seq<Operand>, ys: seq<Operand>, exp: ExpFn)
    requires OperandsIn(t, xs) && MlpIn(t, ls) && Fed(ls, |xs|) && li < |ls|
    requires MlpRan(t, t', ls, li, xs, ys, exp)
    ensures LayerIn(t', ls[li]) && Takes(ls[li], |ys|)
    ensures LayerOut(t', ls[li], Values(t', ys), exp) == LayerOut(t, ls[li], Values(t', ys), exp)
  {
    FedPrefix(ls, |xs|, li + 1);
    assert ls[..li + 1][..li] == ls[..li];
    assert ls[..li + 1][li] == ls[li];
    assert |Values(t', ys)| == |ys|;
    LayerOutExtends(t, t', ls[li], Values(t', ys), exp);
  }

  /** Running layer li on ys extends MlpRan to li + 1 layers. */
  lemma MlpRanStep(t: Arena, t': Arena, t1: Arena, ls: seq<Layer>, li: nat, xs: seq<Operand>, ys: seq<Operand>,
                   outs: seq<nat>, exp: ExpFn)
    requires OperandsIn(t, xs) && MlpIn(t, ls) && Fed(ls, |xs|) && li < |ls|
    requires MlpRan(t, t', ls, li, xs, ys, exp)
    requires LayerIn(t', ls[li]) && Takes(ls[li], |ys|)
    requires LayerOut(t', ls[li], Values(t', ys), exp) == LayerOut(t, ls[li], Values(t', ys), exp)
    requires WellFormed(t1) && Extends(t', t1) && Fit(t1, outs) && |outs| == |ls[li].neurons|
    requires forall k :: 0 <= k < |outs| ==> t1[outs[k]].data == LayerOut(t', ls[li], Values(t', ys), exp)[k]
    ensures MlpRan(t, t1, ls, li + 1, xs, Refs(outs), exp)
  {
    ExtendsTrans(t, t', t1);
    FedPrefix(ls, |xs|, li + 1);
    MlpInPrefix(t, ls, li + 1);
    assert ls[..li + 1][..li] == ls[..li];
    var ys' := Refs(outs);
    assert Values(t1, ys') == LayerOut(t, ls[li], Values(t', ys), exp);
  }

  /**
    `MLP.forward(xs)`: each layer's outputs are the next layer's inputs; with
    no layers the inputs come back unchanged.
   */
  method MlpForward(t: Arena, m: Mlp, xs: seq<Operand>, exp: ExpFn) returns (t': Arena, ys: seq<Operand>)
    requires WellFormed(t) && MlpIn(t, m.layers) && OperandsIn(t, xs) && Fed(m.layers, |xs|)
    ensures WellFormed(t') && Extends(t, t') && OperandsIn(t', ys)
    ensures Values(t', ys) == MlpOut(t, m.layers, Values(t, xs), exp)
  {
    var ls := m.layers;
    t', ys := t, xs;
    assert t[..|t|] == t;
    for li := 0 to |ls|
      invariant MlpRan(t, t', ls, li, xs, ys, exp)
    {
      MlpRanFeeds(t, t', ls, li, xs, ys, exp);
      var t1, outs := LayerForward(t', ls[li], ys, exp);
      MlpRanStep(t, t', t1, ls, li, xs, ys, outs, exp);
      ys := Refs(outs);
      t' := t1;
    }
    assert ls[..|ls|] == ls;
  }

  /** The parameters of the layers ls, concatenated in order. */
  function LayersParams(ls: seq<Layer>): seq<nat>
  {
    if ls == [] then [] else LayersParams(ls[..|ls| - 1]) + LayerParamList(ls[|ls| - 1])
  }

  lemma LayersParamsPush(ls: seq<Layer>, layer: Layer)
    ensures LayersParams(ls + [layer]) == LayersParams(ls) + LayerParamList(layer)
  {
    assert (ls + [layer])[..|ls|] == ls;
  }

  /** What `MLP.params()` returns. */
  function MlpParamList(m: Mlp): seq<nat>
  {
    LayersParams(m.layers)
  }

  /** `MLP.params()`: the layers' parameter lists concatenated in order. */
  method MlpParams(m: Mlp) returns (result: seq<nat>)
    ensures result == MlpParamList(m)
  {
    result := [];
    for li := 0 to |m.layers|
      invariant result == LayersParams(m.layers[..li])
    {
      assert m.layers[..li + 1][..li] == m.layers[..li];
      var lp := LayerParams(m.layers[li]);
      result := result + lp;
    }
    assert m.layers[..|m.layers|] == m.layers;
  }

  /** The number of parameters of an MLP with layer sizes `sizes`. */
  function ParamCount(sizes: seq<nat>): nat
  {
    if |sizes| < 2 then 0
    else ParamCount(sizes[..|sizes| - 1]) + LayerSize(sizes[|sizes| - 2], sizes[|sizes| - 1])
  }

  lemma ParamCountStep(sizes: seq<nat>, j: nat)
    requires 1 <= j < |sizes|
    ensures ParamCount(sizes[..j + 1]) == ParamCount(sizes[..j]) + LayerSize(sizes[j - 1], sizes[j])
  {
    assert sizes[..j + 1][..j] == sizes[..j];
  }

  lemma {:induction false} ParamCountPrefix(sizes: seq<nat>, j: nat)
    requires j <= |sizes|
    ensures ParamCount(sizes[..j]) <= ParamCount(sizes)
    decreases |sizes|
  {
    if j < |sizes| {
      ParamCountPrefix(sizes[..|sizes| - 1], j);
      assert sizes[..|sizes| - 1][..j] == sizes[..j];
    } else {
      assert sizes[..j] == sizes;
    }
  }

  /** Layer l of ls has sizes[l + 1] neurons of sizes[l] weights each. */
  predicate LayersShaped(ls: seq<Layer>, sizes: seq<nat>)
  {
    |ls| < |sizes|
    && forall l :: 0 <= l < |ls| ==>
      |ls[l].neurons| == sizes[l + 1]
      && forall k :: 0 <= k < |ls[l].neurons| ==> |ls[l].neurons[k].weights| == sizes[l]
  }

  /** m has one layer per consecutive pair of sizes, shaped accordingly. */
  predicate Shaped(m: Mlp, sizes: seq<nat>)
  {
    |m.layers| + 1 == |sizes| && LayersShaped(m.layers, sizes)
  }

  lemma MlpInGrow(t: Arena, t': Arena, ls: seq<Layer>)
    requires MlpIn(t, ls) && |t| <= |t'|
    ensures MlpIn(t', ls)
  {
    forall l, k | 0 <= l < |ls| && 0 <= k < |ls[l].neurons| ensures NeuronIn(t', ls[l].neurons[k]) {
      assert LayerIn(t, ls[l]);
      assert NeuronIn(t, ls[l].neurons[k]);
    }
  }

  lemma ShapedPush(ls: seq<Layer>, layer: Layer, sizes: seq<nat>)
    requires LayersShaped(ls, sizes) && |ls| + 1 < |sizes|
    requires |layer.neurons| == sizes[|ls| + 1]
    requires forall k :: 0 <= k < |layer.neurons| ==> |layer.neurons[k].weights| == sizes[|ls|]
    ensures LayersShaped(ls + [layer], sizes)
  {
    var ls' := ls + [layer];
    forall l | 0 <= l < |ls'| ensures |ls'[l].neurons| == sizes[l + 1]
      && forall k :: 0 <= k < |ls'[l].neurons| ==> |ls'[l].neurons[k].weights| == sizes[l]
    {
      if l < |ls| {
        assert ls'[l] == ls[l];
      }
    }
  }

  lemma MlpInPush(t: Arena, t': Arena, ls: seq<Layer>, layer: Layer)
    requires MlpIn(t, ls) && |t| <= |t'| && LayerIn(t', layer)
    ensures MlpIn(t', ls + [layer])
  {
    MlpInGrow(t, t', ls);
    var ls' := ls + [layer];
    forall l | 0 <= l < |ls'| ensures LayerIn(t', ls'[l]) {
      if l < |ls| {
        assert ls'[l] == ls[l];
      }
    }
  }

  /** The state of the MLP constructor after s layers, having used `used` draws. */
  ghost predicate MlpBuilt(t: Arena, t': Arena, ls: seq<Layer>, sizes: seq<nat>, draws: seq<real>, used: nat, s: nat)
  {
    s < |sizes| && used == ParamCount(sizes[..s + 1]) && used <= |draws|
    && t' == t + Leaves(draws[..used]) && WellFormed(t')
    && |ls| == s && LayersShaped(ls, sizes) && MlpIn(t', ls)
    && Distinct(LayersParams(ls)) && Elems(LayersParams(ls)) == Interval(|t|, |t'|)
  }

  /** The draws for layer s are available. */
  lemma MlpRoom(sizes: seq<nat>, draws: seq<real>, used: nat, s: nat)
    requires |draws| == ParamCount(sizes) && s + 1 < |sizes| && used == ParamCount(sizes[..s + 1])
    ensures used + LayerSize(sizes[s], sizes[s + 1]) <= |draws|
  {
    ParamCountStep(sizes, s + 1);
    ParamCountPrefix(sizes, s + 2);
  }

  lemma MlpBuiltStep(t: Arena, t': Arena, ls: seq<Layer>, sizes: seq<nat>, draws: seq<real>, used: nat, s: nat,
                     t1: Arena, layer: Layer)
    requires MlpBuilt(t, t', ls, sizes, draws, used, s) && s + 1 < |sizes|
    requires used + LayerSize(sizes[s], sizes[s + 1]) <= |draws|
    requires t1 == t + Leaves(draws[..used + LayerSize(sizes[s], sizes[s + 1])]) && WellFormed(t1)
    requires |layer.neurons| == sizes[s + 1]
    requires forall k :: 0 <= k < sizes[s + 1] ==> |layer.neurons[k].weights| == sizes[s]
    requires LayerIn(t1, layer)
    requires Distinct(LayerParamList(layer)) && Elems(LayerParamList(layer)) == Interval(|t'|, |t1|)
    ensures MlpBuilt(t, t1, ls + [layer], sizes, draws, used + LayerSize(sizes[s], sizes[s + 1]), s + 1)
  {
    var n := LayerSize(sizes[s], sizes[s + 1]);
    var ls' := ls + [layer];
    assert used + n == ParamCount(sizes[..s + 2]) by {
      ParamCountStep(sizes, s + 1);
    }
    assert Distinct(LayersParams(ls')) && Elems(LayersParams(ls')) == Interval(|t|, |t1|) by {
      ConcatFresh(LayersParams(ls), LayerParamList(layer), |t|, |t'|, |t1|);
      LayersParamsPush(ls, layer);
    }
    assert MlpIn(t1, ls') by {
      MlpInPush(t', t1, ls, layer);
    }
    assert LayersShaped(ls', sizes) by {
      ShapedPush(ls, layer, sizes);
    }
  }

  /**
    `new MLP(sin, souts)`: the sizes are sin followed by souts, and layer s
    maps sizes[s] inputs to sizes[s + 1] neurons.  The model's parameters are
    exactly the leaves appended, each once, and there are ParamCount(sizes)
    of them.
   */
  method NewMlp(t: Arena, sin: nat, souts: seq<nat>, draws: seq<real>) returns (t': Arena, m: Mlp)
    requires WellFormed(t) && |draws| == ParamCount([sin] + souts)
    ensures t' == t + Leaves(draws) && WellFormed(t')
    ensures Shaped(m, [sin] + souts) && MlpIn(t', m.layers)
    ensures Distinct(MlpParamList(m)) && Elems(MlpParamList(m)) == Interval(|t|, |t'|)
  {
    var sizes := [sin] + souts;
    t' := t;
    var ls: seq<Layer> := [];
    var used: nat := 0;
    assert sizes[..1] == [sin];
    assert t + Leaves(draws[..0]) == t;
    for s := 0 to |sizes| - 1
      invariant MlpBuilt(t, t', ls, sizes, draws, used, s)
    {
      MlpRoom(sizes, draws, used, s);
      var n := LayerSize(sizes[s], sizes[s + 1]);
      var t1, layer := NewLayer(t', sizes[s], sizes[s + 1], draws[used..used + n]);
      AppendLeaves(t, t', t1, draws, used, used + n);
      MlpBuiltStep(t, t', ls, sizes, draws, used, s, t1, layer);
      ls := ls + [layer];
      t' := t1;
      used := used + n;
    }
    assert sizes[..|sizes|] == sizes;
    assert draws[..used] == draws;
    m := Mlp(ls);
  }

  /** A shaped MLP's parameter list has ParamCount(sizes) entries. */
  lemma {:induction false} ShapedParamCount(ls: seq<Layer>, sizes: seq<nat>)
    requires LayersShaped(ls, sizes)
    ensures |LayersParams(ls)| == ParamCount(sizes[..|ls| + 1])
    decreases |ls|
  {
    if ls != [] {
      var j := |ls| - 1;
      ShapedPrefix(ls, sizes);
      ShapedParamCount(ls[..j], sizes);
      var ns := ls[j].neurons;
      assert |ns| == sizes[j + 1];
      assert forall k :: 0 <= k < |ns| ==> |ns[k].weights| == sizes[j];
      LayerParamCount(ns, sizes[j]);
      ParamCountStep(sizes, j + 1);
      assert |LayersParams(ls)| == |LayersParams(ls[..j])| + |LayerParamList(ls[j])|;
    }
  }

  lemma ShapedPrefix(ls: seq<Layer>, sizes: seq<nat>)
    requires LayersShaped(ls, sizes) && ls != []
    ensures LayersShaped(ls[..|ls| - 1], sizes)
  {
    var j := |ls| - 1;
    forall l | 0 <= l < j ensures ls[..j][l] == ls[l] { }
  }

  /** An MLP with 2 inputs, a hidden layer of 3 neurons and 1 output has 13 parameters. */
  lemma ThirteenParams(m: Mlp)
    requires Shaped(m, [2, 3, 1])
    ensures |MlpParamList(m)| == 13
  {
    ShapedParamCount(m.layers, [2, 3, 1]);
    assert [2, 3, 1][..3] == [2, 3, 1];
    assert [2, 3, 1][..2] == [2, 3];
  }

  /** A shaped MLP's layers chain, and its output has one value per last-layer neuron. */
  lemma ShapedFed(t: Arena, m: Mlp, sizes: seq<nat>, xs: seq<real>, exp: ExpFn)
    requires Shaped(m, sizes) && MlpIn(t, m.layers) && |xs| == sizes[0]
    ensures Fed(m.layers, |xs|)
    ensures |MlpOut(t, m.layers, xs, exp)| == sizes[|sizes| - 1]
  {
    ShapedFedPrefix(m.layers, sizes, |m.layers|);
    assert m.layers[..|m.layers|] == m.layers;
  }

  lemma {:induction false} ShapedFedPrefix(ls: seq<Layer>, sizes: seq<nat>, j: nat)
    requires LayersShaped(ls, sizes) && j <= |ls|
    ensures Fed(ls[..j], sizes[0])
    decreases j
  {
    if j > 0 {
      ShapedFedPrefix(ls, sizes, j - 1);
      assert ls[..j][..j - 1] == ls[..j - 1];
      assert ls[..j][j - 1] == ls[j - 1];
      if j > 1 {
        assert ls[..j][j - 2] == ls[j - 2];
      }
    }
  }

  /** The gradients after zeroing the parameters ps. */
  function Zeroed(g: seq<real>, ps: seq<nat>): (r: seq<real>)
    ensures |r| == |g|
  {
    seq(|g|, u requires 0 <= u < |g| => if u in ps then 0.0 else g[u])
  }

  /**
    Zeroing sets every listed parameter's gradient to 0, keeps every other
    gradient, and zeroing twice is zeroing once.
   */
  lemma ZeroGradResets(g: seq<real>, ps: seq<nat>)
    ensures forall i :: 0 <= i < |ps| && ps[i] < |g| ==> Zeroed(g, ps)[ps[i]] == 0.0
    ensures forall u :: 0 <= u < |g| && u !in Elems(ps) ==> Zeroed(g, ps)[u] == g[u]
    ensures Zeroed(Zeroed(g, ps), ps) == Zeroed(g, ps)
  {
  }

  /** `MLP.zero_grad()`: every parameter's gradient becomes 0; nothing else changes. */
  method ZeroGrad(m: Mlp, grad: array<real>)
    requires forall i :: 0 <= i < |MlpParamList(m)| ==> MlpParamList(m)[i] < grad.Length
    modifies grad
    ensures grad[..] == Zeroed(old(grad[..]), MlpParamList(m))
  {
    var ps := MlpParams(m);
    ghost var g0 := grad[..];
    for pi := 0 to |ps|
      invariant forall u :: 0 <= u < grad.Length ==> grad[u] == if u in ps[..pi] then 0.0 else g0[u]
    {
      assert ps[pi] < grad.Length;
      grad[ps[pi]] := 0.0;
      assert forall x :: x in ps[..pi + 1] <==> x in ps[..pi] || x == ps[pi];
    }
    assert ps[..|ps|] == ps;
  }

  /**
    After zero_grad, a backward pass from a node whose other ancestors are
    fresh (gradient 0, as every new `Value` starts) leaves in every node it
    reaches the path sum from the root: the sum over operand paths of the
    products of the rules' local factors.
   */
  lemma ZeroGradThenBackward(t: Arena, root: nat, g: seq<real>, ps: seq<nat>, u: nat)
    requires WellFormed(t) && root < |t| && |g| == |t| && u in Reach(t, root)
    requires forall w :: 0 <= w < |g| && w in Reach(t, root) && w != root && w !in ps ==> g[w] == 0.0
    ensures u <= root && GradAfter(t, root, Zeroed(g, ps), u) == PathSum(t, root, u)
  {
    BackwardIsPathSum(t, root, Zeroed(g, ps), u);
  }

  /**
    A training step: `zero_grad()` on the store of the arena t, a forward
    pass that appends nodes up to t' (each new `Value` with gradient 0), then
    `backward()` from one of them.  When every older node the root reaches
    is a listed parameter, every reachable node ends with the path sum.
   */
  lemma TrainingStepGradients(t: Arena, t': Arena, root: nat, g: seq<real>, ps: seq<nat>, u: nat)
    requires WellFormed(t') && |t| <= |t'| && |g| == |t| && root < |t'| && u in Reach(t', root)
    requires forall w :: 0 <= w < |t| && w in Reach(t', root) ==> w in ps
    ensures u <= root && GradAfter(t', root, GrowGrads(Zeroed(g, ps), |t'|), u) == PathSum(t', root, u)
  {
    var g0 := GrowGrads(Zeroed(g, ps), |t'|);
    forall w | 0 <= w < |g0| && w in Reach(t', root) && w != root ensures g0[w] == 0.0 {
      if w < |t| {
        assert g0[w] == Zeroed(g, ps)[w];
      }
    }
    BackwardIsPathSum(t', root, g0, u);
  }
}
