/**
  The scalar nodes of the autodiff engine (class `Value`) held in an arena.

  Every node of the computation graph is a record of its forward value and
  of the operation that produced it; operands are arena indices.  A node is
  only ever appended after its operands, so every operand index is smaller
  than the index of the node using it and the graph is acyclic by
  construction.  The mutable `grad` field of each node lives apart from the
  arena, in a gradient store indexed like it (see module Backprop).
 */
module Graph {

  /** The operation that produced a node, with its operands (arena indices). */
  datatype Op =
    | Leaf
    | Add(a: nat, b: nat)
    | Mul(a: nat, b: nat)
    | Pow(a: nat, n: int)
    | Exp(a: nat)
    | Tanh(a: nat)

  /** One `Value`: its forward result and how it was computed. */
  datatype Node = Node(data: real, op: Op)

  type Arena = seq<Node>

  /** The right-hand side of a binary operation: an existing node or a plain number. */
  datatype Operand = Ref(index: nat) | Lit(c: real)

  /** The library exponential, supplied by the caller; its values are never negative. */
  type ExpFn = f: real -> real | forall x :: f(x) >= 0.0 witness x => 1.0

  /** The operands of a node in the order the source lists them in `children`. */
  function Children(op: Op): (cs: seq<nat>)
    ensures |cs| <= 2
    ensures op.Leaf? <==> cs == []
    ensures (op.Add? || op.Mul?) <==> |cs| == 2
  {
    match op
    case Leaf => []
    case Add(a, b) => [a, b]
    case Mul(a, b) => [a, b]
    case Pow(a, _) => [a]
    case Exp(a) => [a]
    case Tanh(a) => [a]
  }

  /**
    Node v only uses earlier nodes, and a power node never has a zero base
    with an exponent below 1 (its value or its derivative would be an IEEE
    infinity, which has no counterpart among the reals).
   */
  predicate NodeOk(t: Arena, v: nat)
    requires v < |t|
  {
    match t[v].op
    case Leaf => true
    case Add(a, b) => a < v && b < v
    case Mul(a, b) => a < v && b < v
    case Pow(a, n) => a < v && (t[a].data != 0.0 || n >= 1)
    case Exp(a) => a < v
    case Tanh(a) => a < v
  }

  predicate WellFormed(t: Arena)
  {
    forall v :: 0 <= v < |t| ==> NodeOk(t, v)
  }

  lemma ChildrenBelow(t: Arena, v: nat)
    requires WellFormed(t) && v < |t|
    ensures forall c :: c in Children(t[v].op) ==> c < v
    ensures forall k :: 0 <= k < |Children(t[v].op)| ==> Children(t[v].op)[k] < v
  {
    assert NodeOk(t, v);
  }

  /** t' is t with nodes appended: nothing already in the arena changes. */
  predicate Extends(t: Arena, t': Arena)
  {
    |t| <= |t'| && t'[..|t|] == t
  }

  lemma ExtendsTrans(t: Arena, t1: Arena, t2: Arena)
    requires Extends(t, t1) && Extends(t1, t2)
    ensures Extends(t, t2)
  {
    assert t2[..|t|] == t2[..|t1|][..|t|];
  }

  /** The node produced last, i.e. the result of the latest operation. */
  function Last(t: Arena): Node
    requires |t| > 0
  {
    t[|t| - 1]
  }

  lemma PushWellFormed(t: Arena, n: Node)
    requires WellFormed(t) && NodeOk(t + [n], |t|)
    ensures WellFormed(t + [n])
  {
    var t' := t + [n];
    forall v | 0 <= v < |t'| ensures NodeOk(t', v) {
      if v < |t| {
        assert NodeOk(t, v);
        assert t'[v] == t[v];
      }
    }
  }

  /**
    x * y as a named term. Products that specifications compare are stated
    with Prod, so that a product computed in one lemma is recognised as the
    same term in another.
   */
  function Prod(x: real, y: real): real
  {
    x * y
  }

  /** JavaScript's `x ** n` for an integer exponent. */
  function Power(x: real, n: int): (r: real)
    requires x != 0.0 || n >= 0
    ensures x != 0.0 ==> r != 0.0
    ensures x > 0.0 ==> r > 0.0
    decreases if n < 0 then 1 - n else n
  {
    if n == 0 then 1.0
    else if n > 0 then x * Power(x, n - 1)
    else 1.0 / Power(x, -n)
  }

  predicate Fits(t: Arena, x: Operand)
  {
    x.Ref? ==> x.index < |t|
  }

  /** The number an operand stands for. */
  function ValueOf(t: Arena, x: Operand): real
    requires Fits(t, x)
  {
    match x
    case Ref(i) => t[i].data
    case Lit(c) => c
  }

  /**
    Numeric-literal promotion (`if (!isNaN(rhs)) rhs = new Value(rhs)`): a
    plain number becomes a fresh leaf appended to the arena, a node is used
    as it is.  Returns the arena and the index of the operand node.
   */
  function Promote(t: Arena, x: Operand): (r: (Arena, nat))
    requires WellFormed(t) && Fits(t, x)
    ensures WellFormed(r.0) && Extends(t, r.0) && r.1 < |r.0|
    ensures r.0[r.1].data == ValueOf(t, x)
    ensures x.Ref? ==> r.0 == t
    ensures x.Lit? ==> |r.0| == |t| + 1 && r.1 == |t| && r.0[r.1].op.Leaf?
  {
    match x
    case Ref(i) => (t, i)
    case Lit(c) =>
      PushWellFormed(t, Node(c, Leaf));
      (t + [Node(c, Leaf)], |t|)
  }

  /** `this.add(rhs)`: a new node whose value is the sum of the operands' values. */
  function AddOp(t: Arena, i: nat, x: Operand): (r: Arena)
    requires WellFormed(t) && i < |t| && Fits(t, x)
    ensures WellFormed(r) && Extends(t, r) && |t| < |r|
    ensures Last(r).data == t[i].data + ValueOf(t, x)
    ensures Last(r).op.Add? && Last(r).op.a == i && Last(r).op.b < |r| - 1
    ensures r[Last(r).op.b].data == ValueOf(t, x)
    ensures x.Ref? ==> |r| == |t| + 1 && Last(r).op.b == x.index
    ensures x.Lit? ==> |r| == |t| + 2 && Last(r).op.b == |t| && r[|t|] == Node(x.c, Leaf)
  {
    var (t1, j) := Promote(t, x);
    var n := Node(t[i].data + t1[j].data, Add(i, j));
    assert t1[i] == t[i];
    PushWellFormed(t1, n);
    ExtendsTrans(t, t1, t1 + [n]);
    t1 + [n]
  }

  /** `this.mul(rhs)`: a new node whose value is the product of the operands' values. */
  function MulOp(t: Arena, i: nat, x: Operand): (r: Arena)
    requires WellFormed(t) && i < |t| && Fits(t, x)
    ensures WellFormed(r) && Extends(t, r) && |t| < |r|
    ensures Last(r).data == Prod(t[i].data, ValueOf(t, x))
    ensures Last(r).op.Mul? && Last(r).op.a == i && Last(r).op.b < |r| - 1
    ensures r[Last(r).op.b].data == ValueOf(t, x)
    ensures x.Ref? ==> |r| == |t| + 1 && Last(r).op.b == x.index
    ensures x.Lit? ==> |r| == |t| + 2 && Last(r).op.b == |t| && r[|t|] == Node(x.c, Leaf)
  {
    var (t1, j) := Promote(t, x);
    var n := Node(t[i].data * t1[j].data, Mul(i, j));
    assert t1[i] == t[i];
    PushWellFormed(t1, n);
    ExtendsTrans(t, t1, t1 + [n]);
    t1 + [n]
  }

  /** `this.neg()`, defined as `this.mul(-1)`. */
  function NegOp(t: Arena, i: nat): (r: Arena)
    requires WellFormed(t) && i < |t|
    ensures WellFormed(r) && Extends(t, r) && |r| == |t| + 2
    ensures Last(r).data == -t[i].data
    ensures Last(r).op == Mul(i, |t|) && r[|t|] == Node(-1.0, Leaf)
  {
    MulOp(t, i, Lit(-1.0))
  }

  /**
    `this.sub(rhs)`: a number is negated and promoted (`new Value(-rhs)`), a
    node is negated with `neg()`; the result is `this.add` of that node.
   */
  function SubOp(t: Arena, i: nat, x: Operand): (r: Arena)
    requires WellFormed(t) && i < |t| && Fits(t, x)
    ensures WellFormed(r) && Extends(t, r) && |t| < |r|
    ensures Last(r).data == t[i].data - ValueOf(t, x)
    ensures Last(r).op.Add? && Last(r).op.a == i && Last(r).op.b < |r| - 1
    ensures r[Last(r).op.b].data == -ValueOf(t, x)
    ensures x.Lit? ==> |r| == |t| + 2 && Last(r).op.b == |t| && r[|t|] == Node(-x.c, Leaf)
    ensures x.Ref? ==>
              |r| == |t| + 3 && Last(r).op.b == |t| + 1
              && r[|t|] == Node(-1.0, Leaf) && r[|t| + 1].op == Mul(x.index, |t|)
  {
    match x
    case Lit(c) => AddOp(t, i, Lit(-c))
    case Ref(j) =>
      var t1 := NegOp(t, j);
      assert t1[i] == t[i];
      var r := AddOp(t1, i, Ref(|t1| - 1));
      ExtendsTrans(t, t1, r);
      r
  }

  /** `this.pow(n)` for an integer exponent n. */
  function PowOp(t: Arena, i: nat, n: int): (r: Arena)
    requires WellFormed(t) && i < |t|
    requires t[i].data != 0.0 || n >= 1
    ensures WellFormed(r) && Extends(t, r) && |r| == |t| + 1
    ensures Last(r) == Node(Power(t[i].data, n), Pow(i, n))
  {
    var nd := Node(Power(t[i].data, n), Pow(i, n));
    PushWellFormed(t, nd);
    t + [nd]
  }

  lemma PowerMinusOne(x: real)
    requires x != 0.0
    ensures Power(x, -1) == 1.0 / x
  {
    assert Power(x, 1) == x * Power(x, 0);
  }

  /**
    `this.div(rhs)`: the divisor is promoted, raised to the power -1 and
    multiplied into `this`.  A zero divisor is excluded: the source yields an
    IEEE infinity there, or NaN when the dividend is 0 as well.
   */
  function DivOp(t: Arena, i: nat, x: Operand): (r: Arena)
    requires WellFormed(t) && i < |t| && Fits(t, x)
    requires ValueOf(t, x) != 0.0
    ensures WellFormed(r) && Extends(t, r) && |t| < |r|
    ensures Last(r).data == t[i].data / ValueOf(t, x)
    ensures |r| >= |t| + 2 && Last(r).op == Mul(i, |r| - 2)
    ensures r[|r| - 2].op.Pow? && r[|r| - 2].op.n == -1
    ensures r[|r| - 2].op.a == (if x.Ref? then x.index else |t|)
    ensures x.Ref? ==> |r| == |t| + 2
    ensures x.Lit? ==> |r| == |t| + 3 && r[|t|] == Node(x.c, Leaf)
  {
    var (t1, j) := Promote(t, x);
    if x.Ref? then
      var t2 := PowOp(t1, j, -1);
      PowerMinusOne(t1[j].data);
      assert t2[i] == t[i];
      var r := MulOp(t2, i, Ref(|t2| - 1));
      ExtendsTrans(t, t2, r);
      r
    else
      var t2 := PowOp(t1, j, -1);
      PowerMinusOne(t1[j].data);
      assert t2[i] == t[i];
      var r := MulOp(t2, i, Ref(|t2| - 1));
      ExtendsTrans(t, t1, t2);
      ExtendsTrans(t, t2, r);
      r
  }

  /** `this.exp()`: the value is the library exponential of the operand's value. */
  function ExpOp(t: Arena, i: nat, exp: ExpFn): (r: Arena)
    requires WellFormed(t) && i < |t|
    ensures WellFormed(r) && Extends(t, r) && |r| == |t| + 1
    ensures Last(r) == Node(exp(t[i].data), Exp(i)) && Last(r).data >= 0.0
  {
    var nd := Node(exp(t[i].data), Exp(i));
    PushWellFormed(t, nd);
    t + [nd]
  }

  /** The source's hyperbolic tangent, `(e^x - 1) / (e^x + 1)` written out. */
  function TanhOf(exp: ExpFn, x: real): (r: real)
    ensures -1.0 <= r < 1.0
    ensures exp(x) == 1.0 ==> r == 0.0
    ensures exp(x) > 1.0 ==> r > 0.0
  {
    (exp(x) - 1.0) / (exp(x) + 1.0)
  }

  /** `this.tanh()`. */
  function TanhOp(t: Arena, i: nat, exp: ExpFn): (r: Arena)
    requires WellFormed(t) && i < |t|
    ensures WellFormed(r) && Extends(t, r) && |r| == |t| + 1
    ensures Last(r) == Node(TanhOf(exp, t[i].data), Tanh(i))
    ensures -1.0 <= Last(r).data < 1.0
  {
    var nd := Node(TanhOf(exp, t[i].data), Tanh(i));
    PushWellFormed(t, nd);
    t + [nd]
  }

  /** The two leaves a = 2.0 and b = 3.0 of the arithmetic examples. */
  function TwoThree(): Arena
  {
    [Node(2.0, Leaf), Node(3.0, Leaf)]
  }

  /** 2 + 3 = 5, 2 * 3 = 6, 2 - 3 = -1, 2 / 3 and 2 ** 2 = 4. */
  lemma ArithmeticExamples()
    ensures Last(AddOp(TwoThree(), 0, Ref(1))).data == 5.0
    ensures Last(MulOp(TwoThree(), 0, Ref(1))).data == 6.0
    ensures Last(SubOp(TwoThree(), 0, Ref(1))).data == -1.0
    ensures Last(DivOp(TwoThree(), 0, Ref(1))).data == 2.0 / 3.0
    ensures Last(PowOp(TwoThree(), 0, 2)).data == 4.0
  {
    assert WellFormed(TwoThree()) by {
      forall v | 0 <= v < 2 ensures NodeOk(TwoThree(), v) { }
    }
    assert Power(2.0, 2) == 2.0 * Power(2.0, 1);
    assert Power(2.0, 1) == 2.0 * Power(2.0, 0);
  }
}
