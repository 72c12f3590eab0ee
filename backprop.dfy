/**
  `Value.backward()` and the per-node `_backward` rules.

  The backward pass sorts every node reachable from the root depth-first in
  post-order, with a `seen` map so that each node is entered once, reverses
  that order, sets the root's gradient to 1 and runs every node's rule in
  the reversed order.  A rule adds the chain-rule contribution of its node
  into its operands' gradients; nothing is ever reset.

  The gradients live in a store `grad` indexed like the arena.  What the pass
  leaves in it is stated by `GradAfter`, a recurrence over the graph that
  does not depend on the order of the traversal; with zero gradients
  beforehand it is the sum over all operand paths of the products of the
  local factors the rules apply (`PathSum`).
 */
module Backprop {
  import opened Graph

  // ---------------------------------------------------------------------
  // Reachability
  // ---------------------------------------------------------------------

  /** The nodes reachable from v along operand edges, v included. */
  ghost function Reach(t: Arena, v: nat): set<nat>
    requires WellFormed(t) && v < |t|
    decreases v
  {
    assert NodeOk(t, v);
    {v} + match t[v].op
      case Leaf => {}
      case Add(a, b) => Reach(t, a) + Reach(t, b)
      case Mul(a, b) => Reach(t, a) + Reach(t, b)
      case Pow(a, _) => Reach(t, a)
      case Exp(a) => Reach(t, a)
      case Tanh(a) => Reach(t, a)
  }

  /** Every entry of s names a node of t. */
  predicate Fit(t: Arena, s: seq<nat>)
  {
    forall i :: 0 <= i < |s| ==> s[i] < |t|
  }

  /** The nodes reachable from any of the nodes cs. */
  ghost function ReachOf(t: Arena, cs: seq<nat>): set<nat>
    requires WellFormed(t) && Fit(t, cs)
  {
    if cs == [] then {} else ReachOf(t, cs[..|cs| - 1]) + Reach(t, cs[|cs| - 1])
  }

  lemma ReachOfOne(t: Arena, a: nat)
    requires WellFormed(t) && a < |t|
    ensures ReachOf(t, [a]) == Reach(t, a)
  {
    assert [a][..0] == [];
  }

  lemma ReachOfTwo(t: Arena, a: nat, b: nat)
    requires WellFormed(t) && a < |t| && b < |t|
    ensures ReachOf(t, [a, b]) == Reach(t, a) + Reach(t, b)
  {
    assert [a, b][..1] == [a];
    ReachOfOne(t, a);
  }

  lemma ReachStep(t: Arena, v: nat)
    requires WellFormed(t) && v < |t|
    ensures forall k :: 0 <= k < |Children(t[v].op)| ==> Children(t[v].op)[k] < v
    ensures Reach(t, v) == {v} + ReachOf(t, Children(t[v].op))
  {
    ChildrenBelow(t, v);
    assert NodeOk(t, v);
    match t[v].op
    case Leaf =>
    case Add(a, b) => ReachOfTwo(t, a, b);
    case Mul(a, b) => ReachOfTwo(t, a, b);
    case Pow(a, _) => ReachOfOne(t, a);
    case Exp(a) => ReachOfOne(t, a);
    case Tanh(a) => ReachOfOne(t, a);
  }

  lemma {:induction false} ReachBelow(t: Arena, v: nat)
    requires WellFormed(t) && v < |t|
    ensures forall w :: w in Reach(t, v) ==> w <= v
    decreases v
  {
    assert NodeOk(t, v);
    match t[v].op
    case Leaf =>
    case Add(a, b) => ReachBelow(t, a); ReachBelow(t, b);
    case Mul(a, b) => ReachBelow(t, a); ReachBelow(t, b);
    case Pow(a, _) => ReachBelow(t, a);
    case Exp(a) => ReachBelow(t, a);
    case Tanh(a) => ReachBelow(t, a);
  }

  lemma {:induction false} ReachTrans(t: Arena, v: nat, w: nat)
    requires WellFormed(t) && v < |t| && w in Reach(t, v)
    ensures w < |t| && Reach(t, w) <= Reach(t, v)
    decreases v
  {
    ReachBelow(t, v);
    if w != v {
      assert NodeOk(t, v);
      match t[v].op
      case Leaf =>
      case Add(a, b) => if w in Reach(t, a) { ReachTrans(t, a, w); } else { ReachTrans(t, b, w); }
      case Mul(a, b) => if w in Reach(t, a) { ReachTrans(t, a, w); } else { ReachTrans(t, b, w); }
      case Pow(a, _) => ReachTrans(t, a, w);
      case Exp(a) => ReachTrans(t, a, w);
      case Tanh(a) => ReachTrans(t, a, w);
    }
  }

  /** An operand of a reachable node is reachable. */
  lemma ChildReach(t: Arena, v: nat, c: nat)
    requires WellFormed(t) && v < |t| && c in Children(t[v].op)
    ensures c < v && c in Reach(t, v) && Reach(t, c) <= Reach(t, v)
  {
    ReachStep(t, v);
    var cs := Children(t[v].op);
    if c != cs[|cs| - 1] {
      assert c in cs[..|cs| - 1];
    }
    ReachTrans(t, v, c);
  }

  lemma {:induction false} ReachOfBelow(t: Arena, cs: seq<nat>, bound: nat)
    requires WellFormed(t) && bound <= |t| && forall i :: 0 <= i < |cs| ==> cs[i] < bound
    ensures forall w :: w in ReachOf(t, cs) ==> w < bound
    decreases |cs|
  {
    if cs != [] {
      ReachOfBelow(t, cs[..|cs| - 1], bound);
      ReachBelow(t, cs[|cs| - 1]);
    }
  }

  /** The nodes reachable from an arena's existing node do not change when nodes are appended. */
  lemma {:induction false} ReachExtends(t: Arena, t': Arena, v: nat)
    requires WellFormed(t) && WellFormed(t') && Extends(t, t') && v < |t|
    ensures Reach(t', v) == Reach(t, v)
    decreases v
  {
    assert t'[v] == t[v];
    assert NodeOk(t, v);
    match t[v].op
    case Leaf =>
    case Add(a, b) => ReachExtends(t, t', a); ReachExtends(t, t', b);
    case Mul(a, b) => ReachExtends(t, t', a); ReachExtends(t, t', b);
    case Pow(a, _) => ReachExtends(t, t', a);
    case Exp(a) => ReachExtends(t, t', a);
    case Tanh(a) => ReachExtends(t, t', a);
  }

  // ---------------------------------------------------------------------
  // The depth-first sort
  // ---------------------------------------------------------------------

  /** The state of the traversal: the keys entered in `seen` and the list `nodes`. */
  datatype Visit<K> = Visit(seen: set<K>, order: seq<nat>)

  /**
    `sort(v)` with `seen` keyed by key[v]: when v's key is not yet seen it
    is recorded, v's operands are sorted from first to last, and v is
    appended to the list.
   */
  ghost function PostOrderBy<K>(t: Arena, key: seq<K>, v: nat, st: Visit<K>): (r: Visit<K>)
    requires WellFormed(t) && |key| == |t| && v < |t| && Fit(t, st.order)
    ensures Fit(t, r.order) && |st.order| <= |r.order| && r.order[..|st.order|] == st.order
    decreases v, 1, 0
  {
    if key[v] in st.seen then st
    else
      ChildrenBelow(t, v);
      var after := VisitAll(t, key, v, Children(t[v].op), Visit(st.seen + {key[v]}, st.order));
      Visit(after.seen, after.order + [v])
  }

  /** The loop of `sort` over the operands cs of node v. */
  ghost function VisitAll<K>(t: Arena, key: seq<K>, v: nat, cs: seq<nat>, st: Visit<K>): (r: Visit<K>)
    requires WellFormed(t) && |key| == |t| && v < |t| && Fit(t, st.order)
    requires forall i :: 0 <= i < |cs| ==> cs[i] < v
    ensures Fit(t, r.order) && |st.order| <= |r.order| && r.order[..|st.order|] == st.order
    decreases v, 0, |cs|
  {
    if cs == [] then st
    else
      var mid := VisitAll(t, key, v, cs[..|cs| - 1], st);
      var r := PostOrderBy(t, key, cs[|cs| - 1], mid);
      assert r.order[..|st.order|] == r.order[..|mid.order|][..|st.order|];
      r
  }

  /** Keys by node identity: the arena index. */
  function IdentityKeys(n: nat): (k: seq<nat>)
    ensures |k| == n && forall i :: 0 <= i < n ==> k[i] == i
  {
    seq(n, i => i)
  }

  lemma IdentityKeysInjective(n: nat, S: set<nat>)
    ensures InjectiveOn(IdentityKeys(n), S)
  {
  }

  /**
    Keys as the source forms them: indexing `seen` with a node converts it to
    its `toString()` text, `Value(data='…')`, which depends on data alone.
   */
  function RenderKeys(t: Arena): (k: seq<real>)
    ensures |k| == |t| && forall i :: 0 <= i < |t| ==> k[i] == t[i].data
  {
    seq(|t|, i requires 0 <= i < |t| => t[i].data)
  }

  /**
    The recursive `sort` closure of `backward()`, with `seen` keyed by node
    identity.  It does exactly what PostOrderBy describes with identity keys.
   */
  method Sort(t: Arena, v: nat, seen: set<nat>, order: seq<nat>) returns (seen': set<nat>, order': seq<nat>)
    requires WellFormed(t) && v < |t| && Fit(t, order)
    ensures Visit(seen', order') == PostOrderBy(t, IdentityKeys(|t|), v, Visit(seen, order))
    decreases v
  {
    seen', order' := seen, order;
    if v !in seen {
      seen' := seen' + {v};
      ChildrenBelow(t, v);
      var cs := Children(t[v].op);
      for ci := 0 to |cs|
        invariant Visit(seen', order') == VisitAll(t, IdentityKeys(|t|), v, cs[..ci], Visit(seen + {v}, order))
      {
        assert cs[..ci + 1][..ci] == cs[..ci];
        seen', order' := Sort(t, cs[ci], seen', order');
      }
      assert cs[..|cs|] == cs;
      order' := order' + [v];
    }
  }

  predicate Distinct(s: seq<nat>)
  {
    forall i, j :: 0 <= i < j < |s| ==> s[i] != s[j]
  }

  function Elems(s: seq<nat>): set<nat>
  {
    set x | x in s
  }

  /** Every operand of s[j] occurs before position j. */
  ghost predicate ChildrenBefore(t: Arena, s: seq<nat>, j: nat)
    requires j < |s| && s[j] < |t|
  {
    forall c :: c in Children(t[s[j]].op) ==> c in s[..j]
  }

  /** s lists every node after all of its operands. */
  ghost predicate PostOrdered(t: Arena, s: seq<nat>)
  {
    Fit(t, s) && forall j :: 0 <= j < |s| ==> ChildrenBefore(t, s, j)
  }

  /** s lists every node before all of its operands. */
  ghost predicate ParentsFirst(t: Arena, s: seq<nat>)
  {
    Fit(t, s) &&
    forall i, j :: 0 <= i < |s| && 0 <= j < |s| && s[i] < |t| && s[j] in Children(t[s[i]].op) ==> i < j
  }

  ghost function KeysOf<K>(key: seq<K>, S: set<nat>): set<K>
  {
    set w | w in S && w < |key| :: key[w]
  }

  ghost predicate InjectiveOn<K>(key: seq<K>, S: set<nat>)
  {
    forall a, b :: a in S && b in S && a < |key| && b < |key| && key[a] == key[b] ==> a == b
  }

  /**
    What holds whenever `sort` is entered during `sort(root)`: S is the set
    of nodes whose keys are seen, the list holds distinct nodes in post-order,
    and the nodes seen but not yet listed (those on the recursion stack) all
    lie at or above `above`.
   */
  ghost predicate TraversalOk<K>(t: Arena, key: seq<K>, root: nat, above: nat, st: Visit<K>, S: set<nat>)
    requires WellFormed(t) && root < |t|
  {
    && S <= Reach(t, root)
    && st.seen == KeysOf(key, S)
    && Elems(st.order) <= S
    && Distinct(st.order)
    && PostOrdered(t, st.order)
    && forall w :: w in S && w !in Elems(st.order) ==> w >= above
  }

  /** A post-ordered list holds everything reachable from its members. */
  lemma {:induction false} PostOrderedClosed(t: Arena, s: seq<nat>, v: nat)
    requires WellFormed(t) && PostOrdered(t, s) && v in Elems(s)
    ensures v < |t| && Reach(t, v) <= Elems(s)
    decreases v
  {
    var j :| 0 <= j < |s| && s[j] == v;
    assert ChildrenBefore(t, s, j);
    ReachStep(t, v);
    forall c | c in Children(t[v].op) ensures Reach(t, c) <= Elems(s) {
      assert c in s[..j];
      PostOrderedClosed(t, s, c);
    }
    ReachOfWithin(t, Children(t[v].op), Elems(s));
  }

  lemma {:induction false} ReachOfWithin(t: Arena, cs: seq<nat>, E: set<nat>)
    requires WellFormed(t) && Fit(t, cs) && forall i :: 0 <= i < |cs| ==> Reach(t, cs[i]) <= E
    ensures ReachOf(t, cs) <= E
    decreases |cs|
  {
    if cs != [] {
      ReachOfWithin(t, cs[..|cs| - 1], E);
    }
  }

  lemma KeysOfAdd<K>(key: seq<K>, S: set<nat>, A: set<nat>)
    requires forall w :: w in A ==> w < |key|
    ensures KeysOf(key, S + A) == KeysOf(key, S) + KeysOf(key, A)
  {
  }

  /** Correctness of `sort(v)` under the traversal invariant. */
  lemma {:induction false} PostOrderByCorrect<K>(t: Arena, key: seq<K>, root: nat, v: nat, st: Visit<K>, S: set<nat>)
    requires WellFormed(t) && root < |t| && |key| == |t| && v < |t| && v in Reach(t, root)
    requires InjectiveOn(key, Reach(t, root))
    requires TraversalOk(t, key, root, v + 1, st, S)
    ensures var r := PostOrderBy(t, key, v, st);
      && TraversalOk(t, key, root, v + 1, r, S + Reach(t, v))
      && Elems(r.order) == Elems(st.order) + Reach(t, v)
    decreases v, 1, 0
  {
    ReachBelow(t, root);
    ReachTrans(t, root, v);
    if key[v] in st.seen {
      var w :| w in S && w < |key| && key[w] == key[v];
      assert w == v;
      PostOrderedClosed(t, st.order, v);
    } else {
      assert v !in S;
      var cs := Children(t[v].op);
      ChildrenBelow(t, v);
      var st1 := Visit(st.seen + {key[v]}, st.order);
      KeysOfAdd(key, S, {v});
      VisitAllCorrect(t, key, root, v, cs, st1, S + {v});
      var after := VisitAll(t, key, v, cs, st1);
      assert PostOrderBy(t, key, v, st) == Visit(after.seen, after.order + [v]);
      ListedLast(t, key, root, v, st, S, after);
    }
  }

  /** Listing v once its operands' traversals are done restores the invariant above v. */
  lemma ListedLast<K>(t: Arena, key: seq<K>, root: nat, v: nat, st: Visit<K>, S: set<nat>, after: Visit<K>)
    requires WellFormed(t) && root < |t| && v < |t| && v in Reach(t, root) && v !in S
    requires Fit(t, Children(t[v].op))
    requires TraversalOk(t, key, root, v + 1, st, S)
    requires TraversalOk(t, key, root, v, after, S + {v} + ReachOf(t, Children(t[v].op)))
    requires Elems(after.order) == Elems(st.order) + ReachOf(t, Children(t[v].op))
    ensures TraversalOk(t, key, root, v + 1, Visit(after.seen, after.order + [v]), S + Reach(t, v))
    ensures Elems(after.order + [v]) == Elems(st.order) + Reach(t, v)
  {
    var cs := Children(t[v].op);
    ChildrenBelow(t, v);
    ReachStep(t, v);
    ReachOfBelow(t, cs, v);
    assert v !in Elems(after.order);
    forall c | c in cs ensures c in Elems(after.order) {
      ChildReach(t, v, c);
      ReachBelow(t, c);
      ReachOfContains(t, cs, c);
    }
    PostOrderedPush(t, after.order, v);
    assert Elems(after.order + [v]) == Elems(after.order) + {v};
  }

  /** Appending a node whose operands are all listed keeps a list post-ordered. */
  lemma PostOrderedPush(t: Arena, s: seq<nat>, v: nat)
    requires PostOrdered(t, s) && v < |t|
    requires forall c :: c in Children(t[v].op) ==> c in Elems(s)
    ensures PostOrdered(t, s + [v])
  {
    var r := s + [v];
    forall j | 0 <= j < |r| ensures ChildrenBefore(t, r, j) {
      if j < |s| {
        assert ChildrenBefore(t, s, j);
        assert r[..j] == s[..j];
      } else {
        assert r[..j] == s;
      }
    }
  }

  lemma {:induction false} ReachOfContains(t: Arena, cs: seq<nat>, c: nat)
    requires WellFormed(t) && Fit(t, cs) && c in cs
    ensures c < |t| && Reach(t, c) <= ReachOf(t, cs)
    decreases |cs|
  {
    if c != cs[|cs| - 1] {
      assert c in cs[..|cs| - 1];
      ReachOfContains(t, cs[..|cs| - 1], c);
    }
  }

  /** Correctness of the loop of `sort(v)` over the operand list cs. */
  lemma {:induction false} VisitAllCorrect<K>(t: Arena, key: seq<K>, root: nat, v: nat, cs: seq<nat>, st: Visit<K>, S: set<nat>)
    requires WellFormed(t) && root < |t| && |key| == |t| && v < |t| && v in Reach(t, root)
    requires InjectiveOn(key, Reach(t, root))
    requires forall i :: 0 <= i < |cs| ==> cs[i] in Children(t[v].op)
    requires (forall i :: 0 <= i < |cs| ==> cs[i] < v) && Fit(t, st.order)
    requires TraversalOk(t, key, root, v, st, S)
    ensures var r := VisitAll(t, key, v, cs, st);
      && TraversalOk(t, key, root, v, r, S + ReachOf(t, cs))
      && Elems(r.order) == Elems(st.order) + ReachOf(t, cs)
    decreases v, 0, |cs|
  {
    if cs != [] {
      var pre := cs[..|cs| - 1];
      var c := cs[|cs| - 1];
      VisitAllCorrect(t, key, root, v, pre, st, S);
      var mid := VisitAll(t, key, v, pre, st);
      ChildReach(t, v, c);
      ReachTrans(t, root, v);
      PostOrderByCorrect(t, key, root, c, mid, S + ReachOf(t, pre));
      VisitAllUnfold(t, key, v, cs, st);
      ChildDone(t, key, root, v, c, st, mid, PostOrderBy(t, key, c, mid), S, ReachOf(t, pre), Reach(t, c));
    } else {
      assert S + ReachOf(t, cs) == S;
    }
  }

  /** The loop over cs is the loop over all but the last operand, then `sort` of the last. */
  lemma VisitAllUnfold<K>(t: Arena, key: seq<K>, v: nat, cs: seq<nat>, st: Visit<K>)
    requires WellFormed(t) && |key| == |t| && v < |t| && cs != []
    requires (forall i :: 0 <= i < |cs| ==> cs[i] < v) && Fit(t, st.order)
    ensures var pre, c := cs[..|cs| - 1], cs[|cs| - 1];
      && VisitAll(t, key, v, cs, st) == PostOrderBy(t, key, c, VisitAll(t, key, v, pre, st))
      && ReachOf(t, cs) == ReachOf(t, pre) + Reach(t, c)
  {
  }

  /** Once the traversal of an operand c of v is done, the invariant holds above v again. */
  lemma ChildDone<K>(t: Arena, key: seq<K>, root: nat, v: nat, c: nat, st: Visit<K>, mid: Visit<K>, r: Visit<K>,
                     S: set<nat>, P: set<nat>, R: set<nat>)
    requires WellFormed(t) && root < |t| && c < v
    requires TraversalOk(t, key, root, v, mid, S + P)
    requires Elems(mid.order) == Elems(st.order) + P
    requires TraversalOk(t, key, root, c + 1, r, S + P + R)
    requires Elems(r.order) == Elems(mid.order) + R
    ensures TraversalOk(t, key, root, v, r, S + (P + R))
    ensures Elems(r.order) == Elems(st.order) + (P + R)
  {
    assert S + P + R == S + (P + R);
  }

  /** `sort(root)` from an empty `seen`: with keys that tell reachable nodes apart, the list holds each reachable node once, operands first, root last. */
  lemma PostOrderFromRoot<K>(t: Arena, key: seq<K>, root: nat)
    requires WellFormed(t) && root < |t| && |key| == |t|
    requires InjectiveOn(key, Reach(t, root))
    ensures var s := PostOrderBy(t, key, root, Visit({}, [])).order;
      && Distinct(s) && PostOrdered(t, s) && Elems(s) == Reach(t, root)
      && |s| > 0 && s[|s| - 1] == root
  {
    ReachBelow(t, root);
    PostOrderByCorrect(t, key, root, root, Visit({}, []), {});
  }

  function Reversed(s: seq<nat>): (r: seq<nat>)
    ensures |r| == |s| && forall i :: 0 <= i < |s| ==> r[i] == s[|s| - 1 - i]
  {
    seq(|s|, i requires 0 <= i < |s| => s[|s| - 1 - i])
  }

  /** `nodes.reverse()`: a post-order reversed lists every node before its operands. */
  lemma ReversedParentsFirst(t: Arena, s: seq<nat>)
    requires Distinct(s) && PostOrdered(t, s)
    ensures var r := Reversed(s);
      Distinct(r) && ParentsFirst(t, r) && Elems(r) == Elems(s)
  {
    var r := Reversed(s);
    var n := |s|;
    forall i, j | 0 <= i < n && 0 <= j < n && r[i] < |t| && r[j] in Children(t[r[i]].op) ensures i < j {
      var a, b := n - 1 - i, n - 1 - j;
      assert ChildrenBefore(t, s, a);
      assert s[b] in s[..a];
      var m :| 0 <= m < a && s[m] == s[b];
    }
    forall x | x in Elems(s) ensures x in Elems(r) {
      var k :| 0 <= k < n && s[k] == x;
      assert r[n - 1 - k] == x;
    }
  }

  // ---------------------------------------------------------------------
  // Local rules
  // ---------------------------------------------------------------------

  /** The derivative of x ** n with respect to x: n * x ** (n - 1). */
  function PowSlope(x: real, n: int): real
    requires x != 0.0 || n >= 1
  {
    n as real * Power(x, n - 1)
  }

  /** The local derivative that node v's rule applies to its k-th operand. */
  function Local(t: Arena, v: nat, k: nat): real
    requires WellFormed(t) && v < |t| && k < |Children(t[v].op)|
  {
    assert NodeOk(t, v);
    match t[v].op
    case Add(_, _) => 1.0
    case Mul(a, b) => if k == 0 then t[b].data else t[a].data
    case Pow(a, n) => PowSlope(t[a].data, n)
    case Exp(_) => t[v].data
    case Tanh(_) => 1.0 - t[v].data * t[v].data
    case Leaf => 0.0  // a leaf has no operand slot
  }

  /** The total local derivative of q with respect to u, over every operand slot of q holding u. */
  function Edge(t: Arena, q: nat, u: nat): real
    requires WellFormed(t) && q < |t|
  {
    var cs := Children(t[q].op);
    (if 0 < |cs| && cs[0] == u then Local(t, q, 0) else 0.0) +
    (if 1 < |cs| && cs[1] == u then Local(t, q, 1) else 0.0)
  }

  lemma EdgeOnlyToOperands(t: Arena, q: nat, u: nat)
    requires WellFormed(t) && q < |t| && Edge(t, q, u) != 0.0
    ensures u in Children(t[q].op) && u < q
  {
    ChildrenBelow(t, q);
  }

  /**
    `a.sub(b)` for a node b: the result's rule passes its gradient with
    factor 1 to the `neg()` node, whose rule passes it on to b with factor
    -1, so b reaches the result.
   */
  lemma SubLinksOperand(t: Arena, i: nat, j: nat)
    requires WellFormed(t) && i < |t| && j < |t|
    ensures var r := SubOp(t, i, Ref(j));
      && j in Reach(r, |r| - 1)
      && Edge(r, |r| - 1, |t| + 1) == 1.0
      && Edge(r, |t| + 1, j) == -1.0
  {
    var r := SubOp(t, i, Ref(j));
    ChildReach(r, |t| + 1, j);
    ChildReach(r, |r| - 1, |t| + 1);
    assert Local(r, |t| + 1, 0) == r[|t|].data;
  }

  /**
    `a.div(b)`: the divisor (b, or the leaf made for a number) is the base of
    the `pow(-1)` node, whose rule passes on the factor -1 * b ** -2; the
    divisor reaches the result.
   */
  lemma DivLinksDivisor(t: Arena, i: nat, x: Operand)
    requires WellFormed(t) && i < |t| && Fits(t, x) && ValueOf(t, x) != 0.0
    ensures var r := DivOp(t, i, x);
      var d := if x.Ref? then x.index else |t|;
      && d in Reach(r, |r| - 1)
      && Edge(r, |r| - 2, d) == PowSlope(ValueOf(t, x), -1)
  {
    var r := DivOp(t, i, x);
    var d := if x.Ref? then x.index else |t|;
    ChildReach(r, |r| - 2, d);
    ChildReach(r, |r| - 1, |r| - 2);
    assert r[d].data == ValueOf(t, x) by {
      if x.Ref? {
        assert r[..|t|] == t;
      }
    }
  }

  /** What a rule adds to one operand's gradient: the local derivative times the node's own gradient. */
  function Share(local: real, grad: real): real
  {
    local * grad
  }

  /**
    The effect of node p's `_backward` on the gradient store g: each operand
    slot adds its local derivative times p's gradient; nothing is
    overwritten, and an operand held in both slots receives both additions.
   */
  function Rule(t: Arena, p: nat, g: seq<real>): (r: seq<real>)
    requires WellFormed(t) && p < |t| && |g| == |t|
    ensures |r| == |g|
  {
    assert NodeOk(t, p);
    match t[p].op
    case Leaf => g
    case Add(a, b) =>
      var g1 := g[a := g[a] + Share(1.0, g[p])];
      g1[b := g1[b] + Share(1.0, g1[p])]
    case Mul(a, b) =>
      var g1 := g[a := g[a] + Share(t[b].data, g[p])];
      g1[b := g1[b] + Share(t[a].data, g1[p])]
    case Pow(a, n) => g[a := g[a] + Share(PowSlope(t[a].data, n), g[p])]
    case Exp(a) => g[a := g[a] + Share(t[p].data, g[p])]
    case Tanh(a) => g[a := g[a] + Share(1.0 - t[p].data * t[p].data, g[p])]
  }

  /**
    The rule of p adds to every gradient u exactly p's gradient times the
    local derivative of p with respect to u, and changes nothing else.
   */
  lemma RuleEffect(t: Arena, p: nat, g: seq<real>)
    requires WellFormed(t) && p < |t| && |g| == |t|
    ensures forall u :: 0 <= u < |g| ==> Rule(t, p, g)[u] == g[u] + Prod(g[p], Edge(t, p, u))
  {
    assert NodeOk(t, p);
    var r := Rule(t, p, g);
    forall u | 0 <= u < |g| ensures r[u] == g[u] + Prod(g[p], Edge(t, p, u)) {
      match t[p].op
      case Leaf =>
      case Add(a, b) =>
      case Mul(a, b) =>
      case Pow(a, n) =>
      case Exp(a) =>
      case Tanh(a) =>
    }
  }

  /** `a.add(a)`: both operand slots hold a, so a's gradient receives 2 * g. */
  lemma AliasedAddDoubles(x: real, g: seq<real>)
    requires |g| == 2
    ensures WellFormed([Node(x, Leaf), Node(x + x, Add(0, 0))])
    ensures Rule([Node(x, Leaf), Node(x + x, Add(0, 0))], 1, g) == [g[0] + 2.0 * g[1], g[1]]
  {
    var t := [Node(x, Leaf), Node(x + x, Add(0, 0))];
    assert NodeOk(t, 0) && NodeOk(t, 1);
  }

  /** Node p's `_backward` closure, acting on the gradient store. */
  method RunBackward(t: Arena, p: nat, grad: array<real>)
    requires WellFormed(t) && p < |t| && grad.Length == |t|
    modifies grad
    ensures grad[..] == Rule(t, p, old(grad[..]))
  {
    assert NodeOk(t, p);
    match t[p].op {
      case Leaf =>
      case Add(a, b) =>
        grad[a] := grad[a] + Share(1.0, grad[p]);
        grad[b] := grad[b] + Share(1.0, grad[p]);
      case Mul(a, b) =>
        grad[a] := grad[a] + Share(t[b].data, grad[p]);
        grad[b] := grad[b] + Share(t[a].data, grad[p]);
      case Pow(a, n) =>
        grad[a] := grad[a] + Share(PowSlope(t[a].data, n), grad[p]);
      case Exp(a) =>
        grad[a] := grad[a] + Share(t[p].data, grad[p]);
      case Tanh(a) =>
        grad[a] := grad[a] + Share(1.0 - t[p].data * t[p].data, grad[p]);
    }
  }

  /** Running the rules of nodes, first to last, on the gradient store g. */
  function Sweep(t: Arena, nodes: seq<nat>, g: seq<real>): (r: seq<real>)
    requires WellFormed(t) && |g| == |t| && Fit(t, nodes)
    ensures |r| == |g|
  {
    if nodes == [] then g
    else Rule(t, nodes[|nodes| - 1], Sweep(t, nodes[..|nodes| - 1], g))
  }

  /** One more rule run extends the sweep by one node. */
  lemma SweepStep(t: Arena, nodes: seq<nat>, i: nat, g: seq<real>)
    requires WellFormed(t) && |g| == |t| && Fit(t, nodes) && i < |nodes|
    ensures Sweep(t, nodes[..i + 1], g) == Rule(t, nodes[i], Sweep(t, nodes[..i], g))
  {
    assert nodes[..i + 1][..i] == nodes[..i];
  }

  // ---------------------------------------------------------------------
  // What the backward pass computes
  // ---------------------------------------------------------------------

  /** The root's gradient is set to 1; every other gradient starts from its old value. */
  function Base(root: nat, g0: seq<real>, u: nat): real
    requires u < |g0|
  {
    if u == root then 1.0 else g0[u]
  }

  /**
    The gradient of node u after `backward()` on root, when g0 held the
    gradients before: the base value plus, for every reachable node q that
    uses u, q's own final gradient times q's local derivative with respect
    to u.
   */
  ghost function GradAfter(t: Arena, root: nat, g0: seq<real>, u: nat): real
    requires WellFormed(t) && root < |t| && |g0| == |t| && u < |t|
    decreases |t| - u, 1, 0
  {
    Base(root, g0, u) + Incoming(t, root, g0, u, root, Reach(t, root))
  }

  /** The contributions to u's gradient from the nodes q of P with u < q <= hi. */
  ghost function Incoming(t: Arena, root: nat, g0: seq<real>, u: nat, hi: nat, P: set<nat>): real
    requires WellFormed(t) && root < |t| && |g0| == |t| && u < |t| && hi < |t|
    decreases |t| - u, 0, hi
  {
    if hi <= u then 0.0
    else
      (if hi in P then GradAfter(t, root, g0, hi) * Edge(t, hi, u) else 0.0) +
      Incoming(t, root, g0, u, hi - 1, P)
  }

  lemma {:induction false} IncomingEmpty(t: Arena, root: nat, g0: seq<real>, u: nat, hi: nat)
    requires WellFormed(t) && root < |t| && |g0| == |t| && u < |t| && hi < |t|
    ensures Incoming(t, root, g0, u, hi, {}) == 0.0
    decreases hi
  {
    if hi > u {
      IncomingEmpty(t, root, g0, u, hi - 1);
    }
  }

  /** Two sets of contributors give the same sum when they differ only on nodes that do not use u. */
  lemma {:induction false} IncomingAgree(t: Arena, root: nat, g0: seq<real>, u: nat, hi: nat, P: set<nat>, P': set<nat>)
    requires WellFormed(t) && root < |t| && |g0| == |t| && u < |t| && hi < |t|
    requires forall w :: u < w <= hi && (w in P) != (w in P') ==> Edge(t, w, u) == 0.0
    ensures Incoming(t, root, g0, u, hi, P) == Incoming(t, root, g0, u, hi, P')
    decreases hi
  {
    if hi > u {
      IncomingAgree(t, root, g0, u, hi - 1, P, P');
    }
  }

  lemma {:induction false} IncomingInsert(t: Arena, root: nat, g0: seq<real>, u: nat, hi: nat, P: set<nat>, p: nat)
    requires WellFormed(t) && root < |t| && |g0| == |t| && u < |t| && hi < |t| && p < |t| && p !in P
    ensures Incoming(t, root, g0, u, hi, P + {p}) ==
            Incoming(t, root, g0, u, hi, P) + (if u < p <= hi then Prod(GradAfter(t, root, g0, p), Edge(t, p, u)) else 0.0)
    decreases hi
  {
    if hi > u {
      IncomingInsert(t, root, g0, u, hi - 1, P, p);
      var e := Edge(t, hi, u);
      if hi == p {
        IncomingTerm(t, root, g0, u, hi, P, 0.0, e);
        IncomingTerm(t, root, g0, u, hi, P + {p}, GradAfter(t, root, g0, hi), e);
      } else if hi in P {
        IncomingTerm(t, root, g0, u, hi, P, GradAfter(t, root, g0, hi), e);
        IncomingTerm(t, root, g0, u, hi, P + {p}, GradAfter(t, root, g0, hi), e);
      } else {
        IncomingTerm(t, root, g0, u, hi, P, 0.0, e);
        IncomingTerm(t, root, g0, u, hi, P + {p}, 0.0, e);
      }
    }
  }

  /** Running p's rule, once p's gradient is final, adds p to the contributors of every node. */
  lemma RuleAddsContributor(t: Arena, root: nat, g0: seq<real>, P: set<nat>, p: nat, G: seq<real>)
    requires WellFormed(t) && root < |t| && |g0| == |t| && |G| == |t| && p <= root && p !in P
    requires forall u :: 0 <= u < |t| ==> G[u] == Base(root, g0, u) + Incoming(t, root, g0, u, root, P)
    requires G[p] == GradAfter(t, root, g0, p)
    ensures forall u :: 0 <= u < |t| ==> Rule(t, p, G)[u] == Base(root, g0, u) + Incoming(t, root, g0, u, root, P + {p})
  {
    RuleEffect(t, p, G);
    forall u | 0 <= u < |t|
      ensures Rule(t, p, G)[u] == Base(root, g0, u) + Incoming(t, root, g0, u, root, P + {p})
    {
      IncomingInsert(t, root, g0, u, root, P, p);
      if !(u < p) && Edge(t, p, u) != 0.0 {
        EdgeOnlyToOperands(t, p, u);
      }
    }
  }

  /** When p's turn comes in a users-first order, every reachable user of p has already run. */
  lemma UsersRanBefore(t: Arena, root: nat, g0: seq<real>, rev: seq<nat>, i: nat)
    requires WellFormed(t) && root < |t| && |g0| == |t|
    requires Elems(rev) == Reach(t, root) && ParentsFirst(t, rev)
    requires 0 < i <= |rev|
    ensures Incoming(t, root, g0, rev[i - 1], root, Elems(rev[..i - 1])) ==
            Incoming(t, root, g0, rev[i - 1], root, Reach(t, root))
  {
    var p := rev[i - 1];
    var P := Elems(rev[..i - 1]);
    forall w | p < w <= root && (w in P) != (w in Reach(t, root)) ensures Edge(t, w, p) == 0.0 {
      if Edge(t, w, p) != 0.0 {
        EdgeOnlyToOperands(t, w, p);
      }
    }
    IncomingAgree(t, root, g0, p, root, P, Reach(t, root));
  }

  lemma DistinctLastFresh(s: seq<nat>, i: nat)
    requires Distinct(s) && 0 < i <= |s|
    ensures s[i - 1] !in Elems(s[..i - 1])
  {
    var pre := s[..i - 1];
    forall k | 0 <= k < |pre| ensures pre[k] != s[i - 1] {
      assert pre[k] == s[k];
    }
  }

  /** The gradients after the rules of rev[..i] have run: each holds its base plus the contributions of those nodes. */
  ghost predicate SweptPrefix(t: Arena, root: nat, g0: seq<real>, rev: seq<nat>, i: nat)
    requires WellFormed(t) && root < |t| && |g0| == |t| && Fit(t, rev) && i <= |rev|
  {
    forall u :: 0 <= u < |t| ==>
      Sweep(t, rev[..i], g0[root := 1.0])[u] == Base(root, g0, u) + Incoming(t, root, g0, u, root, Elems(rev[..i]))
  }

  /** Running the rule of rev[i - 1] extends SweptPrefix by one node. */
  lemma SweptPrefixStep(t: Arena, root: nat, g0: seq<real>, rev: seq<nat>, i: nat)
    requires WellFormed(t) && root < |t| && |g0| == |t|
    requires Distinct(rev) && Elems(rev) == Reach(t, root) && ParentsFirst(t, rev)
    requires 0 < i <= |rev|
    requires SweptPrefix(t, root, g0, rev, i - 1)
    ensures SweptPrefix(t, root, g0, rev, i)
  {
    var g1 := g0[root := 1.0];
    var P := Elems(rev[..i - 1]);
    var p := rev[i - 1];
    ReachBelow(t, root);
    assert p in Reach(t, root);
    assert rev[..i][..i - 1] == rev[..i - 1];
    var G := Sweep(t, rev[..i - 1], g1);
    assert Sweep(t, rev[..i], g1) == Rule(t, p, G);
    assert Elems(rev[..i]) == P + {p};
    DistinctLastFresh(rev, i);
    UsersRanBefore(t, root, g0, rev, i);
    RuleAddsContributor(t, root, g0, P, p, G);
  }

  /** After the rules of a prefix of the reversed order have run, each gradient holds its base plus that prefix's contributions. */
  lemma {:induction false} SweepPrefix(t: Arena, root: nat, g0: seq<real>, rev: seq<nat>, i: nat)
    requires WellFormed(t) && root < |t| && |g0| == |t|
    requires Distinct(rev) && Elems(rev) == Reach(t, root) && ParentsFirst(t, rev)
    requires i <= |rev|
    ensures forall u :: 0 <= u < |t| ==>
      Sweep(t, rev[..i], g0[root := 1.0])[u] == Base(root, g0, u) + Incoming(t, root, g0, u, root, Elems(rev[..i]))
    decreases i
  {
    ReachBelow(t, root);
    if i == 0 {
      assert Elems(rev[..0]) == {};
      forall u | 0 <= u < |t| ensures Incoming(t, root, g0, u, root, {}) == 0.0 {
        IncomingEmpty(t, root, g0, u, root);
      }
    } else {
      SweepPrefix(t, root, g0, rev, i - 1);
      SweptPrefixStep(t, root, g0, rev, i);
    }
  }

  /** Running the rules in any order that lists every reachable node once, users before operands, yields GradAfter. */
  lemma SweepIsGradAfter(t: Arena, root: nat, g0: seq<real>, rev: seq<nat>)
    requires WellFormed(t) && root < |t| && |g0| == |t|
    requires Distinct(rev) && Elems(rev) == Reach(t, root) && ParentsFirst(t, rev)
    ensures forall u :: 0 <= u < |t| ==> Sweep(t, rev, g0[root := 1.0])[u] == GradAfter(t, root, g0, u)
  {
    SweepPrefix(t, root, g0, rev, |rev|);
    assert rev[..|rev|] == rev;
  }

  /**
    `backward()` on root: sort the reachable nodes depth-first with an
    identity-keyed `seen`, reverse the list, set the root's gradient to 1,
    then run every listed node's rule in order.
   */
  method Backward(t: Arena, root: nat, grad: array<real>)
    requires WellFormed(t) && root < |t| && grad.Length == |t|
    modifies grad
    ensures forall u :: 0 <= u < |t| ==> grad[u] == GradAfter(t, root, old(grad[..]), u)
  {
    ghost var g0 := grad[..];
    var seen, order := Sort(t, root, {}, []);
    IdentityKeysInjective(|t|, Reach(t, root));
    PostOrderFromRoot(t, IdentityKeys(|t|), root);
    var nodes := Reversed(order);
    ReversedParentsFirst(t, order);
    assert Fit(t, nodes);
    grad[root] := 1.0;
    RunRules(t, nodes, grad);
    SweepIsGradAfter(t, root, g0, nodes);
  }

  /** Runs the `_backward` of every listed node, first to last. */
  method RunRules(t: Arena, nodes: seq<nat>, grad: array<real>)
    requires WellFormed(t) && grad.Length == |t| && Fit(t, nodes)
    modifies grad
    ensures grad[..] == Sweep(t, nodes, old(grad[..]))
  {
    ghost var g := grad[..];
    assert nodes[..0] == [];
    for i := 0 to |nodes|
      invariant grad[..] == Sweep(t, nodes[..i], g)
    {
      SweepStep(t, nodes, i, g);
      RunBackward(t, nodes[i], grad);
    }
    assert nodes[..|nodes|] == nodes;
  }

  // ---------------------------------------------------------------------
  // Properties of the result
  // ---------------------------------------------------------------------

  lemma RootGetsOne(t: Arena, root: nat, g0: seq<real>)
    requires WellFormed(t) && root < |t| && |g0| == |t|
    ensures GradAfter(t, root, g0, root) == 1.0
  {
  }

  /** Nodes the root does not depend on keep their gradients. */
  lemma UnreachableUnchanged(t: Arena, root: nat, g0: seq<real>, u: nat)
    requires WellFormed(t) && root < |t| && |g0| == |t| && u < |t| && u !in Reach(t, root)
    ensures GradAfter(t, root, g0, u) == g0[u]
  {
    forall w | u < w <= root && (w in Reach(t, root)) != (w in {}) ensures Edge(t, w, u) == 0.0 {
      if Edge(t, w, u) != 0.0 {
        EdgeOnlyToOperands(t, w, u);
        ReachTrans(t, root, w);
        ChildReach(t, w, u);
      }
    }
    IncomingAgree(t, root, g0, u, root, Reach(t, root), {});
    IncomingEmpty(t, root, g0, u, root);
  }

  /** On a leaf root the pass only sets the root's gradient to 1. */
  lemma LeafRoot(t: Arena, root: nat, g0: seq<real>, u: nat)
    requires WellFormed(t) && root < |t| && |g0| == |t| && u < |t| && t[root].op.Leaf?
    ensures GradAfter(t, root, g0, u) == if u == root then 1.0 else g0[u]
  {
    if u != root {
      assert u !in Reach(t, root);
      UnreachableUnchanged(t, root, g0, u);
    }
  }

  /**
    A table of local factors: s(v, k) is the factor node v's rule
    applies to its k-th operand.  The path-sum theory below holds for any
    such table; Slopes is the one the rules use.
   */
  type Slope = (nat, nat) -> real

  ghost function Slopes(t: Arena): Slope
  {
    (v: nat, k: nat) => if WellFormed(t) && v < |t| && k < |Children(t[v].op)| then Local(t, v, k) else 0.0
  }

  /**
    The slopes of v's two operand slots applied to the values x0 and x1 of
    those operands, summed.  Every value given for a slot v does not have is
    0, so no slot count is needed.
   */
  function Combine(s: Slope, v: nat, x0: real, x1: real): real
  {
    s(v, 0) * x0 + s(v, 1) * x1
  }

  lemma CombineLinear(s: Slope, v: nat, x0: real, x1: real, y0: real, y1: real, e: real, z0: real, z1: real, w: real)
    requires z0 == Prod(x0, e) + y0 && z1 == Prod(x1, e) + y1 && w == Combine(s, v, x0, x1)
    ensures Combine(s, v, z0, z1) == Prod(w, e) + Combine(s, v, y0, y1)
  {
    var l0, l1 := s(v, 0), s(v, 1);
    assert l0 * (x0 * e + y0) == (l0 * x0) * e + l0 * y0;
    assert l1 * (x1 * e + y1) == (l1 * x1) * e + l1 * y1;
  }

  lemma CombineAdd(s: Slope, v: nat, x0: real, x1: real, y0: real, y1: real)
    ensures Combine(s, v, x0 + y0, x1 + y1) == Combine(s, v, x0, x1) + Combine(s, v, y0, y1)
  {
    assert s(v, 0) * (x0 + y0) == s(v, 0) * x0 + s(v, 0) * y0;
    assert s(v, 1) * (x1 + y1) == s(v, 1) * x1 + s(v, 1) * y1;
  }

  /** 1 when v's k-th operand slot holds u, else 0. */
  function Marks(t: Arena, v: nat, k: nat, u: nat): real
    requires v < |t|
  {
    var cs := Children(t[v].op);
    if k < |cs| && cs[k] == u then 1.0 else 0.0
  }

  /** The factor from q to u along one edge, under slopes s. */
  function SlopeEdge(t: Arena, s: Slope, q: nat, u: nat): real
    requires q < |t|
  {
    Combine(s, q, Marks(t, q, 0, u), Marks(t, q, 1, u))
  }

  lemma EdgeBySlopes(t: Arena, q: nat, u: nat)
    requires WellFormed(t) && q < |t|
    ensures Edge(t, q, u) == SlopeEdge(t, Slopes(t), q, u)
  {
  }

  /** PathSumWith from v's k-th operand down to u; 0 for a slot v does not have. */
  ghost function PathSumAt(t: Arena, s: Slope, v: nat, k: nat, u: nat): real
    requires WellFormed(t) && v < |t|
    decreases v, 0
  {
    var cs := Children(t[v].op);
    ChildrenBelow(t, v);
    if k < |cs| then PathSumWith(t, s, cs[k], u) else 0.0
  }

  /**
    The path sum from v to u under slopes s: the sum, over every operand
    path from v down to u, of the product of the slopes along it.
   */
  ghost function PathSumWith(t: Arena, s: Slope, v: nat, u: nat): real
    requires WellFormed(t) && v < |t|
    decreases v, 1
  {
    if u == v then 1.0
    else if v < u then 0.0
    else Combine(s, v, PathSumAt(t, s, v, 0, u), PathSumAt(t, s, v, 1, u))
  }

  /** The path sum with the local factors the rules apply. */
  ghost function PathSum(t: Arena, v: nat, u: nat): real
    requires WellFormed(t) && v < |t|
  {
    PathSumWith(t, Slopes(t), v, u)
  }

  /** The paths from v to u grouped by their last edge q -> u, over u < q <= hi. */
  ghost function Through(t: Arena, s: Slope, v: nat, u: nat, hi: nat): real
    requires WellFormed(t) && v < |t| && hi < |t|
    decreases hi
  {
    if hi <= u then 0.0 else PathSumWith(t, s, v, hi) * SlopeEdge(t, s, hi, u) + Through(t, s, v, u, hi - 1)
  }

  lemma {:induction false} ThroughBeyond(t: Arena, s: Slope, v: nat, u: nat, hi: nat)
    requires WellFormed(t) && v <= hi < |t|
    ensures Through(t, s, v, u, hi) == Through(t, s, v, u, v)
    decreases hi
  {
    if hi > v {
      ThroughBeyond(t, s, v, u, hi - 1);
    }
  }

  /** Through from v's k-th operand; 0 for a slot v does not have. */
  ghost function ThroughAt(t: Arena, s: Slope, v: nat, k: nat, u: nat, hi: nat): real
    requires WellFormed(t) && v < |t| && hi < |t|
  {
    var cs := Children(t[v].op);
    ChildrenBelow(t, v);
    if k < |cs| then Through(t, s, cs[k], u, hi) else 0.0
  }

  lemma ThroughAtStep(t: Arena, s: Slope, v: nat, k: nat, u: nat, hi: nat)
    requires WellFormed(t) && v < |t| && u < hi < |t|
    ensures ThroughAt(t, s, v, k, u, hi) ==
            Prod(PathSumAt(t, s, v, k, hi), SlopeEdge(t, s, hi, u)) + ThroughAt(t, s, v, k, u, hi - 1)
  {
    var cs := Children(t[v].op);
    if k < |cs| {
      ChildrenBelow(t, v);
      ThroughTerm(t, s, cs[k], u, hi, PathSumAt(t, s, v, k, hi), SlopeEdge(t, s, hi, u));
    } else {
      assert PathSumAt(t, s, v, k, hi) == 0.0;
    }
  }

  lemma ThroughSlotsStep(t: Arena, s: Slope, v: nat, u: nat, hi: nat)
    requires WellFormed(t) && u < hi < v < |t|
    ensures Combine(s, v, ThroughAt(t, s, v, 0, u, hi), ThroughAt(t, s, v, 1, u, hi)) ==
            Prod(PathSumWith(t, s, v, hi), SlopeEdge(t, s, hi, u)) +
            Combine(s, v, ThroughAt(t, s, v, 0, u, hi - 1), ThroughAt(t, s, v, 1, u, hi - 1))
  {
    ThroughAtStep(t, s, v, 0, u, hi);
    ThroughAtStep(t, s, v, 1, u, hi);
    CombineLinear(s, v, PathSumAt(t, s, v, 0, hi), PathSumAt(t, s, v, 1, hi),
                  ThroughAt(t, s, v, 0, u, hi - 1), ThroughAt(t, s, v, 1, u, hi - 1), SlopeEdge(t, s, hi, u),
                  ThroughAt(t, s, v, 0, u, hi), ThroughAt(t, s, v, 1, u, hi), PathSumWith(t, s, v, hi));
  }

  /** Through is linear in the operand slots of v, below v. */
  lemma {:induction false} ThroughLinear(t: Arena, s: Slope, v: nat, u: nat, hi: nat)
    requires WellFormed(t) && hi < v < |t|
    ensures Through(t, s, v, u, hi) == Combine(s, v, ThroughAt(t, s, v, 0, u, hi), ThroughAt(t, s, v, 1, u, hi))
    decreases hi
  {
    if hi <= u {
      assert ThroughAt(t, s, v, 0, u, hi) == 0.0 && ThroughAt(t, s, v, 1, u, hi) == 0.0;
    } else {
      ThroughLinear(t, s, v, u, hi - 1);
      ThroughSlotsStep(t, s, v, u, hi);
      ThroughTerm(t, s, v, u, hi, PathSumWith(t, s, v, hi), SlopeEdge(t, s, hi, u));
    }
  }

  /** Grouping the paths from v to u by their last edge gives the path sum back. */
  lemma {:induction false} LastEdge(t: Arena, s: Slope, v: nat, u: nat)
    requires WellFormed(t) && u < v < |t|
    ensures PathSumWith(t, s, v, u) == Through(t, s, v, u, v)
    decreases v
  {
    ChildrenBelow(t, v);
    var cs := Children(t[v].op);
    forall k | 0 <= k < 2
      ensures PathSumAt(t, s, v, k, u) == Marks(t, v, k, u) + ThroughAt(t, s, v, k, u, v - 1)
    {
      if k < |cs| {
        var c := cs[k];
        ThroughBeyond(t, s, c, u, v - 1);
        if c > u {
          LastEdge(t, s, c, u);
        }
      }
    }
    ThroughLinear(t, s, v, u, v - 1);
    CombineAdd(s, v, Marks(t, v, 0, u), Marks(t, v, 1, u), ThroughAt(t, s, v, 0, u, v - 1), ThroughAt(t, s, v, 1, u, v - 1));
    ThroughTerm(t, s, v, u, v, 1.0, SlopeEdge(t, s, v, u));
  }

  lemma {:induction false} PathSumUnreachable(t: Arena, s: Slope, v: nat, u: nat)
    requires WellFormed(t) && v < |t| && u !in Reach(t, v)
    ensures PathSumWith(t, s, v, u) == 0.0
    decreases v
  {
    if u < v {
      ChildrenBelow(t, v);
      var cs := Children(t[v].op);
      forall k | 0 <= k < |cs| ensures PathSumWith(t, s, cs[k], u) == 0.0 {
        ChildReach(t, v, cs[k]);
        PathSumUnreachable(t, s, cs[k], u);
      }
    }
  }

  /**
    Node hi's term of Incoming, with its gradient and edge replaced by the
    values p and e they equal.
   */
  lemma IncomingTerm(t: Arena, root: nat, g0: seq<real>, u: nat, hi: nat, P: set<nat>, p: real, e: real)
    requires WellFormed(t) && root < |t| && |g0| == |t| && u < hi < |t|
    requires hi in P ==> GradAfter(t, root, g0, hi) == p
    requires hi !in P ==> p == 0.0
    requires Edge(t, hi, u) == e
    ensures Incoming(t, root, g0, u, hi, P) == Prod(p, e) + Incoming(t, root, g0, u, hi - 1, P)
  {
  }

  /** Node hi's term of Through, with its path sum and slope edge replaced by the values p and e they equal. */
  lemma ThroughTerm(t: Arena, s: Slope, v: nat, u: nat, hi: nat, p: real, e: real)
    requires WellFormed(t) && v < |t| && u < hi < |t|
    requires PathSumWith(t, s, v, hi) == p && SlopeEdge(t, s, hi, u) == e
    ensures Through(t, s, v, u, hi) == Prod(p, e) + Through(t, s, v, u, hi - 1)
  {
  }

  /** One step of IncomingThrough: node hi adds the same term to both sums. */
  lemma IncomingThroughStep(t: Arena, s: Slope, root: nat, g0: seq<real>, u: nat, hi: nat)
    requires WellFormed(t) && root < |t| && |g0| == |t| && u < hi < |t|
    requires Edge(t, hi, u) == SlopeEdge(t, s, hi, u)
    requires hi in Reach(t, root) ==> GradAfter(t, root, g0, hi) == PathSumWith(t, s, root, hi)
    requires Incoming(t, root, g0, u, hi - 1, Reach(t, root)) == Through(t, s, root, u, hi - 1)
    ensures Incoming(t, root, g0, u, hi, Reach(t, root)) == Through(t, s, root, u, hi)
  {
    if hi !in Reach(t, root) {
      PathSumUnreachable(t, s, root, hi);
    }
    IncomingTerm(t, root, g0, u, hi, Reach(t, root), PathSumWith(t, s, root, hi), SlopeEdge(t, s, hi, u));
    ThroughTerm(t, s, root, u, hi, PathSumWith(t, s, root, hi), SlopeEdge(t, s, hi, u));
  }

  /**
    Grouping by the last edge: when the slopes s give every edge into u and
    every reachable node above u already holds its path sum, u collects the
    paths from the root through each of those nodes.
   */
  lemma {:induction false} IncomingThrough(t: Arena, s: Slope, root: nat, g0: seq<real>, u: nat, hi: nat)
    requires WellFormed(t) && root < |t| && |g0| == |t| && u < |t| && hi < |t|
    requires forall q :: u < q <= hi ==> Edge(t, q, u) == SlopeEdge(t, s, q, u)
    requires forall w :: u < w <= hi && w in Reach(t, root) ==> GradAfter(t, root, g0, w) == PathSumWith(t, s, root, w)
    ensures Incoming(t, root, g0, u, hi, Reach(t, root)) == Through(t, s, root, u, hi)
    decreases hi
  {
    if hi > u {
      IncomingThrough(t, s, root, g0, u, hi - 1);
      IncomingThroughStep(t, s, root, g0, u, hi);
    }
  }

  /**
    The chain rule as the rules apply it: starting from zero gradients (the
    root's aside), the pass leaves in every reachable node the sum over all
    operand paths from the root of the products of the rules' local factors.
   */
  lemma {:induction false} BackwardIsPathSum(t: Arena, root: nat, g0: seq<real>, u: nat)
    requires WellFormed(t) && root < |t| && |g0| == |t| && u in Reach(t, root)
    requires forall w :: 0 <= w < |g0| && w in Reach(t, root) && w != root ==> g0[w] == 0.0
    ensures u <= root && GradAfter(t, root, g0, u) == PathSum(t, root, u)
    decreases root - u
  {
    ReachBelow(t, root);
    forall w | u < w <= root && w in Reach(t, root) ensures GradAfter(t, root, g0, w) == PathSumWith(t, Slopes(t), root, w) {
      BackwardIsPathSum(t, root, g0, w);
    }
    forall q | u < q <= root ensures Edge(t, q, u) == SlopeEdge(t, Slopes(t), q, u) {
      EdgeBySlopes(t, q, u);
    }
    IncomingThrough(t, Slopes(t), root, g0, u, root);
    if u < root {
      LastEdge(t, Slopes(t), root, u);
    }
  }

  /** The gradients of n new `Value`s: the constructor sets `grad` to 0. */
  function FreshGrads(n: nat): (g: seq<real>)
    ensures |g| == n && forall w :: 0 <= w < n ==> g[w] == 0.0
  {
    seq(n, _ => 0.0)
  }

  /**
    The store once the arena has grown to n nodes: the existing gradients
    are kept and each node created since starts at 0.
   */
  function GrowGrads(g: seq<real>, n: nat): (r: seq<real>)
    requires |g| <= n
    ensures |r| == n && r[..|g|] == g
    ensures forall w :: |g| <= w < n ==> r[w] == 0.0
  {
    g + FreshGrads(n - |g|)
  }

  /** On a graph made only of new `Value`s, backward leaves the path sum in every reachable node. */
  lemma FreshBackwardIsPathSum(t: Arena, root: nat, u: nat)
    requires WellFormed(t) && root < |t| && u in Reach(t, root)
    ensures u <= root && GradAfter(t, root, FreshGrads(|t|), u) == PathSum(t, root, u)
  {
    BackwardIsPathSum(t, root, FreshGrads(|t|), u);
  }

  // ---------------------------------------------------------------------
  // Worked examples
  // ---------------------------------------------------------------------

  /** x = 2, y = 3, x * y, z = x * y + x. */
  function XYPlusX(): Arena
  {
    [Node(2.0, Leaf), Node(3.0, Leaf), Node(6.0, Mul(0, 1)), Node(8.0, Add(2, 0))]
  }

  lemma XYPlusXWellFormed()
    ensures WellFormed(XYPlusX())
    ensures Reach(XYPlusX(), 3) == {0, 1, 2, 3}
  {
    var t := XYPlusX();
    assert forall v | 0 <= v < 4 :: NodeOk(t, v);
    assert Reach(t, 0) == {0} && Reach(t, 1) == {1};
    assert Reach(t, 2) == {0, 1, 2};
  }

  /** z.backward() from zero gradients: x.grad = y + 1 = 4 and y.grad = x = 2. */
  lemma ChainRuleExample()
    ensures WellFormed(XYPlusX())
    ensures GradAfter(XYPlusX(), 3, [0.0, 0.0, 0.0, 0.0], 0) == 4.0
    ensures GradAfter(XYPlusX(), 3, [0.0, 0.0, 0.0, 0.0], 1) == 2.0
  {
    var t := XYPlusX();
    XYPlusXWellFormed();
    var g0 := [0.0, 0.0, 0.0, 0.0];
    BackwardIsPathSum(t, 3, g0, 0);
    BackwardIsPathSum(t, 3, g0, 1);
    assert PathSum(t, 1, 0) == 0.0;
    assert PathSum(t, 0, 0) == 1.0;
    assert PathSum(t, 2, 0) == 3.0;
    assert PathSum(t, 3, 0) == 4.0;
    assert PathSum(t, 0, 1) == 0.0;
    assert PathSum(t, 1, 1) == 1.0;
    assert PathSum(t, 2, 1) == 2.0;
    assert PathSum(t, 3, 1) == 2.0;
  }

  /**
    A second z.backward() without zeroing: the intermediate x * y still
    holds gradient 1 from the first call, so it passes 2 instead of 1 to its
    operands, and x ends at 4 + 7 = 11 and y at 2 + 4 = 6.
   */
  lemma SecondBackwardAccumulates()
    ensures WellFormed(XYPlusX())
    ensures GradAfter(XYPlusX(), 3, [4.0, 2.0, 1.0, 1.0], 0) == 11.0
    ensures GradAfter(XYPlusX(), 3, [4.0, 2.0, 1.0, 1.0], 1) == 6.0
  {
    var t := XYPlusX();
    XYPlusXWellFormed();
    var g0 := [4.0, 2.0, 1.0, 1.0];
    var R := Reach(t, 3);
    assert GradAfter(t, 3, g0, 3) == 1.0;
    assert Incoming(t, 3, g0, 2, 3, R) == 1.0;
    assert GradAfter(t, 3, g0, 2) == 2.0;
    assert Incoming(t, 3, g0, 1, 1, R) == 0.0;
    assert Incoming(t, 3, g0, 1, 2, R) == 4.0;
    assert Incoming(t, 3, g0, 1, 3, R) == 4.0;
    assert Incoming(t, 3, g0, 0, 0, R) == 0.0;
    assert Incoming(t, 3, g0, 0, 1, R) == 0.0;
    assert Incoming(t, 3, g0, 0, 2, R) == 6.0;
    assert Incoming(t, 3, g0, 0, 3, R) == 7.0;
  }

  /** w, a, b, w * a, w * b and their sum: w's gradient collects both uses, a + b. */
  function SharedWeight(w: real, a: real, b: real): Arena
  {
    [Node(w, Leaf), Node(a, Leaf), Node(b, Leaf),
     Node(w * a, Mul(0, 1)), Node(w * b, Mul(0, 2)), Node(w * a + w * b, Add(3, 4))]
  }

  lemma SharedNodeAccumulates(w: real, a: real, b: real, g0: seq<real>)
    requires |g0| == 6 && g0[0] == g0[1] == g0[2] == g0[3] == g0[4] == 0.0
    ensures WellFormed(SharedWeight(w, a, b))
    ensures GradAfter(SharedWeight(w, a, b), 5, g0, 0) == a + b
  {
    var t := SharedWeight(w, a, b);
    assert forall v | 0 <= v < 6 :: NodeOk(t, v);
    assert Reach(t, 3) == {0, 1, 3};
    assert Reach(t, 4) == {0, 2, 4};
    assert Reach(t, 5) == {0, 1, 2, 3, 4, 5};
    BackwardIsPathSum(t, 5, g0, 0);
    assert PathSum(t, 1, 0) == 0.0 && PathSum(t, 2, 0) == 0.0;
    assert PathSum(t, 3, 0) == a;
    assert PathSum(t, 4, 0) == b;
  }

  // ---------------------------------------------------------------------
  // The `seen` map as the source keys it
  // ---------------------------------------------------------------------

  /**
    `backward()` as written: `seen` is indexed with the node itself, so its
    key is the node's rendering, which depends on data alone.
   */
  ghost function BackwardAsWritten(t: Arena, root: nat, g0: seq<real>): (r: seq<real>)
    requires WellFormed(t) && root < |t| && |g0| == |t|
    ensures |r| == |t|
  {
    var order := PostOrderBy(t, RenderKeys(t), root, Visit({}, [])).order;
    Sweep(t, Reversed(order), g0[root := 1.0])
  }

  /** When the reachable nodes have pairwise different data the source's pass is the identity-keyed one. */
  lemma AsWrittenAgreesOnDistinctData(t: Arena, root: nat, g0: seq<real>)
    requires WellFormed(t) && root < |t| && |g0| == |t|
    requires forall a, b :: a in Reach(t, root) && b in Reach(t, root) && a < |t| && b < |t| && t[a].data == t[b].data ==> a == b
    ensures forall u :: 0 <= u < |t| ==> BackwardAsWritten(t, root, g0)[u] == GradAfter(t, root, g0, u)
  {
    var key := RenderKeys(t);
    PostOrderFromRoot(t, key, root);
    var order := PostOrderBy(t, key, root, Visit({}, [])).order;
    ReversedParentsFirst(t, order);
    SweepIsGradAfter(t, root, g0, Reversed(order));
  }

  /** a = 2, b = 1, c = b + b (also 2), a + c. */
  function EqualData(): Arena
  {
    [Node(2.0, Leaf), Node(1.0, Leaf), Node(2.0, Add(1, 1)), Node(4.0, Add(0, 2))]
  }

  lemma EqualDataWellFormed()
    ensures WellFormed(EqualData())
    ensures Reach(EqualData(), 3) == {0, 1, 2, 3}
  {
    var t := EqualData();
    assert forall v | 0 <= v < 4 :: NodeOk(t, v);
    assert Reach(t, 1) == {1} && Reach(t, 0) == {0};
    assert Reach(t, 2) == {1, 2};
  }

  /** Sorting a marks the shared rendering 2 as seen. */
  lemma EqualDataSortsA()
    ensures WellFormed(EqualData())
    ensures PostOrderBy(EqualData(), RenderKeys(EqualData()), 0, Visit({4.0}, [])) == Visit({4.0, 2.0}, [0])
  {
    EqualDataWellFormed();
    assert RenderKeys(EqualData())[0] == 2.0;
  }

  /** The render-keyed sort of a + (b + b) lists only a and the root. */
  lemma EqualDataRenderOrder()
    ensures WellFormed(EqualData())
    ensures PostOrderBy(EqualData(), RenderKeys(EqualData()), 3, Visit({}, [])).order == [0, 3]
  {
    var t := EqualData();
    EqualDataSortsA();
    var key := RenderKeys(t);
    var s0 := Visit({4.0}, []);
    var s1 := Visit({4.0, 2.0}, [0]);
    assert key[2] == 2.0 && key[3] == 4.0;
    assert [0, 2][..1] == [0] && [0][..0] == [];
    assert VisitAll(t, key, 3, [0], s0) == s1;
    assert PostOrderBy(t, key, 2, s1) == s1;
    assert VisitAll(t, key, 3, [0, 2], s0) == s1;
    assert Children(t[3].op) == [0, 2];
  }

  /**
    On a + (b + b) the node b + b renders like a, is taken as seen and never
    listed, so its rule never runs and b keeps gradient 0 where the
    derivative is 2.
   */
  lemma RenderKeyedBackwardSkipsEqualData()
    ensures WellFormed(EqualData())
    ensures BackwardAsWritten(EqualData(), 3, [0.0, 0.0, 0.0, 0.0]) == [1.0, 0.0, 1.0, 1.0]
    ensures GradAfter(EqualData(), 3, [0.0, 0.0, 0.0, 0.0], 1) == 2.0
  {
    EqualDataAsWritten([0.0, 0.0, 0.0, 0.0]);
    assert [0.0, 0.0, 0.0, 0.0][3 := 1.0] == [0.0, 0.0, 0.0, 1.0];
    EqualDataSweep();
    EqualDataGradient();
  }

  /** The rules of the root and of a, run on a + (b + b), leave b's gradient at 0. */
  lemma EqualDataSweep()
    ensures WellFormed(EqualData())
    ensures Sweep(EqualData(), [3, 0], [0.0, 0.0, 0.0, 1.0]) == [1.0, 0.0, 1.0, 1.0]
  {
    var t := EqualData();
    EqualDataWellFormed();
    var g1 := [0.0, 0.0, 0.0, 1.0];
    assert [3, 0][..1] == [3] && [3][..0] == [];
    assert Rule(t, 3, g1) == [1.0, 0.0, 1.0, 1.0];
    assert Sweep(t, [3], g1) == [1.0, 0.0, 1.0, 1.0];
    assert Rule(t, 0, [1.0, 0.0, 1.0, 1.0]) == [1.0, 0.0, 1.0, 1.0];
  }

  /** The source's pass on a + (b + b) runs the rules of the root and of a only. */
  lemma EqualDataAsWritten(g0: seq<real>)
    requires |g0| == 4
    ensures WellFormed(EqualData())
    ensures BackwardAsWritten(EqualData(), 3, g0) == Sweep(EqualData(), [3, 0], g0[3 := 1.0])
  {
    EqualDataRenderOrder();
    assert Reversed([0, 3]) == [3, 0];
  }

  lemma EqualDataGradient()
    ensures WellFormed(EqualData())
    ensures GradAfter(EqualData(), 3, [0.0, 0.0, 0.0, 0.0], 1) == 2.0
  {
    var t := EqualData();
    EqualDataWellFormed();
    BackwardIsPathSum(t, 3, [0.0, 0.0, 0.0, 0.0], 1);
    assert PathSum(t, 0, 1) == 0.0;
    assert PathSum(t, 1, 1) == 1.0;
    assert PathSum(t, 2, 1) == 2.0;
    assert PathSum(t, 3, 1) == 2.0;
  }
}
