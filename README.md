# jsgrad in Dafny

A model of jsgrad, a small scalar reverse-mode automatic differentiation
engine in JavaScript, and of the neural-network layers built on it.

- **Engine (module `Graph`).** Every `Value` is a node in an arena: its
  forward result `data` and the operation that produced it (`Leaf`, `Add`,
  `Mul`, `Pow(n)`, `Exp`, `Tanh`), with its operands given as arena indices.
  Nodes are only appended, after their operands, so the graph is acyclic
  by construction. `add`, `mul`, `pow`, `exp` and `tanh` append one node,
  with a numeric right-hand side first wrapped in a new leaf. `neg`, `sub`
  and `div` are built from them exactly as the source builds them.
  `Math.exp` is a parameter of type `ExpFn`.
- **Backward pass (module `Backprop`).** The `grad` fields live in a store
  `array<real>` indexed like the arena.
  - `Sort` is the depth-first post-order traversal with its `seen` set.
  - `RunBackward` is one node's `_backward` closure.
  - `Backward` is `Value.backward()`: it sorts, reverses, sets the root's
    gradient to 1 and runs the rules.
  - What the pass leaves in the store is stated by `GradAfter`, a
    recurrence over the graph that does not depend on the traversal order.
    With zero gradients beforehand it equals `PathSum`: the sum, over every
    operand path from the root, of the products of the local factors the rules apply.
- **Layers (modules `Nn` and `Conv`).** `Neuron`, `Layer`, `MLP` and
  `Conv2D` hold the indices of their parameter leaves.
  - Constructors append the leaves, in the order the source allocates
    them.
  - Forward passes append the expression they build and return the indices
    of their outputs.
  - `params()` lists parameter indices in the source's order.
  - `zero_grad()` writes zeros into the gradient store.

## Model

| member | source | states |
|---|---|---|
| Graph.ChildrenBelow | src/main.js:3-8 | every operand of a node is an older node, so the graph has no cycle |
| Graph.Promote | src/main.js:12-14 | a number becomes one new leaf holding it; an existing node is used as it is, and the arena is unchanged |
| Graph.AddOp | src/main.js:11-26 | the new last node is `Add` of this node and the operand, its value is the sum, and a numeric operand adds exactly one leaf before it |
| Graph.MulOp | src/main.js:41-55 | the new last node is `Mul` of this node and the operand, and its value is the product |
| Graph.NegOp | src/main.js:28-30 | negation is a product with a new leaf -1, and its value is minus the operand's |
| Graph.SubOp | src/main.js:32-39 | subtraction is an `Add` of this node and a second operand holding minus the right-hand side: a new leaf -c for a number c, or `neg()` of a node b, i.e. `Mul(b, leaf -1)`; its value is the difference |
| Graph.PowOp | src/main.js:91-102 | the new node is `Pow(i, n)` and holds the n-th power of the operand |
| Graph.PowerMinusOne | src/main.js:57-63 | raising to the power -1 is taking the reciprocal |
| Graph.DivOp | src/main.js:57-63 | division is the product with a `Pow(-1)` node whose base is the divisor (the node itself, or a new leaf holding the number), and its value is the quotient |
| Backprop.SubLinksOperand | src/main.js:28-39 | in `a.sub(b)` the subtrahend b reaches the result, through an edge of factor 1 into `neg()` and one of factor -1 into b |
| Backprop.DivLinksDivisor | src/main.js:57-63 | in `a.div(b)` the divisor reaches the result, and the `pow(-1)` node passes it the factor -1 * b ** -2 |
| Graph.ExpOp | src/main.js:78-89 | the new node holds the exponential of its operand and is never negative |
| Graph.TanhOf | src/main.js:66 | the source's tanh formula lies in [-1, 1), is 0 where the exponential is 1 and positive where it exceeds 1 |
| Graph.TanhOp | src/main.js:65-76 | the new `Tanh` node holds that formula of its operand, within [-1, 1) |
| Graph.ArithmeticExamples | tests.js:33-54 | 2 + 3 = 5, 2 * 3 = 6, 2 - 3 = -1, 2 / 3, and 2 ** 2 = 4 |
| Backprop.ReachStep | src/main.js:112-121 | the nodes reachable from v are v and the nodes reachable from its operands, all older than v |
| Backprop.ReachExtends | src/main.js:11-102 | appending nodes never changes what an existing node reaches |
| Backprop.Sort | src/main.js:112-121 | the recursive visit is the identity-keyed traversal `PostOrderBy` |
| Backprop.PostOrderByCorrect | src/main.js:112-121 | when keys are distinct on the reachable nodes, one visit adds exactly the nodes reachable from v, each once, each after its operands |
| Backprop.PostOrderFromRoot | src/main.js:112-122 | the sorted list holds every node reachable from the root exactly once and nothing else, every node after its operands, and the root last |
| Backprop.ReversedParentsFirst | src/main.js:123 | after the reversal every node comes before all of its operands, with the same nodes each once |
| Backprop.IdentityKeysInjective | src/main.js:114 | keying `seen` by node identity never conflates two nodes |
| Backprop.RuleEffect | src/main.js:18-21 | a rule adds its node's gradient times its local factor to each operand and overwrites nothing (also 47-50, 68-70, 82-84, 95-97, 104-106) |
| Backprop.EdgeOnlyToOperands | src/main.js:104-106 | a rule touches only its node's operands; a leaf's rule changes nothing |
| Backprop.AliasedAddDoubles | src/main.js:18-21 | in `a.add(a)` the rule adds twice the result's gradient to a |
| Backprop.RunBackward | src/main.js:17-24 | running one node's `_backward` on the store performs exactly that rule (also 46-52, 67-73, 81-86, 94-99, 104-106) |
| Backprop.SweepIsGradAfter | src/main.js:123-130 | running the rules in reversed post-order, after setting the root to 1, leaves `GradAfter` in every entry |
| Backprop.Backward | src/main.js:108-131 | `backward()` leaves in every entry of the store the value `GradAfter` gives for the old store |
| Backprop.RootGetsOne | src/main.js:125 | the root's gradient ends at 1, whatever it held before |
| Backprop.UnreachableUnchanged | src/main.js:108-131 | a node the root does not reach keeps its gradient |
| Backprop.LeafRoot | src/main.js:104-106 | with a leaf root, setting it to 1 is the only change |
| Backprop.BackwardIsPathSum | src/main.js:108-131 | with zero gradients on the other reachable nodes, every reachable node ends with the sum over all paths from the root of the products of the local factors the rules apply |
| Backprop.GrowGrads | src/main.js:3-5 | every new `Value` starts with gradient 0: the store for the grown arena keeps the old gradients and holds 0 for every node added |
| Backprop.FreshBackwardIsPathSum | src/main.js:5 | on a graph of new `Value`s (all gradients 0), `backward()` leaves the path sum in every reachable node |
| Backprop.ChainRuleExample | tests.js:62-71 | for z = x * y + x with x = 2 and y = 3, x.grad = 4 and y.grad = 2 |
| Backprop.SecondBackwardAccumulates | src/main.js:126-130 | a second `backward()` without zeroing adds to the earlier gradients (x: 4 then 11) |
| Backprop.SharedNodeAccumulates | src/main.js:18-21 | a weight used by two products receives the sum of both contributions |
| Backprop.BackwardAsWritten | src/main.js:108-135 | the pass with `seen` keyed by the rendered `Value(data='...')` string, which gives one gradient per node |
| Backprop.AsWrittenAgreesOnDistinctData | src/main.js:114 | when reachable nodes hold pairwise distinct data, the rendered-key pass equals the identity-keyed one |
| Backprop.EqualDataRenderOrder | src/main.js:114 | for a + (b + b) with a = 2, b = 1, the rendered-key sort lists only a and the root |
| Backprop.RenderKeyedBackwardSkipsEqualData | src/main.js:133-135 | there the rendered-key pass leaves b.grad at 0 where the derivative is 2 |
| Backprop.EqualDataGradient | src/main.js:108-131 | the identity-keyed pass gives b.grad = 2 on the same graph |
| Nn.NewNeuron | src/main.js:147-153 | a neuron appends tw weight leaves and then its bias leaf, each holding the next draw |
| Nn.NewNeuronParams | src/main.js:165-167 | `[bias] + weights` has tw + 1 entries, lists each new leaf once, and lists nothing else |
| Nn.MulAddFacts | src/main.js:157-160 | one loop step adds weight * input to the running sum; the weight, the input and everything behind the sum stay reachable |
| Nn.AddBiasTanhFacts | src/main.js:161-162 | adding the bias and applying tanh gives the tanh of sum + bias, with the bias reachable |
| Nn.NeuronForward | src/main.js:155-163 | the output is a `Tanh` node holding tanh of (sum of weight * input, from 0, plus bias), and the bias and every weight reach it |
| Nn.NewLayer | src/main.js:261-266 | sout neurons of sin weights each, whose parameters are exactly the appended leaves, each listed once |
| Nn.LayerForward | src/main.js:268-274 | one output per neuron, in neuron order, each the neuron's output on the same inputs |
| Nn.LayerParams | src/main.js:276-282 | the loop's result is the neurons' parameter lists concatenated in order |
| Nn.LayerParamCount | src/main.js:276-282 | a layer of neurons with sin weights has neurons * (sin + 1) parameters |
| Nn.NewMlp | src/main.js:286-292 | the layers follow the sizes [sin] + souts, and their parameters are exactly the appended leaves, each listed once |
| Nn.MlpForward | src/main.js:293-298 | the outputs are each layer fed the previous layer's outputs, in layer order |
| Nn.ShapedFed | src/main.js:293-298 | a network built with sizes [sin] + souts, fed sin inputs, returns as many outputs as the last size |
| Nn.MlpParams | src/main.js:300-306 | the loop's result is the layers' parameter lists concatenated in order |
| Nn.ShapedParamCount | src/main.js:300-306 | the parameter count is the sum over layers of outputs * (inputs + 1) |
| Nn.ThirteenParams | tests.js:199-217 | `MLP(2, [3, 1])` has 13 parameters |
| Nn.ZeroGrad | src/main.js:308-313 | `zero_grad()` leaves the store with every parameter's entry 0 and every other entry unchanged |
| Nn.ZeroGradResets | tests.js:219-224 | after zeroing every parameter's gradient is 0, other gradients are kept, and zeroing twice equals zeroing once |
| Nn.ZeroGradThenBackward | src/main.js:308-313 | after `zero_grad()` on a network whose other nodes are new, `backward()` leaves the path sum in every reachable node |
| Nn.TrainingStepGradients | src/main.js:308-313 | `zero_grad()`, then a forward pass whose new nodes start at gradient 0, then `backward()`: when every older node the output reaches is a parameter, every reachable node ends with the path sum |
| Conv.OutputDimensions | src/main.js:179-180 | the stored H - k + 1 and W - k + 1 are the forward loop counts when they are not negative |
| Conv.FilterIndexBound | src/main.js:212-230 | the running `filterIdx` = ki * k + kj stays below k * k |
| Conv.WindowSum | src/main.js:212-232 | the window loops build a sum holding the window's input * weight products in row-major order, with every weight reaching it; there is no sum when k = 0 |
| Conv.PixelTailFacts | src/main.js:234-241 | with no sum a new leaf 0 stands in; then bias and tanh are applied, and the bias reaches the output |
| Conv.ConvPixel | src/main.js:211-242 | output (i, j) is tanh of the window sum plus the filter's bias, and the bias and all filter weights reach it |
| Conv.ConvChannel | src/main.js:208-245 | a channel has (H - k + 1) * (W - k + 1) outputs, none when k exceeds a side, output (a, b) at position a * cols + b |
| Conv.ConvForward | src/main.js:201-249 | `forward` returns numFilters channels, channel f holding filter f's outputs |
| Conv.GridExample | tests.js:81-122 | a 2-by-2 filter of 0.5 with bias 0 over the grid 1..9 gives four outputs, tanh of 6, 8, 12 and 14 |
| Conv.NewFilter | src/main.js:185-191 | a filter is k * k new leaves in row-major order, each holding the next draw times 0.1 |
| Conv.NewFilters | src/main.js:183-192 | numFilters filters of k * k leaves each, listed back to back in allocation order |
| Conv.NewConv | src/main.js:172-199 | the fields, the output dimensions, the filters' leaves and then the biases' leaves, every one holding the next draw times 0.1 |
| Conv.ConvParams | src/main.js:251-257 | the loop's result is the biases and then filters 0 to numFilters - 1 |
| Conv.ConvParamCount | src/main.js:251-257 | a layer has numFilters * (k * k + 1) parameters |
| Conv.NewConvParams | src/main.js:251-257 | the parameters of a new layer are exactly its new leaves, each listed once, with the biases first although they were allocated last |

## Left out

- `randn_bm` (src/main.js:140-144) uses `Math.random`, `Math.log` and `Math.cos`. The constructors take the successive draws as an input sequence `draws` and use them in the order the source calls the generator.
- Floating point is not modelled. `data` and `grad` are real numbers, so IEEE overflow, rounding, NaN and the sign of zero are not captured. `Math.exp` is a caller-supplied function (`ExpFn`) of which only non-negativity is assumed.
- Graph.PowOp: only integer exponents are modelled. For a zero base it also requires a positive exponent: with a negative one the source's value is an IEEE infinity, and with exponent 0 the value is 1 but the gradient factor 0 * 0 ** -1 is NaN.
- Graph.DivOp: requires a non-zero divisor, because the source yields an IEEE infinity there, or NaN (0 * Infinity) when the dividend is 0 as well.
- Graph.TanhOf: the source computes (e^x - 1) / (e^x + 1), which is tanh(x / 2), while its backward rule uses 1 - v * v, the derivative rule of tanh(x). The model keeps both as written, and `PathSum` uses the source's local rules, so through a Tanh node it is twice the derivative of the value computed.
- The `op` and `label` strings are not modelled. `toString` is modelled only as the key of `seen` (`RenderKeys`), by the node's data.
- The gradient store is a separate array, so the operations that append nodes do not extend it. `GrowGrads` gives the store after nodes are added, each new entry 0 as the constructor sets it, and the lemmas that start from fresh gradients take that store as their input.
- `module.exports` (src/main.js:321-329) is not modelled.
- The test harness in tests.js is not modelled: console capture, the exit code and the depth-limited `checkInGraph` walk.
- `MLP`'s constructor runs `souts.unshift(sin)`, which also changes the caller's array. The model builds the sizes `[sin] + souts` and does not model the change to the argument.
- Nn.NeuronForward: requires at least as many inputs as weights. With fewer, `xs[i]` is `undefined`, which `mul` does not wrap (`isNaN(undefined)` holds), so reading its `data` throws a TypeError.
- Conv.ConvForward: requires every cell the windows read to be a node. With a smaller grid the source reads `undefined` and throws.

## Findings

| source | as written | input that shows it | evidently intended | confidence | as-written member | corrected member |
|---|---|---|---|---|---|---|
| src/main.js:114, 133-135 | `seen[root]` keys the visited map by `toString()`, i.e. `Value(data='...')`, so a second node with the same data is skipped together with everything below it | a = 2, b = 1, z = a.add(b.add(b)): b + b renders like a, so its rule never runs and b.grad stays 0 | every node reachable from the root is visited once, keyed by identity, and b.grad = 2 | not executed | Backprop.RenderKeyedBackwardSkipsEqualData | Backprop.Backward |
