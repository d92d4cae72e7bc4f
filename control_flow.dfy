/**
 * The control-flow part of the metrics calculator: the visitor that tracks
 * nesting depth, boolean operators, `if` statements and `elif` chains while
 * it walks a function, together with the recursive definition of what that
 * walk computes (`Flow`).
 */
module ControlFlow {
  import opened Syntax

  function Max(a: int, b: int): (m: int)
    ensures m >= a && m >= b && (m == a || m == b)
  {
    if a >= b then a else b
  }

  /** What one BoolOp adds to the count: `len(values) - 1`. */
  function BoolOpWeight(n: Node): int {
    if n.BoolOp? then |n.values| - 1 else 0
  }

  /** The boolean operators in an expression, counted over all its BoolOp nodes. */
  function BooleanOps(e: Node): int {
    TreeSum(BoolOpWeight, e)
  }

  /**
   * `_count_boolean_ops`: walk the expression and add up `len(values) - 1`
   * for every BoolOp met.
   */
  method CountBooleanOps(e: Node) returns (counter: int)
    ensures counter == BooleanOps(e)
  {
    counter := 0;
    var nodes := Walk([Item(e, [])]);
    for i := 0 to |nodes|
      invariant counter == SumOver(BoolOpWeight, nodes[..i])
    {
      SumOverAppend(BoolOpWeight, nodes[..i], [nodes[i]]);
      assert nodes[..i + 1] == nodes[..i] + [nodes[i]];
      if nodes[i].node.BoolOp? {
        counter := counter + |nodes[i].node.values| - 1;
      }
    }
    assert nodes[..|nodes|] == nodes;
    WalkSum(BoolOpWeight, [Item(e, [])]);
  }

  /**
   * How many times, starting at an `if`, the `else` part consists of exactly
   * one further `if` (an `elif`).
   */
  function ElifChain(n: Node): nat
    requires n.If?
  {
    if |n.orelse| == 1 && n.orelse[0].If? then 1 + ElifChain(n.orelse[0]) else 0
  }

  /** `_elif_chain_length`: follow the `else` part while it is a single `if`. */
  method ElifChainLength(n: Node) returns (length: nat)
    requires n.If?
    ensures length == ElifChain(n)
  {
    length := 0;
    var current := n;
    while current.orelse != [] && |current.orelse| == 1 && current.orelse[0].If?
      invariant current.If?
      invariant length + ElifChain(current) == ElifChain(n)
      decreases current
    {
      length := length + 1;
      current := current.orelse[0];
    }
  }

  /** The four quantities the visitor collects about a subtree. */
  datatype FlowStats = FlowStats(depth: int, booleans: int, branches: int, elifChain: int)

  /** Side by side subtrees: depths and chains take the maximum, counts add up. */
  function Combine(a: FlowStats, b: FlowStats): FlowStats {
    FlowStats(Max(a.depth, b.depth), a.booleans + b.booleans, a.branches + b.branches, Max(a.elifChain, b.elifChain))
  }

  /** The statistics of a row of siblings: each one combined with those to its right. */
  function Fold(ss: seq<FlowStats>): (r: FlowStats)
    ensures r.depth >= 0 && r.elifChain >= 0
    ensures (forall k | 0 <= k < |ss| :: ss[k].branches >= 0) ==> r.branches >= 0
  {
    if ss == [] then FlowStats(0, 0, 0, 0) else Combine(ss[0], Fold(ss[1..]))
  }

  /**
   * What visiting `n` contributes: its nesting depth (one per `if`, `for`,
   * `while`, `with`, `try` on the deepest chain), its boolean operators (the
   * test of an `if` counted once more through `_count_boolean_ops`), its
   * `if` statements and its longest `elif` chain.
   */
  function Flow(n: Node): (s: FlowStats)
    ensures s.depth >= 0 && s.branches >= 0 && s.elifChain >= 0
    decreases n, 1
  {
    var kids := Fold(ChildFlows(n));
    match n
    case If(test, _, _) =>
      FlowStats(1 + kids.depth, BooleanOps(test) + kids.booleans, 1 + kids.branches, Max(ElifChain(n), kids.elifChain))
    case Compound(_, _) => kids.(depth := 1 + kids.depth)
    case BoolOp(values) => kids.(booleans := |values| - 1 + kids.booleans)
    case _ => kids
  }

  /** The `Flow` of each child of `n`, in order. */
  function ChildFlows(n: Node): (ss: seq<FlowStats>)
    ensures |ss| == |Children(n)|
    ensures forall k | 0 <= k < |ss| :: ss[k] == Flow(Children(n)[k]) && ss[k].branches >= 0
    decreases n, 0
  {
    seq(|Children(n)|, k requires 0 <= k < |Children(n)| =>
      ChildSmaller(n, k); Flow(Children(n)[k]))
  }

  /** The visitor's five counters as one value. */
  datatype AnalyzerState = AnalyzerState(
    currentDepth: int,
    maxDepth: int,
    booleanOperatorCount: int,
    conditionalBranchCount: int,
    maxElifChain: int)

  /** The counters after visiting a subtree with statistics `f` from state `s`. */
  function After(s: AnalyzerState, f: FlowStats): AnalyzerState {
    s.(maxDepth := Max(s.maxDepth, s.currentDepth + f.depth),
       booleanOperatorCount := s.booleanOperatorCount + f.booleans,
       conditionalBranchCount := s.conditionalBranchCount + f.branches,
       maxElifChain := Max(s.maxElifChain, f.elifChain))
  }

  /** Visiting two subtrees one after the other is visiting them side by side. */
  lemma AfterCombine(s: AnalyzerState, a: FlowStats, b: FlowStats)
    ensures After(After(s, a), b) == After(s, Combine(a, b))
  {
  }

  /**
   * `visit_If` from state `s`: one more branch, one level deeper, the test's
   * operators and the chain at this `if`, then the children, then one level
   * back up.
   */
  lemma IfVisitState(s: AnalyzerState, booleans: int, chain: int, kids: FlowStats)
    requires kids.depth >= 0
    ensures var entered := AnalyzerState(s.currentDepth + 1, Max(s.maxDepth, s.currentDepth + 1),
        s.booleanOperatorCount + booleans, s.conditionalBranchCount + 1, Max(s.maxElifChain, chain));
      After(entered, kids).(currentDepth := s.currentDepth)
      == After(s, FlowStats(1 + kids.depth, booleans + kids.booleans, 1 + kids.branches, Max(chain, kids.elifChain)))
  {
  }

  /** `visit_For` from state `s`: one level deeper, then the children, then one level back up. */
  lemma CompoundVisitState(s: AnalyzerState, kids: FlowStats)
    requires kids.depth >= 0
    ensures var entered := s.(currentDepth := s.currentDepth + 1, maxDepth := Max(s.maxDepth, s.currentDepth + 1));
      After(entered, kids).(currentDepth := s.currentDepth) == After(s, kids.(depth := 1 + kids.depth))
  {
  }

  /** `_ControlFlowAnalyzer`: an `ast.NodeVisitor` that updates its counters as it goes. */
  class ControlFlowAnalyzer {
    var currentDepth: int
    var maxDepth: int
    var booleanOperatorCount: int
    var conditionalBranchCount: int
    var maxElifChain: int

    function State(): AnalyzerState
      reads this
    {
      AnalyzerState(currentDepth, maxDepth, booleanOperatorCount, conditionalBranchCount, maxElifChain)
    }

    /** The maximum never lags behind the current depth, and no chain is negative. */
    ghost predicate Valid()
      reads this
    {
      currentDepth <= maxDepth && 0 <= maxElifChain
    }

    constructor ()
      ensures Valid() && State() == AnalyzerState(0, 0, 0, 0, 0)
    {
      currentDepth := 0;
      maxDepth := 0;
      booleanOperatorCount := 0;
      conditionalBranchCount := 0;
      maxElifChain := 0;
    }

    /** `visit`: dispatch on the node kind; kinds without a handler go to `GenericVisit`. */
    method Visit(n: Node)
      requires Valid()
      modifies this
      ensures Valid() && State() == After(old(State()), Flow(n))
      decreases n, 2
    {
      match n
      case If(_, _, _) => VisitIf(n);
      case Compound(_, _) => VisitCompound(n);
      case BoolOp(_) => VisitBoolOp(n);
      case _ => GenericVisit(n);
    }

    /** `generic_visit`: visit every child in order. */
    method GenericVisit(n: Node)
      requires Valid()
      modifies this
      ensures Valid() && State() == After(old(State()), Fold(ChildFlows(n)))
      decreases n, 0
    {
      var children := Children(n);
      ghost var ss := ChildFlows(n);
      assert ss[0..] == ss;
      for i := 0 to |children|
        invariant Valid()
        invariant After(State(), Fold(ss[i..])) == After(old(State()), Fold(ss))
      {
        ChildSmaller(n, i);
        ghost var before := State();
        Visit(children[i]);
        assert ss[i..][1..] == ss[i + 1..];
        AfterCombine(before, ss[i], Fold(ss[i + 1..]));
      }
      assert ss[|children|..] == [];
    }

    /** `visit_If`: one more branch, one level deeper, the test's operators and the chain at this `if`. */
    method VisitIf(n: Node)
      requires n.If? && Valid()
      modifies this
      ensures Valid() && State() == After(old(State()), Flow(n))
      decreases n, 1
    {
      ghost var entry := State();
      conditionalBranchCount := conditionalBranchCount + 1;
      RecordDepth();
      var booleans := CountBooleanOps(n.test);
      booleanOperatorCount := booleanOperatorCount + booleans;
      var chain := ElifChainLength(n);
      maxElifChain := Max(maxElifChain, chain);
      GenericVisit(n);
      currentDepth := currentDepth - 1;
      FlowIf(n);
      IfVisitState(entry, booleans, chain, Fold(ChildFlows(n)));
    }

    /** `visit_For`, which the source also installs as `visit_While`, `visit_With` and `visit_Try`. */
    method VisitCompound(n: Node)
      requires n.Compound? && Valid()
      modifies this
      ensures Valid() && State() == After(old(State()), Flow(n))
      decreases n, 1
    {
      ghost var entry := State();
      RecordDepth();
      GenericVisit(n);
      currentDepth := currentDepth - 1;
      FlowCompound(n);
      CompoundVisitState(entry, Fold(ChildFlows(n)));
    }

    /** `visit_BoolOp`: `len(values) - 1` more operators, then the operands. */
    method VisitBoolOp(n: Node)
      requires n.BoolOp? && Valid()
      modifies this
      ensures Valid() && State() == After(old(State()), Flow(n))
      decreases n, 1
    {
      booleanOperatorCount := booleanOperatorCount + |n.values| - 1;
      GenericVisit(n);
      FlowBoolOp(n);
    }

    /** `_record_depth`: one level deeper, and the maximum follows. */
    method RecordDepth()
      requires Valid()
      modifies this
      ensures Valid()
      ensures State() == old(State()).(currentDepth := old(currentDepth) + 1, maxDepth := Max(old(maxDepth), old(currentDepth) + 1))
    {
      currentDepth := currentDepth + 1;
      maxDepth := Max(maxDepth, currentDepth);
    }
  }

  /** Nodes that open a nesting level for the visitor. */
  predicate Nests(n: Node) {
    n.If? || n.Compound?
  }

  /** `p` lists child indices leading from `n` down to some descendant. */
  predicate IsPath(n: Node, p: seq<nat>)
    decreases p
  {
    p == [] || (p[0] < |Children(n)| && IsPath(Children(n)[p[0]], p[1..]))
  }

  /** The node reached from `n` by following `p`. */
  function NodeAt(n: Node, p: seq<nat>): Node
    requires IsPath(n, p)
    decreases p
  {
    if p == [] then n else NodeAt(Children(n)[p[0]], p[1..])
  }

  /** How many nesting nodes lie on the chain from `n` down to `NodeAt(n, p)`, both ends included. */
  function NestingAlong(n: Node, p: seq<nat>): nat
    requires IsPath(n, p)
    decreases p
  {
    (if Nests(n) then 1 else 0) + (if p == [] then 0 else NestingAlong(Children(n)[p[0]], p[1..]))
  }

  /** `s` is at most `t` in depth, branches and chain. */
  predicate Below(s: FlowStats, t: FlowStats) {
    s.depth <= t.depth && s.branches <= t.branches && s.elifChain <= t.elifChain
  }

  /** Each sibling's statistics are bounded by those of the whole row. */
  lemma {:induction false} FoldBounds(ss: seq<FlowStats>, j: nat)
    requires j < |ss| && forall k | 0 <= k < |ss| :: ss[k].branches >= 0
    ensures Below(ss[j], Fold(ss))
    decreases |ss|
  {
    var rest := ss[1..];
    assert forall k | 0 <= k < |rest| :: rest[k] == ss[k + 1];
    if j > 0 {
      FoldBounds(rest, j - 1);
    }
  }

  /** A non-zero depth of a row of siblings is the depth of one of them. */
  lemma {:induction false} FoldDepthAttained(ss: seq<FlowStats>)
    ensures Fold(ss).depth == 0 || exists j | 0 <= j < |ss| :: Fold(ss).depth == ss[j].depth
    decreases |ss|
  {
    if ss != [] && Fold(ss).depth != ss[0].depth {
      var rest := ss[1..];
      FoldDepthAttained(rest);
      if Fold(rest).depth != 0 {
        var j :| 0 <= j < |rest| && Fold(rest).depth == rest[j].depth;
        assert Fold(ss).depth == ss[j + 1].depth;
      }
    }
  }

  /** A non-zero `elif` chain of a row of siblings is the chain of one of them. */
  lemma {:induction false} FoldElifAttained(ss: seq<FlowStats>)
    ensures Fold(ss).elifChain == 0 || exists j | 0 <= j < |ss| :: Fold(ss).elifChain == ss[j].elifChain
    decreases |ss|
  {
    if ss != [] && Fold(ss).elifChain != ss[0].elifChain {
      var rest := ss[1..];
      FoldElifAttained(rest);
      if Fold(rest).elifChain != 0 {
        var j :| 0 <= j < |rest| && Fold(rest).elifChain == rest[j].elifChain;
        assert Fold(ss).elifChain == ss[j + 1].elifChain;
      }
    }
  }

  /** Branches and boolean operators of a row add up sibling by sibling. */
  lemma {:induction false} FoldCounts(ss: seq<FlowStats>, ifs: seq<int>, ops: seq<int>, tests: seq<int>)
    requires |ss| == |ifs| == |ops| == |tests|
    requires forall k | 0 <= k < |ss| :: ss[k].branches == ifs[k] && ss[k].booleans == ops[k] + tests[k]
    ensures Fold(ss).branches == Sum(ifs) && Fold(ss).booleans == Sum(ops) + Sum(tests)
  {
    if ss != [] {
      FoldCounts(ss[1..], ifs[1..], ops[1..], tests[1..]);
    }
  }

  /** Each child's statistics are bounded by those of all the children. */
  lemma ChildBounds(n: Node, j: nat)
    requires j < |Children(n)|
    ensures Below(Flow(Children(n)[j]), Fold(ChildFlows(n)))
  {
    FoldBounds(ChildFlows(n), j);
  }

  /** `Flow` of an `if`, one step unfolded. */
  lemma FlowIf(n: Node)
    requires n.If?
    ensures var kids := Fold(ChildFlows(n));
      Flow(n) == FlowStats(1 + kids.depth, BooleanOps(n.test) + kids.booleans, 1 + kids.branches, Max(ElifChain(n), kids.elifChain))
  {
  }

  /** `Flow` of a loop, `with` or `try`, one step unfolded. */
  lemma FlowCompound(n: Node)
    requires n.Compound?
    ensures var kids := Fold(ChildFlows(n)); Flow(n) == kids.(depth := 1 + kids.depth)
  {
  }

  /** `Flow` of a BoolOp, one step unfolded. */
  lemma FlowBoolOp(n: Node)
    requires n.BoolOp?
    ensures var kids := Fold(ChildFlows(n)); Flow(n) == kids.(booleans := |n.values| - 1 + kids.booleans)
  {
  }

  /** The depth `Flow` gives a node: its own level, if it opens one, on top of its children's. */
  lemma FlowDepth(n: Node)
    ensures Flow(n).depth == (if Nests(n) then 1 else 0) + Fold(ChildFlows(n)).depth
  {
  }

  /** The chain `Flow` gives a node: its own `elif` chain, if it is an `if`, against its children's. */
  lemma FlowElif(n: Node)
    ensures Flow(n).elifChain == if n.If? then Max(ElifChain(n), Fold(ChildFlows(n)).elifChain) else Fold(ChildFlows(n)).elifChain
  {
  }

  /** No chain of nested `if`/`for`/`while`/`with`/`try` nodes is deeper than the reported maximum. */
  lemma {:induction false} DepthBoundsEveryChain(n: Node, p: seq<nat>)
    requires IsPath(n, p)
    ensures NestingAlong(n, p) <= Flow(n).depth
    decreases p
  {
    FlowDepth(n);
    if p != [] {
      DepthBoundsEveryChain(Children(n)[p[0]], p[1..]);
      ChildBounds(n, p[0]);
    }
  }

  /** Some chain of nested nodes is exactly as deep as the reported maximum. */
  lemma {:induction false} DepthIsAttained(n: Node)
    ensures exists p :: IsPath(n, p) && NestingAlong(n, p) == Flow(n).depth
    decreases n, 1
  {
    FlowDepth(n);
    var ss := ChildFlows(n);
    FoldDepthAttained(ss);
    if Fold(ss).depth == 0 {
      assert IsPath(n, []) && NestingAlong(n, []) == Flow(n).depth;
    } else {
      var j: nat :| j < |ss| && Fold(ss).depth == ss[j].depth;
      DepthThroughChild(n, j);
    }
  }

  /** The deepest chain below child `j`, extended up to `n`. */
  lemma {:induction false} DepthThroughChild(n: Node, j: nat)
    requires j < |Children(n)|
    ensures exists p :: IsPath(n, p) && NestingAlong(n, p) == (if Nests(n) then 1 else 0) + Flow(Children(n)[j]).depth
    decreases n, 0
  {
    var c := Children(n)[j];
    ChildSmaller(n, j);
    DepthIsAttained(c);
    var p :| IsPath(c, p) && NestingAlong(c, p) == Flow(c).depth;
    PathThroughChild(n, j, p);
  }

  /** The reported chain is at least the `elif` chain of every `if` in the subtree. */
  lemma {:induction false} ElifBoundsEveryIf(n: Node, p: seq<nat>)
    requires IsPath(n, p) && NodeAt(n, p).If?
    ensures ElifChain(NodeAt(n, p)) <= Flow(n).elifChain
    decreases p
  {
    FlowElif(n);
    if p != [] {
      ElifBoundsEveryIf(Children(n)[p[0]], p[1..]);
      ChildBounds(n, p[0]);
    }
  }

  /** Extending a path to a child by one step at the front. */
  lemma PathThroughChild(n: Node, j: nat, p: seq<nat>)
    requires j < |Children(n)| && IsPath(Children(n)[j], p)
    ensures IsPath(n, [j] + p) && NodeAt(n, [j] + p) == NodeAt(Children(n)[j], p)
    ensures NestingAlong(n, [j] + p) == (if Nests(n) then 1 else 0) + NestingAlong(Children(n)[j], p)
  {
    var q := [j] + p;
    assert q[0] == j && q[1..] == p;
  }

  /** `p` leads from `n` to an `if` whose `elif` chain has length `k`. */
  predicate ChainAt(n: Node, p: seq<nat>, k: int) {
    IsPath(n, p) && NodeAt(n, p).If? && ElifChain(NodeAt(n, p)) == k
  }

  /** A non-zero reported chain is the `elif` chain of some `if` in the subtree. */
  lemma {:induction false} ElifIsAttained(n: Node)
    ensures Flow(n).elifChain == 0 || exists p :: ChainAt(n, p, Flow(n).elifChain)
    decreases n, 1
  {
    FlowElif(n);
    if n.If? && Flow(n).elifChain == ElifChain(n) {
      assert ChainAt(n, [], Flow(n).elifChain);
    } else if Flow(n).elifChain != 0 {
      var ss := ChildFlows(n);
      FoldElifAttained(ss);
      var j: nat :| j < |ss| && Fold(ss).elifChain == ss[j].elifChain;
      ElifThroughChild(n, j);
    }
  }

  /** The longest chain below child `j`, reached from `n`. */
  lemma {:induction false} ElifThroughChild(n: Node, j: nat)
    requires j < |Children(n)|
    ensures Flow(Children(n)[j]).elifChain == 0 || exists p :: ChainAt(n, p, Flow(Children(n)[j]).elifChain)
    decreases n, 0
  {
    var c := Children(n)[j];
    ChildSmaller(n, j);
    ElifIsAttained(c);
    if Flow(c).elifChain != 0 {
      var p :| ChainAt(c, p, Flow(c).elifChain);
      PathThroughChild(n, j, p);
      assert ChainAt(n, [j] + p, Flow(c).elifChain);
    }
  }

  /**
   * Each `elif` is a nested `if`: an `if` whose chain has length k opens at
   * least k + 1 nesting levels and counts at least k + 1 branches.
   */
  lemma {:induction false} ElifDeepensAndBranches(n: Node)
    requires n.If?
    ensures Flow(n).depth >= 1 + ElifChain(n)
    ensures Flow(n).branches >= 1 + ElifChain(n)
    decreases n
  {
    FlowIf(n);
    if |n.orelse| == 1 && n.orelse[0].If? {
      ElifDeepensAndBranches(n.orelse[0]);
      ElseIsLastChild(n);
      ChildBounds(n, |Children(n)| - 1);
    }
  }

  /** A one-statement `else` part is the last child of its `if`. */
  lemma ElseIsLastChild(n: Node)
    requires n.If? && |n.orelse| == 1
    ensures |Children(n)| >= 1 && Children(n)[|Children(n)| - 1] == n.orelse[0]
  {
  }

  /** The visit's effect of one node alone: 1 per `if`. */
  function IfWeight(n: Node): int {
    if n.If? then 1 else 0
  }

  /** What an `if` adds through `_count_boolean_ops` on its test, on top of the visit of the test itself. */
  function TestWeight(n: Node): int {
    if n.If? then BooleanOps(n.test) else 0
  }

  /**
   * `conditional_branch_count` is the number of `if` nodes (each `elif` and
   * each `if` in a nested `def` included), and `boolean_operator_count` adds
   * `len(values) - 1` for every BoolOp plus, once more, the operators in the
   * test of every `if`.
   */
  lemma {:induction false} BranchesAndBooleans(n: Node)
    ensures Flow(n).branches == TreeSum(IfWeight, n)
    ensures Flow(n).booleans == TreeSum(BoolOpWeight, n) + TreeSum(TestWeight, n)
    decreases n
  {
    var cs := Children(n);
    forall k | 0 <= k < |cs|
      ensures Flow(cs[k]).branches == TreeSum(IfWeight, cs[k])
      ensures Flow(cs[k]).booleans == TreeSum(BoolOpWeight, cs[k]) + TreeSum(TestWeight, cs[k])
    {
      ChildSmaller(n, k);
      BranchesAndBooleans(cs[k]);
    }
    FoldCounts(ChildFlows(n), ChildSums(IfWeight, n), ChildSums(BoolOpWeight, n), ChildSums(TestWeight, n));
  }

  /** A name or constant (an `Other` node without children) contributes nothing. */
  lemma LeafFlow(x: Node)
    requires x.Other? && x.children == []
    ensures Flow(x) == FlowStats(0, 0, 0, 0) && BooleanOps(x) == 0
  {
    assert ChildFlows(x) == [];
    assert ChildSums(BoolOpWeight, x) == [];
  }

  lemma {:induction false} FoldZeros(ss: seq<FlowStats>)
    requires forall s | s in ss :: s == FlowStats(0, 0, 0, 0)
    ensures Fold(ss) == FlowStats(0, 0, 0, 0)
  {
    if ss != [] {
      var rest := ss[1..];
      assert forall s | s in rest :: s in ss;
      FoldZeros(rest);
      assert ss[0] in ss;
      assert Fold(ss) == Combine(ss[0], Fold(rest));
    }
  }

  lemma {:induction false} SumZeros(xs: seq<int>)
    requires forall k | 0 <= k < |xs| :: xs[k] == 0
    ensures Sum(xs) == 0
  {
    if xs != [] {
      SumZeros(xs[1..]);
    }
  }

  /** Two siblings' boolean operators add up. */
  lemma FoldPair(ss: seq<FlowStats>)
    requires |ss| == 2
    ensures Fold(ss).booleans == ss[0].booleans + ss[1].booleans
  {
    var rest := ss[1..];
    assert rest[0] == ss[1] && rest[1..] == [];
    assert Fold(rest) == Combine(rest[0], Fold([]));
    assert Fold(ss) == Combine(ss[0], Fold(rest));
  }

  /** A BoolOp over plain names has `len(values) - 1` operators, whether visited or walked. */
  lemma FlatBoolOp(test: Node)
    requires test.BoolOp? && forall k | 0 <= k < |test.values| :: test.values[k].Other? && test.values[k].children == []
    ensures Flow(test) == FlowStats(0, |test.values| - 1, 0, 0) && BooleanOps(test) == |test.values| - 1
  {
    forall k | 0 <= k < |test.values|
      ensures Flow(test.values[k]) == FlowStats(0, 0, 0, 0) && BooleanOps(test.values[k]) == 0
    {
      LeafFlow(test.values[k]);
    }
    var ss := ChildFlows(test);
    assert forall s | s in ss :: s == FlowStats(0, 0, 0, 0) by {
      forall s | s in ss
        ensures s == FlowStats(0, 0, 0, 0)
      {
        var k :| 0 <= k < |ss| && ss[k] == s;
      }
    }
    FoldZeros(ss);
    FlowBoolOp(test);
    SumZeros(ChildSums(BoolOpWeight, test));
  }

  /**
   * The operators of an `if` test count twice: `if a and b and c: pass`
   * counts 4, 2 for the BoolOp node itself and 2 more through the test.
   */
  lemma IfTestCountedTwice(test: Node, pass: Node)
    requires test.BoolOp? && forall k | 0 <= k < |test.values| :: test.values[k].Other? && test.values[k].children == []
    requires pass.Other? && pass.children == []
    ensures Flow(If(test, [pass], [])).booleans == 2 * (|test.values| - 1)
  {
    var n := If(test, [pass], []);
    FlatBoolOp(test);
    LeafFlow(pass);
    assert Children(n) == [test, pass];
    var ss := ChildFlows(n);
    assert ss[0] == Flow(test) && ss[1] == Flow(pass);
    FoldPair(ss);
    FlowIf(n);
  }

  /** The operators of a loop test count once: `while a and b: pass` counts 1. */
  lemma WhileTestCountedOnce(test: Node, pass: Node)
    requires test.BoolOp? && forall k | 0 <= k < |test.values| :: test.values[k].Other? && test.values[k].children == []
    requires pass.Other? && pass.children == []
    ensures Flow(Compound(While, [test, pass])).booleans == |test.values| - 1
  {
    var n := Compound(While, [test, pass]);
    FlatBoolOp(test);
    LeafFlow(pass);
    FoldPair(ChildFlows(n));
    FlowCompound(n);
  }
}
