/**
 * The part of Python's syntax tree that the detector inspects, and the
 * breadth-first walk (`ast.walk`) that every analyzer uses to find
 * definitions. Parsing itself is not part of this model: a tree is given.
 */
module Syntax {
  import opened Wrappers

  /** The parameters of a `def`, field for field as Python's `arguments` node has them. */
  datatype Arguments = Arguments(
    posonlyargs: seq<string>,
    args: seq<string>,
    vararg: Option<string>,
    kwonlyargs: seq<string>,
    kwarg: Option<string>)

  /** The compound statements the control-flow visitor counts as one nesting level. */
  datatype CompoundKind = For | While | With | Try

  /**
   * A syntax-tree node. Each constructor keeps its children in the order
   * `ast.iter_child_nodes` yields them. Every kind the detector does not
   * single out (other statements, other expressions, and also `async for`,
   * `async with`, `match` and `try*`, which the visitor has no handler for)
   * is `Other`. A definition's `endLineno` is `None` when the node carries
   * no `end_lineno` attribute.
   */
  datatype Node =
    | If(test: Node, body: seq<Node>, orelse: seq<Node>)
    | Compound(kind: CompoundKind, children: seq<Node>)
    | BoolOp(values: seq<Node>)
    | Call(func: Node, arguments: seq<Node>)
    | Assign(targets: seq<Node>, value: Node)
    | AnnAssign(target: Node, annotation: Node, annotated: Option<Node>)
    | FunctionDef(isAsync: bool, name: string, args: Arguments, lineno: int, endLineno: Option<int>, children: seq<Node>)
    | ClassDef(name: string, bases: seq<Node>, body: seq<Node>, decorators: seq<Node>, lineno: int, endLineno: Option<int>)
    | Other(children: seq<Node>)

  /**
   * The direct children of a node, in `ast.iter_child_nodes` order. For a
   * `def`, `children` stands for its body, decorators, return annotation and
   * the default values held by its `arguments` node.
   */
  function Children(n: Node): (cs: seq<Node>)
  {
    match n
    case If(test, body, orelse) => [test] + body + orelse
    case Compound(_, children) => children
    case BoolOp(values) => values
    case Call(func, arguments) => [func] + arguments
    case Assign(targets, value) => targets + [value]
    case AnnAssign(target, annotation, annotated) =>
      [target, annotation] + (if annotated.Some? then [annotated.value] else [])
    case FunctionDef(_, _, _, _, _, children) => children
    case ClassDef(_, bases, body, decorators, _, _) => bases + body + decorators
    case Other(children) => children
  }

  /** Every child is smaller than its parent, so recursion over children terminates. */
  lemma ChildSmaller(n: Node, j: nat)
    requires j < |Children(n)|
    ensures Children(n)[j] < n
  {
    assert Children(n)[j] in Children(n);
  }

  predicate IsFunction(n: Node) {
    n.FunctionDef?
  }

  predicate IsClass(n: Node) {
    n.ClassDef?
  }

  /** The sum of a sequence of numbers. */
  function Sum(xs: seq<int>): (r: int)
    ensures (forall k | 0 <= k < |xs| :: xs[k] >= 0) ==> r >= 0
  {
    if xs == [] then 0 else xs[0] + Sum(xs[1..])
  }

  /** The number of nodes in the tree rooted at `n`. */
  function Size(n: Node): (r: nat)
    ensures r >= 1
    decreases n, 1
  {
    1 + Sum(ChildSizes(n))
  }

  /** The size of each child of `n`, in order. */
  function ChildSizes(n: Node): (r: seq<int>)
    ensures |r| == |Children(n)|
    ensures forall k | 0 <= k < |r| :: r[k] == Size(Children(n)[k]) && r[k] >= 1
    decreases n, 0
  {
    seq(|Children(n)|, k requires 0 <= k < |Children(n)| => ChildSmaller(n, k); Size(Children(n)[k]))
  }

  /** The sum of `f` over every node of the tree rooted at `n`. */
  function TreeSum(f: Node -> int, n: Node): int
    decreases n, 1
  {
    f(n) + Sum(ChildSums(f, n))
  }

  /** `TreeSum(f, _)` of each child of `n`, in order. */
  function ChildSums(f: Node -> int, n: Node): (r: seq<int>)
    ensures |r| == |Children(n)|
    ensures forall k | 0 <= k < |r| :: r[k] == TreeSum(f, Children(n)[k])
    decreases n, 0
  {
    seq(|Children(n)|, k requires 0 <= k < |Children(n)| => ChildSmaller(n, k); TreeSum(f, Children(n)[k]))
  }

  /**
   * A node as the walk meets it, with its chain of ancestors, nearest first.
   * The chain plays the part of the `parent` attributes the source attaches
   * to every node before analysis.
   */
  datatype Item = Item(node: Node, ancestors: seq<Node>)

  /** The items for the children of `it`, each with `it.node` as its parent. */
  function ChildItems(it: Item): (r: seq<Item>)
    ensures |r| == |Children(it.node)|
    ensures forall k | 0 <= k < |r| :: r[k] == Item(Children(it.node)[k], [it.node] + it.ancestors)
  {
    seq(|Children(it.node)|, k requires 0 <= k < |Children(it.node)| =>
      Item(Children(it.node)[k], [it.node] + it.ancestors))
  }

  /** The number of nodes in all the trees of a queue. */
  function QueueSize(q: seq<Item>): nat {
    if q == [] then 0 else Size(q[0].node) + QueueSize(q[1..])
  }

  /** The sum of `f` over the nodes of a sequence of items (not their subtrees). */
  function SumOver(f: Node -> int, q: seq<Item>): int {
    if q == [] then 0 else f(q[0].node) + SumOver(f, q[1..])
  }

  /** The sum of `TreeSum(f, _)` over the trees of a sequence of items. */
  function ForestSum(f: Node -> int, q: seq<Item>): int {
    if q == [] then 0 else TreeSum(f, q[0].node) + ForestSum(f, q[1..])
  }

  lemma {:induction false} QueueSizeAppend(a: seq<Item>, b: seq<Item>)
    ensures QueueSize(a + b) == QueueSize(a) + QueueSize(b)
  {
    if a != [] {
      assert (a + b)[1..] == a[1..] + b;
      QueueSizeAppend(a[1..], b);
    } else {
      assert a + b == b;
    }
  }

  lemma {:induction false} SumOverAppend(f: Node -> int, a: seq<Item>, b: seq<Item>)
    ensures SumOver(f, a + b) == SumOver(f, a) + SumOver(f, b)
  {
    if a != [] {
      assert (a + b)[1..] == a[1..] + b;
      SumOverAppend(f, a[1..], b);
    } else {
      assert a + b == b;
    }
  }

  lemma {:induction false} ForestSumAppend(f: Node -> int, a: seq<Item>, b: seq<Item>)
    ensures ForestSum(f, a + b) == ForestSum(f, a) + ForestSum(f, b)
  {
    if a != [] {
      assert (a + b)[1..] == a[1..] + b;
      ForestSumAppend(f, a[1..], b);
    } else {
      assert a + b == b;
    }
  }

  /** A queue whose trees have sizes `xs` holds `Sum(xs)` nodes. */
  lemma {:induction false} QueueSizeIs(q: seq<Item>, xs: seq<int>)
    requires |q| == |xs| && forall k | 0 <= k < |q| :: Size(q[k].node) == xs[k]
    ensures QueueSize(q) == Sum(xs)
  {
    if q != [] {
      QueueSizeIs(q[1..], xs[1..]);
    }
  }

  /** A queue whose trees sum `f` to `xs` sums it to `Sum(xs)`. */
  lemma {:induction false} ForestSumIs(f: Node -> int, q: seq<Item>, xs: seq<int>)
    requires |q| == |xs| && forall k | 0 <= k < |q| :: TreeSum(f, q[k].node) == xs[k]
    ensures ForestSum(f, q) == Sum(xs)
  {
    if q != [] {
      ForestSumIs(f, q[1..], xs[1..]);
    }
  }

  /** Replacing the head of a queue by its children removes exactly one node. */
  lemma WalkStep(q: seq<Item>)
    requires q != []
    ensures QueueSize(q[1..] + ChildItems(q[0])) == QueueSize(q) - 1
  {
    QueueSizeAppend(q[1..], ChildItems(q[0]));
    QueueSizeIs(ChildItems(q[0]), ChildSizes(q[0].node));
  }

  /**
   * `ast.walk`: a breadth-first traversal that pops the front of a queue,
   * yields it, and pushes its children at the back.
   */
  function Walk(q: seq<Item>): seq<Item>
    decreases QueueSize(q)
  {
    if q == [] then []
    else
      WalkStep(q);
      [q[0]] + Walk(q[1..] + ChildItems(q[0]))
  }

  /** The walk of a whole module, which starts at the module node and has no parent. */
  function WalkModule(root: Node): seq<Item> {
    Walk([Item(root, [])])
  }

  /**
   * Summing `f` along the walk gives the same total as summing it over the
   * trees: the walk meets every node of the queue's trees exactly once.
   */
  lemma {:induction false} WalkSum(f: Node -> int, q: seq<Item>)
    ensures SumOver(f, Walk(q)) == ForestSum(f, q)
    decreases QueueSize(q)
  {
    if q != [] {
      var rest := q[1..] + ChildItems(q[0]);
      WalkStep(q);
      WalkSum(f, rest);
      assert Walk(q) == [q[0]] + Walk(rest);
      assert ([q[0]] + Walk(rest))[1..] == Walk(rest);
      ForestSumAppend(f, q[1..], ChildItems(q[0]));
      ForestSumIs(f, ChildItems(q[0]), ChildSums(f, q[0].node));
    }
  }

  /** The walk of one tree meets each of its nodes exactly once. */
  lemma WalkModuleSum(f: Node -> int, root: Node)
    ensures SumOver(f, WalkModule(root)) == TreeSum(f, root)
  {
    WalkSum(f, [Item(root, [])]);
    assert [Item(root, [])][1..] == [];
  }

  /**
   * The results of `f` for each item, concatenated in order: a generator
   * over the walk (or any loop that extends a list), listed.
   */
  function Collect<A, T>(f: A --> seq<T>, items: seq<A>): seq<T>
    requires forall it | it in items :: f.requires(it)
  {
    if items == [] then []
    else Collect(f, items[..|items| - 1]) + f(items[|items| - 1])
  }

  /** Everything collected comes from some item. */
  lemma {:induction false} CollectSound<A, T>(f: A --> seq<T>, items: seq<A>, x: T)
    requires forall it | it in items :: f.requires(it)
    requires x in Collect(f, items)
    ensures exists i | 0 <= i < |items| :: x in f(items[i])
  {
    var init := items[..|items| - 1];
    if x in Collect(f, init) {
      CollectSound(f, init, x);
      var i :| 0 <= i < |init| && x in f(init[i]);
      assert init[i] == items[i];
    } else {
      assert x in f(items[|items| - 1]);
    }
  }

  /** Everything any item yields is collected. */
  lemma {:induction false} CollectComplete<A, T>(f: A --> seq<T>, items: seq<A>, i: nat, x: T)
    requires forall it | it in items :: f.requires(it)
    requires i < |items| && x in f(items[i])
    ensures x in Collect(f, items)
  {
    var init := items[..|items| - 1];
    if i < |items| - 1 {
      assert items[i] == init[i];
      CollectComplete(f, init, i, x);
    }
  }

  /** When each item yields at most `w` of its node, the whole collection is bounded by the sum of `w`. */
  lemma {:induction false} CollectBound<T>(f: Item --> seq<T>, w: Node -> int, items: seq<Item>)
    requires forall it | it in items :: f.requires(it) && |f(it)| <= w(it.node)
    ensures |Collect(f, items)| <= SumOver(w, items)
  {
    if items != [] {
      var init := items[..|items| - 1];
      CollectBound(f, w, init);
      SumOverAppend(w, init, [items[|items| - 1]]);
      assert init + [items[|items| - 1]] == items;
    }
  }

  /** Collecting over one more item appends what that item yields. */
  lemma CollectStep<A, T>(f: A --> seq<T>, items: seq<A>, i: nat)
    requires forall it | it in items :: f.requires(it)
    requires i < |items|
    ensures Collect(f, items[..i + 1]) == Collect(f, items[..i]) + f(items[i])
  {
    assert items[..i + 1][..i] == items[..i];
  }

  /** When each item yields exactly `w` of its node, the collection has exactly the sum of `w` elements. */
  lemma {:induction false} CollectExact<T>(f: Item --> seq<T>, w: Node -> int, items: seq<Item>)
    requires forall it | it in items :: f.requires(it) && |f(it)| == w(it.node)
    ensures |Collect(f, items)| == SumOver(w, items)
  {
    if items != [] {
      var init := items[..|items| - 1];
      CollectExact(f, w, init);
      SumOverAppend(w, init, [items[|items| - 1]]);
      assert init + [items[|items| - 1]] == items;
    }
  }

  /** Collecting over two runs of items concatenates what each run yields. */
  lemma {:induction false} CollectAppend<A, T>(f: A --> seq<T>, a: seq<A>, b: seq<A>)
    requires forall it | it in a + b :: f.requires(it)
    ensures Collect(f, a + b) == Collect(f, a) + Collect(f, b)
    decreases |b|
  {
    if b == [] {
      assert a + b == a;
    } else {
      var init := b[..|b| - 1];
      assert (a + b)[..|a + b| - 1] == a + init;
      CollectAppend(f, a, init);
    }
  }
}
