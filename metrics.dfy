/**
 * The per-definition metrics of `MetricsCalculator`: lines of code,
 * cyclomatic complexity (from an external tool, given here as a table),
 * parameter count and the control-flow figures for a function; size,
 * methods, fields and public methods for a class.
 */
module Metrics {
  import opened Wrappers
  import opened Syntax
  import opened ControlFlow

  datatype FunctionMetrics = FunctionMetrics(
    name: string,
    linesOfCode: int,
    cyclomaticComplexity: int,
    parameterCount: int,
    maxNestingDepth: int,
    booleanOperatorCount: int,
    conditionalBranchCount: int,
    elifChainLength: int)

  datatype ClassMetrics = ClassMetrics(
    name: string,
    linesOfCode: int,
    methodCount: int,
    fieldCount: int,
    publicMethodCount: int)

  /**
   * A calculator for one module: its source split into lines, and the
   * complexity the external tool reports for each block, keyed by
   * (name, first line).
   */
  datatype Calculator = Calculator(sourceLines: seq<string>, complexities: map<(string, int), nat>)

  /** The first and last line of a definition, when it has both. */
  function Span(n: Node): Option<(int, int)> {
    match n
    case FunctionDef(_, _, _, lineno, endLineno, _) =>
      if endLineno.Some? then Some((lineno, endLineno.value)) else None
    case ClassDef(_, _, _, _, lineno, endLineno) =>
      if endLineno.Some? then Some((lineno, endLineno.value)) else None
    case _ => None
  }

  /** `_node_loc`: the physical lines from the first to the last, or 0 without both positions. */
  function NodeLoc(n: Node): int {
    match Span(n)
    case Some((first, last)) => last - first + 1
    case None => 0
  }

  /** Inside the file, a definition's lines of code are exactly the lines of its text. */
  lemma NodeLocCountsLines(lines: seq<string>, n: Node)
    requires Span(n).Some? && 1 <= Span(n).value.0 <= Span(n).value.1 <= |lines|
    ensures NodeLoc(n) == |lines[Span(n).value.0 - 1..Span(n).value.1]|
    ensures NodeLoc(n) >= 1
  {
  }

  /** `_cyclomatic_complexity`: the reported value for (name, lineno), 1 when there is none. */
  function CyclomaticComplexity(calculator: Calculator, n: Node): (r: nat)
    requires n.FunctionDef?
    ensures (n.name, n.lineno) !in calculator.complexities ==> r == 1
  {
    if (n.name, n.lineno) in calculator.complexities then calculator.complexities[(n.name, n.lineno)] else 1
  }

  /** The names a call may bind, positional-only ones aside: `args`, `kwonlyargs`, `*args`, `**kwargs`. */
  function Declared(a: Arguments): seq<string> {
    a.args + a.kwonlyargs
      + (if a.vararg.Some? then [a.vararg.value] else [])
      + (if a.kwarg.Some? then [a.kwarg.value] else [])
  }

  /** The function's direct parent is a class, so its first positional parameter is the receiver. */
  predicate InClass(it: Item) {
    it.ancestors != [] && it.ancestors[0].ClassDef?
  }

  /**
   * `_parameter_count`: the declared parameters, one fewer when the
   * function sits directly in a class body and has positional parameters,
   * never below 0.
   */
  function ParameterCount(it: Item): (r: nat)
    requires it.node.FunctionDef?
  {
    var a := it.node.args;
    var total := |a.args| + |a.kwonlyargs| + (if a.vararg.Some? then 1 else 0) + (if a.kwarg.Some? then 1 else 0);
    var adjusted := if a.args != [] && InClass(it) then total - 1 else total;
    Max(adjusted, 0)
  }

  /**
   * The count is the number of declared names, less the receiver of a
   * function defined directly in a class, whatever its decorators (a
   * `staticmethod` loses one too). The clamp at 0 never applies.
   */
  lemma ParameterCountSpec(it: Item)
    requires it.node.FunctionDef?
    ensures ParameterCount(it) == |Declared(it.node.args)| - (if it.node.args.args != [] && InClass(it) then 1 else 0)
  {
  }

  /** Positional-only parameters are not counted. */
  lemma ParameterCountIgnoresPositionalOnly(it: Item, posonly: seq<string>)
    requires it.node.FunctionDef?
    ensures var other := it.(node := it.node.(args := it.node.args.(posonlyargs := posonly)));
      ParameterCount(other) == ParameterCount(it)
  {
  }

  /** `def f(self, a, b, c)` directly in a class counts 3. */
  lemma ParameterCountExample(cls: Node, body: seq<Node>)
    requires cls.ClassDef?
    ensures var f := FunctionDef(false, "f", Arguments([], ["self", "a", "b", "c"], None, [], None), 1, Some(2), body);
      ParameterCount(Item(f, [cls])) == 3
  {
  }

  /** The function-level metrics of `calculate_function_metrics`, given the function's walk item. */
  function FunctionMetricsOf(calculator: Calculator, it: Item): FunctionMetrics
    requires it.node.FunctionDef?
  {
    var flow := Flow(it.node);
    FunctionMetrics(
      it.node.name,
      NodeLoc(it.node),
      CyclomaticComplexity(calculator, it.node),
      ParameterCount(it),
      flow.depth,
      flow.booleans,
      flow.branches,
      flow.elifChain)
  }

  /** `calculate_function_metrics`: a fresh control-flow visitor visits the function node. */
  method CalculateFunctionMetrics(calculator: Calculator, it: Item) returns (metrics: FunctionMetrics)
    requires it.node.FunctionDef?
    ensures metrics == FunctionMetricsOf(calculator, it)
  {
    var analyzer := new ControlFlowAnalyzer();
    analyzer.Visit(it.node);
    metrics := FunctionMetrics(
      it.node.name,
      NodeLoc(it.node),
      CyclomaticComplexity(calculator, it.node),
      ParameterCount(it),
      analyzer.maxDepth,
      analyzer.booleanOperatorCount,
      analyzer.conditionalBranchCount,
      analyzer.maxElifChain);
  }

  /** The members of `s` that satisfy `p`, in order. */
  function Filter(p: Node -> bool, s: seq<Node>): (r: seq<Node>)
    ensures |r| <= |s|
    ensures forall x | x in r :: x in s && p(x)
    ensures forall x | x in s && p(x) :: x in r
  {
    if s == [] then [] else (if p(s[0]) then [s[0]] else []) + Filter(p, s[1..])
  }

  predicate IsMethod(n: Node) {
    n.FunctionDef?
  }

  /**
   * An assignment or annotated assignment whose value is not a call; an
   * annotation without a value counts.
   */
  predicate IsField(n: Node) {
    (n.Assign? && !n.value.Call?)
    || (n.AnnAssign? && !(n.annotated.Some? && n.annotated.value.Call?))
  }

  /** A method whose name does not start with an underscore (so `__init__` is not public). */
  predicate IsPublic(n: Node) {
    n.FunctionDef? && !(|n.name| > 0 && n.name[0] == '_')
  }

  /** `calculate_class_metrics`: counts over the direct statements of the class body only. */
  function ClassMetricsOf(n: Node): ClassMetrics
    requires n.ClassDef?
  {
    var methods := Filter(IsMethod, n.body);
    ClassMetrics(
      n.name,
      NodeLoc(n),
      |methods|,
      |Filter(IsField, n.body)|,
      |Filter(IsPublic, methods)|)
  }

  /**
   * Public methods are among the methods, and methods and fields are among
   * the direct statements of the body.
   */
  lemma ClassMetricsBounds(n: Node)
    requires n.ClassDef?
    ensures 0 <= ClassMetricsOf(n).publicMethodCount <= ClassMetricsOf(n).methodCount <= |n.body|
    ensures 0 <= ClassMetricsOf(n).fieldCount <= |n.body|
  {
  }

  /** The number of direct statements satisfying `p`. */
  function CountIn(p: Node -> bool, s: seq<Node>): nat {
    if s == [] then 0 else (if p(s[0]) then 1 else 0) + CountIn(p, s[1..])
  }

  lemma {:induction false} FilterCount(p: Node -> bool, s: seq<Node>)
    ensures |Filter(p, s)| == CountIn(p, s)
  {
    if s != [] {
      FilterCount(p, s[1..]);
    }
  }

  lemma {:induction false} CountInAppend(p: Node -> bool, a: seq<Node>, b: seq<Node>)
    ensures CountIn(p, a + b) == CountIn(p, a) + CountIn(p, b)
  {
    if a != [] {
      assert (a + b)[1..] == a[1..] + b;
      CountInAppend(p, a[1..], b);
    } else {
      assert a + b == b;
    }
  }

  /** The class `n` with `s` appended to its body. */
  function WithStatement(n: Node, s: Node): (r: Node)
    requires n.ClassDef?
    ensures r.ClassDef? && r.body == n.body + [s] && r.name == n.name
  {
    ClassDef(n.name, n.bases, n.body + [s], n.decorators, n.lineno, n.endLineno)
  }

  /**
   * Adding a statement to the body changes each count by exactly what that
   * statement is: a method adds a method, a field a field, and a nested
   * class or a statement inside a method adds nothing.
   */
  lemma ClassMetricsAppend(n: Node, s: Node)
    requires n.ClassDef?
    ensures var before := ClassMetricsOf(n);
      var after := ClassMetricsOf(WithStatement(n, s));
      && after.methodCount == before.methodCount + (if IsMethod(s) then 1 else 0)
      && after.fieldCount == before.fieldCount + (if IsField(s) then 1 else 0)
      && after.publicMethodCount == before.publicMethodCount + (if IsPublic(s) then 1 else 0)
  {
    var body := n.body + [s];
    FilterCount(IsMethod, n.body);
    FilterCount(IsMethod, body);
    FilterCount(IsField, n.body);
    FilterCount(IsField, body);
    CountInAppend(IsMethod, n.body, [s]);
    CountInAppend(IsField, n.body, [s]);
    FilterAppend(IsMethod, n.body, [s]);
    var methods := Filter(IsMethod, n.body);
    var extra := Filter(IsMethod, [s]);
    FilterCount(IsPublic, methods);
    FilterCount(IsPublic, methods + extra);
    CountInAppend(IsPublic, methods, extra);
    FilterCount(IsPublic, extra);
    assert CountIn(IsPublic, extra) == (if IsPublic(s) then 1 else 0);
  }

  lemma {:induction false} FilterAppend(p: Node -> bool, a: seq<Node>, b: seq<Node>)
    ensures Filter(p, a + b) == Filter(p, a) + Filter(p, b)
  {
    if a != [] {
      assert (a + b)[1..] == a[1..] + b;
      FilterAppend(p, a[1..], b);
    } else {
      assert a + b == b;
    }
  }
}
