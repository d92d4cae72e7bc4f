/**
 * The three function-level analyzers: Long Method, Long Parameter List and
 * Complex Conditional. Each walks the module, computes the metrics of every
 * function (nested and async ones included), and reports the functions
 * whose metrics exceed its thresholds.
 */
module MethodLevel {
  import opened Wrappers
  import opened Syntax
  import opened DataModels
  import opened Config
  import opened Metrics

  datatype MethodRule = LongMethod | LongParameterList | ComplexConditional

  /** The threshold keys each rule looks up. */
  function RequiredKeys(rule: MethodRule): set<string> {
    match rule
    case LongMethod => {"lines_of_code", "cyclomatic_complexity", "nesting_depth"}
    case LongParameterList => {"parameter_count"}
    case ComplexConditional => {"nesting_depth", "boolean_operators", "conditional_branches", "elif_chain_length"}
  }

  predicate HasKeys(rule: MethodRule, t: Section) {
    RequiredKeys(rule) <= t.Keys
  }

  /** `get_definition` of each analyzer. */
  function Definition(rule: MethodRule, config: DetectorConfig): (d: SmellDefinition)
    requires WellFormed(config.thresholds)
    ensures d.category == "Method-Level" && d.solidViolations != []
    ensures HasKeys(rule, d.thresholds)
  {
    assert "long_method" in DefaultThresholds && "long_parameter_list" in DefaultThresholds;
    assert "complex_conditional" in DefaultThresholds;
    match rule
    case LongMethod =>
      SmellDefinition("Long Method", "Method-Level", config.thresholds["long_method"],
        ["SRP"], ["Extract Method", "Template Method", "Strategy"])
    case LongParameterList =>
      SmellDefinition("Long Parameter List", "Method-Level", config.thresholds["long_parameter_list"],
        ["SRP"], ["Parameter Object", "Builder", "Facade"])
    case ComplexConditional =>
      SmellDefinition("Complex Conditional", "Method-Level", config.thresholds["complex_conditional"],
        ["OCP"], ["Strategy", "State", "Chain of Responsibility", "Specification"])
  }

  /** `_is_long_method`: some metric strictly exceeds its threshold. */
  function IsLongMethod(m: FunctionMetrics, t: Section): bool
    requires HasKeys(LongMethod, t)
  {
    m.linesOfCode as real > t["lines_of_code"]
    || m.cyclomaticComplexity as real > t["cyclomatic_complexity"]
    || m.maxNestingDepth as real > t["nesting_depth"]
  }

  /** `m2` is at least `m1` in every function metric. */
  predicate Dominates(m2: FunctionMetrics, m1: FunctionMetrics) {
    && m1.linesOfCode <= m2.linesOfCode
    && m1.cyclomaticComplexity <= m2.cyclomaticComplexity
    && m1.parameterCount <= m2.parameterCount
    && m1.maxNestingDepth <= m2.maxNestingDepth
    && m1.booleanOperatorCount <= m2.booleanOperatorCount
    && m1.conditionalBranchCount <= m2.conditionalBranchCount
    && m1.elifChainLength <= m2.elifChainLength
  }

  /** `_long_method_severity`: fixed bands on size, complexity and nesting; the thresholds play no part. */
  function LongMethodSeverity(m: FunctionMetrics): (s: Severity)
    ensures s == CRITICAL <==> m.linesOfCode > 100 || m.cyclomaticComplexity > 30 || m.maxNestingDepth > 6
    ensures s == LOW <==> m.linesOfCode <= 30 && m.cyclomaticComplexity <= 15 && m.maxNestingDepth <= 4
  {
    if m.linesOfCode > 100 || m.cyclomaticComplexity > 30 || m.maxNestingDepth > 6 then CRITICAL
    else if m.linesOfCode > 50 || m.cyclomaticComplexity > 20 || m.maxNestingDepth > 5 then HIGH
    else if m.linesOfCode > 30 || m.cyclomaticComplexity > 15 || m.maxNestingDepth > 4 then MEDIUM
    else LOW
  }

  /** `_parameter_severity`. */
  function ParameterSeverity(count: int): (s: Severity)
    ensures s == CRITICAL <==> count > 10
    ensures s == HIGH <==> 7 < count <= 10
    ensures s == MEDIUM <==> 5 < count <= 7
    ensures s == LOW <==> count <= 5
  {
    if count > 10 then CRITICAL
    else if count > 7 then HIGH
    else if count > 5 then MEDIUM
    else LOW
  }

  /** `_is_complex_conditional`: some control-flow metric strictly exceeds its threshold. */
  function IsComplexConditional(m: FunctionMetrics, t: Section): bool
    requires HasKeys(ComplexConditional, t)
  {
    m.maxNestingDepth as real > t["nesting_depth"]
    || m.booleanOperatorCount as real > t["boolean_operators"]
    || m.conditionalBranchCount as real > t["conditional_branches"]
    || m.elifChainLength as real > t["elif_chain_length"]
  }

  /**
   * `_conditional_severity`: depth bands relative to the nesting threshold,
   * fixed bands on boolean operators and branches; the `elif` chain plays no
   * part.
   */
  function ConditionalSeverity(m: FunctionMetrics, t: Section): (s: Severity)
    requires HasKeys(ComplexConditional, t)
    ensures s == CRITICAL <==>
      m.maxNestingDepth as real > t["nesting_depth"] + 2.0 || m.booleanOperatorCount > 20 || m.conditionalBranchCount > 10
    ensures s == LOW <==>
      m.maxNestingDepth as real <= t["nesting_depth"] && m.booleanOperatorCount <= 7 && m.conditionalBranchCount <= 6
  {
    var nesting := t["nesting_depth"];
    var depth := m.maxNestingDepth as real;
    if depth > nesting + 2.0 || m.booleanOperatorCount > 20 || m.conditionalBranchCount > 10 then CRITICAL
    else if depth > nesting + 1.0 || m.booleanOperatorCount > 12 || m.conditionalBranchCount > 8 then HIGH
    else if depth > nesting || m.booleanOperatorCount > 7 || m.conditionalBranchCount > 6 then MEDIUM
    else LOW
  }

  /** Whether a rule reports a function with metrics `m`. */
  function Triggered(rule: MethodRule, m: FunctionMetrics, t: Section): bool
    requires HasKeys(rule, t)
  {
    match rule
    case LongMethod => IsLongMethod(m, t)
    case LongParameterList => m.parameterCount as real > t["parameter_count"]
    case ComplexConditional => IsComplexConditional(m, t)
  }

  /** The severity a rule assigns to a function it reports. */
  function RuleSeverity(rule: MethodRule, m: FunctionMetrics, t: Section): Severity
    requires HasKeys(rule, t)
  {
    match rule
    case LongMethod => LongMethodSeverity(m)
    case LongParameterList => ParameterSeverity(m.parameterCount)
    case ComplexConditional => ConditionalSeverity(m, t)
  }

  /**
   * Every rule is strict: a function whose metrics all sit exactly at their
   * thresholds (or below) is not reported.
   */
  lemma AtThresholdNotTriggered(rule: MethodRule, m: FunctionMetrics, t: Section)
    requires HasKeys(rule, t)
    requires rule == LongMethod ==>
      m.linesOfCode as real <= t["lines_of_code"] && m.cyclomaticComplexity as real <= t["cyclomatic_complexity"]
      && m.maxNestingDepth as real <= t["nesting_depth"]
    requires rule == LongParameterList ==> m.parameterCount as real <= t["parameter_count"]
    requires rule == ComplexConditional ==>
      m.maxNestingDepth as real <= t["nesting_depth"] && m.booleanOperatorCount as real <= t["boolean_operators"]
      && m.conditionalBranchCount as real <= t["conditional_branches"] && m.elifChainLength as real <= t["elif_chain_length"]
    ensures !Triggered(rule, m, t)
  {
  }

  /** Larger metrics are reported whenever smaller ones are, and never with a lower severity. */
  lemma TriggerAndSeverityMonotone(rule: MethodRule, m1: FunctionMetrics, m2: FunctionMetrics, t: Section)
    requires HasKeys(rule, t) && Dominates(m2, m1)
    ensures Triggered(rule, m1, t) ==> Triggered(rule, m2, t)
    ensures RuleSeverity(rule, m1, t).Rank() <= RuleSeverity(rule, m2, t).Rank()
  {
  }

  /** The conditional severity does not depend on the `elif` chain, though the trigger does. */
  lemma ConditionalSeverityIgnoresElif(m: FunctionMetrics, t: Section, chain: int)
    requires HasKeys(ComplexConditional, t)
    ensures ConditionalSeverity(m.(elifChainLength := chain), t) == ConditionalSeverity(m, t)
  {
  }

  /**
   * The sample `process_order`, a method taking a receiver and five more
   * parameters, with 4 nesting levels (the `if` on the country holds the
   * `if` on the state, whose two `elif` links nest two levels more), 7 `if`
   * nodes and no boolean operator: under the default thresholds it has 5
   * parameters, a Long Parameter List rated LOW, and a Complex Conditional
   * (4 levels exceed 3) rated MEDIUM.
   */
  lemma ProcessOrderSample(cls: Node, body: seq<Node>, loc: int, complexity: int, chain: int)
    requires cls.ClassDef?
    ensures var f := FunctionDef(false, "process_order", Arguments([],
        ["self", "order", "payment_service", "inventory_service", "notification_service", "audit_service"],
        None, [], None), 5, Some(37), body);
      ParameterCount(Item(f, [cls])) == 5
    ensures var m := FunctionMetrics("process_order", loc, complexity, 5, 4, 0, 7, chain);
      var parameters := DefaultThresholds["long_parameter_list"];
      var conditionals := DefaultThresholds["complex_conditional"];
      && Triggered(LongParameterList, m, parameters) && RuleSeverity(LongParameterList, m, parameters) == LOW
      && Triggered(ComplexConditional, m, conditionals) && RuleSeverity(ComplexConditional, m, conditionals) == MEDIUM
  {
  }

  /** `_function_metrics_dict`: all seven metrics by name. */
  function FunctionMetricsMap(m: FunctionMetrics): (r: map<string, int>)
    ensures r.Keys == {"lines_of_code", "cyclomatic_complexity", "parameter_count", "max_nesting_depth",
                       "boolean_operator_count", "conditional_branch_count", "elif_chain_length"}
    ensures r["lines_of_code"] == m.linesOfCode && r["cyclomatic_complexity"] == m.cyclomaticComplexity
    ensures r["parameter_count"] == m.parameterCount && r["max_nesting_depth"] == m.maxNestingDepth
    ensures r["boolean_operator_count"] == m.booleanOperatorCount
    ensures r["conditional_branch_count"] == m.conditionalBranchCount
    ensures r["elif_chain_length"] == m.elifChainLength
  {
    map[
      "lines_of_code" := m.linesOfCode,
      "cyclomatic_complexity" := m.cyclomaticComplexity,
      "parameter_count" := m.parameterCount,
      "max_nesting_depth" := m.maxNestingDepth,
      "boolean_operator_count" := m.booleanOperatorCount,
      "conditional_branch_count" := m.conditionalBranchCount,
      "elif_chain_length" := m.elifChainLength]
  }

  /**
   * The name of the nearest class on the chain of ancestors (nearest first),
   * functions in between notwithstanding.
   */
  function NearestClass(ancestors: seq<Node>): Option<string> {
    if ancestors == [] then None
    else if ancestors[0].ClassDef? then Some(ancestors[0].name)
    else NearestClass(ancestors[1..])
  }

  /**
   * There is a nearest class exactly when some ancestor is a class, and its
   * name is that of the first such ancestor.
   */
  lemma {:induction false} NearestClassSpec(ancestors: seq<Node>)
    ensures NearestClass(ancestors).Some? <==> exists k | 0 <= k < |ancestors| :: ancestors[k].ClassDef?
    ensures NearestClass(ancestors).Some? ==> exists k | 0 <= k < |ancestors| ::
      && ancestors[k].ClassDef? && ancestors[k].name == NearestClass(ancestors).value
      && forall j | 0 <= j < k :: !ancestors[j].ClassDef?
  {
    if ancestors != [] && !ancestors[0].ClassDef? {
      NearestClassSpec(ancestors[1..]);
      assert forall k | 1 <= k < |ancestors| :: ancestors[k] == ancestors[1..][k - 1];
      if NearestClass(ancestors).Some? {
        var k :| 0 <= k < |ancestors[1..]| && ancestors[1..][k].ClassDef? && ancestors[1..][k].name == NearestClass(ancestors).value
          && forall j | 0 <= j < k :: !ancestors[1..][j].ClassDef?;
        assert ancestors[k + 1] == ancestors[1..][k];
      }
    }
  }

  /** `_enclosing_class`: follow the parent links until a class or the top is reached. */
  method EnclosingClass(it: Item) returns (name: Option<string>)
    ensures name == NearestClass(it.ancestors)
  {
    var i := 0;
    while i < |it.ancestors|
      invariant 0 <= i <= |it.ancestors|
      invariant NearestClass(it.ancestors) == NearestClass(it.ancestors[i..])
    {
      if it.ancestors[i].ClassDef? {
        return Some(it.ancestors[i].name);
      }
      assert it.ancestors[i..][1..] == it.ancestors[i + 1..];
      i := i + 1;
    }
    return None;
  }

  /** `_location_from_node` for a function. */
  function LocationOf(file: string, it: Item): (loc: CodeLocation)
    requires it.node.FunctionDef?
    ensures loc.file == file && loc.lineStart == it.node.lineno && loc.functionName == Some(it.node.name)
    ensures loc.lineEnd == (if it.node.endLineno.Some? then it.node.endLineno.value else it.node.lineno)
    ensures loc.className == NearestClass(it.ancestors)
  {
    CodeLocation(file, it.node.lineno, it.node.endLineno.GetOr(it.node.lineno), NearestClass(it.ancestors), Some(it.node.name))
  }

  /** The refactoring steps each rule attaches. */
  function RefactoringSteps(rule: MethodRule): RefactoringPlan {
    match rule
    case LongMethod => LongMethodPlan
    case LongParameterList => ParameterListPlan
    case ComplexConditional => ConditionalPlan
  }

  function DescriptionOf(rule: MethodRule, name: string, m: FunctionMetrics, t: Section): Description
    requires HasKeys(rule, t)
  {
    match rule
    case LongMethod => LongMethodText(name, m.linesOfCode, m.cyclomaticComplexity)
    case LongParameterList => ParameterListText(name, m.parameterCount, t["parameter_count"])
    case ComplexConditional => ConditionalText(name, m.maxNestingDepth, m.booleanOperatorCount, m.conditionalBranchCount)
  }

  /** The smell instance a rule yields for a reported function. */
  function Finding(rule: MethodRule, d: SmellDefinition, file: string, it: Item, m: FunctionMetrics): SmellInstance
    requires it.node.FunctionDef? && HasKeys(rule, d.thresholds)
  {
    SmellInstance(
      d.name, d.category, RuleSeverity(rule, m, d.thresholds), LocationOf(file, it),
      FunctionMetricsMap(m), d.solidViolations, d.recommendedPatterns,
      Some(DescriptionOf(rule, it.node.name, m, d.thresholds)), RefactoringSteps(rule))
  }

  /** Whether a rule reports a walked node: a function whose metrics trigger it. */
  predicate Reports(rule: MethodRule, d: SmellDefinition, calculator: Calculator, it: Item)
    requires HasKeys(rule, d.thresholds)
  {
    it.node.FunctionDef? && Triggered(rule, FunctionMetricsOf(calculator, it), d.thresholds)
  }

  /** What a rule yields for one walked node: one finding for a reported function, nothing otherwise. */
  function FindingsAt(rule: MethodRule, d: SmellDefinition, calculator: Calculator, file: string, it: Item): seq<SmellInstance>
    requires HasKeys(rule, d.thresholds)
  {
    if Reports(rule, d, calculator, it) then [Finding(rule, d, file, it, FunctionMetricsOf(calculator, it))] else []
  }

  /** The findings for a sequence of walked nodes, in walk order. */
  function Findings(rule: MethodRule, d: SmellDefinition, calculator: Calculator, file: string, items: seq<Item>): seq<SmellInstance>
    requires HasKeys(rule, d.thresholds)
  {
    Collect((it: Item) requires HasKeys(rule, d.thresholds) => FindingsAt(rule, d, calculator, file, it), items)
  }

  /**
   * `analyze_module` of the three analyzers: walk the module and yield a
   * finding for every function the rule reports.
   */
  method AnalyzeModule(rule: MethodRule, tree: Node, file: string, calculator: Calculator, config: DetectorConfig)
    returns (smells: seq<SmellInstance>)
    requires WellFormed(config.thresholds)
    ensures smells == Findings(rule, Definition(rule, config), calculator, file, WalkModule(tree))
  {
    var definition := Definition(rule, config);
    var items := WalkModule(tree);
    smells := [];
    for i := 0 to |items|
      invariant smells == Findings(rule, definition, calculator, file, items[..i])
    {
      FindingsStep(rule, definition, calculator, file, items, i);
      var found := AnalyzeItem(rule, definition, calculator, file, items[i]);
      smells := smells + found;
    }
    assert items[..|items|] == items;
  }

  /** The loop body of `analyze_module`: the finding for one walked node, if the rule reports it. */
  method AnalyzeItem(rule: MethodRule, d: SmellDefinition, calculator: Calculator, file: string, it: Item)
    returns (found: seq<SmellInstance>)
    requires HasKeys(rule, d.thresholds)
    ensures found == FindingsAt(rule, d, calculator, file, it)
  {
    found := [];
    if it.node.FunctionDef? {
      var metrics := CalculateFunctionMetrics(calculator, it);
      if Triggered(rule, metrics, d.thresholds) {
        found := [Finding(rule, d, file, it, metrics)];
      }
    }
  }

  /** The findings of one more item are those of the item appended. */
  lemma FindingsStep(rule: MethodRule, d: SmellDefinition, calculator: Calculator, file: string, items: seq<Item>, i: nat)
    requires HasKeys(rule, d.thresholds) && i < |items|
    ensures Findings(rule, d, calculator, file, items[..i + 1])
      == Findings(rule, d, calculator, file, items[..i]) + FindingsAt(rule, d, calculator, file, items[i])
  {
    CollectStep((it: Item) requires HasKeys(rule, d.thresholds) => FindingsAt(rule, d, calculator, file, it), items, i);
  }

  /** One for a function definition, zero for any other node. */
  function DefWeight(n: Node): int {
    if n.FunctionDef? then 1 else 0
  }

  /**
   * Over a whole module there are at most as many findings as function
   * definitions anywhere in it, nested ones included.
   */
  lemma FindingsAtMostFunctions(rule: MethodRule, d: SmellDefinition, calculator: Calculator, file: string, tree: Node)
    requires HasKeys(rule, d.thresholds)
    ensures |Findings(rule, d, calculator, file, WalkModule(tree))| <= TreeSum(DefWeight, tree)
  {
    var f := (it: Item) requires HasKeys(rule, d.thresholds) => FindingsAt(rule, d, calculator, file, it);
    CollectBound(f, DefWeight, WalkModule(tree));
    WalkModuleSum(DefWeight, tree);
  }

  /** Every finding is the rule's finding for some walked function that the rule reports. */
  lemma FindingsSound(rule: MethodRule, d: SmellDefinition, calculator: Calculator, file: string, items: seq<Item>, x: SmellInstance)
    requires HasKeys(rule, d.thresholds) && x in Findings(rule, d, calculator, file, items)
    ensures exists i | 0 <= i < |items| ::
      Reports(rule, d, calculator, items[i]) && x == Finding(rule, d, file, items[i], FunctionMetricsOf(calculator, items[i]))
  {
    var i := CollectedFrom(rule, d, calculator, file, items, x);
    FoundAt(rule, d, calculator, file, items[i], x);
  }

  /** Every walked function that the rule reports has its finding. */
  lemma FindingsComplete(rule: MethodRule, d: SmellDefinition, calculator: Calculator, file: string, items: seq<Item>, i: nat)
    requires HasKeys(rule, d.thresholds) && i < |items| && Reports(rule, d, calculator, items[i])
    ensures Finding(rule, d, file, items[i], FunctionMetricsOf(calculator, items[i])) in Findings(rule, d, calculator, file, items)
  {
    FoundAt(rule, d, calculator, file, items[i], Finding(rule, d, file, items[i], FunctionMetricsOf(calculator, items[i])));
    CollectedAt(rule, d, calculator, file, items, i, Finding(rule, d, file, items[i], FunctionMetricsOf(calculator, items[i])));
  }

  /** A node yields a finding exactly when the rule reports it, and that finding is the rule's. */
  lemma FoundAt(rule: MethodRule, d: SmellDefinition, calculator: Calculator, file: string, it: Item, x: SmellInstance)
    requires HasKeys(rule, d.thresholds)
    ensures x in FindingsAt(rule, d, calculator, file, it) <==>
      Reports(rule, d, calculator, it) && x == Finding(rule, d, file, it, FunctionMetricsOf(calculator, it))
  {
  }

  /** Whatever one walked node yields is among the findings. */
  lemma CollectedAt(rule: MethodRule, d: SmellDefinition, calculator: Calculator, file: string, items: seq<Item>, i: nat, x: SmellInstance)
    requires HasKeys(rule, d.thresholds) && i < |items| && x in FindingsAt(rule, d, calculator, file, items[i])
    ensures x in Findings(rule, d, calculator, file, items)
  {
    var f := (it: Item) requires HasKeys(rule, d.thresholds) => FindingsAt(rule, d, calculator, file, it);
    CollectComplete(f, items, i, x);
  }

  /** Every finding is yielded by some walked node. */
  lemma CollectedFrom(rule: MethodRule, d: SmellDefinition, calculator: Calculator, file: string, items: seq<Item>, x: SmellInstance)
    returns (i: nat)
    requires HasKeys(rule, d.thresholds) && x in Findings(rule, d, calculator, file, items)
    ensures i < |items| && x in FindingsAt(rule, d, calculator, file, items[i])
  {
    var f := (it: Item) requires HasKeys(rule, d.thresholds) => FindingsAt(rule, d, calculator, file, it);
    CollectSound(f, items, x);
    i :| 0 <= i < |items| && x in f(items[i]);
  }
}
