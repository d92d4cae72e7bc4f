/**
 * The Large Class analyzer: walks the module and reports every class,
 * nested ones included, whose size, method, field or public-method count
 * exceeds its threshold.
 */
module ClassLevel {
  import opened Wrappers
  import opened Syntax
  import opened DataModels
  import opened Config
  import opened Metrics

  /** The threshold keys the analyzer looks up unconditionally. */
  predicate HasKeys(t: Section) {
    "lines_of_code" in t && "method_count" in t && "field_count" in t
  }

  /** `get_definition`. */
  function Definition(config: DetectorConfig): (d: SmellDefinition)
    requires WellFormed(config.thresholds)
    ensures d.name == "Large Class" && d.category == "Class-Level" && d.solidViolations == ["SRP"]
    ensures HasKeys(d.thresholds)
  {
    assert "large_class" in DefaultThresholds;
    SmellDefinition("Large Class", "Class-Level", config.thresholds["large_class"],
      ["SRP"], ["Extract Class", "Facade", "Mediator", "Repository"])
  }

  /** The public-method limit: the configured one, or 15 when the section has none. */
  function PublicMethodLimit(t: Section): real {
    if "public_method_count" in t then t["public_method_count"] else 15.0
  }

  /** `_is_large_class`: some class metric strictly exceeds its threshold. */
  function IsLargeClass(m: ClassMetrics, t: Section): bool
    requires HasKeys(t)
  {
    m.linesOfCode as real > t["lines_of_code"]
    || m.methodCount as real > t["method_count"]
    || m.fieldCount as real > t["field_count"]
    || m.publicMethodCount as real > PublicMethodLimit(t)
  }

  /** `m2` is at least `m1` in every class metric. */
  predicate Dominates(m2: ClassMetrics, m1: ClassMetrics) {
    && m1.linesOfCode <= m2.linesOfCode
    && m1.methodCount <= m2.methodCount
    && m1.fieldCount <= m2.fieldCount
    && m1.publicMethodCount <= m2.publicMethodCount
  }

  /**
   * The rule is strict: a class whose metrics all sit at their thresholds
   * (or below), with at most 15 public methods when no public limit is
   * configured, is not reported.
   */
  lemma AtThresholdNotLarge(m: ClassMetrics, t: Section)
    requires HasKeys(t) && "public_method_count" !in t
    requires m.linesOfCode as real <= t["lines_of_code"] && m.methodCount as real <= t["method_count"]
    requires m.fieldCount as real <= t["field_count"] && m.publicMethodCount <= 15
    ensures !IsLargeClass(m, t)
  {
  }

  /**
   * Under the default thresholds the public-method limit is always 15,
   * since the defaults configure none: a class is large exactly when it
   * has more than 300 lines, 20 methods, 15 fields or 15 public methods.
   */
  lemma DefaultLargeClass(m: ClassMetrics)
    ensures "public_method_count" !in DefaultThresholds["large_class"]
    ensures IsLargeClass(m, DefaultThresholds["large_class"]) <==>
      m.linesOfCode > 300 || m.methodCount > 20 || m.fieldCount > 15 || m.publicMethodCount > 15
  {
  }

  /** `_large_class_severity`: fixed bands on size and method count; fields, public methods and thresholds play no part. */
  function LargeClassSeverity(m: ClassMetrics): (s: Severity)
    ensures s == CRITICAL <==> m.linesOfCode > 1200 || m.methodCount > 60
    ensures s == HIGH <==> !(m.linesOfCode > 1200 || m.methodCount > 60) && (m.linesOfCode > 800 || m.methodCount > 40)
    ensures s == LOW <==> m.linesOfCode <= 500 && m.methodCount <= 30
  {
    if m.linesOfCode > 1200 || m.methodCount > 60 then CRITICAL
    else if m.linesOfCode > 800 || m.methodCount > 40 then HIGH
    else if m.linesOfCode > 500 || m.methodCount > 30 then MEDIUM
    else LOW
  }

  /** Larger classes are reported whenever smaller ones are, and never with a lower severity. */
  lemma LargeClassMonotone(m1: ClassMetrics, m2: ClassMetrics, t: Section)
    requires HasKeys(t) && Dominates(m2, m1)
    ensures IsLargeClass(m1, t) ==> IsLargeClass(m2, t)
    ensures LargeClassSeverity(m1).Rank() <= LargeClassSeverity(m2).Rank()
  {
  }

  /** The severity depends on the lines of code and the method count only. */
  lemma LargeClassSeverityIgnoresCounts(m: ClassMetrics, fields: int, publicMethods: int)
    ensures LargeClassSeverity(m.(fieldCount := fields, publicMethodCount := publicMethods)) == LargeClassSeverity(m)
  {
  }

  /** `_class_metrics_dict`: the four class metrics by name. */
  function ClassMetricsMap(m: ClassMetrics): (r: map<string, int>)
    ensures r.Keys == {"lines_of_code", "method_count", "field_count", "public_method_count"}
    ensures r["lines_of_code"] == m.linesOfCode && r["method_count"] == m.methodCount
    ensures r["field_count"] == m.fieldCount && r["public_method_count"] == m.publicMethodCount
  {
    map[
      "lines_of_code" := m.linesOfCode,
      "method_count" := m.methodCount,
      "field_count" := m.fieldCount,
      "public_method_count" := m.publicMethodCount]
  }

  /**
   * `_class_location`: the class's own name and no function; the last line
   * is the end line, or the first line when the end line is missing or 0.
   */
  function ClassLocation(file: string, n: Node): (loc: CodeLocation)
    requires n.ClassDef?
    ensures loc.file == file && loc.lineStart == n.lineno
    ensures loc.className == Some(n.name) && loc.functionName == None
    ensures loc.lineEnd == (if n.endLineno.Some? && n.endLineno.value != 0 then n.endLineno.value else n.lineno)
  {
    var last := if n.endLineno.Some? && n.endLineno.value != 0 then n.endLineno.value else n.lineno;
    CodeLocation(file, n.lineno, last, Some(n.name), None)
  }

  /** The smell instance for a reported class. */
  function Finding(d: SmellDefinition, file: string, n: Node): SmellInstance
    requires n.ClassDef?
  {
    var m := ClassMetricsOf(n);
    SmellInstance(
      d.name, d.category, LargeClassSeverity(m), ClassLocation(file, n), ClassMetricsMap(m),
      d.solidViolations, d.recommendedPatterns,
      Some(LargeClassText(n.name, m.linesOfCode, m.methodCount, m.fieldCount)), LargeClassPlan)
  }

  /** What the analyzer yields for one walked node: one finding for a large class, nothing otherwise. */
  function FindingsAt(d: SmellDefinition, file: string, it: Item): seq<SmellInstance>
    requires HasKeys(d.thresholds)
  {
    if it.node.ClassDef? && IsLargeClass(ClassMetricsOf(it.node), d.thresholds) then [Finding(d, file, it.node)] else []
  }

  /**
   * `analyze_module`: the findings for the classes of the walk, in walk
   * order. The metrics calculator plays no part beyond computing class
   * metrics, which need only the node.
   */
  function AnalyzeModule(tree: Node, file: string, config: DetectorConfig): seq<SmellInstance>
    requires WellFormed(config.thresholds)
  {
    var d := Definition(config);
    Collect((it: Item) requires HasKeys(d.thresholds) => FindingsAt(d, file, it), WalkModule(tree))
  }

  /** One for a class definition, zero for any other node. */
  function ClassWeight(n: Node): int {
    if n.ClassDef? then 1 else 0
  }

  /** There are at most as many findings as classes anywhere in the module, nested ones included. */
  lemma FindingsAtMostClasses(tree: Node, file: string, config: DetectorConfig)
    requires WellFormed(config.thresholds)
    ensures |AnalyzeModule(tree, file, config)| <= TreeSum(ClassWeight, tree)
  {
    var d := Definition(config);
    var f := (it: Item) requires HasKeys(d.thresholds) => FindingsAt(d, file, it);
    CollectBound(f, ClassWeight, WalkModule(tree));
    WalkModuleSum(ClassWeight, tree);
  }

  /**
   * Every finding is that of a large class met by the walk: it carries the
   * class's own name and location and the four class metrics.
   */
  lemma FindingsSound(tree: Node, file: string, config: DetectorConfig, x: SmellInstance)
    requires WellFormed(config.thresholds) && x in AnalyzeModule(tree, file, config)
    ensures exists i | 0 <= i < |WalkModule(tree)| ::
      && WalkModule(tree)[i].node.ClassDef?
      && IsLargeClass(ClassMetricsOf(WalkModule(tree)[i].node), Definition(config).thresholds)
      && x == Finding(Definition(config), file, WalkModule(tree)[i].node)
  {
    var d := Definition(config);
    var f := (it: Item) requires HasKeys(d.thresholds) => FindingsAt(d, file, it);
    CollectSound(f, WalkModule(tree), x);
    var i :| 0 <= i < |WalkModule(tree)| && x in f(WalkModule(tree)[i]);
    assert x in FindingsAt(d, file, WalkModule(tree)[i]);
  }

  /** Every large class met by the walk has its finding. */
  lemma FindingsComplete(tree: Node, file: string, config: DetectorConfig, i: nat)
    requires WellFormed(config.thresholds) && i < |WalkModule(tree)|
    requires WalkModule(tree)[i].node.ClassDef?
    requires IsLargeClass(ClassMetricsOf(WalkModule(tree)[i].node), Definition(config).thresholds)
    ensures Finding(Definition(config), file, WalkModule(tree)[i].node) in AnalyzeModule(tree, file, config)
  {
    var d := Definition(config);
    var f := (it: Item) requires HasKeys(d.thresholds) => FindingsAt(d, file, it);
    assert Finding(d, file, WalkModule(tree)[i].node) in f(WalkModule(tree)[i]);
    CollectComplete(f, WalkModule(tree), i, Finding(d, file, WalkModule(tree)[i].node));
  }

  /**
   * A class of 110 lines with 30 direct methods, 29 of them public, and no
   * fields is reported under the default thresholds (30 methods exceed 20)
   * with severity LOW (neither 500 lines nor 30 methods are exceeded).
   */
  lemma SystemManagerSample()
    ensures var m := ClassMetrics("SystemManager", 110, 30, 0, 29);
      IsLargeClass(m, DefaultThresholds["large_class"]) && LargeClassSeverity(m) == LOW
  {
  }

  /** A class of 900 lines and 25 methods is rated HIGH. */
  lemma NineHundredLinesSample(name: string, fields: int, publicMethods: int)
    ensures LargeClassSeverity(ClassMetrics(name, 900, 25, fields, publicMethods)) == HIGH
  {
  }
}
