/**
 * The orchestrator: the whole-run metrics accumulator, the registration of
 * every definition of a module, the health score and its breakdown, the
 * recommendations, and the per-file loop running the five analyzers in
 * their fixed order.
 */
module Core {
  import opened Wrappers
  import opened Syntax
  import opened DataModels
  import opened Config
  import opened Metrics
  import MethodLevel
  import ClassLevel
  import Duplication
  import ControlFlow

  /** The sum of the functions' lines of code. */
  function TotalLoc(fs: seq<FunctionMetrics>): int {
    if fs == [] then 0 else TotalLoc(fs[..|fs| - 1]) + fs[|fs| - 1].linesOfCode
  }

  /** The sum of the functions' complexities. */
  function TotalComplexity(fs: seq<FunctionMetrics>): int {
    if fs == [] then 0 else TotalComplexity(fs[..|fs| - 1]) + fs[|fs| - 1].cyclomaticComplexity
  }

  /** The running maximum of the functions' complexities, starting from 0. */
  function MaxComplexity(fs: seq<FunctionMetrics>): int {
    if fs == [] then 0 else ControlFlow.Max(MaxComplexity(fs[..|fs| - 1]), fs[|fs| - 1].cyclomaticComplexity)
  }

  /** The sum of the classes' lines of code. */
  function TotalClassLoc(cs: seq<ClassMetrics>): int {
    if cs == [] then 0 else TotalClassLoc(cs[..|cs| - 1]) + cs[|cs| - 1].linesOfCode
  }

  /**
   * The maximum is at least every registered complexity, and it is either
   * the starting 0 or one of them.
   */
  lemma {:induction false} MaxComplexitySpec(fs: seq<FunctionMetrics>)
    ensures forall i | 0 <= i < |fs| :: fs[i].cyclomaticComplexity <= MaxComplexity(fs)
    ensures MaxComplexity(fs) == 0 || exists i | 0 <= i < |fs| :: fs[i].cyclomaticComplexity == MaxComplexity(fs)
    ensures MaxComplexity(fs) >= 0
  {
    if fs != [] {
      var init := fs[..|fs| - 1];
      MaxComplexitySpec(init);
      assert forall i | 0 <= i < |init| :: init[i] == fs[i];
    }
  }

  /** An average as the accumulator computes it: 0 for no items, else the exact quotient. */
  function Average(total: int, count: int): (r: real)
    ensures count == 0 ==> r == 0.0
    ensures count != 0 ==> r * count as real == total as real
  {
    if count == 0 then 0.0 else total as real / count as real
  }

  /** The figures of the metrics summary for the given registered functions and classes. */
  function FiguresOf(fs: seq<FunctionMetrics>, cs: seq<ClassMetrics>): SummaryFigures {
    SummaryFigures(
      Average(TotalComplexity(fs), |fs|),
      Average(TotalLoc(fs), |fs|),
      Average(TotalClassLoc(cs), |cs|),
      MaxComplexity(fs),
      |fs|,
      |cs|)
  }

  /**
   * `_MetricsAccumulator`: running counts, totals and the maximum
   * complexity over every function and class registered. The ghost
   * histories record what was registered.
   */
  class MetricsAccumulator {
    var functionCount: int
    var classCount: int
    var totalFunctionLoc: int
    var totalClassLoc: int
    var totalComplexity: int
    var maxComplexity: int
    ghost var functions: seq<FunctionMetrics>
    ghost var classes: seq<ClassMetrics>

    /** Every field is the corresponding figure of the registered history. */
    ghost predicate Valid()
      reads this
    {
      && functionCount == |functions|
      && totalFunctionLoc == TotalLoc(functions)
      && totalComplexity == TotalComplexity(functions)
      && maxComplexity == MaxComplexity(functions)
      && classCount == |classes|
      && totalClassLoc == TotalClassLoc(classes)
    }

    constructor()
      ensures Valid() && functions == [] && classes == []
    {
      functionCount := 0;
      classCount := 0;
      totalFunctionLoc := 0;
      totalClassLoc := 0;
      totalComplexity := 0;
      maxComplexity := 0;
      functions := [];
      classes := [];
    }

    /** `register_function`: count it, add its size and complexity, raise the maximum; class figures stay. */
    method RegisterFunction(m: FunctionMetrics)
      requires Valid()
      modifies this
      ensures Valid() && functions == old(functions) + [m] && classes == old(classes)
      ensures functionCount == old(functionCount) + 1
      ensures totalFunctionLoc == old(totalFunctionLoc) + m.linesOfCode
      ensures totalComplexity == old(totalComplexity) + m.cyclomaticComplexity
      ensures maxComplexity == ControlFlow.Max(old(maxComplexity), m.cyclomaticComplexity)
      ensures classCount == old(classCount) && totalClassLoc == old(totalClassLoc)
    {
      functionCount := functionCount + 1;
      totalFunctionLoc := totalFunctionLoc + m.linesOfCode;
      totalComplexity := totalComplexity + m.cyclomaticComplexity;
      maxComplexity := ControlFlow.Max(maxComplexity, m.cyclomaticComplexity);
      functions := functions + [m];
      assert functions[..|functions| - 1] == old(functions);
    }

    /** `register_class`: count it and add its size; function figures stay. */
    method RegisterClass(m: ClassMetrics)
      requires Valid()
      modifies this
      ensures Valid() && classes == old(classes) + [m] && functions == old(functions)
      ensures classCount == old(classCount) + 1
      ensures totalClassLoc == old(totalClassLoc) + m.linesOfCode
      ensures functionCount == old(functionCount) && totalFunctionLoc == old(totalFunctionLoc)
      ensures totalComplexity == old(totalComplexity) && maxComplexity == old(maxComplexity)
    {
      classCount := classCount + 1;
      totalClassLoc := totalClassLoc + m.linesOfCode;
      classes := classes + [m];
      assert classes[..|classes| - 1] == old(classes);
    }

    /** `average_complexity`. */
    function AverageComplexity(): real
      reads this
    {
      Average(totalComplexity, functionCount)
    }

    /** The figures of the metrics summary, from the running values. */
    function Figures(): (r: SummaryFigures)
      reads this
      requires Valid()
      ensures r == FiguresOf(functions, classes)
    {
      SummaryFigures(
        AverageComplexity(),
        Average(totalFunctionLoc, functionCount),
        Average(totalClassLoc, classCount),
        maxComplexity,
        functionCount,
        classCount)
    }
  }

  /** What registration records for one walked node: the metrics of a function. */
  function FunctionsAt(calculator: Calculator, it: Item): seq<FunctionMetrics> {
    if it.node.FunctionDef? then [FunctionMetricsOf(calculator, it)] else []
  }

  /** What registration records for one walked node: the metrics of a class. */
  function ClassesAt(it: Item): seq<ClassMetrics> {
    if it.node.ClassDef? then [ClassMetricsOf(it.node)] else []
  }

  /** The function metrics registered for the walked items, in walk order. */
  function ModuleFunctions(calculator: Calculator, items: seq<Item>): seq<FunctionMetrics> {
    Collect((it: Item) => FunctionsAt(calculator, it), items)
  }

  /** The class metrics registered for the walked items, in walk order. */
  function ModuleClasses(items: seq<Item>): seq<ClassMetrics> {
    Collect(ClassesAt, items)
  }

  /** `_register_metrics`: walk the module and register every function and class met. */
  method RegisterMetrics(tree: Node, calculator: Calculator, accumulator: MetricsAccumulator)
    requires accumulator.Valid()
    modifies accumulator
    ensures accumulator.Valid()
    ensures accumulator.functions == old(accumulator.functions) + ModuleFunctions(calculator, WalkModule(tree))
    ensures accumulator.classes == old(accumulator.classes) + ModuleClasses(WalkModule(tree))
  {
    var items := WalkModule(tree);
    for i := 0 to |items|
      invariant accumulator.Valid()
      invariant accumulator.functions == old(accumulator.functions) + ModuleFunctions(calculator, items[..i])
      invariant accumulator.classes == old(accumulator.classes) + ModuleClasses(items[..i])
    {
      ModuleStep(calculator, items, i);
      AppendAssoc(old(accumulator.functions), ModuleFunctions(calculator, items[..i]), FunctionsAt(calculator, items[i]));
      AppendAssoc(old(accumulator.classes), ModuleClasses(items[..i]), ClassesAt(items[i]));
      RegisterItem(calculator, items[i], accumulator);
    }
    assert items[..|items|] == items;
  }

  /** Registering one more walked node appends what that node records. */
  lemma ModuleStep(calculator: Calculator, items: seq<Item>, i: nat)
    requires i < |items|
    ensures ModuleFunctions(calculator, items[..i + 1]) == ModuleFunctions(calculator, items[..i]) + FunctionsAt(calculator, items[i])
    ensures ModuleClasses(items[..i + 1]) == ModuleClasses(items[..i]) + ClassesAt(items[i])
  {
    CollectStep((it: Item) => FunctionsAt(calculator, it), items, i);
    CollectStep(ClassesAt, items, i);
  }

  /** The body of the registration loop for one walked node. */
  method RegisterItem(calculator: Calculator, it: Item, accumulator: MetricsAccumulator)
    requires accumulator.Valid()
    modifies accumulator
    ensures accumulator.Valid()
    ensures accumulator.functions == old(accumulator.functions) + FunctionsAt(calculator, it)
    ensures accumulator.classes == old(accumulator.classes) + ClassesAt(it)
  {
    if it.node.FunctionDef? {
      var metrics := CalculateFunctionMetrics(calculator, it);
      accumulator.RegisterFunction(metrics);
    } else if it.node.ClassDef? {
      accumulator.RegisterClass(ClassMetricsOf(it.node));
    }
  }

  /**
   * Registration meets every function definition and every class
   * definition of the module exactly once, nested ones included.
   */
  lemma RegisteredOnce(calculator: Calculator, tree: Node)
    ensures |ModuleFunctions(calculator, WalkModule(tree))| == TreeSum(MethodLevel.DefWeight, tree)
    ensures |ModuleClasses(WalkModule(tree))| == TreeSum(ClassLevel.ClassWeight, tree)
  {
    CollectExact((it: Item) => FunctionsAt(calculator, it), MethodLevel.DefWeight, WalkModule(tree));
    CollectExact(ClassesAt, ClassLevel.ClassWeight, WalkModule(tree));
    WalkModuleSum(MethodLevel.DefWeight, tree);
    WalkModuleSum(ClassLevel.ClassWeight, tree);
  }

  /** The sum of `f` over the findings. */
  function SumOf(f: SmellInstance -> int, smells: seq<SmellInstance>): int {
    if smells == [] then 0 else f(smells[0]) + SumOf(f, smells[1..])
  }

  lemma {:induction false} SumOfAppend(f: SmellInstance -> int, a: seq<SmellInstance>, b: seq<SmellInstance>)
    ensures SumOf(f, a + b) == SumOf(f, a) + SumOf(f, b)
  {
    if a != [] {
      assert (a + b)[1..] == a[1..] + b;
      SumOfAppend(f, a[1..], b);
    } else {
      assert a + b == b;
    }
  }

  /** A sum of non-negative terms is non-negative. */
  lemma {:induction false} SumOfNonNegative(f: SmellInstance -> int, smells: seq<SmellInstance>)
    requires forall x | x in smells :: f(x) >= 0
    ensures SumOf(f, smells) >= 0
  {
    if smells != [] {
      SumOfNonNegative(f, smells[1..]);
    }
  }

  /** The health penalty of one finding: 35, 20, 10 or 5 by severity. */
  function SeverityWeight(x: SmellInstance): int {
    match x.severity
    case CRITICAL => 35
    case HIGH => 20
    case MEDIUM => 10
    case LOW => 5
  }

  /** The clamped score left after a penalty. */
  function Clamped(penalty: int): int {
    ControlFlow.Max(0, 100 - penalty)
  }

  /** The overall health score: 100 less the weighted findings, never below 0. */
  function HealthScore(smells: seq<SmellInstance>): (r: int)
    ensures 0 <= r <= 100
    ensures smells == [] ==> r == 100
  {
    SumOfNonNegative(SeverityWeight, smells);
    Clamped(SumOf(SeverityWeight, smells))
  }

  /** More findings never raise the health score. */
  lemma HealthScoreAppend(smells: seq<SmellInstance>, more: seq<SmellInstance>)
    ensures HealthScore(smells + more) <= HealthScore(smells)
  {
    SumOfAppend(SeverityWeight, smells, more);
    SumOfNonNegative(SeverityWeight, more);
  }

  /**
   * The complexity sub-score: 100 less five times the average complexity,
   * truncated toward zero as `int` does, never below 0.
   */
  function ComplexityScore(totalComplexity: int, functionCount: int): (r: int)
    ensures r >= 0
    ensures functionCount == 0 ==> r == 100
    ensures totalComplexity >= 0 && functionCount >= 0 ==> r <= 100
  {
    var scaled := Average(totalComplexity, functionCount) * 5.0;
    var truncated := if scaled >= 0.0 then scaled.Floor else -((-scaled).Floor);
    ControlFlow.Max(0, 100 - truncated)
  }

  /**
   * With non-negative complexities the truncated average is exactly the
   * integer quotient of five times the total by the count.
   */
  lemma ComplexityScoreByDivision(totalComplexity: nat, functionCount: nat)
    requires functionCount > 0
    ensures ComplexityScore(totalComplexity, functionCount) == ControlFlow.Max(0, 100 - (5 * totalComplexity) / functionCount)
  {
    var q := (5 * totalComplexity) / functionCount;
    var scaled := Average(totalComplexity, functionCount) * 5.0;
    assert scaled * functionCount as real == (5 * totalComplexity) as real;
    assert q * functionCount <= 5 * totalComplexity < (q + 1) * functionCount;
    assert q as real <= scaled < (q + 1) as real by {
      assert (q * functionCount) as real <= scaled * functionCount as real;
      assert scaled * functionCount as real < ((q + 1) * functionCount) as real;
    }
  }

  /** The duplicated lines a finding contributes: its `duplicate_line_count` if it is duplicated code. */
  function DuplicateLines(x: SmellInstance): int {
    if x.smellType == "Duplicated Code" then
      if "duplicate_line_count" in x.metrics then x.metrics["duplicate_line_count"] else 0
    else 0
  }

  /** Five points for each finding that names a violated principle. */
  function SolidWeight(x: SmellInstance): int {
    if x.solidViolations != [] then 5 else 0
  }

  /** `_calculate_health`: the breakdown and the overall score. */
  function CalculateHealth(smells: seq<SmellInstance>, totalComplexity: int, functionCount: int): (r: (HealthBreakdown, int))
    ensures r.1 == HealthScore(smells)
    ensures r.0.coupling == 80 && r.0.cohesion == 75
    ensures 0 <= r.0.complexity && 0 <= r.0.duplication && 0 <= r.0.solidCompliance <= 100
    ensures r.0.complexity == ComplexityScore(totalComplexity, functionCount)
    ensures r.0.duplication == Clamped(SumOf(DuplicateLines, smells))
    ensures r.0.solidCompliance == Clamped(SumOf(SolidWeight, smells))
  {
    SumOfNonNegative(SolidWeight, smells);
    var breakdown := HealthBreakdown(
      ComplexityScore(totalComplexity, functionCount),
      80,
      75,
      Clamped(SumOf(DuplicateLines, smells)),
      Clamped(SumOf(SolidWeight, smells)));
    (breakdown, HealthScore(smells))
  }

  /**
   * The duplication sub-score is 100 exactly when no duplicated lines are
   * counted, and the SOLID sub-score is 100 exactly when no finding names
   * a violated principle.
   */
  lemma SubScoresPerfect(smells: seq<SmellInstance>, totalComplexity: int, functionCount: int)
    requires forall x | x in smells :: DuplicateLines(x) >= 0
    ensures var b := CalculateHealth(smells, totalComplexity, functionCount).0;
      && (b.duplication == 100 <==> forall x | x in smells :: DuplicateLines(x) == 0)
      && (b.solidCompliance == 100 <==> forall x | x in smells :: x.solidViolations == [])
  {
    ZeroSum(DuplicateLines, smells);
    ZeroSum(SolidWeight, smells);
  }

  /** A sum of non-negative terms is 0 exactly when every term is. */
  lemma {:induction false} ZeroSum(f: SmellInstance -> int, smells: seq<SmellInstance>)
    requires forall x | x in smells :: f(x) >= 0
    ensures SumOf(f, smells) >= 0
    ensures SumOf(f, smells) == 0 <==> forall x | x in smells :: f(x) == 0
  {
    if smells != [] {
      ZeroSum(f, smells[1..]);
      assert forall x | x in smells :: x == smells[0] || x in smells[1..];
    }
  }

  /** A finding deserving a recommendation: HIGH or CRITICAL. */
  predicate Urgent(x: SmellInstance) {
    x.severity == CRITICAL || x.severity == HIGH
  }

  /** The urgent findings, in encounter order. */
  function UrgentSmells(smells: seq<SmellInstance>): (r: seq<SmellInstance>)
    ensures |r| <= |smells|
    ensures forall x :: x in r <==> x in smells && Urgent(x)
  {
    if smells == [] then [] else (if Urgent(smells[0]) then [smells[0]] else []) + UrgentSmells(smells[1..])
  }

  lemma {:induction false} UrgentAppend(a: seq<SmellInstance>, b: seq<SmellInstance>)
    ensures UrgentSmells(a + b) == UrgentSmells(a) + UrgentSmells(b)
  {
    if a != [] {
      assert (a + b)[1..] == a[1..] + b;
      UrgentAppend(a[1..], b);
    } else {
      assert a + b == b;
    }
  }

  /** The recommendation for one finding. */
  function RecommendationFor(x: SmellInstance): Recommendation {
    Recommendation(
      x.severity.Label(), x.smellType, x.location.file,
      Address(x.smellType, x.location.file, x.location.lineStart),
      if x.severity == CRITICAL then "HIGH" else "MEDIUM")
  }

  /** The recommendations for the first five urgent findings at most. */
  function Recommendations(smells: seq<SmellInstance>): seq<Recommendation> {
    var urgent := UrgentSmells(smells);
    var top := if |urgent| <= 5 then urgent else urgent[..5];
    seq(|top|, k requires 0 <= k < |top| => RecommendationFor(top[k]))
  }

  /** `_build_recommendations`: filter the urgent findings, then append one entry per finding of the first five. */
  method BuildRecommendations(smells: seq<SmellInstance>) returns (recommendations: seq<Recommendation>)
    ensures recommendations == Recommendations(smells)
  {
    var urgent := UrgentSmells(smells);
    var top := if |urgent| <= 5 then urgent else urgent[..5];
    recommendations := [];
    for i := 0 to |top|
      invariant |recommendations| == i
      invariant forall k | 0 <= k < i :: recommendations[k] == RecommendationFor(top[k])
    {
      recommendations := recommendations + [RecommendationFor(top[i])];
    }
  }

  /**
   * There are at most five recommendations, as many as there are urgent
   * findings below that; each is for the urgent finding of the same rank,
   * has that finding's severity as priority, and has impact HIGH exactly
   * for a critical finding.
   */
  lemma RecommendationsSpec(smells: seq<SmellInstance>)
    ensures var r := Recommendations(smells);
      var urgent := UrgentSmells(smells);
      && |r| == (if |urgent| <= 5 then |urgent| else 5)
      && forall k | 0 <= k < |r| ::
        && urgent[k] in smells && Urgent(urgent[k])
        && r[k].priority == urgent[k].severity.Label()
        && r[k].smellType == urgent[k].smellType
        && r[k].location == urgent[k].location.file
        && (r[k].priority == "CRITICAL" || r[k].priority == "HIGH")
        && (r[k].impact == "HIGH" <==> urgent[k].severity == CRITICAL)
  {
    var r := Recommendations(smells);
    var urgent := UrgentSmells(smells);
    forall k | 0 <= k < |r|
      ensures urgent[k] in smells && Urgent(urgent[k])
      ensures r[k] == RecommendationFor(urgent[k])
    {
      assert urgent[k] in urgent;
    }
  }

  /** Later findings never displace earlier recommendations: they can only fill up to five. */
  lemma RecommendationsPrefix(smells: seq<SmellInstance>, more: seq<SmellInstance>)
    ensures var r := Recommendations(smells);
      r <= Recommendations(smells + more) && (|r| < 5 ==> Recommendations(smells + more)[..|r|] == r)
  {
    UrgentAppend(smells, more);
  }

  /** One analysed source file: its path, its tree, its lines and the complexity table for it. */
  datatype SourceFile = SourceFile(path: string, tree: Node, sourceLines: seq<string>, complexities: map<(string, int), nat>)

  function CalculatorOf(file: SourceFile): Calculator {
    Calculator(file.sourceLines, file.complexities)
  }

  /** The five analyzers. */
  datatype Analyzer = MethodAnalyzer(rule: MethodLevel.MethodRule) | LargeClassAnalyzer | DuplicatedCodeAnalyzer

  /** The analyzers in the order the detector runs them. */
  const Analyzers: seq<Analyzer> := [
    MethodAnalyzer(MethodLevel.LongMethod),
    MethodAnalyzer(MethodLevel.LongParameterList),
    MethodAnalyzer(MethodLevel.ComplexConditional),
    LargeClassAnalyzer,
    DuplicatedCodeAnalyzer]

  /** A configuration every analyzer can run with: all threshold keys, and a whole window size. */
  predicate Usable(config: DetectorConfig) {
    && WellFormed(config.thresholds)
    && "duplicated_code" in config.thresholds
    && Duplication.CountableMinimum(config.thresholds["duplicated_code"])
  }

  /** What one analyzer yields for one file. */
  function AnalyzerFindings(a: Analyzer, config: DetectorConfig, file: SourceFile): seq<SmellInstance>
    requires Usable(config)
  {
    match a
    case MethodAnalyzer(rule) =>
      MethodLevel.Findings(rule, MethodLevel.Definition(rule, config), CalculatorOf(file), file.path, WalkModule(file.tree))
    case LargeClassAnalyzer => ClassLevel.AnalyzeModule(file.tree, file.path, config)
    case DuplicatedCodeAnalyzer => Duplication.AnalyzeModule(file.tree, file.path, CalculatorOf(file), config)
  }

  /** `analyze`: the analyzer's findings as a list. */
  method Analyze(a: Analyzer, config: DetectorConfig, file: SourceFile) returns (found: seq<SmellInstance>)
    requires Usable(config)
    ensures found == AnalyzerFindings(a, config, file)
  {
    match a
    case MethodAnalyzer(rule) =>
      found := MethodLevel.AnalyzeModule(rule, file.tree, file.path, CalculatorOf(file), config);
    case LargeClassAnalyzer =>
      found := ClassLevel.AnalyzeModule(file.tree, file.path, config);
    case DuplicatedCodeAnalyzer =>
      found := Duplication.AnalyzeModule(file.tree, file.path, CalculatorOf(file), config);
  }

  /** The findings for one file: the analyzers' findings, one analyzer after the other. */
  function FileFindings(config: DetectorConfig, file: SourceFile): seq<SmellInstance>
    requires Usable(config)
  {
    Collect((a: Analyzer) requires Usable(config) => AnalyzerFindings(a, config, file), Analyzers)
  }

  /** The findings for the files, file by file. */
  function CodebaseFindings(config: DetectorConfig, files: seq<SourceFile>): seq<SmellInstance>
    requires Usable(config)
  {
    Collect((file: SourceFile) requires Usable(config) => FileFindings(config, file), files)
  }

  /** Every function registered over the files, file by file. */
  function AllFunctions(files: seq<SourceFile>): seq<FunctionMetrics> {
    Collect((file: SourceFile) => ModuleFunctions(CalculatorOf(file), WalkModule(file.tree)), files)
  }

  /** Every class registered over the files, file by file. */
  function AllClasses(files: seq<SourceFile>): seq<ClassMetrics> {
    Collect((file: SourceFile) => ModuleClasses(WalkModule(file.tree)), files)
  }

  /** The report for the files. */
  function Report(config: DetectorConfig, root: string, files: seq<SourceFile>): AnalysisReport
    requires Usable(config)
  {
    var smells := CodebaseFindings(config, files);
    var fs := AllFunctions(files);
    var health := CalculateHealth(smells, TotalComplexity(fs), |fs|);
    AnalysisReport(
      smells,
      MetricsSummary(AnalysisMetadata(root, |files|), FiguresOf(fs, AllClasses(files))),
      health.1,
      health.0,
      Recommendations(smells))
  }

  /** `CodeSmellDetector`: a configuration and the fixed list of analyzers. */
  class CodeSmellDetector {
    var config: DetectorConfig

    /** `config or DetectorConfig()`. */
    constructor(config: Option<DetectorConfig>)
      ensures this.config == config.GetOr(DefaultConfig())
    {
      this.config := config.GetOr(DefaultConfig());
    }

    /**
     * `analyze_codebase` over the files found under `root`: register each
     * file's metrics and run the analyzers on it, then summarise.
     */
    method AnalyzeCodebase(root: string, files: seq<SourceFile>) returns (report: AnalysisReport)
      requires Usable(config)
      ensures report == Report(config, root, files)
    {
      var config := this.config;
      var accumulator := new MetricsAccumulator();
      var smells: seq<SmellInstance> := [];
      for i := 0 to |files|
        invariant accumulator.Valid()
        invariant accumulator.functions == AllFunctions(files[..i])
        invariant accumulator.classes == AllClasses(files[..i])
        invariant smells == CodebaseFindings(config, files[..i])
      {
        CodebaseStep(config, files, i);
        var found := AnalyzeFile(config, files[i], accumulator);
        smells := smells + found;
      }
      assert files[..|files|] == files;
      var summary := MetricsSummary(AnalysisMetadata(root, |files|), accumulator.Figures());
      var health := CalculateHealth(smells, accumulator.totalComplexity, accumulator.functionCount);
      var recommendations := BuildRecommendations(smells);
      report := AnalysisReport(smells, summary, health.1, health.0, recommendations);
    }
  }

  /** Registering one more file appends its functions and classes. */
  lemma FilesStep(files: seq<SourceFile>, i: nat)
    requires i < |files|
    ensures AllFunctions(files[..i + 1]) == AllFunctions(files[..i]) + ModuleFunctions(CalculatorOf(files[i]), WalkModule(files[i].tree))
    ensures AllClasses(files[..i + 1]) == AllClasses(files[..i]) + ModuleClasses(WalkModule(files[i].tree))
  {
    CollectStep((file: SourceFile) => ModuleFunctions(CalculatorOf(file), WalkModule(file.tree)), files, i);
    CollectStep((file: SourceFile) => ModuleClasses(WalkModule(file.tree)), files, i);
  }

  /** The functions and classes of the files are those of all but the last, then those of the last. */
  lemma FilesLast(files: seq<SourceFile>)
    requires files != []
    ensures var last := files[|files| - 1];
      && AllFunctions(files) == AllFunctions(files[..|files| - 1]) + ModuleFunctions(CalculatorOf(last), WalkModule(last.tree))
      && AllClasses(files) == AllClasses(files[..|files| - 1]) + ModuleClasses(WalkModule(last.tree))
  {
    FilesStep(files, |files| - 1);
    assert files[..|files|] == files;
  }

  /** Analyzing one more file appends its functions, classes and findings. */
  lemma CodebaseStep(config: DetectorConfig, files: seq<SourceFile>, i: nat)
    requires Usable(config) && i < |files|
    ensures AllFunctions(files[..i + 1]) == AllFunctions(files[..i]) + ModuleFunctions(CalculatorOf(files[i]), WalkModule(files[i].tree))
    ensures AllClasses(files[..i + 1]) == AllClasses(files[..i]) + ModuleClasses(WalkModule(files[i].tree))
    ensures CodebaseFindings(config, files[..i + 1]) == CodebaseFindings(config, files[..i]) + FileFindings(config, files[i])
  {
    FilesStep(files, i);
    CollectStep((file: SourceFile) requires Usable(config) => FileFindings(config, file), files, i);
  }

  /** Running one more analyzer appends its findings. */
  lemma AnalyzersStep(config: DetectorConfig, file: SourceFile, k: nat)
    requires Usable(config) && k < |Analyzers|
    ensures var f := (a: Analyzer) requires Usable(config) => AnalyzerFindings(a, config, file);
      Collect(f, Analyzers[..k + 1]) == Collect(f, Analyzers[..k]) + AnalyzerFindings(Analyzers[k], config, file)
  {
    CollectStep((a: Analyzer) requires Usable(config) => AnalyzerFindings(a, config, file), Analyzers, k);
  }

  /** The body of the per-file loop: register the file's metrics, then run the analyzers. */
  method AnalyzeFile(config: DetectorConfig, file: SourceFile, accumulator: MetricsAccumulator) returns (found: seq<SmellInstance>)
    requires Usable(config) && accumulator.Valid()
    modifies accumulator
    ensures accumulator.Valid()
    ensures accumulator.functions == old(accumulator.functions) + ModuleFunctions(CalculatorOf(file), WalkModule(file.tree))
    ensures accumulator.classes == old(accumulator.classes) + ModuleClasses(WalkModule(file.tree))
    ensures found == FileFindings(config, file)
  {
    RegisterMetrics(file.tree, CalculatorOf(file), accumulator);
    found := RunAnalyzers(config, file);
  }

  /** `for analyzer in self.analyzers: smells.extend(analyzer.analyze(...))` for one file. */
  method RunAnalyzers(config: DetectorConfig, file: SourceFile) returns (found: seq<SmellInstance>)
    requires Usable(config)
    ensures found == FileFindings(config, file)
  {
    found := [];
    for k := 0 to |Analyzers|
      invariant found == Collect((a: Analyzer) requires Usable(config) => AnalyzerFindings(a, config, file), Analyzers[..k])
    {
      AnalyzersStep(config, file, k);
      var more := Analyze(Analyzers[k], config, file);
      found := found + more;
    }
    assert Analyzers[..|Analyzers|] == Analyzers;
  }

  /** The default configuration is one every analyzer can run with. */
  lemma DefaultConfigUsable()
    ensures Usable(DefaultConfig())
  {
    assert DefaultThresholds["duplicated_code"]["min_duplicate_lines"] == 6.0;
  }

  /** The findings of a run over several files are those of each file, concatenated in file order. */
  lemma CodebaseFindingsAppend(config: DetectorConfig, a: seq<SourceFile>, b: seq<SourceFile>)
    requires Usable(config)
    ensures CodebaseFindings(config, a + b) == CodebaseFindings(config, a) + CodebaseFindings(config, b)
  {
    CollectAppend((file: SourceFile) requires Usable(config) => FileFindings(config, file), a, b);
  }

  /**
   * For one file the findings come analyzer by analyzer: Long Method,
   * Long Parameter List, Complex Conditional, Large Class, Duplicated Code.
   */
  lemma FileFindingsOrder(config: DetectorConfig, file: SourceFile)
    requires Usable(config)
    ensures FileFindings(config, file) ==
      AnalyzerFindings(MethodAnalyzer(MethodLevel.LongMethod), config, file)
      + AnalyzerFindings(MethodAnalyzer(MethodLevel.LongParameterList), config, file)
      + AnalyzerFindings(MethodAnalyzer(MethodLevel.ComplexConditional), config, file)
      + AnalyzerFindings(LargeClassAnalyzer, config, file)
      + AnalyzerFindings(DuplicatedCodeAnalyzer, config, file)
  {
    var f := (a: Analyzer) requires Usable(config) => AnalyzerFindings(a, config, file);
    CollectFive(f, Analyzers);
  }

  /** Collecting over five items is the concatenation of what each yields. */
  lemma CollectFive<A, T>(f: A --> seq<T>, s: seq<A>)
    requires |s| == 5 && forall x | x in s :: f.requires(x)
    ensures Collect(f, s) == f(s[0]) + f(s[1]) + f(s[2]) + f(s[3]) + f(s[4])
  {
    assert Collect(f, s[..1]) == f(s[0]) by {
      CollectStep(f, s, 0);
      assert s[..0] == [];
      assert [] + f(s[0]) == f(s[0]);
    }
    CollectStep(f, s, 1);
    CollectStep(f, s, 2);
    CollectStep(f, s, 3);
    CollectStep(f, s, 4);
    assert s[..5] == s;
  }

  /** The sum of `w` over the trees of the files. */
  function FilesSum(w: Node -> int, files: seq<SourceFile>): int {
    if files == [] then 0 else FilesSum(w, files[..|files| - 1]) + TreeSum(w, files[|files| - 1].tree)
  }

  /**
   * The report counts every function and every class of every file once,
   * and its health score and recommendations are those of its findings.
   */
  lemma {:induction false} ReportCounts(config: DetectorConfig, root: string, files: seq<SourceFile>)
    requires Usable(config)
    ensures var r := Report(config, root, files);
      && r.metricsSummary.figures.functionCount == FilesSum(MethodLevel.DefWeight, files)
      && r.metricsSummary.figures.classCount == FilesSum(ClassLevel.ClassWeight, files)
      && r.metricsSummary.analysisMetadata.totalFilesAnalyzed == |files|
      && 0 <= r.healthScore <= 100
      && |r.recommendations| <= 5
  {
    FunctionsCount(files);
    RecommendationsSpec(CodebaseFindings(config, files));
  }

  lemma {:induction false} FunctionsCount(files: seq<SourceFile>)
    ensures |AllFunctions(files)| == FilesSum(MethodLevel.DefWeight, files)
    ensures |AllClasses(files)| == FilesSum(ClassLevel.ClassWeight, files)
  {
    if files != [] {
      var init := files[..|files| - 1];
      var last := files[|files| - 1];
      FunctionsCount(init);
      RegisteredOnce(CalculatorOf(last), last.tree);
      FilesLast(files);
    }
  }
}
