/**
 * The records the detector passes around: severities, locations, smell
 * definitions and instances, the health breakdown and the analysis report.
 */
module DataModels {
  import opened Wrappers

  /** Severity levels, from least to most severe. */
  datatype Severity = LOW | MEDIUM | HIGH | CRITICAL {

    /** The enum's string value, as reports show it. */
    function Label(): string {
      match this
      case LOW => "LOW"
      case MEDIUM => "MEDIUM"
      case HIGH => "HIGH"
      case CRITICAL => "CRITICAL"
    }

    /** The position in the order LOW < MEDIUM < HIGH < CRITICAL. */
    function Rank(): nat {
      match this
      case LOW => 0
      case MEDIUM => 1
      case HIGH => 2
      case CRITICAL => 3
    }
  }

  /** All severities in declaration order, the order in which `for severity in Severity` lists them. */
  const AllSeverities: seq<Severity> := [LOW, MEDIUM, HIGH, CRITICAL]

  /** Where a smell was found. */
  datatype CodeLocation = CodeLocation(
    file: string,
    lineStart: int,
    lineEnd: int,
    className: Option<string>,
    functionName: Option<string>)

  /** Threshold values of one category, by name. */
  type Section = map<string, real>

  /** What an analyzer detects and which thresholds it applies. */
  datatype SmellDefinition = SmellDefinition(
    name: string,
    category: string,
    thresholds: Section,
    solidViolations: seq<string>,
    recommendedPatterns: seq<string>)

  /**
   * The values an analyzer interpolates into a smell's description; turning
   * them into text is not part of this model.
   */
  datatype Description =
    | LongMethodText(functionName: string, linesOfCode: int, complexity: int)
    | ParameterListText(functionName: string, parameterCount: int, allowed: real)
    | ConditionalText(functionName: string, nestingDepth: int, booleanOperators: int, branches: int)
    | LargeClassText(className: string, linesOfCode: int, methodCount: int, fieldCount: int)
    | DuplicationText(occurrences: int, startLine: int, endLine: int, minimumLines: real)

  /** The list of refactoring steps an analyzer attaches to its smells; `StepTexts` gives its wording. */
  datatype RefactoringPlan = LongMethodPlan | ParameterListPlan | ConditionalPlan | LargeClassPlan | DuplicationPlan

  function StepTexts(plan: RefactoringPlan): seq<string> {
    match plan
    case LongMethodPlan => [
      "Add characterization tests to lock current behaviour.",
      "Extract blocks with distinct responsibilities into new methods.",
      "Replace complex conditional branches with strategy objects if applicable."]
    case ParameterListPlan => [
      "Identify groups of parameters that always appear together.",
      "Introduce parameter objects or aggregate types.",
      "Update callers to use new abstractions."]
    case ConditionalPlan => [
      "Replace complex conditionals with polymorphism or strategy objects.",
      "Extract guard clauses or helper predicates.",
      "Document business rules in dedicated specification objects."]
    case LargeClassPlan => [
      "Group related responsibilities and extract classes accordingly.",
      "Introduce facades or mediators to simplify public APIs.",
      "Ensure public method count reflects cohesive responsibility."]
    case DuplicationPlan => [
      "Identify duplicated logic and extract shared functionality.",
      "Introduce template or strategy pattern if variations exist.",
      "Write regression tests before refactoring."]
  }

  /** One detected smell. */
  datatype SmellInstance = SmellInstance(
    smellType: string,
    category: string,
    severity: Severity,
    location: CodeLocation,
    metrics: map<string, int>,
    solidViolations: seq<string>,
    recommendedPatterns: seq<string>,
    description: Option<Description>,
    refactoringSteps: RefactoringPlan)

  /** The five sub-scores of the health score. */
  datatype HealthBreakdown = HealthBreakdown(
    complexity: int,
    coupling: int,
    cohesion: int,
    duplication: int,
    solidCompliance: int)

  /** `analysis_metadata`, without its timestamp. */
  datatype AnalysisMetadata = AnalysisMetadata(codebasePath: string, totalFilesAnalyzed: nat)

  /** The entries of the metrics summary other than `analysis_metadata`. */
  datatype SummaryFigures = SummaryFigures(
    averageCyclomaticComplexity: real,
    averageFunctionLoc: real,
    averageClassLoc: real,
    maxCyclomaticComplexity: int,
    functionCount: int,
    classCount: int)

  datatype MetricsSummary = MetricsSummary(analysisMetadata: AnalysisMetadata, figures: SummaryFigures)

  /** The values of the recommendation text `Address {type} at {file}:{line}`. */
  datatype RecommendationText = Address(smellType: string, file: string, line: int)

  /** One entry of the report's recommendations. */
  datatype Recommendation = Recommendation(
    priority: string,
    smellType: string,
    location: string,
    recommendation: RecommendationText,
    impact: string)

  /** The complete result of an analysis. */
  datatype AnalysisReport = AnalysisReport(
    smells: seq<SmellInstance>,
    metricsSummary: MetricsSummary,
    healthScore: int,
    healthBreakdown: HealthBreakdown,
    recommendations: seq<Recommendation>)
}
