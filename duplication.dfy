/**
 * The Duplicated Code analyzer: one finding per duplicated window that the
 * sliding-window detector reports, ignoring the syntax tree.
 */
module Duplication {
  import opened Wrappers
  import opened Syntax
  import opened DataModels
  import opened Config
  import opened Metrics
  import opened Duplicates

  /** `get_definition`. */
  function Definition(config: DetectorConfig): (d: SmellDefinition)
    requires WellFormed(config.thresholds)
    ensures d.name == "Duplicated Code" && d.category == "Duplication" && d.solidViolations == ["DRY"]
    ensures "min_duplicate_lines" in d.thresholds
  {
    assert "duplicated_code" in DefaultThresholds;
    SmellDefinition("Duplicated Code", "Duplication", config.thresholds["duplicated_code"],
      ["DRY"], ["Extract Method", "Template Method", "Strategy"])
  }

  /**
   * The window size is a whole, non-negative number of lines, as `range`
   * and slicing need.
   */
  predicate CountableMinimum(t: Section) {
    "min_duplicate_lines" in t && t["min_duplicate_lines"] >= 0.0
    && t["min_duplicate_lines"].Floor as real == t["min_duplicate_lines"]
  }

  function MinimumLines(t: Section): (m: nat)
    requires CountableMinimum(t)
    ensures m as real == t["min_duplicate_lines"]
  {
    t["min_duplicate_lines"].Floor
  }

  /** `_duplication_severity`: fixed bands on the number of occurrences and the block length. */
  function DuplicationSeverity(occurrences: int, lineCount: int): (s: Severity)
    ensures s == CRITICAL <==> occurrences > 5 || lineCount > 40
    ensures s == HIGH <==> !(occurrences > 5 || lineCount > 40) && (occurrences > 3 || lineCount > 20)
    ensures s == LOW <==> occurrences <= 2 && lineCount <= 10
  {
    if occurrences > 5 || lineCount > 40 then CRITICAL
    else if occurrences > 3 || lineCount > 20 then HIGH
    else if occurrences > 2 || lineCount > 10 then MEDIUM
    else LOW
  }

  /** More occurrences or longer blocks never lower the severity. */
  lemma DuplicationSeverityMonotone(o1: int, l1: int, o2: int, l2: int)
    requires o1 <= o2 && l1 <= l2
    ensures DuplicationSeverity(o1, l1).Rank() <= DuplicationSeverity(o2, l2).Rank()
  {
  }

  /** The smell instance for one reported window (start, end) seen `count` times. */
  function Finding(d: SmellDefinition, file: string, e: Entry): SmellInstance
    requires "min_duplicate_lines" in d.thresholds
  {
    var lineCount := e.endLine - e.startLine + 1;
    SmellInstance(
      d.name, d.category, DuplicationSeverity(e.count, lineCount),
      CodeLocation(file, e.startLine, e.endLine, None, None),
      map["duplicate_line_count" := lineCount, "occurrences" := e.count],
      d.solidViolations, d.recommendedPatterns,
      Some(DuplicationText(e.count, e.startLine, e.endLine, d.thresholds["min_duplicate_lines"])),
      DuplicationPlan)
  }

  /** The findings for the detector's entries with window size `m`, in its order. */
  function Findings(d: SmellDefinition, file: string, lines: seq<string>, m: nat): (smells: seq<SmellInstance>)
    requires "min_duplicate_lines" in d.thresholds
    ensures |smells| == |DuplicateBlocks(lines, m)|
  {
    var blocks := DuplicateBlocks(lines, m);
    seq(|blocks|, i requires 0 <= i < |blocks| => Finding(d, file, blocks[i]))
  }

  /**
   * `analyze_module`: the detector's entries, in its order, each turned
   * into a finding. The tree is not consulted.
   */
  function AnalyzeModule(tree: Node, file: string, calculator: Calculator, config: DetectorConfig): (smells: seq<SmellInstance>)
    requires WellFormed(config.thresholds) && CountableMinimum(config.thresholds["duplicated_code"])
    ensures |smells| == |DuplicateBlocks(calculator.sourceLines, MinimumLines(config.thresholds["duplicated_code"]))|
  {
    Findings(Definition(config), file, calculator.sourceLines, MinimumLines(config.thresholds["duplicated_code"]))
  }

  /**
   * Each finding is a duplicated block of exactly the configured length
   * inside the file, named "Duplicated Code" with the DRY violation, whose
   * occurrence count (at least 2) is the number of windows equal to its own.
   */
  lemma FindingShape(tree: Node, file: string, calculator: Calculator, config: DetectorConfig, i: nat)
    requires WellFormed(config.thresholds) && CountableMinimum(config.thresholds["duplicated_code"])
    requires i < |AnalyzeModule(tree, file, calculator, config)|
    ensures var x := AnalyzeModule(tree, file, calculator, config)[i];
      var m := MinimumLines(config.thresholds["duplicated_code"]);
      var norm := NormalizeAll(calculator.sourceLines);
      && x.smellType == "Duplicated Code" && x.solidViolations == ["DRY"]
      && 1 <= x.location.lineStart <= x.location.lineEnd <= |calculator.sourceLines|
      && x.location.className == None && x.location.functionName == None
      && x.metrics.Keys == {"duplicate_line_count", "occurrences"}
      && x.metrics["duplicate_line_count"] == m
      && x.metrics["occurrences"] >= 2
      && x.severity == DuplicationSeverity(x.metrics["occurrences"], m)
      && Duplicated(norm, m, x.location.lineStart - 1)
      && x.metrics["occurrences"] == CountAt(norm, m, x.location.lineStart - 1)
  {
    assert "duplicated_code" in DefaultThresholds;
    FindingShapeFor(Definition(config), file, calculator.sourceLines, MinimumLines(config.thresholds["duplicated_code"]), i);
  }

  /** `FindingShape` for a given definition and window size. */
  lemma FindingShapeFor(d: SmellDefinition, file: string, lines: seq<string>, m: nat, i: nat)
    requires "min_duplicate_lines" in d.thresholds && i < |Findings(d, file, lines, m)|
    ensures var x := Findings(d, file, lines, m)[i];
      var norm := NormalizeAll(lines);
      && x.smellType == d.name && x.solidViolations == d.solidViolations
      && 1 <= x.location.lineStart <= x.location.lineEnd <= |lines|
      && x.location.className == None && x.location.functionName == None
      && x.metrics.Keys == {"duplicate_line_count", "occurrences"}
      && x.metrics["duplicate_line_count"] == m
      && x.metrics["occurrences"] >= 2
      && x.severity == DuplicationSeverity(x.metrics["occurrences"], m)
      && Duplicated(norm, m, x.location.lineStart - 1)
      && x.metrics["occurrences"] == CountAt(norm, m, x.location.lineStart - 1)
  {
    var e := DuplicateBlocks(lines, m)[i];
    DuplicateBlocksInRange(lines, m, e);
    DuplicateBlocksSpec(lines, m, e);
    EntryFinding(d, file, e);
  }

  /** The location and metrics of the finding for one entry. */
  lemma EntryFinding(d: SmellDefinition, file: string, e: Entry)
    requires "min_duplicate_lines" in d.thresholds
    ensures var x := Finding(d, file, e);
      && x.smellType == d.name && x.solidViolations == d.solidViolations
      && x.location == CodeLocation(file, e.startLine, e.endLine, None, None)
      && x.metrics.Keys == {"duplicate_line_count", "occurrences"}
      && x.metrics["duplicate_line_count"] == e.endLine - e.startLine + 1
      && x.metrics["occurrences"] == e.count
      && x.severity == DuplicationSeverity(e.count, e.endLine - e.startLine + 1)
  {
  }

  /** Every duplicated window start of the file is reported, with its count. */
  lemma FindingsComplete(tree: Node, file: string, calculator: Calculator, config: DetectorConfig, p: nat)
    requires WellFormed(config.thresholds) && CountableMinimum(config.thresholds["duplicated_code"])
    requires var m := MinimumLines(config.thresholds["duplicated_code"]);
      p + m <= |calculator.sourceLines| && Duplicated(NormalizeAll(calculator.sourceLines), m, p)
    ensures var m := MinimumLines(config.thresholds["duplicated_code"]);
      exists x | x in AnalyzeModule(tree, file, calculator, config) ::
        x.location.lineStart == p + 1 && x.location.lineEnd == p + m
        && "occurrences" in x.metrics && x.metrics["occurrences"] == CountAt(NormalizeAll(calculator.sourceLines), m, p)
  {
    assert "duplicated_code" in DefaultThresholds;
    CompleteFor(Definition(config), file, calculator.sourceLines, MinimumLines(config.thresholds["duplicated_code"]), p);
  }

  /** `FindingsComplete` for a given definition and window size. */
  lemma CompleteFor(d: SmellDefinition, file: string, lines: seq<string>, m: nat, p: nat)
    requires "min_duplicate_lines" in d.thresholds && Duplicated(NormalizeAll(lines), m, p)
    ensures exists x | x in Findings(d, file, lines, m) ::
      x.location.lineStart == p + 1 && x.location.lineEnd == p + m
      && "occurrences" in x.metrics && x.metrics["occurrences"] == CountAt(NormalizeAll(lines), m, p)
  {
    var count := CountAt(NormalizeAll(lines), m, p);
    var i := EntryIndex(lines, m, p);
    EntryFinding(d, file, Entry(p + 1, p + m, count));
    ReportedAt(Findings(d, file, lines, m), i, p + 1, p + m, count);
  }

  /** The index at which the detector reports a duplicated window start. */
  lemma EntryIndex(lines: seq<string>, m: nat, p: nat) returns (i: nat)
    requires Duplicated(NormalizeAll(lines), m, p)
    ensures i < |DuplicateBlocks(lines, m)|
    ensures DuplicateBlocks(lines, m)[i] == Entry(p + 1, p + m, CountAt(NormalizeAll(lines), m, p))
  {
    var e := Entry(p + 1, p + m, CountAt(NormalizeAll(lines), m, p));
    DuplicateBlocksSpec(lines, m, e);
    i :| 0 <= i < |DuplicateBlocks(lines, m)| && DuplicateBlocks(lines, m)[i] == e;
  }

  /** A finding at a known index is a finding with its location and count. */
  lemma ReportedAt(smells: seq<SmellInstance>, i: nat, start: int, end: int, count: int)
    requires i < |smells| && smells[i].location.lineStart == start && smells[i].location.lineEnd == end
    requires "occurrences" in smells[i].metrics && smells[i].metrics["occurrences"] == count
    ensures exists x | x in smells ::
      x.location.lineStart == start && x.location.lineEnd == end
      && "occurrences" in x.metrics && x.metrics["occurrences"] == count
  {
    assert smells[i] in smells;
  }

  /** No two findings share a location. */
  lemma FindingsDistinct(tree: Node, file: string, calculator: Calculator, config: DetectorConfig)
    requires WellFormed(config.thresholds) && CountableMinimum(config.thresholds["duplicated_code"])
    ensures var smells := AnalyzeModule(tree, file, calculator, config);
      forall i, j | 0 <= i < j < |smells| :: smells[i].location != smells[j].location
  {
    DuplicateBlocksDistinct(calculator.sourceLines, MinimumLines(config.thresholds["duplicated_code"]));
  }

  /** The findings depend on the source lines and the threshold only, never on the tree. */
  lemma TreeIgnored(t1: Node, t2: Node, file: string, calculator: Calculator, config: DetectorConfig)
    requires WellFormed(config.thresholds) && CountableMinimum(config.thresholds["duplicated_code"])
    ensures AnalyzeModule(t1, file, calculator, config) == AnalyzeModule(t2, file, calculator, config)
  {
  }

  /** With the default minimum of 6 lines, a block seen exactly twice is rated LOW. */
  lemma DefaultTwiceIsLow(tree: Node, file: string, calculator: Calculator, x: SmellInstance)
    requires x in AnalyzeModule(tree, file, calculator, DefaultConfig()) && x.metrics["occurrences"] == 2
    ensures x.severity == LOW
  {
    var smells := AnalyzeModule(tree, file, calculator, DefaultConfig());
    var i :| 0 <= i < |smells| && smells[i] == x;
    FindingShape(tree, file, calculator, DefaultConfig(), i);
  }
}
