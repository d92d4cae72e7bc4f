/**
 * The JSON report's structure: the findings summary (total, counts by
 * severity in enum order, counts by category in order of first
 * appearance), each finding as a dictionary, and the report dictionary.
 * Serialisation and the "N/100" texts are not modelled.
 */
module JsonReporter {
  import opened Wrappers
  import opened DataModels
  import Core

  /** The number of findings with severity `s`. */
  function CountSeverity(smells: seq<SmellInstance>, s: Severity): nat {
    if smells == [] then 0 else (if smells[0].severity == s then 1 else 0) + CountSeverity(smells[1..], s)
  }

  /** The number of findings in category `c`. */
  function CountCategory(smells: seq<SmellInstance>, c: string): nat {
    if smells == [] then 0
    else CountCategory(smells[..|smells| - 1], c) + (if smells[|smells| - 1].category == c then 1 else 0)
  }

  predicate Distinct<T(==)>(s: seq<T>) {
    forall i, j | 0 <= i < j < |s| :: s[i] != s[j]
  }

  /** The categories of the findings, each once, in order of first appearance (a `Counter`'s key order). */
  function Categories(smells: seq<SmellInstance>): (r: seq<string>)
    ensures Distinct(r)
    ensures forall c :: c in r <==> exists x | x in smells :: x.category == c
  {
    if smells == [] then []
    else
      var init := smells[..|smells| - 1];
      var last := smells[|smells| - 1];
      var cs := Categories(init);
      assert forall x | x in smells :: x in init || x == last;
      assert forall x | x in init :: x in smells;
      if last.category in cs then cs else cs + [last.category]
  }

  /** `_summarize_smells`. */
  datatype SmellsSummary = SmellsSummary(totalSmells: nat, bySeverity: seq<(string, nat)>, byCategory: seq<(string, nat)>)

  function SummarizeSmells(smells: seq<SmellInstance>): (r: SmellsSummary)
    ensures r.totalSmells == |smells|
    ensures |r.bySeverity| == |AllSeverities|
    ensures forall i | 0 <= i < |AllSeverities| ::
      r.bySeverity[i] == (AllSeverities[i].Label(), CountSeverity(smells, AllSeverities[i]))
    ensures |r.byCategory| == |Categories(smells)|
    ensures forall i | 0 <= i < |r.byCategory| ::
      r.byCategory[i] == (Categories(smells)[i], CountCategory(smells, Categories(smells)[i]))
  {
    var categories := Categories(smells);
    SmellsSummary(
      |smells|,
      seq(|AllSeverities|, i requires 0 <= i < |AllSeverities| =>
        (AllSeverities[i].Label(), CountSeverity(smells, AllSeverities[i]))),
      seq(|categories|, i requires 0 <= i < |categories| => (categories[i], CountCategory(smells, categories[i]))))
  }

  /** The keys of a summary's entries, in order. */
  function KeysOf(entries: seq<(string, nat)>): (keys: seq<string>)
    ensures |keys| == |entries| && forall i | 0 <= i < |entries| :: keys[i] == entries[i].0
  {
    seq(|entries|, i requires 0 <= i < |entries| => entries[i].0)
  }

  /** The sum of the counts of a summary's entries. */
  function SumCounts(entries: seq<(string, nat)>): nat {
    if entries == [] then 0 else entries[0].1 + SumCounts(entries[1..])
  }

  /** Every finding has one of the four severities. */
  lemma {:induction false} SeverityCountsTotal(smells: seq<SmellInstance>)
    ensures CountSeverity(smells, LOW) + CountSeverity(smells, MEDIUM) + CountSeverity(smells, HIGH)
      + CountSeverity(smells, CRITICAL) == |smells|
  {
    if smells != [] {
      SeverityCountsTotal(smells[1..]);
    }
  }

  /**
   * `by_severity` has the four severity labels as keys, in enum order and
   * with count 0 for an absent severity, and its counts add up to the total.
   */
  lemma BySeveritySpec(smells: seq<SmellInstance>)
    ensures var r := SummarizeSmells(smells);
      && [r.bySeverity[0].0, r.bySeverity[1].0, r.bySeverity[2].0, r.bySeverity[3].0] == ["LOW", "MEDIUM", "HIGH", "CRITICAL"]
      && SumCounts(r.bySeverity) == r.totalSmells
  {
    var b := SummarizeSmells(smells).bySeverity;
    SeverityCountsTotal(smells);
    assert SumCounts(b[3..]) == b[3].1 by { assert b[3..][1..] == b[4..]; }
    assert SumCounts(b[2..]) == b[2].1 + SumCounts(b[3..]) by { assert b[2..][1..] == b[3..]; }
    assert SumCounts(b[1..]) == b[1].1 + SumCounts(b[2..]) by { assert b[1..][1..] == b[2..]; }
  }

  /** The total of the category counts of the findings, over some categories. */
  function CountOver(categories: seq<string>, smells: seq<SmellInstance>): nat {
    if categories == [] then 0 else CountCategory(smells, categories[0]) + CountOver(categories[1..], smells)
  }

  lemma {:induction false} CountOverAppendSmell(categories: seq<string>, smells: seq<SmellInstance>, x: SmellInstance)
    requires Distinct(categories)
    ensures CountOver(categories, smells + [x]) == CountOver(categories, smells) + (if x.category in categories then 1 else 0)
  {
    assert (smells + [x])[..|smells + [x]| - 1] == smells;
    if categories != [] {
      assert Distinct(categories[1..]) by {
        forall i, j | 0 <= i < j < |categories[1..]|
          ensures categories[1..][i] != categories[1..][j]
        {
          assert categories[1..][i] == categories[i + 1] && categories[1..][j] == categories[j + 1];
        }
      }
      CountOverAppendSmell(categories[1..], smells, x);
      assert x.category in categories <==> x.category == categories[0] || x.category in categories[1..];
      if x.category == categories[0] {
        assert x.category !in categories[1..] by {
          forall j | 0 <= j < |categories[1..]|
            ensures categories[1..][j] != x.category
          {
            assert categories[1..][j] == categories[j + 1];
          }
        }
      }
    }
  }

  lemma {:induction false} CountOverAppendCategory(categories: seq<string>, c: string, smells: seq<SmellInstance>)
    ensures CountOver(categories + [c], smells) == CountOver(categories, smells) + CountCategory(smells, c)
  {
    if categories == [] {
      assert [] + [c] == [c];
      assert [c][1..] == [];
    } else {
      assert (categories + [c])[1..] == categories[1..] + [c];
      CountOverAppendCategory(categories[1..], c, smells);
    }
  }

  lemma {:induction false} AbsentCategory(smells: seq<SmellInstance>, c: string)
    requires forall x | x in smells :: x.category != c
    ensures CountCategory(smells, c) == 0
  {
    if smells != [] {
      AbsentCategory(smells[..|smells| - 1], c);
      assert smells[|smells| - 1] in smells;
    }
  }

  lemma {:induction false} CategoryCountsTotal(smells: seq<SmellInstance>)
    ensures CountOver(Categories(smells), smells) == |smells|
  {
    if smells != [] {
      var init := smells[..|smells| - 1];
      var last := smells[|smells| - 1];
      var cs := Categories(init);
      CategoryCountsTotal(init);
      assert init + [last] == smells;
      CountOverAppendSmell(cs, init, last);
      if last.category !in cs {
        CountOverAppendCategory(cs, last.category, smells);
        AbsentCategory(init, last.category);
        assert CountCategory(smells, last.category) == 1;
      }
    }
  }

  lemma {:induction false} SumCountsOfCategories(entries: seq<(string, nat)>, categories: seq<string>, smells: seq<SmellInstance>)
    requires |entries| == |categories|
    requires forall i | 0 <= i < |entries| :: entries[i] == (categories[i], CountCategory(smells, categories[i]))
    ensures SumCounts(entries) == CountOver(categories, smells)
  {
    if entries != [] {
      SumCountsOfCategories(entries[1..], categories[1..], smells);
    }
  }

  lemma {:induction false} CategoryPresent(smells: seq<SmellInstance>, c: string)
    requires exists x | x in smells :: x.category == c
    ensures CountCategory(smells, c) >= 1
  {
    var init := smells[..|smells| - 1];
    if smells[|smells| - 1].category != c {
      var x :| x in smells && x.category == c;
      assert smells == init + [smells[|smells| - 1]];
      assert x in init;
      CategoryPresent(init, c);
    }
  }

  /**
   * `by_category` has each category present among the findings exactly
   * once and no other key, every count is at least 1, and the counts add
   * up to the total.
   */
  lemma ByCategorySpec(smells: seq<SmellInstance>)
    ensures var r := SummarizeSmells(smells);
      && Distinct(KeysOf(r.byCategory))
      && (forall c :: c in KeysOf(r.byCategory) <==> exists x | x in smells :: x.category == c)
      && (forall i | 0 <= i < |r.byCategory| :: r.byCategory[i].1 >= 1)
      && SumCounts(r.byCategory) == r.totalSmells
  {
    var r := SummarizeSmells(smells);
    var cs := Categories(smells);
    CategoryCountsTotal(smells);
    SumCountsOfCategories(r.byCategory, cs, smells);
    forall i | 0 <= i < |r.byCategory|
      ensures r.byCategory[i].1 >= 1
    {
      assert cs[i] in cs;
      CategoryPresent(smells, cs[i]);
    }
    assert KeysOf(r.byCategory) == cs;
  }

  /**
   * The overall health score follows from the severity counts of the
   * summary alone: 100 less 5, 10, 20 and 35 points per LOW, MEDIUM, HIGH
   * and CRITICAL finding, never below 0.
   */
  lemma {:induction false} HealthScoreFromSummary(smells: seq<SmellInstance>)
    ensures var counts := SummarizeSmells(smells).bySeverity;
      Core.HealthScore(smells) == Core.Clamped(5 * counts[0].1 + 10 * counts[1].1 + 20 * counts[2].1 + 35 * counts[3].1)
  {
    PenaltyBySeverity(smells);
  }

  lemma {:induction false} PenaltyBySeverity(smells: seq<SmellInstance>)
    ensures Core.SumOf(Core.SeverityWeight, smells) ==
      5 * CountSeverity(smells, LOW) + 10 * CountSeverity(smells, MEDIUM)
      + 20 * CountSeverity(smells, HIGH) + 35 * CountSeverity(smells, CRITICAL)
  {
    if smells != [] {
      PenaltyBySeverity(smells[1..]);
    }
  }

  /** The `location` entry of a finding's dictionary. */
  datatype LocationDict = LocationDict(file: string, lineStart: int, lineEnd: int, className: Option<string>, methodName: Option<string>)

  /**
   * A finding as a dictionary, the severity as its label; the description
   * and the refactoring steps stay the values their texts are made from.
   */
  datatype SmellDict = SmellDict(
    smellType: string,
    category: string,
    severity: string,
    location: LocationDict,
    metrics: map<string, int>,
    solidViolations: seq<string>,
    recommendedPatterns: seq<string>,
    description: Option<Description>,
    refactoringSteps: RefactoringPlan)

  /** `_smell_to_dict`. */
  function SmellToDict(x: SmellInstance): SmellDict {
    var loc := x.location;
    SmellDict(
      x.smellType, x.category, x.severity.Label(),
      LocationDict(loc.file, loc.lineStart, loc.lineEnd, loc.className, loc.functionName),
      x.metrics, x.solidViolations, x.recommendedPatterns, x.description, x.refactoringSteps)
  }

  /** The severity with a given label, if any. */
  function ParseSeverity(text: string): (r: Option<Severity>)
    ensures r.Some? ==> r.value.Label() == text
    ensures forall s: Severity :: s.Label() == text ==> r == Some(s)
  {
    if text == "LOW" then Some(LOW)
    else if text == "MEDIUM" then Some(MEDIUM)
    else if text == "HIGH" then Some(HIGH)
    else if text == "CRITICAL" then Some(CRITICAL)
    else None
  }

  /** Reading a finding back from its dictionary. */
  function SmellFromDict(d: SmellDict): Option<SmellInstance> {
    match ParseSeverity(d.severity)
    case None => None
    case Some(severity) =>
      var loc := d.location;
      Some(SmellInstance(
        d.smellType, d.category, severity,
        CodeLocation(loc.file, loc.lineStart, loc.lineEnd, loc.className, loc.methodName),
        d.metrics, d.solidViolations, d.recommendedPatterns, d.description, d.refactoringSteps))
  }

  /** The dictionary loses nothing: the finding can be read back from it. */
  lemma SmellRoundTrip(x: SmellInstance)
    ensures SmellFromDict(SmellToDict(x)) == Some(x)
  {
  }

  /** The `health_score` entry, its values as numbers rather than "N/100" texts. */
  datatype HealthDict = HealthDict(overall: int, breakdown: HealthBreakdown)

  /** The report as a dictionary. */
  datatype ReportDict = ReportDict(
    analysisMetadata: AnalysisMetadata,
    healthScore: HealthDict,
    smellsSummary: SmellsSummary,
    detectedSmells: seq<SmellDict>,
    metricsSummary: SummaryFigures,
    recommendations: seq<Recommendation>)

  /**
   * `to_dict`: the metadata lifted out of the metrics summary, the rest of
   * the metrics summary, the summary of the findings, and every finding as
   * a dictionary, in order.
   */
  function ToDict(report: AnalysisReport): (d: ReportDict)
    ensures d.analysisMetadata == report.metricsSummary.analysisMetadata
    ensures d.metricsSummary == report.metricsSummary.figures
    ensures d.smellsSummary == SummarizeSmells(report.smells) && d.smellsSummary.totalSmells == |report.smells|
    ensures d.healthScore == HealthDict(report.healthScore, report.healthBreakdown)
    ensures |d.detectedSmells| == |report.smells|
    ensures forall i | 0 <= i < |d.detectedSmells| :: SmellFromDict(d.detectedSmells[i]) == Some(report.smells[i])
    ensures d.recommendations == report.recommendations
  {
    var detected := seq(|report.smells|, i requires 0 <= i < |report.smells| => SmellToDict(report.smells[i]));
    assert forall i | 0 <= i < |detected| :: SmellFromDict(detected[i]) == Some(report.smells[i]) by {
      forall i | 0 <= i < |detected|
        ensures SmellFromDict(detected[i]) == Some(report.smells[i])
      {
        SmellRoundTrip(report.smells[i]);
      }
    }
    ReportDict(
      report.metricsSummary.analysisMetadata,
      HealthDict(report.healthScore, report.healthBreakdown),
      SummarizeSmells(report.smells),
      detected,
      report.metricsSummary.figures,
      report.recommendations)
  }
}
