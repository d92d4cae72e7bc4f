# Code Smell Detector — a verified model of its detection engine

This project models the metrics-and-detection engine of the Python code
smell detector `code_smell_detector`:

- **Metrics calculator.** The control-flow visitor that measures nesting
  depth, boolean operators, `if` branches and `elif` chains is modelled as
  a Dafny class with mutable counters. It is proved equal to a recursive
  specification (`Flow`) over a syntax tree. The calculator also covers the
  parameter count, the lines of code, and the class metrics taken from the
  direct body of a class. The sliding-window duplicate detector is modelled
  as loops that fill a window dictionary and then an occurrences
  dictionary.
- **Five rule analyzers.** These are Long Method, Long Parameter List,
  Complex Conditional, Large Class and Duplicated Code. Each is a strict
  threshold predicate with a severity table. Each analyzer maps the
  breadth-first walk of the module (`ast.walk`) to at most one finding per
  function, class or duplicated window.
- **Orchestrator.** This covers:
  - the whole-run metrics accumulator;
  - registration of every definition;
  - the per-file loop that runs the analyzers in their fixed order;
  - the clamped health score and its breakdown;
  - the selection of at most five recommendations.
- **Configuration.** The merge of provided thresholds into the defaults, and
  `from_dict`.
- **JSON report structure.** The findings summary, with counts by severity
  and by category, each finding as a dictionary, and the report dictionary.

Python's syntax tree is replaced by a small `Node` datatype that keeps only
the node kinds the detector inspects. Every other node kind is `Other`. The
`parent` links that the source attaches to nodes become a chain of
ancestors carried by each item of the walk.

Cyclomatic complexity comes from an external tool. Here it is a table
keyed by (name, first line), with 1 as the default. Threshold values are
`real`, so both the integer and the fractional values of the default
thresholds fit.

Modules:
- `Wrappers`: `Option`.
- `Syntax`: the tree, `ast.walk`, and generator collection.
- `ControlFlow`: the visitor.
- `Metrics`: the calculator.
- `Duplicates`: the duplicate detector.
- `DataModels`: the records.
- `Config`: configuration.
- `MethodLevel`, `ClassLevel` and `Duplication`: the analyzers.
- `Core`: the orchestrator.
- `JsonReporter`: the report structure.

## Model

| member | source | states |
|---|---|---|
| Syntax.WalkModuleSum | code_smell_detector/analyzers/method_level.py:148-152 | The breadth-first walk of a module meets every node of the tree exactly once. Summing any per-node weight along the walk gives the sum over the tree. |
| Syntax.WalkSum | code_smell_detector/analyzers/method_level.py:150 | For any queue and any per-node weight, the weights along the walk sum to the weights over every queued tree, so no node is skipped or repeated. |
| Syntax.CollectSound | code_smell_detector/analyzers/method_level.py:148-152 | Everything a generator over the walk yields was yielded for some walked item. |
| Syntax.CollectComplete | code_smell_detector/analyzers/method_level.py:148-152 | Whatever any walked item yields appears in the generator's output. |
| Syntax.CollectBound | code_smell_detector/analyzers/class_level.py:35 | When each item yields at most w(node), the output has at most the sum of w over the items. |
| Syntax.CollectExact | code_smell_detector/core.py:114-120 | When each item yields exactly w(node), the output has exactly the sum of w over the items. |
| Syntax.CollectAppend | code_smell_detector/core.py:87-94 | Collecting over two runs of items is the concatenation of the two collections, as `extend` over successive files gives. |
| ControlFlow.Flow | code_smell_detector/metrics/calculator.py:138-176 | The visitor's depth, boolean, branch and elif counts for a node as a value. Its own contract says the counts are non-negative. It is specified by `ControlFlowAnalyzer.Visit` and the path lemmas `DepthBoundsEveryChain`, `DepthIsAttained`, `ElifBoundsEveryIf`, `ElifIsAttained` and `BranchesAndBooleans`. |
| ControlFlow.CountBooleanOps | code_smell_detector/metrics/calculator.py:189-195 | The loop over the walk of an expression returns the sum of `len(values) - 1` over every BoolOp in it. |
| ControlFlow.ElifChainLength | code_smell_detector/metrics/calculator.py:179-186 | The while loop returns how many times, starting at the `if`, the `else` part is exactly one `if`. |
| ControlFlow.ControlFlowAnalyzer.constructor | code_smell_detector/metrics/calculator.py:141-146 | All five counters start at 0. |
| ControlFlow.ControlFlowAnalyzer.Visit | code_smell_detector/metrics/calculator.py:148-176 | Visiting a subtree adds its branches and boolean operators to the counts. The maximum depth becomes at least the entry depth plus the subtree's nesting, and the elif maximum at least the subtree's longest chain. The current depth returns to its entry value. |
| ControlFlow.ControlFlowAnalyzer.GenericVisit | code_smell_detector/metrics/calculator.py:148-151 | Visiting the children in order has the effect of their combined statistics, so siblings never compound depth. |
| ControlFlow.ControlFlowAnalyzer.VisitIf | code_smell_detector/metrics/calculator.py:153-159 | An `if` adds one branch and one nesting level. It adds the operators of its test once more, and takes the maximum with its own elif chain. It then restores the depth. |
| ControlFlow.ControlFlowAnalyzer.VisitCompound | code_smell_detector/metrics/calculator.py:161-168 | A `for`, `while`, `with` or `try` adds one nesting level around its children and then restores the depth. |
| ControlFlow.ControlFlowAnalyzer.VisitBoolOp | code_smell_detector/metrics/calculator.py:170-172 | A BoolOp adds `len(values) - 1` operators, then visits its operands. |
| ControlFlow.ControlFlowAnalyzer.RecordDepth | code_smell_detector/metrics/calculator.py:174-176 | The depth goes up by one, and the maximum follows it. |
| ControlFlow.AfterCombine | code_smell_detector/metrics/calculator.py:148-151 | Visiting two subtrees one after the other has the same effect as visiting their combination. |
| ControlFlow.DepthBoundsEveryChain | code_smell_detector/metrics/calculator.py:161-176 | No chain of nested `if`/`for`/`while`/`with`/`try` nodes is deeper than the reported maximum depth. |
| ControlFlow.DepthIsAttained | code_smell_detector/metrics/calculator.py:161-176 | Some chain of nested nodes is exactly as deep as the reported maximum. |
| ControlFlow.ElifBoundsEveryIf | code_smell_detector/metrics/calculator.py:157 | The reported elif maximum is at least the chain length of every `if` in the function, nested ones included. |
| ControlFlow.ElifIsAttained | code_smell_detector/metrics/calculator.py:157 | A non-zero elif maximum is the chain length of some `if` in the function. |
| ControlFlow.ElifDeepensAndBranches | code_smell_detector/metrics/calculator.py:153-159 | Each `elif` is a nested `if`. An `if` with a chain of k opens at least k + 1 nesting levels and counts at least k + 1 branches. |
| ControlFlow.BranchesAndBooleans | code_smell_detector/metrics/calculator.py:153-195 | The branch count equals the number of `if` nodes. The boolean count is the sum of `len(values) - 1` over all BoolOps, plus, once more, the operators in the test of every `if`. |
| ControlFlow.IfTestCountedTwice | code_smell_detector/metrics/calculator.py:153-172 | `if a and b and c: pass` counts 4: the test's operators count twice. |
| ControlFlow.WhileTestCountedOnce | code_smell_detector/metrics/calculator.py:161-172 | `while a and b: pass` counts 1: a loop's test is visited only once. |
| Metrics.NodeLoc | code_smell_detector/metrics/calculator.py:117-121 | `end_lineno - lineno + 1`, or 0 without both positions. Specified by `NodeLocCountsLines`. |
| Metrics.NodeLocCountsLines | code_smell_detector/metrics/calculator.py:117-121 | With both positions inside the file, the lines of code are exactly the number of lines from the first to the last, and at least 1. |
| Metrics.CyclomaticComplexity | code_smell_detector/metrics/calculator.py:110-114 | A function the external tool does not report has complexity 1. |
| Metrics.ParameterCount | code_smell_detector/metrics/calculator.py:124-135 | A natural number by its result type. Specified by `ParameterCountSpec`, `ParameterCountIgnoresPositionalOnly` and `ParameterCountExample`. |
| Metrics.ParameterCountSpec | code_smell_detector/metrics/calculator.py:124-135 | The count is args + kwonlyargs + `*args` + `**kwargs`. It is one less when there are positional args and the direct parent is a class. The clamp at 0 never applies. |
| Metrics.ParameterCountIgnoresPositionalOnly | code_smell_detector/metrics/calculator.py:126-127 | Positional-only parameters never change the count. |
| Metrics.ParameterCountExample | code_smell_detector/metrics/calculator.py:124-135 | `def f(self, a, b, c)` directly in a class counts 3. |
| Metrics.FunctionMetricsOf | code_smell_detector/metrics/calculator.py:46-64 | The function metrics record: the name, `NodeLoc`, the complexity lookup, `ParameterCount` and the four `Flow` counters. Specified by `CalculateFunctionMetrics`, whose visitor loop it equals. |
| Metrics.CalculateFunctionMetrics | code_smell_detector/metrics/calculator.py:46-64 | A fresh visitor's counters after visiting the function are the depth, booleans, branches and elif chain of its `Flow` specification, next to its LOC, complexity and parameter count. |
| Metrics.Filter | code_smell_detector/metrics/calculator.py:69-76 | A list comprehension with a condition keeps exactly the members satisfying it, and no more than there were. |
| Metrics.ClassMetricsOf | code_smell_detector/metrics/calculator.py:66-84 | The class metrics record, counted over the direct statements of the body. Specified by `ClassMetricsBounds` and `ClassMetricsAppend`. |
| Metrics.ClassMetricsBounds | code_smell_detector/metrics/calculator.py:66-84 | 0 ≤ public methods ≤ methods ≤ direct body statements, and 0 ≤ fields ≤ direct body statements. |
| Metrics.ClassMetricsAppend | code_smell_detector/metrics/calculator.py:69-83 | Adding a statement to a class body changes the method, field and public-method counts by exactly one each when the statement is such a member, and leaves them unchanged otherwise. |
| Duplicates.Strip | code_smell_detector/metrics/calculator.py:198-200 | `line.strip()`. Specified by `StripSpec`, `StripEmptyIffBlank` and `StripIdempotent`. |
| Duplicates.TrimStart | code_smell_detector/metrics/calculator.py:198-200 | The result is a suffix of the line, the dropped prefix is whitespace, and the result does not start with whitespace. |
| Duplicates.TrimEnd | code_smell_detector/metrics/calculator.py:198-200 | The result is a prefix of the line, the dropped suffix is whitespace, and the result does not end with whitespace. |
| Duplicates.StripSpec | code_smell_detector/metrics/calculator.py:198-200 | `strip` returns a middle slice of the line, with only whitespace removed on both sides, and neither end of the result is whitespace. |
| Duplicates.StripEmptyIffBlank | code_smell_detector/metrics/calculator.py:198-200 | A line strips to empty exactly when all of it is whitespace. |
| Duplicates.StripIdempotent | code_smell_detector/metrics/calculator.py:198-200 | Normalising twice is normalising once. |
| Duplicates.NormalizeAll | code_smell_detector/metrics/calculator.py:93 | One stripped line per source line, in order. |
| Duplicates.GroupWindows | code_smell_detector/metrics/calculator.py:95-100 | The windows dictionary holds each distinct non-blank window, keyed in order of first appearance. Each key maps to the ascending list of its start offsets. |
| Duplicates.DuplicateBlocks | code_smell_detector/metrics/calculator.py:86-108 | The occurrences dictionary as a sequence in insertion order. Specified by `DuplicateBlocksSpec` (an iff), `DuplicateBlocksInRange`, `DuplicateBlocksDistinct` and `DuplicateBlocksTooShort`. The loop method `DuplicatedCodeBlocks` equals it. |
| Duplicates.DuplicatedCodeBlocks | code_smell_detector/metrics/calculator.py:86-108 | The returned occurrences, in insertion order, are the specification `DuplicateBlocks`, whose meaning the lemmas below give. |
| Duplicates.RecordGroup | code_smell_detector/metrics/calculator.py:106-107 | For a group of n positions, one entry (pos + 1, pos + m) ↦ n is appended per position, in order. |
| Duplicates.PositionsSpec | code_smell_detector/metrics/calculator.py:96-100 | An offset is in a window's list exactly when the window starting there is that window. |
| Duplicates.PositionsIncreasing | code_smell_detector/metrics/calculator.py:96-100 | A window's list of offsets is strictly increasing. |
| Duplicates.GroupsSpec | code_smell_detector/metrics/calculator.py:96-100 | The window at an offset is a key of the dictionary exactly when it is not blank. |
| Duplicates.GroupsDistinct | code_smell_detector/metrics/calculator.py:100 | The keys of the windows dictionary are distinct. |
| Duplicates.DuplicateBlocksSpec | code_smell_detector/metrics/calculator.py:93-107 | An entry is reported exactly when it spans `min_lines` lines from an offset whose window is not blank and occurs at least twice. Its count is the number of offsets with an equal window. So every occurrence is reported, overlapping ones included. |
| Duplicates.DuplicateBlocksInRange | code_smell_detector/metrics/calculator.py:96-107 | Every reported (s, e) has 1 ≤ s ≤ e ≤ the number of lines, e − s + 1 = `min_lines`, and a count ≥ 2. |
| Duplicates.DuplicateBlocksDistinct | code_smell_detector/metrics/calculator.py:102-107 | No two reported entries share a start line, so no key is written twice. |
| Duplicates.DuplicateBlocksTooShort | code_smell_detector/metrics/calculator.py:96 | With fewer lines than `min_lines`, or with `min_lines` 0, nothing is reported. |
| Duplicates.NoGroupsOfEmptyWindows | code_smell_detector/metrics/calculator.py:96-99 | Windows of zero lines are all blank, so the windows dictionary stays empty. |
| MethodLevel.Definition | code_smell_detector/analyzers/method_level.py:18-25 | Each method-level rule is in the "Method-Level" category, names a violated principle, and finds every threshold key it looks up. |
| MethodLevel.LongMethodSeverity | code_smell_detector/analyzers/method_level.py:175-186 | CRITICAL iff loc > 100, complexity > 30 or nesting > 6; LOW iff loc ≤ 30, complexity ≤ 15 and nesting ≤ 4. The thresholds play no part. |
| MethodLevel.ParameterSeverity | code_smell_detector/analyzers/method_level.py:189-196 | CRITICAL iff > 10; HIGH iff 8–10; MEDIUM iff 6–7; LOW iff ≤ 5. |
| MethodLevel.ConditionalSeverity | code_smell_detector/analyzers/method_level.py:208-219 | CRITICAL iff depth > nesting threshold + 2, booleans > 20 or branches > 10. LOW iff depth ≤ the threshold, booleans ≤ 7 and branches ≤ 6. |
| MethodLevel.IsLongMethod | code_smell_detector/analyzers/method_level.py:167-172 | Some of lines, complexity or depth strictly exceeds its threshold. Specified by `AtThresholdNotTriggered` and `TriggerAndSeverityMonotone`. |
| MethodLevel.IsComplexConditional | code_smell_detector/analyzers/method_level.py:199-205 | Some of depth, boolean operators, branches or elif chain strictly exceeds its threshold. Specified by `AtThresholdNotTriggered` and `TriggerAndSeverityMonotone`. |
| MethodLevel.AtThresholdNotTriggered | code_smell_detector/analyzers/method_level.py:167-205 | All three triggers are strict: metrics sitting exactly at their thresholds are not reported. |
| MethodLevel.TriggerAndSeverityMonotone | code_smell_detector/analyzers/method_level.py:167-219 | Larger metrics are reported whenever smaller ones are, never with a lower severity, for every rule. |
| MethodLevel.ConditionalSeverityIgnoresElif | code_smell_detector/analyzers/method_level.py:208-219 | The conditional severity does not depend on the elif chain length. |
| MethodLevel.ProcessOrderSample | code_smell_detector/analyzers/method_level.py:189-219 | `process_order`, a method with a receiver and 5 more parameters, counts 5. With depth 4, 7 branches and no boolean operators it is a Long Parameter List rated LOW and a Complex Conditional rated MEDIUM under the default thresholds. |
| MethodLevel.FunctionMetricsMap | code_smell_detector/analyzers/method_level.py:155-164 | The metrics snapshot has exactly the seven function-metric keys, each holding its metric. |
| MethodLevel.NearestClassSpec | code_smell_detector/analyzers/method_level.py:232-238 | A class name is found exactly when some ancestor is a class. The name is that of the nearest class ancestor, functions in between notwithstanding. |
| MethodLevel.EnclosingClass | code_smell_detector/analyzers/method_level.py:232-238 | The loop up the parent chain returns the nearest class ancestor's name, or None. |
| MethodLevel.LocationOf | code_smell_detector/analyzers/method_level.py:222-229 | The file is the given path. The start is `lineno`, and the end is `end_lineno`, or `lineno` when that is missing. The function name is the node's name, and the class name is the nearest enclosing class. |
| MethodLevel.Finding | code_smell_detector/analyzers/method_level.py:35-55 | The `SmellInstance` yielded for a reported function. Specified by `AnalyzeItem`, `LocationOf`, `FunctionMetricsMap` and the severity lemmas. |
| MethodLevel.Findings | code_smell_detector/analyzers/method_level.py:35-55 | The findings for a walk, in walk order. Specified by `FindingsSound`, `FindingsComplete`, `FindingsAtMostFunctions` and `FoundAt`. `AnalyzeModule`'s loop equals it. |
| MethodLevel.AnalyzeModule | code_smell_detector/analyzers/method_level.py:27-55 | The generator loop over the walk yields exactly the specified findings for the walk, in walk order. |
| MethodLevel.AnalyzeItem | code_smell_detector/analyzers/method_level.py:35-55 | One walked node yields its finding when it is a function the rule triggers on, and nothing otherwise. |
| MethodLevel.FoundAt | code_smell_detector/analyzers/method_level.py:35-55 | A node yields a finding exactly when the rule reports it, and the finding is that rule's finding for the function. |
| MethodLevel.FindingsAtMostFunctions | code_smell_detector/analyzers/method_level.py:148-152 | At most one finding per function definition anywhere in the module, nested and async ones included. |
| MethodLevel.FindingsSound | code_smell_detector/analyzers/method_level.py:35-55 | Every finding comes from a walked function that the rule reports. |
| MethodLevel.FindingsComplete | code_smell_detector/analyzers/method_level.py:35-55 | Every walked function that the rule reports has its finding. |
| ClassLevel.Definition | code_smell_detector/analyzers/class_level.py:18-25 | "Large Class", category "Class-Level", violating SRP, with its threshold keys present. |
| ClassLevel.IsLargeClass | code_smell_detector/analyzers/class_level.py:59-65 | Some of lines, methods, fields or public methods strictly exceeds its threshold, with 15 public methods by default. Specified by `AtThresholdNotLarge`, `DefaultLargeClass` and `LargeClassMonotone`. |
| ClassLevel.AtThresholdNotLarge | code_smell_detector/analyzers/class_level.py:59-65 | The trigger is strict: a class at its thresholds, with at most 15 public methods when no limit is configured, is not reported. |
| ClassLevel.DefaultLargeClass | code_smell_detector/analyzers/class_level.py:59-65 | The defaults configure no public-method limit. So a class is large iff it has more than 300 lines, 20 methods, 15 fields or 15 public methods. |
| ClassLevel.LargeClassSeverity | code_smell_detector/analyzers/class_level.py:68-75 | CRITICAL iff loc > 1200 or methods > 60; HIGH iff not that and loc > 800 or methods > 40; LOW iff loc ≤ 500 and methods ≤ 30. |
| ClassLevel.LargeClassMonotone | code_smell_detector/analyzers/class_level.py:59-75 | Larger classes are reported whenever smaller ones are, never with a lower severity. |
| ClassLevel.LargeClassSeverityIgnoresCounts | code_smell_detector/analyzers/class_level.py:68-75 | Fields and public methods never change the severity. |
| ClassLevel.ClassMetricsMap | code_smell_detector/analyzers/class_level.py:78-84 | Exactly the four class-metric keys, with their values. |
| ClassLevel.ClassLocation | code_smell_detector/analyzers/class_level.py:87-93 | The start is `lineno`. The end is `end_lineno`, or `lineno` when that is missing or 0. The class name is the class's own name, and there is no function name. |
| ClassLevel.Finding | code_smell_detector/analyzers/class_level.py:39-56 | The `SmellInstance` yielded for a large class. Specified by `ClassLocation`, `ClassMetricsMap`, `LargeClassSeverity` and `FindingsSound`. |
| ClassLevel.AnalyzeModule | code_smell_detector/analyzers/class_level.py:27-56 | The findings for the classes of the walk, in walk order. Specified by `FindingsSound`, `FindingsComplete` and `FindingsAtMostClasses`. |
| ClassLevel.FindingsAtMostClasses | code_smell_detector/analyzers/class_level.py:35-37 | At most one finding per class definition anywhere in the module, nested ones included. |
| ClassLevel.FindingsSound | code_smell_detector/analyzers/class_level.py:34-56 | Every finding is the finding of a walked class that is large. |
| ClassLevel.FindingsComplete | code_smell_detector/analyzers/class_level.py:34-56 | Every walked large class has its finding. |
| ClassLevel.SystemManagerSample | code_smell_detector/analyzers/class_level.py:59-75 | A class of 110 lines with 30 methods (29 public) and no fields is reported under the defaults with severity LOW. |
| ClassLevel.NineHundredLinesSample | code_smell_detector/analyzers/class_level.py:68-75 | 900 lines and 25 methods give HIGH. |
| Duplication.Definition | code_smell_detector/analyzers/duplication.py:17-24 | "Duplicated Code", category "Duplication", violating DRY, with `min_duplicate_lines` present. |
| Duplication.MinimumLines | code_smell_detector/analyzers/duplication.py:36 | The window size is the configured `min_duplicate_lines`. |
| Duplication.DuplicationSeverity | code_smell_detector/analyzers/duplication.py:64-71 | CRITICAL iff occurrences > 5 or lines > 40; HIGH iff not that and > 3 or > 20; LOW iff occurrences ≤ 2 and lines ≤ 10. |
| Duplication.DuplicationSeverityMonotone | code_smell_detector/analyzers/duplication.py:64-71 | More occurrences or longer blocks never lower the severity. |
| Duplication.Finding | code_smell_detector/analyzers/duplication.py:36-49 | The `SmellInstance` for one entry. Specified by `EntryFinding`. |
| Duplication.Findings | code_smell_detector/analyzers/duplication.py:36-49 | One finding per detector entry, in the detector's order. Specified by `FindingShape`, `FindingsComplete` and `FindingsDistinct`, through their helpers `FindingShapeFor` and `CompleteFor`. |
| Duplication.AnalyzeModule | code_smell_detector/analyzers/duplication.py:36-39 | Exactly one finding per entry of the duplicate detector run with the configured minimum. |
| Duplication.FindingShape | code_smell_detector/analyzers/duplication.py:36-49 | Each finding's block lies in the file, and `duplicate_line_count` equals the minimum. `occurrences` ≥ 2 and equals the number of equal windows. The severity is `_duplication_severity` of the count and the minimum. The finding is named "Duplicated Code" with ["DRY"], and there is no class or function name. |
| Duplication.EntryFinding | code_smell_detector/analyzers/duplication.py:40-49 | The location is (start, end). `duplicate_line_count` = end − start + 1 and `occurrences` = the count. The severity is `_duplication_severity` of the count and the block length. |
| Duplication.FindingsComplete | code_smell_detector/analyzers/duplication.py:37-39 | Every duplicated window start is reported, with its count. |
| Duplication.FindingsDistinct | code_smell_detector/analyzers/duplication.py:39-45 | No two findings share a location. |
| Duplication.TreeIgnored | code_smell_detector/analyzers/duplication.py:33-37 | The findings do not depend on the syntax tree. |
| Duplication.DefaultTwiceIsLow | code_smell_detector/analyzers/duplication.py:64-71 | With the default minimum of 6 lines, a block seen exactly twice is rated LOW. |
| Config.Custom | code_smell_detector/config.py:101-103 | There is a custom section exactly when `provided` is a mapping holding a non-None value for the category. |
| Config.Merged | code_smell_detector/config.py:96-108 | The merged keys are exactly the default categories; extra provided categories are dropped. |
| Config.MergeThresholds | code_smell_detector/config.py:96-108 | The loop over the defaults builds exactly the merge. |
| Config.MergedKeepsDefault | code_smell_detector/config.py:104-106 | A category absent or None in `provided`, or any category when `provided` is not a mapping, is the default section. |
| Config.MergedOverrides | code_smell_detector/config.py:107 | A provided section yields default keys ∪ custom keys, with the custom values winning. |
| Config.MergedWellFormed | code_smell_detector/config.py:96-108 | Every default key is present after any merge, so the analyzers' lookups never fail. |
| Config.RemergeIsIdentity | code_smell_detector/config.py:96-108 | Merging a merged result again with the same defaults returns it unchanged. |
| Config.DefaultConfig | code_smell_detector/config.py:43-57 | The field defaults hold every default threshold key. |
| Config.FromDict | code_smell_detector/config.py:59-74 | The thresholds are the provided ones merged into the defaults, and so are well formed. The excluded paths and files are kept. Given output formats and a given directory are kept. Missing ones fall back to ("json",) and `./code_smell_reports`, so neither is ever empty. |
| Config.FromEmptyDict | code_smell_detector/config.py:59-74 | An empty mapping gives the default thresholds, ("json",) and no exclusions. That differs from `DetectorConfig()`, which excludes tests, `__pycache__` and `venv`. |
| Core.MaxComplexitySpec | code_smell_detector/core.py:38 | The maximum complexity is at least every registered complexity. It is either 0 or one of them. |
| Core.Average | code_smell_detector/core.py:44-57 | 0 when the count is 0, otherwise the value that times the count gives the total. |
| Core.MetricsAccumulator.constructor | code_smell_detector/core.py:25-32 | All counts and totals start at 0, with nothing registered. |
| Core.MetricsAccumulator.RegisterFunction | code_smell_detector/core.py:34-38 | The function count goes up by 1, and LOC and complexity are added. The max becomes max(old, new). The class fields are untouched. |
| Core.MetricsAccumulator.RegisterClass | code_smell_detector/core.py:40-42 | Only the class count and the class LOC change. |
| Core.MetricsAccumulator.Figures | code_smell_detector/core.py:134-139 | The summary figures are the averages, maximum and counts of everything registered. |
| Core.RegisterMetrics | code_smell_detector/core.py:108-120 | Every function and class met by the walk is registered, in walk order. |
| Core.RegisterItem | code_smell_detector/core.py:115-120 | A function registers its metrics, a class its class metrics, and any other node nothing. |
| Core.RegisteredOnce | code_smell_detector/core.py:114-120 | Each function (async and nested included) and each class of the module is registered exactly once. |
| Core.HealthScore | code_smell_detector/core.py:147-154 | Within [0, 100], and 100 when there are no findings. |
| Core.HealthScoreAppend | code_smell_detector/core.py:153-154 | More findings never raise the health score. |
| Core.ComplexityScore | code_smell_detector/core.py:156 | Within [0, 100] for non-negative inputs, and 100 when no function was seen. |
| Core.ComplexityScoreByDivision | code_smell_detector/core.py:156 | Truncating five times the average equals the integer quotient of 5 · total by the count. |
| Core.CalculateHealth | code_smell_detector/core.py:142-178 | The overall score is `HealthScore`. Coupling is 80 and cohesion 75. The complexity sub-score is the complexity score of the totals. The duplication sub-score is the clamped total of duplicated lines. The SOLID sub-score is the clamped total of the SOLID weights. All are non-negative, and the SOLID score is at most 100. |
| Core.SubScoresPerfect | code_smell_detector/core.py:159-168 | Duplication is 100 iff no duplicated lines are counted. SOLID compliance is 100 iff no finding names a violated principle. |
| Core.UrgentSmells | code_smell_detector/core.py:181 | No more than the findings. Its members are exactly the HIGH and CRITICAL findings. |
| Core.UrgentAppend | code_smell_detector/core.py:181 | The selection distributes over concatenation, so the findings keep their order. |
| Core.BuildRecommendations | code_smell_detector/core.py:180-194 | The loop appends one recommendation per selected finding, giving `Recommendations`. |
| Core.Recommendations | code_smell_detector/core.py:180-194 | One recommendation for each of the first five urgent findings at most. Specified by `RecommendationsSpec` and `RecommendationsPrefix`. `BuildRecommendations`'s loop equals it. |
| Core.RecommendationsSpec | code_smell_detector/core.py:180-194 | There are at most 5 recommendations, taken from the first HIGH/CRITICAL findings in order. Priority is the severity label, and impact is "HIGH" iff the finding is CRITICAL. |
| Core.RecommendationsPrefix | code_smell_detector/core.py:184 | Later findings never displace earlier recommendations. |
| Core.Analyze | code_smell_detector/analyzers/base.py:32-40 | `analyze` lists what the analyzer's generator yields. |
| Core.CodeSmellDetector.constructor | code_smell_detector/core.py:63-71 | The given configuration, or `DetectorConfig()`. |
| Core.Report | code_smell_detector/core.py:96-106 | The report: the codebase findings, the metrics summary, the health score with its breakdown, and the recommendations. Specified by `ReportCounts`, `FunctionsCount` and `CodebaseFindingsAppend`. `AnalyzeCodebase` equals it. |
| Core.CodeSmellDetector.AnalyzeCodebase | code_smell_detector/core.py:73-106 | The per-file loop builds exactly `Report`: the findings file by file, the figures of all registered definitions, and the health and recommendations of those findings. |
| Core.AnalyzeFile | code_smell_detector/core.py:87-94 | One file registers its definitions and yields its findings. |
| Core.RunAnalyzers | code_smell_detector/core.py:91-94 | The loop over the analyzers extends the findings, one analyzer after the other. |
| Core.DefaultConfigUsable | code_smell_detector/core.py:63-64 | The default configuration satisfies every analyzer's lookups. |
| Core.CodebaseFindingsAppend | code_smell_detector/core.py:87-94 | The findings of two runs of files are concatenated. |
| Core.FileFindingsOrder | code_smell_detector/core.py:65-71 | A file's findings are Long Method, then Long Parameter List, Complex Conditional, Large Class and Duplicated Code. |
| Core.ReportCounts | code_smell_detector/core.py:96-106 | The report counts every function and class of every file once and the number of files. Its score is within [0, 100], and there are at most 5 recommendations. |
| Core.FunctionsCount | code_smell_detector/core.py:87-90 | Over all files, the numbers of registered functions and classes equal the numbers of definitions in the trees. |
| JsonReporter.Categories | code_smell_detector/reporting/json_reporter.py:68 | The distinct categories present, in order of first appearance. |
| JsonReporter.SummarizeSmells | code_smell_detector/reporting/json_reporter.py:65-73 | `total_smells` is the number of findings. `by_severity` lists the four severities in enum order with their counts. `by_category` lists each present category with its count. |
| JsonReporter.SeverityCountsTotal | code_smell_detector/reporting/json_reporter.py:67 | The four severity counts add up to the number of findings. |
| JsonReporter.BySeveritySpec | code_smell_detector/reporting/json_reporter.py:71 | The `by_severity` keys are LOW, MEDIUM, HIGH, CRITICAL (0 when absent), and the counts sum to `total_smells`. |
| JsonReporter.CategoryCountsTotal | code_smell_detector/reporting/json_reporter.py:68 | Counting over the present categories accounts for every finding. |
| JsonReporter.ByCategorySpec | code_smell_detector/reporting/json_reporter.py:72 | The `by_category` keys are distinct and exactly the present categories, each count is ≥ 1, and the counts sum to `total_smells`. |
| JsonReporter.HealthScoreFromSummary | code_smell_detector/core.py:147-154 | The overall score is max(0, 100 − (5·LOW + 10·MEDIUM + 20·HIGH + 35·CRITICAL)), with the counts read from the summary's `by_severity`. |
| JsonReporter.PenaltyBySeverity | code_smell_detector/core.py:147-153 | The penalty is 5·LOW + 10·MEDIUM + 20·HIGH + 35·CRITICAL. |
| JsonReporter.ParseSeverity | code_smell_detector/reporting/json_reporter.py:49 | A label is read back to the one severity with that label. |
| JsonReporter.SmellToDict | code_smell_detector/reporting/json_reporter.py:45-62 | The dictionary of a finding, with the severity as its label. Specified by `SmellRoundTrip`: `SmellFromDict` reads it back to the same finding. |
| JsonReporter.SmellRoundTrip | code_smell_detector/reporting/json_reporter.py:45-62 | The dictionary copies every field unchanged: the finding can be read back from it. |
| JsonReporter.ToDict | code_smell_detector/reporting/json_reporter.py:16-35 | The metadata is lifted out of the metrics summary, and the rest of the summary is kept. `detected_smells` has the same length and order as the findings, each readable back. The `smells_summary` entry is the summary of the findings, and the `health_score` entry holds the score and its breakdown. The recommendations are passed through. |

## Left out

- Parsing and file enumeration (`parse_python_file`, `iter_py_files` with its exclusion globs, `attach_parents`) are left out. The model takes each file as an already-built tree, its lines and its complexity table. The missing-path error of `analyze_codebase` is left out too.
- `splitlines` is not modelled: a file's lines are given.
- The `radon` calls are replaced by a table: cyclomatic complexity is looked up by (name, first line) with default 1. `halstead_volume` is not modelled.
- The following are not modelled: `DetectorConfig.from_yaml` and YAML loading, `JsonReporter.write` and `json.dumps`, the "N/100" score texts, and the command-line interface.
- Descriptions and refactoring steps are not rendered as text. A finding keeps the values its f-string interpolates (`Description`) and the name of its fixed list of steps (`RefactoringPlan`, with `StepTexts`).
- The timestamp in `analysis_metadata` and the resolution of the root path are not modelled. Averages are exact rationals rather than floats rounded to 2 decimals. The complexity score truncates the exact product, not the floating-point one.
- Dictionaries with fixed keys (metrics, thresholds) are Dafny maps, whose key order is not modelled. Dictionaries whose order shows (the windows, the occurrences, `by_category`) are sequences in insertion order.
- File paths are strings; `Path` normalisation is not modelled.
- Duplication.AnalyzeModule: requires `min_duplicate_lines` to be a whole, non-negative number. In the source, `range` raises a TypeError on any float, even a whole one such as 6.0. Thresholds here are reals, which cannot tell 6 from 6.0, so a whole real is treated as the integer. Negative values, which the source would use in negative slicing, are not modelled.
- Core.CodeSmellDetector.AnalyzeCodebase: requires the same of the configuration (through `Core.Usable`), as do the other members of `Core` that run the analyzers.
- Config.Merged: a provided category is a mapping or None. A provided non-mapping value, which makes the source's `{**default, **custom}` raise, is not modelled.
- Config.FromDict: the `exclusions` and `reporting` entries are modelled as sequences of strings. A string value, which the source's `tuple(...)` splits into characters, is not modelled. Neither is a non-mapping `exclusions` or `reporting` value, on which the source's `.get` raises.
- Threshold values are numbers. A non-numeric threshold, which makes the source's comparisons raise, is not modelled.
- ClassLevel.AnalyzeModule: takes no calculator, since class metrics need only the class node.
- MethodLevel.ProcessOrderSample: takes the sample function's depth, branch and boolean counts as given, rather than computing them from its full syntax tree. Only its parameter count is computed from a `def` node.
- ClassLevel.SystemManagerSample: takes the sample class's metrics as given, rather than computing them from its body.
- A definition's `end_lineno` is either an integer or missing. An `end_lineno` attribute present but set to None is not distinguished from a missing one.
