/**
 * Detector configuration: the default thresholds, the merge of user
 * thresholds into them, and the configuration built from a raw mapping.
 */
module Config {
  import opened Wrappers
  import opened DataModels

  /** Threshold sections by category name. */
  type Thresholds = map<string, Section>

  /** `DEFAULT_THRESHOLDS`. */
  const DefaultThresholds: Thresholds := map[
    "long_method" := map["lines_of_code" := 20.0, "cyclomatic_complexity" := 10.0, "nesting_depth" := 3.0],
    "large_class" := map["lines_of_code" := 300.0, "method_count" := 20.0, "field_count" := 15.0],
    "long_parameter_list" := map["parameter_count" := 4.0],
    "duplicated_code" := map["min_duplicate_lines" := 6.0, "similarity_threshold" := 0.85],
    "complex_conditional" := map[
      "nesting_depth" := 3.0, "boolean_operators" := 5.0,
      "conditional_branches" := 5.0, "elif_chain_length" := 4.0]]

  /**
   * Every category and every key the defaults have is present, so the
   * analyzers' `thresholds[...]` lookups find a value.
   */
  predicate WellFormed(t: Thresholds) {
    forall c | c in DefaultThresholds :: c in t && DefaultThresholds[c].Keys <= t[c].Keys
  }

  /**
   * The `thresholds` entry of a raw configuration. A value that is not a
   * mapping (or is falsy) is `NotAMapping`; a category that is absent or
   * `None` maps to `None`.
   */
  datatype Provided = NotAMapping | Mapping(sections: map<string, Option<Section>>)

  /** `provided.get(key) if isinstance(provided, Mapping) else None`. */
  function Custom(provided: Provided, key: string): (r: Option<Section>)
    ensures r.Some? <==> provided.Mapping? && key in provided.sections && provided.sections[key].Some?
  {
    match provided
    case NotAMapping => None
    case Mapping(sections) => if key in sections then sections[key] else None
  }

  /**
   * The merge: one entry per default category, the default section where
   * there is no custom one, otherwise the default section overridden by the
   * custom one.
   */
  function Merged(provided: Provided, defaults: Thresholds): (r: Thresholds)
    ensures r.Keys == defaults.Keys
  {
    map key | key in defaults ::
      var custom := Custom(provided, key);
      if custom.None? then defaults[key] else defaults[key] + custom.value
  }

  /** `_merge_thresholds`: fill `merged` category by category from the defaults. */
  method MergeThresholds(provided: Provided, defaults: Thresholds) returns (merged: Thresholds)
    ensures merged == Merged(provided, defaults)
  {
    merged := map[];
    var remaining := defaults.Keys;
    while remaining != {}
      invariant remaining <= defaults.Keys
      invariant merged.Keys == defaults.Keys - remaining
      invariant forall key | key in merged :: merged[key] == Merged(provided, defaults)[key]
      decreases remaining
    {
      var key :| key in remaining;
      var custom := Custom(provided, key);
      if custom.None? {
        merged := merged[key := defaults[key]];
      } else {
        merged := merged[key := defaults[key] + custom.value];
      }
      remaining := remaining - {key};
    }
  }

  /** A category without a custom section keeps its default, as does every category when `provided` is no mapping. */
  lemma MergedKeepsDefault(provided: Provided, defaults: Thresholds, key: string)
    requires key in defaults && Custom(provided, key).None?
    ensures Merged(provided, defaults)[key] == defaults[key]
  {
  }

  /** A custom section adds its keys to the default ones, and its values win. */
  lemma MergedOverrides(provided: Provided, defaults: Thresholds, key: string)
    requires key in defaults && Custom(provided, key).Some?
    ensures var section := Merged(provided, defaults)[key];
      var custom := Custom(provided, key).value;
      && section.Keys == defaults[key].Keys + custom.Keys
      && (forall k | k in custom :: section[k] == custom[k])
      && (forall k | k in defaults[key] && k !in custom :: section[k] == defaults[key][k])
  {
  }

  /** Whatever is provided, the merge with the defaults is well formed. */
  lemma MergedWellFormed(provided: Provided)
    ensures WellFormed(Merged(provided, DefaultThresholds))
  {
    forall c | c in DefaultThresholds
      ensures DefaultThresholds[c].Keys <= Merged(provided, DefaultThresholds)[c].Keys
    {
      if Custom(provided, c).Some? {
        MergedOverrides(provided, DefaultThresholds, c);
      }
    }
  }

  /** A merged result handed back as the provided thresholds. */
  function AsProvided(t: Thresholds): Provided {
    Mapping(map key | key in t :: Some(t[key]))
  }

  /** Merging an already merged result again with the same defaults changes nothing. */
  lemma RemergeIsIdentity(provided: Provided, defaults: Thresholds)
    ensures Merged(AsProvided(Merged(provided, defaults)), defaults) == Merged(provided, defaults)
  {
    var once := Merged(provided, defaults);
    var twice := Merged(AsProvided(once), defaults);
    forall key | key in defaults
      ensures twice[key] == once[key]
    {
      assert Custom(AsProvided(once), key) == Some(once[key]);
      UnionAbsorbed(defaults[key], once[key]);
    }
  }

  /** A map whose keys are all overridden disappears in the union. */
  lemma UnionAbsorbed<K, V>(a: map<K, V>, b: map<K, V>)
    requires a.Keys <= b.Keys
    ensures a + b == b
  {
  }

  /** `DetectorConfig`. */
  datatype DetectorConfig = DetectorConfig(
    thresholds: Thresholds,
    exclusionPaths: seq<string>,
    exclusionFiles: seq<string>,
    outputFormats: seq<string>,
    outputDirectory: string)

  const DefaultOutputDirectory: string := "./code_smell_reports"

  /** `DetectorConfig()`: the field defaults. */
  function DefaultConfig(): (c: DetectorConfig)
    ensures WellFormed(c.thresholds)
  {
    DetectorConfig(
      DefaultThresholds,
      ["**/tests/**", "**/__pycache__/**", "**/venv/**"],
      [],
      ["json"],
      DefaultOutputDirectory)
  }

  /**
   * A raw configuration mapping. Each list or string is empty when it is
   * missing, `None` or empty, since `from_dict` treats all of these alike
   * through `or`.
   */
  datatype RawConfig = RawConfig(
    thresholds: Provided,
    exclusionPaths: seq<string>,
    exclusionFiles: seq<string>,
    outputFormats: seq<string>,
    outputDirectory: string)

  /** `DetectorConfig.from_dict`. */
  function FromDict(raw: RawConfig): (c: DetectorConfig)
    ensures WellFormed(c.thresholds)
    ensures c.outputFormats != [] && c.outputDirectory != ""
    ensures raw.outputFormats != [] ==> c.outputFormats == raw.outputFormats
    ensures raw.outputDirectory != "" ==> c.outputDirectory == raw.outputDirectory
    ensures c.thresholds == Merged(raw.thresholds, DefaultThresholds)
    ensures c.exclusionPaths == raw.exclusionPaths && c.exclusionFiles == raw.exclusionFiles
    ensures raw.outputFormats == [] ==> c.outputFormats == ["json"]
    ensures raw.outputDirectory == "" ==> c.outputDirectory == DefaultOutputDirectory
  {
    MergedWellFormed(raw.thresholds);
    DetectorConfig(
      Merged(raw.thresholds, DefaultThresholds),
      raw.exclusionPaths,
      raw.exclusionFiles,
      if raw.outputFormats == [] then ["json"] else raw.outputFormats,
      if raw.outputDirectory == "" then DefaultOutputDirectory else raw.outputDirectory)
  }

  /**
   * An empty mapping yields the default thresholds and output settings but
   * no exclusions at all, unlike `DetectorConfig()`, which excludes tests,
   * `__pycache__` and `venv`.
   */
  lemma FromEmptyDict()
    ensures var c := FromDict(RawConfig(Mapping(map[]), [], [], [], ""));
      && c.thresholds == DefaultThresholds
      && c.outputFormats == ["json"]
      && c.exclusionPaths == [] && c.exclusionFiles == []
      && c != DefaultConfig()
  {
    var c := FromDict(RawConfig(Mapping(map[]), [], [], [], ""));
    forall key | key in DefaultThresholds
      ensures c.thresholds[key] == DefaultThresholds[key]
    {
      MergedKeepsDefault(Mapping(map[]), DefaultThresholds, key);
    }
    assert c.exclusionPaths != DefaultConfig().exclusionPaths;
  }
}
