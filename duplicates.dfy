/**
 * Duplicated-code detection on the text of a module: every line is stripped
 * of surrounding whitespace, every window of `m` consecutive stripped lines
 * that is not entirely blank is grouped with the identical windows, and
 * each window of a group of two or more is reported as
 * `(first line, last line) -> size of the group`, lines numbered from 1.
 */
module Duplicates {
  import opened Wrappers

  /** The characters Python's `str.strip()` removes (those for which `str.isspace()` holds). */
  predicate IsSpace(c: char) {
    || c == ' ' || c == '\t' || c == '\n' || c == '\r'
    || c == '\U{B}' || c == '\U{C}'
    || ('\U{1C}' <= c <= '\U{1F}')
    || c == '\U{85}' || c == '\U{A0}' || c == '\U{1680}'
    || ('\U{2000}' <= c <= '\U{200A}')
    || c == '\U{2028}' || c == '\U{2029}' || c == '\U{202F}' || c == '\U{205F}' || c == '\U{3000}'
  }

  /** `s` without its leading whitespace. */
  function TrimStart(s: string): (r: string)
    ensures |r| <= |s| && r == s[|s| - |r|..]
    ensures forall k | 0 <= k < |s| - |r| :: IsSpace(s[k])
    ensures r == [] || !IsSpace(r[0])
  {
    if s != [] && IsSpace(s[0]) then TrimStart(s[1..]) else s
  }

  /** `s` without its trailing whitespace. */
  function TrimEnd(s: string): (r: string)
    ensures |r| <= |s| && r == s[..|r|]
    ensures forall k | |r| <= k < |s| :: IsSpace(s[k])
    ensures r == [] || !IsSpace(r[|r| - 1])
  {
    if s != [] && IsSpace(s[|s| - 1]) then TrimEnd(s[..|s| - 1]) else s
  }

  /** `_normalize_line`: `line.strip()`. */
  function Strip(s: string): string {
    TrimEnd(TrimStart(s))
  }

  /** How many leading whitespace characters `strip()` removes. */
  function Leading(s: string): nat {
    |s| - |TrimStart(s)|
  }

  /**
   * What stripping means: the result is the piece of the line after its
   * leading whitespace, it neither starts nor ends with whitespace, and
   * everything cut off on either side is whitespace.
   */
  lemma StripSpec(s: string)
    ensures Leading(s) + |Strip(s)| <= |s|
    ensures Strip(s) == s[Leading(s)..Leading(s) + |Strip(s)|]
    ensures forall k | 0 <= k < Leading(s) :: IsSpace(s[k])
    ensures forall k | Leading(s) + |Strip(s)| <= k < |s| :: IsSpace(s[k])
    ensures Strip(s) == [] || (!IsSpace(Strip(s)[0]) && !IsSpace(Strip(s)[|Strip(s)| - 1]))
  {
    StripPiece(s);
    StripTail(s);
    if Strip(s) != [] {
      assert Strip(s)[0] == TrimStart(s)[0];
    }
  }

  /** The stripped line is the piece of the line right after its leading whitespace. */
  lemma StripPiece(s: string)
    ensures Leading(s) + |Strip(s)| <= |s|
    ensures Strip(s) == s[Leading(s)..Leading(s) + |Strip(s)|]
  {
    var t := TrimStart(s);
    PrefixOfSuffix(s, |s| - |t|, t, TrimEnd(t));
  }

  /** A prefix `r` of the suffix `t` of `s` from index `i` is the slice of `s` from `i` of the same length. */
  lemma PrefixOfSuffix(s: string, i: nat, t: string, r: string)
    requires i <= |s| && t == s[i..] && |r| <= |t| && r == t[..|r|]
    ensures r == s[i..i + |r|]
  {
  }

  /** Everything after the stripped piece is whitespace. */
  lemma StripTail(s: string)
    ensures Leading(s) + |Strip(s)| <= |s|
    ensures forall k | Leading(s) + |Strip(s)| <= k < |s| :: IsSpace(s[k])
  {
    var t := TrimStart(s);
    SpacesShifted(s, |s| - |t|, t, |TrimEnd(t)|);
  }

  /** Whitespace from index `j` of a suffix `t` of `s` is whitespace from the matching index of `s`. */
  lemma SpacesShifted(s: string, i: nat, t: string, j: nat)
    requires i <= |s| && t == s[i..] && j <= |t|
    requires forall k | j <= k < |t| :: IsSpace(t[k])
    ensures forall k | i + j <= k < |s| :: IsSpace(s[k])
  {
    forall k | i + j <= k < |s|
      ensures IsSpace(s[k])
    {
      assert s[k] == t[k - i];
    }
  }

  lemma {:induction false} TrimStartEmptyIffBlank(s: string)
    ensures TrimStart(s) == [] <==> forall k | 0 <= k < |s| :: IsSpace(s[k])
  {
    if s != [] && IsSpace(s[0]) {
      TrimStartEmptyIffBlank(s[1..]);
      assert forall k | 1 <= k < |s| :: s[k] == s[1..][k - 1];
    }
  }

  /** A stripped line is empty exactly when the line holds nothing but whitespace. */
  lemma StripEmptyIffBlank(s: string)
    ensures Strip(s) == [] <==> forall k | 0 <= k < |s| :: IsSpace(s[k])
  {
    TrimStartEmptyIffBlank(s);
    var t := TrimStart(s);
    assert t == [] || !IsSpace(t[0]);
  }

  /** Stripping twice changes nothing more. */
  lemma StripIdempotent(s: string)
    ensures Strip(Strip(s)) == Strip(s)
  {
    var r := Strip(s);
    if r != [] {
      assert !IsSpace(r[0]) && !IsSpace(r[|r| - 1]);
      assert TrimStart(r) == r;
      assert TrimEnd(r) == r;
    }
  }

  /** `[_normalize_line(line) for line in self.source_lines]`. */
  function NormalizeAll(lines: seq<string>): (r: seq<string>)
    ensures |r| == |lines|
    ensures forall k | 0 <= k < |r| :: r[k] == Strip(lines[k])
  {
    seq(|lines|, k requires 0 <= k < |lines| => Strip(lines[k]))
  }

  /** How many window starts `range(0, len(normalized) - min_lines + 1)` yields. */
  function NumStarts(n: nat, m: nat): nat {
    if n >= m then n - m + 1 else 0
  }

  /** The window of `m` lines starting at index `i`. */
  function Window(norm: seq<string>, m: nat, i: nat): seq<string>
    requires i < NumStarts(|norm|, m)
  {
    norm[i..i + m]
  }

  /** A window whose lines are all empty (after stripping): the source skips it. */
  predicate Blank(w: seq<string>) {
    forall k | 0 <= k < |w| :: w[k] == ""
  }

  /** The starts below `n` whose window is `w`, ascending: the list the source collects for `w`. */
  function Positions(norm: seq<string>, m: nat, w: seq<string>, n: nat): seq<nat>
    requires n <= NumStarts(|norm|, m)
  {
    if n == 0 then []
    else Positions(norm, m, w, n - 1) + (if Window(norm, m, n - 1) == w then [n - 1] else [])
  }

  /** The distinct non-blank windows among the first `n` starts, in order of first appearance. */
  function Groups(norm: seq<string>, m: nat, n: nat): seq<seq<string>>
    requires n <= NumStarts(|norm|, m)
  {
    if n == 0 then []
    else
      var g := Groups(norm, m, n - 1);
      var w := Window(norm, m, n - 1);
      if Blank(w) || w in g then g else g + [w]
  }

  /** One reported block: `(start_line, end_line) -> count`, lines numbered from 1. */
  datatype Entry = Entry(startLine: int, endLine: int, count: int)

  /** The entries for the starts `ps` of one group of `count` identical windows. */
  function EntriesFor(ps: seq<nat>, m: nat, count: int): (r: seq<Entry>)
    ensures |r| == |ps|
    ensures forall k | 0 <= k < |r| :: r[k] == Entry(ps[k] + 1, ps[k] + m, count)
  {
    seq(|ps|, k requires 0 <= k < |ps| => Entry(ps[k] + 1, ps[k] + m, count))
  }

  /** The entries contributed by the groups `gs`, in order, a group of fewer than two being skipped. */
  function Occurrences(norm: seq<string>, m: nat, gs: seq<seq<string>>): seq<Entry>
  {
    if gs == [] then []
    else
      var ps := Positions(norm, m, gs[|gs| - 1], NumStarts(|norm|, m));
      Occurrences(norm, m, gs[..|gs| - 1]) + (if |ps| < 2 then [] else EntriesFor(ps, m, |ps|))
  }

  /** `duplicated_code_blocks(min_lines)` as a value: the occurrences dictionary, in insertion order. */
  function DuplicateBlocks(lines: seq<string>, m: nat): seq<Entry> {
    var norm := NormalizeAll(lines);
    Occurrences(norm, m, Groups(norm, m, NumStarts(|norm|, m)))
  }

  /**
   * The first loop of `duplicated_code_blocks`: `windows.setdefault(window,
   * []).append(idx)` for every non-blank window. The dictionary is `windows`
   * with its keys in insertion order in `order`, as Python keeps them.
   */
  method GroupWindows(normalized: seq<string>, m: nat) returns (windows: map<seq<string>, seq<nat>>, order: seq<seq<string>>)
    ensures order == Groups(normalized, m, NumStarts(|normalized|, m))
    ensures forall w :: w in windows <==> w in order
    ensures forall w | w in windows :: windows[w] == Positions(normalized, m, w, NumStarts(|normalized|, m))
  {
    windows := map[];
    order := [];
    for idx := 0 to NumStarts(|normalized|, m)
      invariant order == Groups(normalized, m, idx)
      invariant forall w :: w in windows <==> w in order
      invariant forall w | w in windows :: windows[w] == Positions(normalized, m, w, idx)
    {
      var window := normalized[idx..idx + m];
      assert window == Window(normalized, m, idx);
      if Blank(window) {
        forall w | w in windows
          ensures windows[w] == Positions(normalized, m, w, idx + 1)
        {
          GroupsNonBlank(normalized, m, idx, w);
        }
        continue;
      }
      if window in windows {
        windows := windows[window := windows[window] + [idx]];
      } else {
        PositionsOutsideGroups(normalized, m, window, idx);
        windows := windows[window := [idx]];
        order := order + [window];
      }
    }
  }

  /**
   * `duplicated_code_blocks`: group the windows, then, group by group in
   * insertion order, record every start of every group of two or more.
   */
  method DuplicatedCodeBlocks(lines: seq<string>, m: nat) returns (occurrences: seq<Entry>)
    ensures occurrences == DuplicateBlocks(lines, m)
  {
    var normalized := NormalizeAll(lines);
    var windows, order := GroupWindows(normalized, m);
    occurrences := [];
    for k := 0 to |order|
      invariant occurrences == Occurrences(normalized, m, order[..k])
    {
      var positions := windows[order[k]];
      OccurrencesStep(normalized, m, order, k);
      if |positions| < 2 {
        continue;
      }
      occurrences := RecordGroup(occurrences, positions, m);
    }
    assert order[..|order|] == order;
  }

  /** The inner loop: `occurrences[(idx + 1, idx + min_lines)] = len(positions)` for each start of one group. */
  method RecordGroup(occurrences: seq<Entry>, positions: seq<nat>, m: nat) returns (r: seq<Entry>)
    ensures r == occurrences + EntriesFor(positions, m, |positions|)
  {
    r := occurrences;
    for j := 0 to |positions|
      invariant r == occurrences + EntriesFor(positions[..j], m, |positions|)
    {
      var e := Entry(positions[j] + 1, positions[j] + m, |positions|);
      assert EntriesFor(positions[..j + 1], m, |positions|) == EntriesFor(positions[..j], m, |positions|) + [e];
      AppendAssoc(occurrences, EntriesFor(positions[..j], m, |positions|), [e]);
      r := r + [e];
    }
    assert positions[..|positions|] == positions;
  }

  /** Taking one more group into account appends the entries of that group, if it has two or more windows. */
  lemma OccurrencesStep(norm: seq<string>, m: nat, gs: seq<seq<string>>, k: nat)
    requires k < |gs|
    ensures var ps := Positions(norm, m, gs[k], NumStarts(|norm|, m));
      Occurrences(norm, m, gs[..k + 1]) == Occurrences(norm, m, gs[..k]) + (if |ps| < 2 then [] else EntriesFor(ps, m, |ps|))
  {
    assert gs[..k + 1][..k] == gs[..k];
  }

  /** Every group is a non-blank window. */
  lemma {:induction false} GroupsNonBlank(norm: seq<string>, m: nat, n: nat, w: seq<string>)
    requires n <= NumStarts(|norm|, m) && w in Groups(norm, m, n)
    ensures !Blank(w)
  {
    if n > 0 && w in Groups(norm, m, n - 1) {
      GroupsNonBlank(norm, m, n - 1, w);
    }
  }

  /** A non-blank window that is not yet a group has not occurred yet. */
  lemma {:induction false} PositionsOutsideGroups(norm: seq<string>, m: nat, w: seq<string>, n: nat)
    requires n <= NumStarts(|norm|, m) && !Blank(w) && w !in Groups(norm, m, n)
    ensures Positions(norm, m, w, n) == []
  {
    if n > 0 {
      PositionsOutsideGroups(norm, m, w, n - 1);
    }
  }

  /** `p` is among the positions of `w` exactly when it is a start below `n` whose window is `w`. */
  lemma {:induction false} PositionsSpec(norm: seq<string>, m: nat, w: seq<string>, n: nat, p: nat)
    requires n <= NumStarts(|norm|, m)
    ensures p in Positions(norm, m, w, n) <==> p < n && Window(norm, m, p) == w
  {
    if n > 0 {
      PositionsSpec(norm, m, w, n - 1, p);
    }
  }

  /** The positions are strictly increasing (each start is appended once, in order). */
  lemma {:induction false} PositionsIncreasing(norm: seq<string>, m: nat, w: seq<string>, n: nat)
    requires n <= NumStarts(|norm|, m)
    ensures forall i, j | 0 <= i < j < |Positions(norm, m, w, n)| ::
      Positions(norm, m, w, n)[i] < Positions(norm, m, w, n)[j]
    ensures forall i | 0 <= i < |Positions(norm, m, w, n)| :: Positions(norm, m, w, n)[i] < n
  {
    if n > 0 {
      PositionsIncreasing(norm, m, w, n - 1);
    }
  }

  /** A window is a group exactly when it is non-blank and occurs at some start below `n`. */
  lemma {:induction false} GroupsSpec(norm: seq<string>, m: nat, n: nat, p: nat)
    requires p < n <= NumStarts(|norm|, m)
    ensures Window(norm, m, p) in Groups(norm, m, n) <==> !Blank(Window(norm, m, p))
  {
    if Window(norm, m, p) in Groups(norm, m, n) {
      GroupsNonBlank(norm, m, n, Window(norm, m, p));
    } else if p < n - 1 {
      GroupsSpec(norm, m, n - 1, p);
    }
  }

  /** Every group is the window of some start below `n`. */
  lemma {:induction false} GroupsOccur(norm: seq<string>, m: nat, n: nat, w: seq<string>)
    requires n <= NumStarts(|norm|, m) && w in Groups(norm, m, n)
    ensures exists p | 0 <= p < n :: Window(norm, m, p) == w
  {
    if w in Groups(norm, m, n - 1) {
      GroupsOccur(norm, m, n - 1, w);
    }
  }

  /** No window is a group twice. */
  lemma {:induction false} GroupsDistinct(norm: seq<string>, m: nat, n: nat)
    requires n <= NumStarts(|norm|, m)
    ensures forall i, j | 0 <= i < j < |Groups(norm, m, n)| :: Groups(norm, m, n)[i] != Groups(norm, m, n)[j]
  {
    if n > 0 {
      GroupsDistinct(norm, m, n - 1);
    }
  }

  /** The count of the block starting at index `p`: how many starts share its window. */
  function CountAt(norm: seq<string>, m: nat, p: nat): nat
    requires p < NumStarts(|norm|, m)
  {
    |Positions(norm, m, Window(norm, m, p), NumStarts(|norm|, m))|
  }

  /** A start is reported when its window is not blank and occurs at least twice. */
  predicate Duplicated(norm: seq<string>, m: nat, p: nat) {
    p < NumStarts(|norm|, m) && !Blank(Window(norm, m, p)) && CountAt(norm, m, p) >= 2
  }

  lemma {:induction false} OccurrencesSound(norm: seq<string>, m: nat, gs: seq<seq<string>>, e: Entry)
    requires e in Occurrences(norm, m, gs)
    ensures 1 <= e.startLine && e.startLine - 1 < NumStarts(|norm|, m)
    ensures Window(norm, m, e.startLine - 1) in gs
    ensures CountAt(norm, m, e.startLine - 1) >= 2
    ensures e == Entry(e.startLine, e.startLine - 1 + m, CountAt(norm, m, e.startLine - 1))
  {
    var n := NumStarts(|norm|, m);
    var g := gs[|gs| - 1];
    var ps := Positions(norm, m, g, n);
    if e in Occurrences(norm, m, gs[..|gs| - 1]) {
      OccurrencesSound(norm, m, gs[..|gs| - 1], e);
    } else {
      var k :| 0 <= k < |ps| && e == EntriesFor(ps, m, |ps|)[k];
      PositionsSpec(norm, m, g, n, ps[k]);
    }
  }

  lemma {:induction false} OccurrencesComplete(norm: seq<string>, m: nat, gs: seq<seq<string>>, p: nat)
    requires p < NumStarts(|norm|, m) && Window(norm, m, p) in gs && CountAt(norm, m, p) >= 2
    ensures Entry(p + 1, p + m, CountAt(norm, m, p)) in Occurrences(norm, m, gs)
  {
    var n := NumStarts(|norm|, m);
    var g := gs[|gs| - 1];
    if g == Window(norm, m, p) {
      var ps := Positions(norm, m, g, n);
      PositionsSpec(norm, m, g, n, p);
      var k :| 0 <= k < |ps| && ps[k] == p;
      assert EntriesFor(ps, m, |ps|)[k] == Entry(p + 1, p + m, CountAt(norm, m, p));
    } else {
      assert Window(norm, m, p) in gs[..|gs| - 1];
      OccurrencesComplete(norm, m, gs[..|gs| - 1], p);
    }
  }

  /** Every entry of the report on already normalised lines is a duplicated start with its count. */
  lemma ReportSound(norm: seq<string>, m: nat, e: Entry)
    requires e in Occurrences(norm, m, Groups(norm, m, NumStarts(|norm|, m)))
    ensures 1 <= e.startLine && Duplicated(norm, m, e.startLine - 1)
    ensures e == Entry(e.startLine, e.startLine - 1 + m, CountAt(norm, m, e.startLine - 1))
  {
    var n := NumStarts(|norm|, m);
    OccurrencesSound(norm, m, Groups(norm, m, n), e);
    GroupsNonBlank(norm, m, n, Window(norm, m, e.startLine - 1));
  }

  /** Every duplicated start is in the report on already normalised lines, with its count. */
  lemma ReportComplete(norm: seq<string>, m: nat, p: nat)
    requires Duplicated(norm, m, p)
    ensures Entry(p + 1, p + m, CountAt(norm, m, p)) in Occurrences(norm, m, Groups(norm, m, NumStarts(|norm|, m)))
  {
    var n := NumStarts(|norm|, m);
    GroupsSpec(norm, m, n, p);
    OccurrencesComplete(norm, m, Groups(norm, m, n), p);
  }

  /** The report on already normalised lines. */
  lemma ReportSpec(norm: seq<string>, m: nat, e: Entry)
    ensures var gs := Groups(norm, m, NumStarts(|norm|, m));
      e in Occurrences(norm, m, gs) <==>
        (1 <= e.startLine && Duplicated(norm, m, e.startLine - 1)
         && e == Entry(e.startLine, e.startLine - 1 + m, CountAt(norm, m, e.startLine - 1)))
  {
    if e in Occurrences(norm, m, Groups(norm, m, NumStarts(|norm|, m))) {
      ReportSound(norm, m, e);
    } else if 1 <= e.startLine && Duplicated(norm, m, e.startLine - 1) {
      ReportComplete(norm, m, e.startLine - 1);
    }
  }

  /**
   * Soundness and completeness of the report: an entry is reported exactly
   * when it covers `m` lines from a start whose window is not blank and
   * occurs at least twice, and it carries the number of those occurrences.
   */
  lemma DuplicateBlocksSpec(lines: seq<string>, m: nat, e: Entry)
    ensures e in DuplicateBlocks(lines, m) <==>
      (1 <= e.startLine && Duplicated(NormalizeAll(lines), m, e.startLine - 1)
       && e == Entry(e.startLine, e.startLine - 1 + m, CountAt(NormalizeAll(lines), m, e.startLine - 1)))
  {
    ReportSpec(NormalizeAll(lines), m, e);
  }

  /** Every reported block lies inside the file and spans exactly `m` lines. */
  lemma DuplicateBlocksInRange(lines: seq<string>, m: nat, e: Entry)
    requires e in DuplicateBlocks(lines, m)
    ensures 1 <= e.startLine <= e.endLine <= |lines|
    ensures e.endLine - e.startLine + 1 == m
    ensures e.count >= 2
  {
    DuplicateBlocksSpec(lines, m, e);
  }

  lemma {:induction false} OccurrencesDistinct(norm: seq<string>, m: nat, gs: seq<seq<string>>)
    requires forall i, j | 0 <= i < j < |gs| :: gs[i] != gs[j]
    ensures forall i, j | 0 <= i < j < |Occurrences(norm, m, gs)| ::
      Occurrences(norm, m, gs)[i].startLine != Occurrences(norm, m, gs)[j].startLine
  {
    if gs != [] {
      var n := NumStarts(|norm|, m);
      var init := gs[..|gs| - 1];
      var g := gs[|gs| - 1];
      var ps := Positions(norm, m, g, n);
      var front := Occurrences(norm, m, init);
      var back := if |ps| < 2 then [] else EntriesFor(ps, m, |ps|);
      OccurrencesDistinct(norm, m, init);
      PositionsIncreasing(norm, m, g, n);
      assert Occurrences(norm, m, gs) == front + back;
      forall i, j | 0 <= i < |front| && 0 <= j < |back|
        ensures front[i].startLine != back[j].startLine
      {
        OccurrencesSound(norm, m, init, front[i]);
        PositionsSpec(norm, m, g, n, ps[j]);
        assert g !in init;
      }
    }
  }

  /**
   * No two entries share a start line, so the source's dictionary
   * assignments never overwrite one another and the report has one entry
   * per appended pair.
   */
  lemma DuplicateBlocksDistinct(lines: seq<string>, m: nat)
    ensures forall i, j | 0 <= i < j < |DuplicateBlocks(lines, m)| ::
      DuplicateBlocks(lines, m)[i].startLine != DuplicateBlocks(lines, m)[j].startLine
  {
    var norm := NormalizeAll(lines);
    GroupsDistinct(norm, m, NumStarts(|norm|, m));
    OccurrencesDistinct(norm, m, Groups(norm, m, NumStarts(|norm|, m)));
  }

  /** With windows of no lines every window is blank, so there are no groups. */
  lemma {:induction false} NoGroupsOfEmptyWindows(norm: seq<string>, n: nat)
    requires n <= NumStarts(|norm|, 0)
    ensures Groups(norm, 0, n) == []
  {
    if n > 0 {
      NoGroupsOfEmptyWindows(norm, n - 1);
    }
  }

  /** A file shorter than the window, or a window of no lines, reports nothing. */
  lemma DuplicateBlocksTooShort(lines: seq<string>, m: nat)
    requires |lines| < m || m == 0
    ensures DuplicateBlocks(lines, m) == []
  {
    var norm := NormalizeAll(lines);
    if m == 0 {
      NoGroupsOfEmptyWindows(norm, NumStarts(|norm|, m));
    }
  }
}
