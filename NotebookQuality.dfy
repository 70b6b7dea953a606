/** The deeper quality check of the workflow notebook (check_notebook_quality.py): the ranges of
    the configuration parameters, the DALI identifier logic, the `except` that must follow every
    `try:`, and the verdict. The many checks that only print are not part of it. The regular
    expression engine is an oracle, as in the completeness check. */
module NotebookQuality {
  import opened Common
  import opened Text
  import Notebook = NotebookCompleteness

  /** `int(match.group(1))` for the first match of `pattern`, or nothing without a match. */
  type Capture = (string, string) -> Option<nat>
  /** `match.end()` of every match of `pattern`, in order (`re.finditer`). */
  type MatchEnds = (string, string) -> seq<nat>

  /** A configuration parameter, the pattern capturing its value and the accepted range. */
  datatype ParamCheck = ParamCheck(pattern: string, name: string, lo: nat, hi: nat)

  datatype Issue =
    | OutOfRange(name: string, value: nat)
    | NoUsedIdSet
    | NoFourCharacterId
    | NoMappingHeader
    | TryWithoutExcept(number: nat)

  const ParamChecks: seq<ParamCheck> := [
    ParamCheck(@"NUM_STEPS\s*=\s*(\d+)", "NUM_STEPS", 1, 100),
    ParamCheck(@"MAX_SEQ_LENGTH\s*=\s*(\d+)", "MAX_SEQ_LENGTH", 10, 10000),
    ParamCheck(@"MIN_SEQ_LENGTH\s*=\s*(\d+)", "MIN_SEQ_LENGTH", 1, 1000),
    ParamCheck(@"CPUS\s*=\s*(\d+)", "CPUS", 1, 128)]

  const UsedIdsPattern: string := @"used_ids\s*=\s*set\(\)"
  const FourCharacterPattern: string := @"random\.choices\(.*k\s*=\s*4"
  const MappingHeaderPattern: string := @"DALI_Name\\tOriginal_Name"
  const TryPattern: string := @"try\s*:"

  /** How far after a `try:` the `except` is looked for. */
  const ExceptWindow: nat := 500

  // ---------------------------------------------------------------- parameters

  /** One issue per parameter whose first value lies outside its range; a parameter that does
      not occur is not an issue. */
  function ParamIssues(checks: seq<ParamCheck>, code: string, capture: Capture): (r: seq<Issue>)
    ensures forall x | x in r :: x.OutOfRange?
  {
    if checks == [] then []
    else
      var c := checks[|checks| - 1];
      var m := capture(c.pattern, code);
      ParamIssues(checks[..|checks| - 1], code, capture) +
      (if m.Some? && !(c.lo <= m.value <= c.hi) then [OutOfRange(c.name, m.value)] else [])
  }

  /** A parameter is reported exactly when its first value is outside its range. */
  lemma {:induction false} ParamIssueIff(checks: seq<ParamCheck>, code: string, capture: Capture, name: string, v: nat)
    ensures OutOfRange(name, v) in ParamIssues(checks, code, capture) <==>
            exists k | 0 <= k < |checks| :: checks[k].name == name && capture(checks[k].pattern, code) == Some(v) &&
                                            !(checks[k].lo <= v <= checks[k].hi)
  {
    if checks != [] {
      var init := checks[..|checks| - 1];
      ParamIssueIff(init, code, capture, name, v);
      if exists k | 0 <= k < |checks| :: checks[k].name == name && capture(checks[k].pattern, code) == Some(v) &&
                                         !(checks[k].lo <= v <= checks[k].hi) {
        var k :| 0 <= k < |checks| && checks[k].name == name && capture(checks[k].pattern, code) == Some(v) &&
                 !(checks[k].lo <= v <= checks[k].hi);
        if k < |init| {
          assert init[k] == checks[k];
        }
      }
      if exists k | 0 <= k < |init| :: init[k].name == name && capture(init[k].pattern, code) == Some(v) &&
                                       !(init[k].lo <= v <= init[k].hi) {
        var k :| 0 <= k < |init| && init[k].name == name && capture(init[k].pattern, code) == Some(v) &&
                 !(init[k].lo <= v <= init[k].hi);
        assert checks[k] == init[k];
      }
    }
  }

  /** The loop over `param_checks`. */
  method CheckParams(checks: seq<ParamCheck>, code: string, capture: Capture) returns (issues: seq<Issue>)
    ensures issues == ParamIssues(checks, code, capture)
  {
    issues := [];
    for k := 0 to |checks|
      invariant issues == ParamIssues(checks[..k], code, capture)
    {
      assert checks[..k + 1][..k] == checks[..k];
      var c := checks[k];
      var m := capture(c.pattern, code);
      if m.Some? {
        var value := m.value;
        if !(c.lo <= value <= c.hi) {
          issues := issues + [OutOfRange(c.name, value)];
        }
      }
    }
    assert checks[..|checks|] == checks;
  }

  // ---------------------------------------------------------------- try without except

  /** The 500 characters after a `try:` that ends at `end` (`all_code[end:end+500]`). */
  function Window(code: string, end: nat): string {
    PySlice(code, end, end + ExceptWindow)
  }

  /** One issue per `try:` (numbered from 1) with no `except` in the window after it. */
  function TryIssues(ends: seq<nat>, code: string): (r: seq<Issue>)
    ensures forall x | x in r :: x.TryWithoutExcept? && 1 <= x.number <= |ends|
  {
    if ends == [] then []
    else
      var n := |ends|;
      TryIssues(ends[..n - 1], code) + (if Contains(Window(code, ends[n - 1]), "except") then [] else [TryWithoutExcept(n)])
  }

  /** `try:` number `i` is reported exactly when no `except` occurs in its window. */
  lemma {:induction false} TryIssueIff(ends: seq<nat>, code: string, i: nat)
    ensures TryWithoutExcept(i) in TryIssues(ends, code) <==>
            1 <= i <= |ends| && !Contains(Window(code, ends[i - 1]), "except")
  {
    if ends != [] {
      var n := |ends|;
      var init := ends[..n - 1];
      TryIssueIff(init, code, i);
      var tail := if Contains(Window(code, ends[n - 1]), "except") then [] else [TryWithoutExcept(n)];
      assert TryIssues(ends, code) == TryIssues(init, code) + tail;
      if 1 <= i < n {
        assert init[i - 1] == ends[i - 1];
        assert TryWithoutExcept(i) !in tail;
      } else if i == n {
        assert TryWithoutExcept(i) !in TryIssues(init, code);
      }
    }
  }

  /** An `except` that starts no earlier than the end of the `try:` and ends within 500
      characters of it, inside the code, saves that `try:` from an issue. */
  lemma {:induction false} ExceptInWindow(ends: seq<nat>, code: string, i: nat, j: nat)
    requires 1 <= i <= |ends|
    requires ends[i - 1] <= j && j + 6 <= ends[i - 1] + ExceptWindow && j + 6 <= |code|
    requires code[j..j + 6] == "except"
    ensures TryWithoutExcept(i) !in TryIssues(ends, code)
  {
    var e := ends[i - 1];
    var hi := if e + ExceptWindow <= |code| then e + ExceptWindow else |code|;
    var w := Window(code, e);
    assert w == code[e..hi];
    forall t | 0 <= t < |w| ensures w[t] == code[e + t] {
    }
    assert w[j - e..j - e + 6] == code[j..j + 6];
    assert OccursAt(w, "except", j - e);
    ContainsIffAt(w, "except");
    TryIssueIff(ends, code, i);
  }

  /** The loop over the `try:` matches. */
  method CheckTries(ends: seq<nat>, code: string) returns (issues: seq<Issue>)
    ensures issues == TryIssues(ends, code)
  {
    issues := [];
    for k := 0 to |ends|
      invariant issues == TryIssues(ends[..k], code)
    {
      assert ends[..k + 1][..k] == ends[..k];
      var codeAfter := PySlice(code, ends[k], ends[k] + ExceptWindow);
      if !Contains(codeAfter, "except") {
        issues := issues + [TryWithoutExcept(k + 1)];
      }
    }
    assert ends[..|ends|] == ends;
  }

  // ---------------------------------------------------------------- the whole check

  /** The three DALI patterns whose absence is an issue, in the script's order. */
  function DaliIssues(code: string, search: Notebook.Search): seq<Issue> {
    (if search(UsedIdsPattern, code).None? then [NoUsedIdSet] else []) +
    (if search(FourCharacterPattern, code).None? then [NoFourCharacterId] else []) +
    (if search(MappingHeaderPattern, code).None? then [NoMappingHeader] else [])
  }

  function QualityIssues(cells: seq<Notebook.Cell>, capture: Capture, search: Notebook.Search, ends: MatchEnds): seq<Issue> {
    var code := Notebook.AllCode(cells);
    ParamIssues(ParamChecks, code, capture) + DaliIssues(code, search) + TryIssues(ends(TryPattern, code), code)
  }

  /** No parameter is reported exactly when every parameter that occurs is in its range. */
  lemma {:induction false} ParamsPass(checks: seq<ParamCheck>, code: string, capture: Capture)
    ensures ParamIssues(checks, code, capture) == [] <==>
            forall k | 0 <= k < |checks| ::
              capture(checks[k].pattern, code).None? ||
              checks[k].lo <= capture(checks[k].pattern, code).value <= checks[k].hi
  {
    var p := ParamIssues(checks, code, capture);
    forall k | 0 <= k < |checks| && p == []
      ensures capture(checks[k].pattern, code).None? ||
              checks[k].lo <= capture(checks[k].pattern, code).value <= checks[k].hi
    {
      var m := capture(checks[k].pattern, code);
      if m.Some? {
        ParamIssueIff(checks, code, capture, checks[k].name, m.value);
      }
    }
    if p != [] {
      assert p[0] in p;
      ParamIssueIff(checks, code, capture, p[0].name, p[0].value);
    }
  }

  /** No `try:` is reported exactly when each has an `except` in its window. */
  lemma {:induction false} TriesPass(ends: seq<nat>, code: string)
    ensures TryIssues(ends, code) == [] <==>
            forall i | 0 <= i < |ends| :: Contains(Window(code, ends[i]), "except")
  {
    var t := TryIssues(ends, code);
    forall i | 0 <= i < |ends| && t == []
      ensures Contains(Window(code, ends[i]), "except")
    {
      TryIssueIff(ends, code, i + 1);
    }
    if t != [] {
      assert t[0] in t;
      TryIssueIff(ends, code, t[0].number);
    }
  }

  /** The notebook passes exactly when every parameter present is in range, the three DALI
      patterns occur and every `try:` has an `except` in its window. */
  lemma {:induction false} QualityVerdictIff(cells: seq<Notebook.Cell>, capture: Capture, search: Notebook.Search, ends: MatchEnds)
    ensures var code := Notebook.AllCode(cells);
      QualityIssues(cells, capture, search, ends) == [] <==>
      (forall k | 0 <= k < |ParamChecks| ::
         capture(ParamChecks[k].pattern, code).None? ||
         ParamChecks[k].lo <= capture(ParamChecks[k].pattern, code).value <= ParamChecks[k].hi) &&
      search(UsedIdsPattern, code).Some? && search(FourCharacterPattern, code).Some? &&
      search(MappingHeaderPattern, code).Some? &&
      (forall i | 0 <= i < |ends(TryPattern, code)| :: Contains(Window(code, ends(TryPattern, code)[i]), "except"))
  {
    var code := Notebook.AllCode(cells);
    ParamsPass(ParamChecks, code, capture);
    TriesPass(ends(TryPattern, code), code);
  }

  /** Step 6: the identifier set, the four-character identifiers and the mapping header. */
  method CheckDali(code: string, search: Notebook.Search) returns (issues: seq<Issue>)
    ensures issues == DaliIssues(code, search)
  {
    issues := [];
    if search(UsedIdsPattern, code).None? {
      issues := issues + [NoUsedIdSet];
    }
    if search(FourCharacterPattern, code).None? {
      issues := issues + [NoFourCharacterId];
    }
    if search(MappingHeaderPattern, code).None? {
      issues := issues + [NoMappingHeader];
    }
  }

  /** `additional_checks`: the issues and the verdict. */
  method AdditionalChecks(cells: seq<Notebook.Cell>, capture: Capture, search: Notebook.Search, ends: MatchEnds)
    returns (ok: bool, issues: seq<Issue>)
    ensures issues == QualityIssues(cells, capture, search, ends)
    ensures ok <==> issues == []
  {
    var code := JoinWith("\n", Notebook.CodeSources(cells));
    issues := CheckParams(ParamChecks, code, capture);
    var d := CheckDali(code, search);
    issues := issues + d;
    var t := CheckTries(ends(TryPattern, code), code);
    issues := issues + t;
    ok := issues == [];
  }

  /** The script's entry point: 1 when the notebook file is missing, else 0 exactly when the
      check passes. */
  method QualityMain(notebookExists: bool, cells: seq<Notebook.Cell>, capture: Capture, search: Notebook.Search, ends: MatchEnds)
    returns (code: int)
    ensures code == (if notebookExists && QualityIssues(cells, capture, search, ends) == [] then 0 else 1)
  {
    if !notebookExists {
      return 1;
    }
    var success, _ := AdditionalChecks(cells, capture, search, ends);
    code := if success then 0 else 1;
  }
}
