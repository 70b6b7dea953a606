/** The completeness check of the workflow notebook (check_notebook_complete.py): the expected
    section headings, the code, variable, import and DALI patterns, the try/except balance, the
    order of the main workflow steps, the order of sections 12 and 13, and the verdict. The
    regular-expression engine is an oracle: `Search` answers `re.search` with the start of the
    first match and `CountMatches` answers `len(re.findall(...))`. */
module NotebookCompleteness {
  import opened Common
  import opened Text

  /** A cell of the notebook; both keys are read with `[]`, so they are present. */
  datatype Cell = Cell(cellType: string, source: seq<string>)

  type Search = (string, string) -> Option<nat>
  type CountMatches = (string, string) -> nat

  /** A named regular expression looked for in the code. */
  datatype Check = Check(name: string, pattern: string)

  datatype Issue =
    | MissingSection(heading: string)
    | DaliMissing(name: string)
    | SectionsOutOfOrder
    | NoEntGlob

  /** Which list of checks a missing pattern belongs to. */
  datatype Group = CriticalCode | Variable | Import | FlowStep | Extension

  datatype Warning =
    | NotFound(group: Group, name: string)
    | TryExceptMismatch(tries: nat, excepts: nat)
    | Sections12Or13Missing

  const ExpectedSections: seq<string> := [
    "## 1. 环境检测与设置", "## 2. 安装依赖", "## 3. HuggingFace 认证", "## 4. 导入必要的库",
    "## 5. 定义工作流函数", "## 6. 上传输入文件", "## 7. 配置工作流参数", "## 8. 运行 Prokka 基因注释",
    "## 9. 选择要预测结构的序列", "## 10. 运行 ESM3 结构预测", "## 11. 准备 DALI 文件并创建下载包",
    "## 12. 查看结果摘要", "## 13. 下载结果", "## 14. 可选：单独查看某个 PDB 结构"]

  const Heading12: string := "## 12. 查看结果摘要"
  const Heading13: string := "## 13. 下载结果"

  const CriticalPatterns: seq<Check> := [
    Check("IN_COLAB 检测", @"IN_COLAB\s*=\s*['\""]google\.colab['\""]"),
    Check("Prokka 安装", @"micromamba.*prokka"),
    Check("HuggingFace 登录", @"from huggingface_hub import login"),
    Check("ESM3 导入", @"from esm\.models\.esm3 import ESM3"),
    Check("ProkkaESM3Pipeline 类", @"class ProkkaESM3Pipeline"),
    Check("run_prokka 方法", @"def run_prokka\("),
    Check("load_esm3_model 方法", @"def load_esm3_model\("),
    Check("predict_structures 方法", @"def predict_structures\("),
    Check("_generate_pdb_id 方法", @"def _generate_pdb_id\("),
    Check("prepare_for_dali 方法", @"def prepare_for_dali\("),
    Check("create_download_package 方法", @"def create_download_package\("),
    Check("DALI 映射文件", @"pdb_id_mapping\.tsv"),
    Check("文件上传", @"files\.upload\(\)"),
    Check("结果下载", @"files\.download\(")]

  const RequiredVars: seq<string> :=
    ["WORK_DIR", "OUTPUT_PREFIX", "KINGDOM", "NUM_STEPS", "MAX_SEQ_LENGTH", "MIN_SEQ_LENGTH", "pipeline"]

  /** The assignment pattern `\b<var>\s*=` looked for per variable. */
  function VariableChecks(vars: seq<string>): (cs: seq<Check>)
    ensures |cs| == |vars|
    ensures forall k | 0 <= k < |vars| :: cs[k] == Check(vars[k], @"\b" + vars[k] + @"\s*=")
  {
    if vars == [] then []
    else VariableChecks(vars[..|vars| - 1]) + [Check(vars[|vars| - 1], @"\b" + vars[|vars| - 1] + @"\s*=")]
  }

  const RequiredImports: seq<Check> := [
    Check("sys", @"import sys"), Check("os", @"import os"), Check("Path", @"from pathlib import Path"),
    Check("subprocess", @"import subprocess"), Check("shutil", @"import shutil"),
    Check("datetime", @"from datetime import datetime"), Check("zipfile", @"import zipfile"),
    Check("torch", @"import torch"), Check("Bio.SeqIO", @"from Bio import SeqIO"), Check("tqdm", @"from tqdm")]

  const DaliChecks: seq<Check> := [
    Check("生成 4 字符 ID", @"string\.digits \+ string\.ascii_uppercase"),
    Check("创建 .ent 文件", @"f""pdb{.*}\.ent"""),
    Check("创建映射文件", @"pdb_id_mapping\.tsv"),
    Check("写入映射内容", @"DALI_Name\\tOriginal_Name"),
    Check("创建 pdb_list.txt", @"pdb_list\.txt"),
    Check("创建 README", @"README\.txt")]

  const TryPattern: string := @"\btry\s*:"
  const ExceptPattern: string := @"\bexcept\b"

  const CriticalFlow: seq<Check> := [
    Check("定义 WORK_DIR", @"WORK_DIR\s*="),
    Check("创建 pipeline", @"pipeline\s*=\s*ProkkaESM3Pipeline"),
    Check("运行 Prokka", @"pipeline\.run_prokka"),
    Check("加载 ESM3", @"pipeline\.load_esm3_model|pipeline\.model"),
    Check("预测结构", @"ESMProtein|protein\.to_pdb"),
    Check("准备 DALI", @"pipeline\.prepare_for_dali"),
    Check("创建压缩包", @"pipeline\.create_download_package|result_zip")]

  const FileExtensions: seq<Check> := [
    Check(".fna", @"\.fna"), Check(".faa", @"\.faa"), Check(".pdb", @"\.pdb"), Check(".ent", @"\.ent"),
    Check(".tsv", @"\.tsv"), Check(".txt", @"\.txt"), Check(".zip", @"\.zip")]

  const EntGlob: string := @"\.glob\([""\']?\*\.ent[""\']?\)"

  predicate IsMarkdown(c: Cell) {
    c.cellType == "markdown"
  }

  /** The sources of the code cells, in order. */
  function CodeSources(cells: seq<Cell>): (srcs: seq<string>)
    ensures |srcs| <= |cells|
  {
    if cells == [] then []
    else
      var last := cells[|cells| - 1];
      CodeSources(cells[..|cells| - 1]) + (if last.cellType == "code" then [Concat(last.source)] else [])
  }

  /** `all_code`: the code cells' sources joined with newlines. */
  function AllCode(cells: seq<Cell>): string {
    JoinWith("\n", CodeSources(cells))
  }

  // ---------------------------------------------------------------- sections

  /** Some markdown cell, stripped, starts with heading `h`. */
  predicate SectionFound(cells: seq<Cell>, h: string) {
    exists i | 0 <= i < |cells| :: IsMarkdown(cells[i]) && StartsWith(Strip(Concat(cells[i].source)), h)
  }

  /** One issue per heading of `hs` that no markdown cell starts with, in the order of `hs`. */
  function SectionIssues(cells: seq<Cell>, hs: seq<string>): (r: seq<Issue>)
    ensures forall x | x in r :: x.MissingSection?
  {
    if hs == [] then []
    else
      var h := hs[|hs| - 1];
      SectionIssues(cells, hs[..|hs| - 1]) + (if SectionFound(cells, h) then [] else [MissingSection(h)])
  }

  lemma {:induction false} SectionIssuesIff(cells: seq<Cell>, hs: seq<string>, h: string)
    ensures MissingSection(h) in SectionIssues(cells, hs) <==> h in hs && !SectionFound(cells, h)
  {
    if hs != [] {
      SectionIssuesIff(cells, hs[..|hs| - 1], h);
      assert hs == hs[..|hs| - 1] + [hs[|hs| - 1]];
    }
  }

  lemma {:induction false} SectionFoundStep(cells: seq<Cell>, i: nat, h: string)
    requires i < |cells|
    ensures SectionFound(cells[..i + 1], h) <==>
            SectionFound(cells[..i], h) ||
            (IsMarkdown(cells[i]) && StartsWith(Strip(Concat(cells[i].source)), h))
  {
    var pre, pre1 := cells[..i], cells[..i + 1];
    if SectionFound(pre1, h) {
      var j :| 0 <= j < i + 1 && IsMarkdown(pre1[j]) && StartsWith(Strip(Concat(pre1[j].source)), h);
      if j < i {
        assert pre[j] == cells[j];
      }
    }
    if SectionFound(pre, h) {
      var j :| 0 <= j < i && IsMarkdown(pre[j]) && StartsWith(Strip(Concat(pre[j].source)), h);
      assert pre1[j] == cells[j];
    }
    assert pre1[i] == cells[i];
  }

  /** The `found_sections` list: every heading some markdown cell starts with. */
  method FindSections(cells: seq<Cell>, expected: seq<string>) returns (found: seq<string>)
    ensures forall h | h in expected :: h in found <==> SectionFound(cells, h)
  {
    found := [];
    for i := 0 to |cells|
      invariant forall h | h in expected :: h in found <==> SectionFound(cells[..i], h)
    {
      var cell := cells[i];
      if cell.cellType == "markdown" {
        var source := Concat(cell.source);
        found := CollectHeadings(Strip(source), expected, found);
      }
      forall h | h in expected ensures h in found <==> SectionFound(cells[..i + 1], h) {
        SectionFoundStep(cells, i, h);
      }
    }
    assert cells[..|cells|] == cells;
  }

  /** The inner loop over the expected headings for one markdown cell. */
  method CollectHeadings(stripped: string, expected: seq<string>, found0: seq<string>) returns (found: seq<string>)
    ensures forall h | h in expected :: h in found <==> h in found0 || StartsWith(stripped, h)
  {
    found := found0;
    for k := 0 to |expected|
      invariant forall h | h in expected :: h in found <==> h in found0 || (h in expected[..k] && StartsWith(stripped, h))
    {
      if StartsWith(stripped, expected[k]) {
        found := found + [expected[k]];
      }
      assert forall h | h in expected[..k + 1] :: h in expected[..k] || h == expected[k];
    }
    assert expected[..|expected|] == expected;
  }

  /** The loop turning the headings not in `found` into issues. */
  method SectionReport(cells: seq<Cell>, expected: seq<string>, found: seq<string>) returns (issues: seq<Issue>)
    requires forall h | h in expected :: h in found <==> SectionFound(cells, h)
    ensures issues == SectionIssues(cells, expected)
  {
    issues := [];
    for k := 0 to |expected|
      invariant issues == SectionIssues(cells, expected[..k])
    {
      assert expected[..k + 1][..k] == expected[..k];
      if expected[k] !in found {
        issues := issues + [MissingSection(expected[k])];
      }
    }
    assert expected[..|expected|] == expected;
  }

  // ---------------------------------------------------------------- pattern checks

  /** The names of the checks whose pattern does not occur in `code`, in order. */
  function Unmet(checks: seq<Check>, code: string, search: Search): seq<string> {
    if checks == [] then []
    else
      var c := checks[|checks| - 1];
      Unmet(checks[..|checks| - 1], code, search) + (if search(c.pattern, code).None? then [c.name] else [])
  }

  /** A name is reported exactly when some check of that name finds nothing. */
  lemma {:induction false} UnmetIff(checks: seq<Check>, code: string, search: Search, name: string)
    ensures name in Unmet(checks, code, search) <==>
            exists k | 0 <= k < |checks| :: checks[k].name == name && search(checks[k].pattern, code).None?
  {
    if checks != [] {
      var init := checks[..|checks| - 1];
      UnmetIff(init, code, search, name);
      if exists k | 0 <= k < |checks| :: checks[k].name == name && search(checks[k].pattern, code).None? {
        var k :| 0 <= k < |checks| && checks[k].name == name && search(checks[k].pattern, code).None?;
        if k < |init| {
          assert init[k] == checks[k];
        }
      }
      if exists k | 0 <= k < |init| :: init[k].name == name && search(init[k].pattern, code).None? {
        var k :| 0 <= k < |init| && init[k].name == name && search(init[k].pattern, code).None?;
        assert checks[k] == init[k];
      }
    }
  }

  /** The loop over a dictionary of checks. */
  method UnmetChecks(checks: seq<Check>, code: string, search: Search) returns (names: seq<string>)
    ensures names == Unmet(checks, code, search)
  {
    names := [];
    for k := 0 to |checks|
      invariant names == Unmet(checks[..k], code, search)
    {
      assert checks[..k + 1][..k] == checks[..k];
      if search(checks[k].pattern, code).None? {
        names := names + [checks[k].name];
      }
    }
    assert checks[..|checks|] == checks;
  }

  function Warned(g: Group, names: seq<string>): (w: seq<Warning>)
    ensures |w| == |names|
    ensures forall k | 0 <= k < |names| :: w[k] == NotFound(g, names[k])
  {
    seq(|names|, k requires 0 <= k < |names| => NotFound(g, names[k]))
  }

  function DaliIssues(names: seq<string>): (r: seq<Issue>)
    ensures |r| == |names|
    ensures forall k | 0 <= k < |names| :: r[k] == DaliMissing(names[k])
  {
    seq(|names|, k requires 0 <= k < |names| => DaliMissing(names[k]))
  }

  // ---------------------------------------------------------------- workflow order

  /** `last_pos` before flow step `k`: each step found moves it to where that step matched,
      searching from the previous position. */
  function PosBefore(steps: seq<Check>, code: string, search: Search, k: nat): nat
    requires k <= |steps|
  {
    if k == 0 then 0
    else
      var p := PosBefore(steps, code, search, k - 1);
      var m := search(steps[k - 1].pattern, PySlice(code, p, |code|));
      if m.Some? then p + m.value else p
  }

  /** The flow steps not found, each searched for from the position the steps before it left. */
  function FlowMisses(steps: seq<Check>, code: string, search: Search, k: nat): seq<string>
    requires k <= |steps|
  {
    if k == 0 then []
    else
      var p := PosBefore(steps, code, search, k - 1);
      FlowMisses(steps, code, search, k - 1) +
      (if search(steps[k - 1].pattern, PySlice(code, p, |code|)).None? then [steps[k - 1].name] else [])
  }

  /** The search position never moves back, so each step is looked for no earlier than where
      the steps before it were found. */
  lemma {:induction false} PosMonotone(steps: seq<Check>, code: string, search: Search, i: nat, j: nat)
    requires i <= j <= |steps|
    ensures PosBefore(steps, code, search, i) <= PosBefore(steps, code, search, j)
    decreases j - i
  {
    if i < j {
      PosMonotone(steps, code, search, i, j - 1);
    }
  }

  /** A step is reported exactly when its pattern does not occur after the position reached by
      the steps before it. */
  lemma {:induction false} FlowMissIff(steps: seq<Check>, code: string, search: Search, k: nat, name: string)
    requires k <= |steps|
    ensures name in FlowMisses(steps, code, search, k) <==>
            exists j | 0 <= j < k :: steps[j].name == name &&
              search(steps[j].pattern, PySlice(code, PosBefore(steps, code, search, j), |code|)).None?
  {
    if k > 0 {
      FlowMissIff(steps, code, search, k - 1, name);
    }
  }

  /** The loop over `critical_flow` advancing `last_pos`. */
  method CheckFlow(steps: seq<Check>, code: string, search: Search) returns (missed: seq<string>, lastPos: nat)
    ensures missed == FlowMisses(steps, code, search, |steps|)
    ensures lastPos == PosBefore(steps, code, search, |steps|)
  {
    missed, lastPos := [], 0;
    for k := 0 to |steps|
      invariant missed == FlowMisses(steps, code, search, k)
      invariant lastPos == PosBefore(steps, code, search, k)
    {
      var m := search(steps[k].pattern, PySlice(code, lastPos, |code|));
      if m.Some? {
        lastPos := lastPos + m.value;
      } else {
        missed := missed + [steps[k].name];
      }
    }
  }

  // ---------------------------------------------------------------- sections 12 and 13

  /** The indices the loop leaves in `section_12_idx` and `section_13_idx` after the first `n`
      cells: the last markdown cell mentioning heading 12, and the last one mentioning heading
      13 but not heading 12. */
  function SectionIndices(cells: seq<Cell>, n: nat): (r: (Option<nat>, Option<nat>))
    requires n <= |cells|
    ensures r.0.Some? ==> r.0.value < n && IsMarkdown(cells[r.0.value]) &&
                          Contains(Concat(cells[r.0.value].source), Heading12)
    ensures r.1.Some? ==> r.1.value < n && IsMarkdown(cells[r.1.value]) &&
                          !Contains(Concat(cells[r.1.value].source), Heading12) &&
                          Contains(Concat(cells[r.1.value].source), Heading13)
  {
    if n == 0 then (None, None)
    else
      var (i12, i13) := SectionIndices(cells, n - 1);
      var c := cells[n - 1];
      if !IsMarkdown(c) then (i12, i13)
      else if Contains(Concat(c.source), Heading12) then (Some(n - 1), i13)
      else if Contains(Concat(c.source), Heading13) then (i12, Some(n - 1))
      else (i12, i13)
  }

  /** The index of section 12 is that of the last markdown cell mentioning it. */
  lemma {:induction false} Section12Last(cells: seq<Cell>, n: nat, j: nat)
    requires j < n <= |cells|
    requires IsMarkdown(cells[j]) && Contains(Concat(cells[j].source), Heading12)
    ensures SectionIndices(cells, n).0.Some? && j <= SectionIndices(cells, n).0.value
  {
    if j < n - 1 {
      Section12Last(cells, n - 1, j);
    }
  }

  /** Python truthiness of an index: `None` and `0` are both false. */
  predicate Truthy(i: Option<nat>) {
    i.Some? && i.value != 0
  }

  function OrderIssues(idx: (Option<nat>, Option<nat>)): seq<Issue> {
    if Truthy(idx.0) && Truthy(idx.1) && idx.0.value >= idx.1.value then [SectionsOutOfOrder] else []
  }

  function OrderWarnings(idx: (Option<nat>, Option<nat>)): seq<Warning> {
    if Truthy(idx.0) && Truthy(idx.1) then [] else [Sections12Or13Missing]
  }

  /** The loop over the cells recording the two indices. */
  method FindSections12And13(cells: seq<Cell>) returns (idx12: Option<nat>, idx13: Option<nat>)
    ensures (idx12, idx13) == SectionIndices(cells, |cells|)
  {
    idx12, idx13 := None, None;
    for i := 0 to |cells|
      invariant (idx12, idx13) == SectionIndices(cells, i)
    {
      var cell := cells[i];
      if cell.cellType == "markdown" {
        var source := Concat(cell.source);
        if Contains(source, Heading12) {
          idx12 := Some(i);
        } else if Contains(source, Heading13) {
          idx13 := Some(i);
        }
      }
    }
  }

  /** A notebook whose very first cell is section 12 is treated as lacking it: only a warning
      follows, whatever the position of section 13. */
  lemma {:induction false} FirstCellCountsAsMissing(cells: seq<Cell>)
    requires |cells| > 0 && IsMarkdown(cells[0]) && Contains(Concat(cells[0].source), Heading12)
    requires forall j | 0 < j < |cells| :: !(IsMarkdown(cells[j]) && Contains(Concat(cells[j].source), Heading12))
    ensures OrderIssues(SectionIndices(cells, |cells|)) == []
    ensures OrderWarnings(SectionIndices(cells, |cells|)) == [Sections12Or13Missing]
  {
    Section12Last(cells, |cells|, 0);
  }

  // ---------------------------------------------------------------- the whole check

  /** Steps 3 to 5 and 7: code patterns, variables, imports and the try/except balance. */
  function CodeWarnings(code: string, search: Search, count: CountMatches): seq<Warning> {
    var tries, excepts := count(TryPattern, code), count(ExceptPattern, code);
    Warned(CriticalCode, Unmet(CriticalPatterns, code, search)) +
    Warned(Variable, Unmet(VariableChecks(RequiredVars), code, search)) +
    Warned(Import, Unmet(RequiredImports, code, search)) +
    (if tries != excepts then [TryExceptMismatch(tries, excepts)] else [])
  }

  /** Steps 8 and 9: the workflow order and the file extensions. */
  function FlowWarnings(code: string, search: Search): seq<Warning> {
    Warned(FlowStep, FlowMisses(CriticalFlow, code, search, |CriticalFlow|)) +
    Warned(Extension, Unmet(FileExtensions, code, search))
  }

  /** Step 11: the `.ent` glob. */
  function EntIssues(code: string, search: Search): seq<Issue> {
    if search(EntGlob, code).None? then [NoEntGlob] else []
  }

  function AllChecksWarnings(cells: seq<Cell>, search: Search, count: CountMatches): seq<Warning> {
    var code := AllCode(cells);
    CodeWarnings(code, search, count) + FlowWarnings(code, search) + OrderWarnings(SectionIndices(cells, |cells|))
  }

  function AllIssues(cells: seq<Cell>, search: Search): seq<Issue> {
    var code := AllCode(cells);
    SectionIssues(cells, ExpectedSections) +
    DaliIssues(Unmet(DaliChecks, code, search)) +
    OrderIssues(SectionIndices(cells, |cells|)) +
    EntIssues(code, search)
  }

  /** The notebook passes exactly when every expected section is present, every DALI pattern
      occurs, sections 12 and 13 are not out of order and the `.ent` glob is used; no warning
      changes the verdict. */
  lemma {:induction false} VerdictIff(cells: seq<Cell>, search: Search)
    ensures AllIssues(cells, search) == [] <==>
            (forall h | h in ExpectedSections :: SectionFound(cells, h)) &&
            Unmet(DaliChecks, AllCode(cells), search) == [] &&
            OrderIssues(SectionIndices(cells, |cells|)) == [] &&
            search(EntGlob, AllCode(cells)).Some?
  {
    var a := SectionIssues(cells, ExpectedSections);
    if a == [] {
      forall h | h in ExpectedSections ensures SectionFound(cells, h) {
        SectionIssuesIff(cells, ExpectedSections, h);
      }
    } else {
      assert a[0] in a;
      SectionIssuesIff(cells, ExpectedSections, a[0].heading);
    }
  }

  /** `check_notebook`: the issues, the warnings and the verdict. */
  method CheckNotebook(cells: seq<Cell>, search: Search, count: CountMatches)
    returns (ok: bool, issues: seq<Issue>, warnings: seq<Warning>)
    ensures issues == AllIssues(cells, search)
    ensures warnings == AllChecksWarnings(cells, search, count)
    ensures ok <==> issues == []
  {
    var code := JoinWith("\n", CodeSources(cells));
    issues := CheckSections(cells);
    warnings := CheckCode(code, search, count);
    var i := CheckDali(code, search);
    issues := issues + i;
    var w := CheckFlowAndFiles(code, search);
    warnings := warnings + w;
    i, w := CheckOrderAndGlob(cells, code, search);
    issues := issues + i;
    warnings := warnings + w;
    ok := issues == [];
  }

  /** Steps 8 and 9. */
  method CheckFlowAndFiles(code: string, search: Search) returns (w: seq<Warning>)
    ensures w == FlowWarnings(code, search)
  {
    var missed, _ := CheckFlow(CriticalFlow, code, search);
    w := Warned(FlowStep, missed);
    var names := UnmetChecks(FileExtensions, code, search);
    w := w + Warned(Extension, names);
  }

  /** Steps 10 and 11: the order of sections 12 and 13, and the `.ent` glob. */
  method CheckOrderAndGlob(cells: seq<Cell>, code: string, search: Search) returns (issues: seq<Issue>, w: seq<Warning>)
    ensures issues == OrderIssues(SectionIndices(cells, |cells|)) + EntIssues(code, search)
    ensures w == OrderWarnings(SectionIndices(cells, |cells|))
  {
    issues, w := [], [];
    var idx12, idx13 := FindSections12And13(cells);
    if idx12.Some? && idx12.value != 0 && idx13.Some? && idx13.value != 0 {
      if idx12.value >= idx13.value {
        issues := issues + [SectionsOutOfOrder];
      }
    } else {
      w := w + [Sections12Or13Missing];
    }
    var glob := search(EntGlob, code);
    if glob.None? {
      issues := issues + [NoEntGlob];
    }
  }

  /** Step 2, the expected headings: every missing one is an issue. */
  method CheckSections(cells: seq<Cell>) returns (issues: seq<Issue>)
    ensures issues == SectionIssues(cells, ExpectedSections)
  {
    var found := FindSections(cells, ExpectedSections);
    issues := SectionReport(cells, ExpectedSections, found);
  }

  /** Steps 3 to 5 and 7: code patterns, variables, imports and the try/except balance, all
      warnings. */
  method CheckCode(code: string, search: Search, count: CountMatches) returns (w: seq<Warning>)
    ensures w == CodeWarnings(code, search, count)
  {
    var names := UnmetChecks(CriticalPatterns, code, search);
    w := Warned(CriticalCode, names);
    names := UnmetChecks(VariableChecks(RequiredVars), code, search);
    w := w + Warned(Variable, names);
    names := UnmetChecks(RequiredImports, code, search);
    w := w + Warned(Import, names);
    var tries := count(TryPattern, code);
    var excepts := count(ExceptPattern, code);
    if tries != excepts {
      w := w + [TryExceptMismatch(tries, excepts)];
    }
  }

  /** Step 6: every DALI pattern missing is an issue. */
  method CheckDali(code: string, search: Search) returns (issues: seq<Issue>)
    ensures issues == DaliIssues(Unmet(DaliChecks, code, search))
  {
    var names := UnmetChecks(DaliChecks, code, search);
    issues := DaliIssues(names);
  }

  /** The script's entry point: 1 when the notebook file is missing, else 0 exactly when the
      check passes. */
  method CompletenessMain(notebookExists: bool, cells: seq<Cell>, search: Search, count: CountMatches)
    returns (code: int)
    ensures code == (if notebookExists && AllIssues(cells, search) == [] then 0 else 1)
  {
    if !notebookExists {
      return 1;
    }
    var success, _, _ := CheckNotebook(cells, search, count);
    code := if success then 0 else 1;
  }
}
