/** The Colab notebook validator (scripts/validate_notebook.py): structural errors, warnings
    about missing pipeline calls, wildcard imports and local paths, the verdict, the
    environment probe and the exit code of `main`. JSON decoding is an oracle: the notebook
    arrives already parsed, or as `None` when the file is not valid JSON. */
module NotebookValidator {
  import opened Common
  import opened Text

  /** A cell as read from the notebook: `cell_type` and `source` may be absent. */
  datatype Cell = Cell(cellType: Option<string>, source: Option<seq<string>>)

  /** The top level of the notebook: its `cells` and the keys of its `metadata`, each of which
      may be absent. */
  datatype Notebook = Notebook(cells: Option<seq<Cell>>, metadata: Option<set<string>>)

  datatype Error = MissingCells

  datatype Warning =
    | MissingMetadata
    | MissingKeyword(keyword: string)
    | WildcardImport(cell: nat)
    | HardcodedPath(cell: nat)
    | NoColabMetadata

  /** The calls a complete notebook makes somewhere in its code. */
  const Keywords: seq<string> := ["git clone", "pip install", "huggingface_hub", "extract_proteins_from_gbk",
                                  "load_esm3_small", "ensure_p2rank", "smiles_or_file_to_pdbqt", "run_vina",
                                  "build_report"]

  /** The modules whose import must succeed; the optional ones are only reported. */
  const CriticalModules: seq<string> := ["pathlib", "json", "sys", "subprocess"]

  predicate IsCode(c: Cell) {
    c.cellType == Some("code")
  }

  /** `''.join(cell.get('source', []))`. */
  function SourceOf(c: Cell): string {
    Concat(c.source.GetOr([]))
  }

  function CellsOf(nb: Notebook): seq<Cell> {
    nb.cells.GetOr([])
  }

  /** `kw` occurs in the source of some code cell. */
  predicate Found(cells: seq<Cell>, kw: string) {
    exists i | 0 <= i < |cells| :: IsCode(cells[i]) && Contains(SourceOf(cells[i]), kw)
  }

  /** One warning per keyword of `kws` no code cell contains, in the order of `kws`. */
  function KeywordWarnings(cells: seq<Cell>, kws: seq<string>): (w: seq<Warning>)
    ensures forall x | x in w :: x.MissingKeyword?
  {
    if kws == [] then []
    else
      var last := kws[|kws| - 1];
      KeywordWarnings(cells, kws[..|kws| - 1]) + (if Found(cells, last) then [] else [MissingKeyword(last)])
  }

  /** A keyword of `kws` is reported exactly when no code cell contains it. */
  lemma {:induction false} KeywordWarningsIff(cells: seq<Cell>, kws: seq<string>, kw: string)
    ensures MissingKeyword(kw) in KeywordWarnings(cells, kws) <==> kw in kws && !Found(cells, kw)
  {
    if kws != [] {
      var init, last := kws[..|kws| - 1], kws[|kws| - 1];
      KeywordWarningsIff(cells, init, kw);
      assert kws == init + [last];
    }
  }

  /** The warnings about cell `i`: a wildcard import, and a `/home/` or `/Users/` path in a
      cell that never mentions `/content`; markdown cells are not looked at. */
  function CellIssues(i: nat, c: Cell): seq<Warning> {
    if !IsCode(c) then []
    else
      var src := SourceOf(c);
      (if Contains(src, "import *") then [WildcardImport(i)] else []) +
      (if (Contains(src, "/home/") || Contains(src, "/Users/")) && !Contains(src, "/content")
       then [HardcodedPath(i)] else [])
  }

  predicate LocalPath(c: Cell) {
    IsCode(c) && (Contains(SourceOf(c), "/home/") || Contains(SourceOf(c), "/Users/")) &&
    !Contains(SourceOf(c), "/content")
  }

  /** The warnings about the first `n` cells, cell by cell. */
  function CellWarnings(cells: seq<Cell>, n: nat): (w: seq<Warning>)
    requires n <= |cells|
    ensures forall x | x in w :: (x.WildcardImport? || x.HardcodedPath?) && x.cell < n
  {
    if n == 0 then []
    else CellWarnings(cells, n - 1) + CellIssues(n - 1, cells[n - 1])
  }

  /** Cell `i` among the first `n` is reported for a local path exactly when `LocalPath` holds
      of it, and for a wildcard import exactly when its code contains `import *`. */
  lemma {:induction false} CellWarningsIff(cells: seq<Cell>, n: nat, i: nat)
    requires i < n <= |cells|
    ensures HardcodedPath(i) in CellWarnings(cells, n) <==> LocalPath(cells[i])
    ensures WildcardImport(i) in CellWarnings(cells, n) <==>
            IsCode(cells[i]) && Contains(SourceOf(cells[i]), "import *")
  {
    var w0 := CellWarnings(cells, n - 1);
    var last := CellIssues(n - 1, cells[n - 1]);
    assert CellWarnings(cells, n) == w0 + last;
    if i < n - 1 {
      CellWarningsIff(cells, n - 1, i);
      assert HardcodedPath(i) !in last && WildcardImport(i) !in last;
    } else {
      assert HardcodedPath(i) !in w0 && WildcardImport(i) !in w0;
    }
  }

  function Errors(nb: Notebook): (e: seq<Error>)
    ensures e == [] <==> nb.cells.Some?
  {
    if nb.cells.None? then [MissingCells] else []
  }

  /** Every warning `validate_notebook` collects, in its order. */
  function Warnings(nb: Notebook): seq<Warning> {
    (if nb.metadata.None? then [MissingMetadata] else []) +
    KeywordWarnings(CellsOf(nb), Keywords) +
    CellWarnings(CellsOf(nb), |CellsOf(nb)|) +
    (if "colab" in nb.metadata.GetOr({}) then [] else [NoColabMetadata])
  }

  /** The verdict: a notebook that is not valid JSON fails, otherwise only errors count. */
  function Verdict(parsed: Option<Notebook>): (ok: bool)
    ensures ok <==> parsed.Some? && parsed.value.cells.Some?
  {
    parsed.Some? && Errors(parsed.value) == []
  }

  /** A keyword is reported missing exactly when no code cell contains it. */
  lemma {:induction false} MissingKeywordIff(nb: Notebook, kw: string)
    ensures MissingKeyword(kw) in Warnings(nb) <==> kw in Keywords && !Found(CellsOf(nb), kw)
  {
    var w := Warnings(nb);
    var a := if nb.metadata.None? then [MissingMetadata] else [];
    var k := KeywordWarnings(CellsOf(nb), Keywords);
    var c := CellWarnings(CellsOf(nb), |CellsOf(nb)|);
    var z := if "colab" in nb.metadata.GetOr({}) then [] else [NoColabMetadata];
    assert w == a + k + c + z;
    KeywordWarningsIff(CellsOf(nb), Keywords, kw);
    if MissingKeyword(kw) in w {
      assert MissingKeyword(kw) !in a && MissingKeyword(kw) !in c && MissingKeyword(kw) !in z;
    }
  }

  /** Cell `i` is reported for a local path exactly when it is a code cell with `/home/` or
      `/Users/` and without `/content`; warnings never change the verdict. */
  lemma {:induction false} HardcodedPathIff(nb: Notebook, i: nat)
    requires i < |CellsOf(nb)|
    ensures HardcodedPath(i) in Warnings(nb) <==> LocalPath(CellsOf(nb)[i])
    ensures Verdict(Some(nb)) <==> nb.cells.Some?
  {
    var w := Warnings(nb);
    var a := if nb.metadata.None? then [MissingMetadata] else [];
    var k := KeywordWarnings(CellsOf(nb), Keywords);
    var c := CellWarnings(CellsOf(nb), |CellsOf(nb)|);
    var z := if "colab" in nb.metadata.GetOr({}) then [] else [NoColabMetadata];
    assert w == a + k + c + z;
    CellWarningsIff(CellsOf(nb), |CellsOf(nb)|, i);
    if HardcodedPath(i) in w {
      assert HardcodedPath(i) !in a && HardcodedPath(i) !in k && HardcodedPath(i) !in z;
    }
  }

  /** One more cell seen: a keyword is found in the longer prefix iff it was found before or
      the new cell is a code cell containing it. */
  lemma {:induction false} FoundStep(cells: seq<Cell>, i: nat, kw: string)
    requires i < |cells|
    ensures Found(cells[..i + 1], kw) <==>
            Found(cells[..i], kw) || (IsCode(cells[i]) && Contains(SourceOf(cells[i]), kw))
  {
    if Found(cells[..i + 1], kw) {
      var j :| 0 <= j < i + 1 && IsCode(cells[..i + 1][j]) && Contains(SourceOf(cells[..i + 1][j]), kw);
      if j < i {
        assert cells[..i][j] == cells[j];
      }
    }
    if Found(cells[..i], kw) {
      var j :| 0 <= j < i && IsCode(cells[..i][j]) && Contains(SourceOf(cells[..i][j]), kw);
      assert cells[..i + 1][j] == cells[j];
    }
    if IsCode(cells[i]) && Contains(SourceOf(cells[i]), kw) {
      assert cells[..i + 1][i] == cells[i];
    }
  }

  /** `validate_notebook`: `None` when the file was not valid JSON, which fails at once. */
  method ValidateNotebook(parsed: Option<Notebook>) returns (valid: bool, errors: seq<Error>, warnings: seq<Warning>)
    ensures valid == Verdict(parsed)
    ensures parsed.None? ==> errors == [] && warnings == []
    ensures parsed.Some? ==> errors == Errors(parsed.value) && warnings == Warnings(parsed.value)
  {
    if parsed.None? {
      return false, [], [];
    }
    var nb := parsed.value;
    errors, warnings := [], [];
    if nb.cells.None? {
      errors := errors + [MissingCells];
    }
    if nb.metadata.None? {
      warnings := warnings + [MissingMetadata];
    }
    var cells := nb.cells.GetOr([]);
    var found := FindKeywords(cells, Keywords);
    var w := KeywordReport(cells, Keywords, found);
    warnings := warnings + w;
    w := CellReport(cells);
    warnings := warnings + w;
    var metadata := nb.metadata.GetOr({});
    if "colab" !in metadata {
      warnings := warnings + [NoColabMetadata];
    }
    valid := errors == [];
  }

  /** The `found_keywords` dictionary after the loop over the cells. */
  method FindKeywords(cells: seq<Cell>, keywords: seq<string>) returns (found: map<string, bool>)
    ensures forall kw | kw in keywords :: kw in found && (found[kw] <==> Found(cells, kw))
  {
    found := map kw | kw in keywords :: false;
    for i := 0 to |cells|
      invariant forall kw | kw in keywords :: kw in found && (found[kw] <==> Found(cells[..i], kw))
    {
      var cell := cells[i];
      if IsCode(cell) {
        found := MarkKeywords(SourceOf(cell), keywords, found);
      }
      forall kw | kw in keywords ensures Found(cells[..i + 1], kw) <==> found[kw] {
        FoundStep(cells, i, kw);
      }
    }
    assert cells[..|cells|] == cells;
  }

  /** The inner loop: every keyword the cell's source contains is marked found. */
  method MarkKeywords(source: string, keywords: seq<string>, found0: map<string, bool>) returns (found: map<string, bool>)
    requires forall kw | kw in keywords :: kw in found0
    ensures forall kw | kw in keywords :: kw in found && (found[kw] <==> found0[kw] || Contains(source, kw))
  {
    found := found0;
    for k := 0 to |keywords|
      invariant forall kw | kw in keywords ::
        kw in found && (found[kw] <==> found0[kw] || (kw in keywords[..k] && Contains(source, kw)))
    {
      if Contains(source, keywords[k]) {
        found := found[keywords[k] := true];
      }
      assert forall kw | kw in keywords[..k + 1] :: kw in keywords[..k] || kw == keywords[k];
    }
    assert keywords[..|keywords|] == keywords;
  }

  /** The warnings for the keywords the dictionary marks as not found. */
  method KeywordReport(cells: seq<Cell>, keywords: seq<string>, found: map<string, bool>) returns (w: seq<Warning>)
    requires forall kw | kw in keywords :: kw in found && (found[kw] <==> Found(cells, kw))
    ensures w == KeywordWarnings(cells, keywords)
  {
    w := [];
    for k := 0 to |keywords|
      invariant w == KeywordWarnings(cells, keywords[..k])
    {
      assert keywords[..k + 1][..k] == keywords[..k];
      if !found[keywords[k]] {
        w := w + [MissingKeyword(keywords[k])];
      }
    }
    assert keywords[..|keywords|] == keywords;
  }

  /** The loop over the cells looking for wildcard imports and local paths. */
  method CellReport(cells: seq<Cell>) returns (w: seq<Warning>)
    ensures w == CellWarnings(cells, |cells|)
  {
    w := [];
    for i := 0 to |cells|
      invariant w == CellWarnings(cells, i)
    {
      var cell := cells[i];
      if IsCode(cell) {
        var source := SourceOf(cell);
        if Contains(source, "import *") {
          w := w + [WildcardImport(i)];
        }
        if Contains(source, "/home/") || Contains(source, "/Users/") {
          if !Contains(source, "/content") {
            w := w + [HardcodedPath(i)];
          }
        }
      }
    }
  }

  /** `check_imports`: true iff every critical module imports; `importable` answers
      `__import__`. */
  method CheckImports(importable: string -> bool) returns (allCritical: bool)
    ensures allCritical <==> forall m | m in CriticalModules :: importable(m)
  {
    allCritical := true;
    for k := 0 to |CriticalModules|
      invariant allCritical <==> forall m | m in CriticalModules[..k] :: importable(m)
    {
      assert forall m | m in CriticalModules[..k + 1] :: m in CriticalModules[..k] || m == CriticalModules[k];
      if !importable(CriticalModules[k]) {
        allCritical := false;
      }
    }
    assert CriticalModules[..|CriticalModules|] == CriticalModules;
  }

  /** `main`: 1 when the notebook file is missing or not valid, 0 otherwise, whatever the
      environment check says. */
  method ValidatorMain(notebookExists: bool, parsed: Option<Notebook>, importable: string -> bool)
    returns (code: int)
    ensures code == (if notebookExists && Verdict(parsed) then 0 else 1)
  {
    if !notebookExists {
      return 1;
    }
    var nbValid, _, _ := ValidateNotebook(parsed);
    var envValid := CheckImports(importable);
    if nbValid && envValid {
      code := 0;
    } else if nbValid && !envValid {
      code := 0;
    } else {
      code := 1;
    }
  }
}
