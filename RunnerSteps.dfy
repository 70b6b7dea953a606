/** The steps of the command-line runner's `main` (scripts/runner.py): which pipeline stages
    run and in what order, what each stage is handed, where the pockets for docking come from,
    which ligand is prepared, and the exit code. The stages themselves are oracles here: each
    answers with a value or an exception, and the run records the calls it makes. */
module RunnerSteps {
  import opened Common
  import opened Table
  import opened Config

  /** The parsed command line (logging options other than `--quiet` are left out). */
  datatype Flags = Flags(
    config: Option<Path>, gbkDir: Path, base: Path,
    limit: int, minLen: int, maxLen: int,
    parseGbk: bool, predict: bool, p2rank: bool, vina: bool, report: bool,
    smiles: string, ligand: Option<Path>,
    parallel: bool, workers: int, noCache: bool, quiet: bool)

  /** The calls the runner makes to the stages, with the arguments it passes. */
  datatype Call =
    | ExtractProteins(gbkDir: Path, fasta: Path)
    | FilterAndSelect(input: Path, minLen: int, maxLen: int, limit: int, output: Path)
    | LoadModel(useCache: bool)
    | ReadSelected(fasta: Path)
    | PredictPdbs(pdbDir: Path, numSteps: int, showProgress: bool, cachePredictions: bool)
    | ClearModelCache
    | EnsureP2Rank(base: Path, version: string)
    | RunP2Rank(jar: Path, pdbDir: Path, threads: int, visualizations: int)
    | WritePockets(csv: Path)
    | ReadPockets(csv: Path)
    | PrepareLigand(ligand: string, base: Path)
    | RunVina(pdbqt: Path, pockets: seq<Row>, base: Path, boxSize: int, exhaustiveness: int,
              numModes: int, parallel: bool, maxWorkers: int)
    | WriteDocking(csv: Path)
    | BuildReport(base: Path, pdbDir: Path, pdf: Path)

  /** What the stages answer: a value, or the exception they raise. `present` tells which files
      were there before the run; `selected` is the number of records read back from
      `selected.faa`. */
  datatype Stages = Stages(
    present: Path -> bool,
    extract: (Path, Path) -> Result<nat>,
    filter: (Path, int, int, int, Path) -> Result<nat>,
    load: bool -> Result<()>,
    selected: Path -> Result<nat>,
    predict: (Path, int, bool, bool) -> Result<()>,
    ensureP2Rank: (Path, string) -> Result<Option<Path>>,
    p2rank: (Path, Path, int, int) -> Result<seq<Row>>,
    readPockets: Path -> Result<seq<Row>>,
    ligand: (string, Path) -> Result<Option<Path>>,
    vina: (Path, seq<Row>, Path, int, int, int, bool, int) -> Result<seq<Row>>,
    report: (Path, Path, Path) -> Result<()>)

  function AllProteins(v: Values): Path { Join(v.baseDir, "all_proteins.faa") }
  function Selected(v: Values): Path { Join(v.baseDir, "selected.faa") }
  function PocketsCsv(v: Values): Path { Join(v.baseDir, "pockets_summary.csv") }
  function DockingCsv(v: Values): Path { Join(v.baseDir, "vina_results.csv") }
  function ReportPdf(v: Values): Path { Join(v.baseDir, "esm3_results_report.pdf") }

  /** The exit code for an exception that reaches `main`: 130 for an interrupt, 1 for a
      `ProtFlowError` and for any other exception. */
  function ExitCode(e: ErrorKind): (code: int)
    ensures code == 130 <==> e.KeyboardInterrupt?
    ensures IsProtFlowError(e) ==> code == 1
    ensures code == 1 || code == 130
  {
    if e.KeyboardInterrupt? then 130 else 1
  }

  /** A run in progress: the calls made so far, the files it wrote, the exit code once it has
      returned, and the pocket table of the P2Rank stage (`pockets_df`). */
  datatype Run = Run(trace: seq<Call>, made: set<Path>, exit: Option<int>, pockets: Option<seq<Row>>)

  const Start := Run([], {}, None, None)

  predicate Exists(st: Stages, r: Run, p: Path) {
    p in r.made || st.present(p)
  }

  /** Filtering (and so every later stage's input) is needed by any of these four. */
  predicate NeedsSelection(f: Flags) {
    f.predict || f.p2rank || f.vina || f.report
  }

  /** `r` followed by the stages' calls, with nothing before removed. */
  predicate Extends(r: Run, r': Run) {
    |r.trace| <= |r'.trace| && r'.trace[..|r.trace|] == r.trace && r.made <= r'.made &&
    (r.exit.Some? ==> r' == r)
  }

  /** The step of `main` that makes each call: 1 parsing, 2 filtering, 3 prediction, 4 pocket
      detection, 5 docking, 6 the report. */
  function StageOf(c: Call): nat {
    match c
    case ExtractProteins(_, _) => 1
    case FilterAndSelect(_, _, _, _, _) => 2
    case LoadModel(_) => 3
    case ReadSelected(_) => 3
    case PredictPdbs(_, _, _, _) => 3
    case ClearModelCache => 3
    case EnsureP2Rank(_, _) => 4
    case RunP2Rank(_, _, _, _) => 4
    case WritePockets(_) => 4
    case ReadPockets(_) => 5
    case PrepareLigand(_, _) => 5
    case RunVina(_, _, _, _, _, _, _, _) => 5
    case WriteDocking(_) => 5
    case BuildReport(_, _, _) => 6
  }

  /** Every call `r'` adds to `r` belongs to step `k`. */
  predicate AddsOnly(r: Run, r': Run, k: nat) {
    forall i | |r.trace| <= i < |r'.trace| :: StageOf(r'.trace[i]) == k
  }

  /** The calls of `t` come step by step, none after a later step's. */
  predicate InStepOrder(t: seq<Call>) {
    forall i, j | 0 <= i < j < |t| :: StageOf(t[i]) <= StageOf(t[j])
  }

  predicate UpTo(t: seq<Call>, k: nat) {
    forall i | 0 <= i < |t| :: StageOf(t[i]) <= k
  }

  /** Step 1, `--parse-gbk`: extraction writes `all_proteins.faa`. */
  function ParseStep(f: Flags, v: Values, st: Stages, r: Run): (r': Run)
    ensures Extends(r, r') && AddsOnly(r, r', 1) && (Settled(r) ==> Settled(r'))
    ensures r.exit.None? && f.parseGbk && st.extract(v.gbkDir, AllProteins(v)).Ok? ==>
            r'.exit.None? && AllProteins(v) in r'.made
    ensures !f.parseGbk ==> r' == r
  {
    if r.exit.Some? || !f.parseGbk then r
    else
      var t := r.trace + [ExtractProteins(v.gbkDir, AllProteins(v))];
      match st.extract(v.gbkDir, AllProteins(v))
      case Err(e) => r.(trace := t, exit := Some(ExitCode(e)))
      case Ok(_) => r.(trace := t, made := r.made + {AllProteins(v)})
  }

  /** Step 2: when a later stage is requested, a missing `all_proteins.faa` ends the run with 1
      before anything is filtered; otherwise `selected.faa` is written from it with the
      configured bounds. */
  function FilterStep(f: Flags, v: Values, st: Stages, r: Run): (r': Run)
    ensures Extends(r, r') && AddsOnly(r, r', 2) && (Settled(r) ==> Settled(r'))
    ensures !NeedsSelection(f) ==> r' == r
    ensures r.exit.None? && NeedsSelection(f) && !Exists(st, r, AllProteins(v)) ==>
            r' == r.(exit := Some(1))
    ensures r.exit.None? && NeedsSelection(f) && Exists(st, r, AllProteins(v)) ==>
            r'.trace == r.trace + [FilterAndSelect(AllProteins(v), v.minSeqLength, v.maxSeqLength,
                                                   v.maxSequences, Selected(v))]
  {
    if r.exit.Some? || !NeedsSelection(f) then r
    else if !Exists(st, r, AllProteins(v)) then r.(exit := Some(1))
    else
      var c := FilterAndSelect(AllProteins(v), v.minSeqLength, v.maxSeqLength, v.maxSequences, Selected(v));
      match st.filter(AllProteins(v), v.minSeqLength, v.maxSeqLength, v.maxSequences, Selected(v))
      case Err(e) => r.(trace := r.trace + [c], exit := Some(ExitCode(e)))
      case Ok(_) => r.(trace := r.trace + [c], made := r.made + {Selected(v)})
  }

  /** Step 3, `--predict`: the model is loaded with the cache switch, the selected records are
      read back, an empty selection ends the run with 1, and otherwise the structures are
      predicted; the model is dropped afterwards when caching is off. */
  function PredictStep(f: Flags, v: Values, st: Stages, r: Run): (r': Run)
    ensures Extends(r, r') && AddsOnly(r, r', 3) && (Settled(r) ==> Settled(r'))
    ensures !f.predict ==> r' == r
  {
    if r.exit.Some? || !f.predict then r
    else
      var t1 := r.trace + [LoadModel(v.enableCache)];
      if st.load(v.enableCache).Err? then r.(trace := t1, exit := Some(ExitCode(st.load(v.enableCache).error)))
      else
        var t2 := t1 + [ReadSelected(Selected(v))];
        var seqs := st.selected(Selected(v));
        if seqs.Err? then r.(trace := t2, exit := Some(ExitCode(seqs.error)))
        else if seqs.value == 0 then r.(trace := t2, exit := Some(1))
        else
          var t3 := t2 + [PredictPdbs(v.pdbDir, v.esm3NumSteps, !f.quiet, v.enableCache)];
          var done := st.predict(v.pdbDir, v.esm3NumSteps, !f.quiet, v.enableCache);
          if done.Err? then r.(trace := t3, exit := Some(ExitCode(done.error)))
          else if !v.enableCache then r.(trace := t3 + [ClearModelCache])
          else r.(trace := t3)
  }

  /** An empty selection ends step 3 with 1 right after it is read, and no structure is
      predicted unless the selection has records. */
  lemma {:induction false} PredictNeedsRecords(f: Flags, v: Values, st: Stages, r: Run)
    ensures var r' := PredictStep(f, v, st, r);
      (r.exit.None? && f.predict && st.load(v.enableCache).Ok? && st.selected(Selected(v)) == Ok(0) ==>
         r' == r.(trace := r.trace + [LoadModel(v.enableCache), ReadSelected(Selected(v))], exit := Some(1))) &&
      (st.selected(Selected(v)) == Ok(0) && ReadSelected(Selected(v)) in r'.trace[|r.trace|..] ==> r'.exit == Some(1)) &&
      (forall i | |r.trace| <= i < |r'.trace| && r'.trace[i].PredictPdbs? ::
         st.selected(Selected(v)).Ok? && st.selected(Selected(v)).value > 0)
  {
    var r' := PredictStep(f, v, st, r);
    if r.exit.None? && f.predict && st.load(v.enableCache).Ok? {
      var t2 := r.trace + [LoadModel(v.enableCache), ReadSelected(Selected(v))];
      assert t2[|r.trace|..] == [LoadModel(v.enableCache), ReadSelected(Selected(v))];
    }
  }

  /** A completed step 3 ends with the prediction, or with dropping the model when caching is
      off. */
  lemma {:induction false} PredictEnds(f: Flags, v: Values, st: Stages, r: Run)
    requires r.exit.None? && f.predict && PredictStep(f, v, st, r).exit.None?
    ensures var t := PredictStep(f, v, st, r).trace;
      |t| > 0 && t[|t| - 1] == (if v.enableCache then PredictPdbs(v.pdbDir, v.esm3NumSteps, !f.quiet, true)
                                else ClearModelCache)
  {
  }

  /** How a P2Rank failure inside the stage's `try` is handled: an interrupt is not an
      `Exception` and ends the run with 130, anything else is only logged. */
  function P2RankFailure(r: Run, t: seq<Call>, e: ErrorKind): Run {
    if e.KeyboardInterrupt? then r.(trace := t, exit := Some(130)) else r.(trace := t)
  }

  /** Step 4, `--p2rank`: the pocket table is kept for docking, and `pockets_summary.csv` is
      written only when it has rows; a failure of the stage is logged and the run goes on. */
  function P2RankStep(f: Flags, v: Values, st: Stages, r: Run): (r': Run)
    ensures Extends(r, r') && AddsOnly(r, r', 4) && (Settled(r) ==> Settled(r'))
    ensures !f.p2rank ==> r' == r
    ensures r.exit.None? && r'.exit.Some? ==> r'.exit == Some(130)
  {
    if r.exit.Some? || !f.p2rank then r
    else
      var t1 := r.trace + [EnsureP2Rank(v.baseDir, v.p2rankVersion)];
      var jar := st.ensureP2Rank(v.baseDir, v.p2rankVersion);
      if jar.Err? then P2RankFailure(r, t1, jar.error)
      else if jar.value.None? then r.(trace := t1)
      else
        var t2 := t1 + [RunP2Rank(jar.value.value, v.pdbDir, v.p2rankThreads, v.p2rankVisualizations)];
        var results := st.p2rank(jar.value.value, v.pdbDir, v.p2rankThreads, v.p2rankVisualizations);
        if results.Err? then P2RankFailure(r, t2, results.error)
        else if results.value == [] then r.(trace := t2, pockets := Some([]))
        else r.(trace := t2 + [WritePockets(PocketsCsv(v))], made := r.made + {PocketsCsv(v)},
                pockets := Some(results.value))
  }

  /** Step 4 writes `pockets_summary.csv` exactly when it produced a non-empty table, and the
      table it keeps is the one P2Rank returned with the installed jar. */
  lemma {:induction false} P2RankPockets(f: Flags, v: Values, st: Stages, r: Run)
    requires r.pockets.None?
    ensures var r' := P2RankStep(f, v, st, r);
      (WritePockets(PocketsCsv(v)) in r'.trace[|r.trace|..] <==> r'.pockets.Some? && r'.pockets.value != []) &&
      (r'.pockets.Some? ==>
         r.exit.None? && f.p2rank && st.ensureP2Rank(v.baseDir, v.p2rankVersion).Ok? &&
         st.ensureP2Rank(v.baseDir, v.p2rankVersion).value.Some? &&
         var jar := st.ensureP2Rank(v.baseDir, v.p2rankVersion).value.value;
         st.p2rank(jar, v.pdbDir, v.p2rankThreads, v.p2rankVisualizations) == Ok(r'.pockets.value))
  {
    var r' := P2RankStep(f, v, st, r);
    if r.exit.None? && f.p2rank {
      var t1 := r.trace + [EnsureP2Rank(v.baseDir, v.p2rankVersion)];
      assert t1[|r.trace|..] == [EnsureP2Rank(v.baseDir, v.p2rankVersion)];
      var jar := st.ensureP2Rank(v.baseDir, v.p2rankVersion);
      if jar.Ok? && jar.value.Some? {
        var t2 := t1 + [RunP2Rank(jar.value.value, v.pdbDir, v.p2rankThreads, v.p2rankVisualizations)];
        assert t2[|r.trace|..] == [EnsureP2Rank(v.baseDir, v.p2rankVersion),
                                   RunP2Rank(jar.value.value, v.pdbDir, v.p2rankThreads, v.p2rankVisualizations)];
        assert (t2 + [WritePockets(PocketsCsv(v))])[|r.trace|..] == t2[|r.trace|..] + [WritePockets(PocketsCsv(v))];
      }
    }
  }

  /** The pocket table docking uses: this run's P2Rank table when there is one (even an empty
      one), else `pockets_summary.csv` read back when it exists, else no pockets. */
  function DockingPockets(v: Values, st: Stages, r: Run): (res: (Run, seq<Row>))
    ensures r.pockets.Some? ==> res == (r, r.pockets.value)
    ensures Settled(r) ==> Settled(res.0)
    ensures res.0.pockets == r.pockets && res.0.made == r.made
    ensures res.0.trace == r.trace || res.0.trace == r.trace + [ReadPockets(PocketsCsv(v))]
    ensures r.pockets.None? && !Exists(st, r, PocketsCsv(v)) ==> res == (r, [])
    ensures r.pockets.None? && Exists(st, r, PocketsCsv(v)) ==>
            res.0.trace == r.trace + [ReadPockets(PocketsCsv(v))] &&
            match st.readPockets(PocketsCsv(v))
            case Ok(rows) => res == (r.(trace := res.0.trace), rows)
            case Err(e) => res.0 == r.(trace := res.0.trace, exit := Some(ExitCode(e))) && res.1 == []
  {
    if r.pockets.Some? then (r, r.pockets.value)
    else if !Exists(st, r, PocketsCsv(v)) then (r, [])
    else
      var t := r.trace + [ReadPockets(PocketsCsv(v))];
      match st.readPockets(PocketsCsv(v))
      case Ok(rows) => (r.(trace := t), rows)
      case Err(e) => (r.(trace := t, exit := Some(ExitCode(e))), [])
  }

  /** The ligand to prepare: `--ligand` when given, else `--smiles` when not empty, else none. */
  function LigandInput(f: Flags): (l: Option<string>)
    ensures f.ligand.Some? ==> l == Some(f.ligand.value)
    ensures f.ligand.None? ==> (l.Some? <==> f.smiles != "") && (l.Some? ==> l.value == f.smiles)
  {
    if f.ligand.Some? then Some(f.ligand.value)
    else if f.smiles != "" then Some(f.smiles)
    else None
  }

  /** Docking once pockets and a prepared ligand are there; the results go to `vina_results.csv`. */
  function Dock(f: Flags, v: Values, st: Stages, r: Run, pockets: seq<Row>, pdbqt: Path): (r': Run)
    ensures var c := RunVina(pdbqt, pockets, v.baseDir, v.vinaBoxSize, v.vinaExhaustiveness, v.vinaNumModes,
                             f.parallel, v.maxWorkers);
      var ok := st.vina(pdbqt, pockets, v.baseDir, v.vinaBoxSize, v.vinaExhaustiveness, v.vinaNumModes,
                        f.parallel, v.maxWorkers).Ok?;
      r'.trace == r.trace + (if ok then [c, WriteDocking(DockingCsv(v))] else [c]) &&
      (ok ==> r'.exit == r.exit && DockingCsv(v) in r'.made) && (!ok ==> r'.exit.Some?) && r.made <= r'.made
    ensures Settled(r) ==> Settled(r')
  {
    var c := RunVina(pdbqt, pockets, v.baseDir, v.vinaBoxSize, v.vinaExhaustiveness, v.vinaNumModes,
                     f.parallel, v.maxWorkers);
    match st.vina(pdbqt, pockets, v.baseDir, v.vinaBoxSize, v.vinaExhaustiveness, v.vinaNumModes,
                  f.parallel, v.maxWorkers)
    case Err(e) => r.(trace := r.trace + [c], exit := Some(ExitCode(e)))
    case Ok(_) => r.(trace := r.trace + [c, WriteDocking(DockingCsv(v))], made := r.made + {DockingCsv(v)})
  }

  /** Every ligand preparation `r'` adds to `r` is of the `--ligand`/`--smiles` choice. */
  predicate PreparesChosenLigand(f: Flags, v: Values, r: Run, r': Run) {
    forall i | |r.trace| <= i < |r'.trace| && r'.trace[i].PrepareLigand? ::
      LigandInput(f).Some? && r'.trace[i] == PrepareLigand(LigandInput(f).value, v.baseDir)
  }

  /** Every docking run `r'` adds to `r` has pockets and the file the ligand preparation made. */
  predicate DocksPreparedLigand(f: Flags, v: Values, st: Stages, r: Run, r': Run) {
    forall i | |r.trace| <= i < |r'.trace| && r'.trace[i].RunVina? ::
      r'.trace[i].pockets != [] && LigandInput(f).Some? &&
      st.ligand(LigandInput(f).value, v.baseDir) == Ok(Some(r'.trace[i].pdbqt))
  }

  /** With pockets at hand: the chosen ligand is prepared, and docked when preparation gives a
      file; with no ligand given nothing is called. */
  function LigandAndDock(f: Flags, v: Values, st: Stages, r: Run, pockets: seq<Row>): (r': Run)
    requires r.exit.None? && pockets != []
    ensures Extends(r, r') && AddsOnly(r, r', 5) && (Settled(r) ==> Settled(r'))
    ensures PreparesChosenLigand(f, v, r, r') && DocksPreparedLigand(f, v, st, r, r')
    ensures LigandInput(f).None? ==> r' == r
  {
    var lig := LigandInput(f);
    if lig.None? then r
    else
      var r2 := r.(trace := r.trace + [PrepareLigand(lig.value, v.baseDir)]);
      match st.ligand(lig.value, v.baseDir)
      case Err(e) => r2.(exit := Some(ExitCode(e)))
      case Ok(None) => r2
      case Ok(Some(pdbqt)) =>
        PreparedThenDocked(f, v, st, r, pockets, pdbqt);
        Dock(f, v, st, r2, pockets, pdbqt)
  }

  /** The calls of a preparation that gave a file followed by its docking run. */
  lemma {:induction false} PreparedThenDocked(f: Flags, v: Values, st: Stages, r: Run, pockets: seq<Row>, pdbqt: Path)
    requires r.exit.None? && pockets != [] && LigandInput(f).Some?
    requires st.ligand(LigandInput(f).value, v.baseDir) == Ok(Some(pdbqt))
    ensures var r3 := Dock(f, v, st, r.(trace := r.trace + [PrepareLigand(LigandInput(f).value, v.baseDir)]), pockets, pdbqt);
      Extends(r, r3) && AddsOnly(r, r3, 5) && (Settled(r) ==> Settled(r3)) &&
      PreparesChosenLigand(f, v, r, r3) && DocksPreparedLigand(f, v, st, r, r3)
  {
    var r2 := r.(trace := r.trace + [PrepareLigand(LigandInput(f).value, v.baseDir)]);
    var r3 := Dock(f, v, st, r2, pockets, pdbqt);
    assert r3.trace[..|r.trace|] == r.trace;
    assert r3.trace[|r.trace|] == PrepareLigand(LigandInput(f).value, v.baseDir);
    forall i | |r.trace| < i < |r3.trace| ensures r3.trace[i].RunVina? ==> r3.trace[i].pdbqt == pdbqt && r3.trace[i].pockets == pockets {
    }
  }

  /** Step 5, `--vina`: no pockets, or no ligand, or a ligand whose preparation gives nothing,
      means no docking (only logged); otherwise the ligand is prepared from `--ligand` before
      `--smiles` and docked into every pocket. */
  function VinaStep(f: Flags, v: Values, st: Stages, r: Run): (r': Run)
    ensures Extends(r, r') && AddsOnly(r, r', 5) && (Settled(r) ==> Settled(r'))
    ensures !f.vina ==> r' == r
    ensures PreparesChosenLigand(f, v, r, r') && DocksPreparedLigand(f, v, st, r, r')
    ensures r.exit.None? && f.vina && DockingPockets(v, st, r).1 == [] ==>
            r' == DockingPockets(v, st, r).0
  {
    if r.exit.Some? || !f.vina then r
    else
      var (r1, pockets) := DockingPockets(v, st, r);
      if r1.exit.Some? || pockets == [] then r1
      else
        var r2 := LigandAndDock(f, v, st, r1, pockets);
        AfterPocketsRead(f, v, st, r, r1, r2);
        r2
  }

  /** A pocket table read before the ligand and docking calls leaves their properties intact. */
  lemma {:induction false} AfterPocketsRead(f: Flags, v: Values, st: Stages, r: Run, r1: Run, r2: Run)
    requires r1.trace == r.trace || r1.trace == r.trace + [ReadPockets(PocketsCsv(v))]
    requires Extends(r1, r2) && AddsOnly(r1, r2, 5)
    requires PreparesChosenLigand(f, v, r1, r2) && DocksPreparedLigand(f, v, st, r1, r2)
    ensures |r.trace| <= |r2.trace| && r2.trace[..|r.trace|] == r.trace
    ensures AddsOnly(r, r2, 5) && PreparesChosenLigand(f, v, r, r2) && DocksPreparedLigand(f, v, st, r, r2)
  {
    assert r1.trace[..|r.trace|] == r.trace;
    forall i | |r.trace| <= i < |r1.trace| ensures r2.trace[i] == ReadPockets(PocketsCsv(v)) {
      assert r2.trace[i] == r1.trace[i];
    }
  }

  /** Step 6, `--report`. */
  function ReportStep(f: Flags, v: Values, st: Stages, r: Run): (r': Run)
    ensures Extends(r, r') && AddsOnly(r, r', 6) && (Settled(r) ==> Settled(r'))
    ensures r.exit.None? && f.report ==> r'.trace == r.trace + [BuildReport(v.baseDir, v.pdbDir, ReportPdf(v))]
    ensures !f.report ==> r' == r
  {
    if r.exit.Some? || !f.report then r
    else
      var t := r.trace + [BuildReport(v.baseDir, v.pdbDir, ReportPdf(v))];
      match st.report(v.baseDir, v.pdbDir, ReportPdf(v))
      case Err(e) => r.(trace := t, exit := Some(ExitCode(e)))
      case Ok(_) => r.(trace := t)
  }

  /** Step `k` of `main`. */
  function StepAt(k: nat, f: Flags, v: Values, st: Stages, r: Run): (r': Run)
    requires 1 <= k <= 6
    ensures Extends(r, r') && AddsOnly(r, r', k) && (Settled(r) ==> Settled(r'))
  {
    if k == 1 then ParseStep(f, v, st, r)
    else if k == 2 then FilterStep(f, v, st, r)
    else if k == 3 then PredictStep(f, v, st, r)
    else if k == 4 then P2RankStep(f, v, st, r)
    else if k == 5 then VinaStep(f, v, st, r)
    else ReportStep(f, v, st, r)
  }

  /** The run after the first `k` steps; any early return in it is 1 or 130. */
  function After(k: nat, f: Flags, v: Values, st: Stages): (r: Run)
    requires k <= 6
    ensures Settled(r)
  {
    if k == 0 then Start else StepAt(k, f, v, st, After(k - 1, f, v, st))
  }

  /** `main` once the configuration is in place: the six steps in order, then 0 when no step
      returned early. */
  function Pipeline(f: Flags, v: Values, st: Stages): (res: (int, seq<Call>))
    ensures res.0 == 0 || res.0 == 1 || res.0 == 130
  {
    var r := After(6, f, v, st);
    (if r.exit.Some? then r.exit.value else 0, r.trace)
  }

  predicate Settled(r: Run) {
    r.exit.None? || r.exit.value == 1 || r.exit.value == 130
  }

  /** A later run's trace starts with an earlier run's. */
  lemma {:induction false} PrefixAcross(f: Flags, v: Values, st: Stages, a: nat, b: nat)
    requires a <= b <= 6
    ensures |After(a, f, v, st).trace| <= |After(b, f, v, st).trace|
    ensures After(b, f, v, st).trace[..|After(a, f, v, st).trace|] == After(a, f, v, st).trace
    decreases b - a
  {
    if a < b {
      PrefixAcross(f, v, st, a + 1, b);
      StepAdds(f, v, st, a + 1);
      ExtendsTrans(After(a, f, v, st), After(a + 1, f, v, st), After(b, f, v, st));
    }
  }

  lemma {:induction false} ExtendsTrans(r1: Run, r2: Run, r3: Run)
    requires Extends(r1, r2) && |r2.trace| <= |r3.trace| && r3.trace[..|r2.trace|] == r2.trace
    ensures |r1.trace| <= |r3.trace| && r3.trace[..|r1.trace|] == r1.trace
  {
    assert r3.trace[..|r2.trace|][..|r1.trace|] == r3.trace[..|r1.trace|];
  }

  /** Once a run has returned, the later steps change nothing. */
  lemma {:induction false} ExitsStick(f: Flags, v: Values, st: Stages, a: nat, b: nat)
    requires a <= b <= 6 && After(a, f, v, st).exit.Some?
    ensures After(b, f, v, st) == After(a, f, v, st)
    decreases b - a
  {
    if a < b {
      assert After(a + 1, f, v, st) == After(a, f, v, st);
      ExitsStick(f, v, st, a + 1, b);
    }
  }

  /** Without a stage that needs the selection only GenBank parsing can happen. */
  lemma {:induction false} OnlyParsing(f: Flags, v: Values, st: Stages, k: nat)
    requires !NeedsSelection(f) && 1 <= k <= 6
    ensures After(k, f, v, st) == ParseStep(f, v, st, Start)
  {
    if k > 1 {
      OnlyParsing(f, v, st, k - 1);
    }
  }

  /** Without `--predict`, `--p2rank`, `--vina` or `--report`, the run makes at most the
      extraction call. */
  lemma {:induction false} ParsingAlone(f: Flags, v: Values, st: Stages)
    requires !NeedsSelection(f)
    ensures Pipeline(f, v, st).1 == ParseStep(f, v, st, Start).trace
    ensures Pipeline(f, v, st).1 == if f.parseGbk then [ExtractProteins(v.gbkDir, AllProteins(v))] else []
  {
    OnlyParsing(f, v, st, 6);
  }

  /** A later stage with no `all_proteins.faa` on disk and no parsing step to write it: the
      run returns 1 having called nothing. */
  lemma {:induction false} MissingFastaStops(f: Flags, v: Values, st: Stages)
    requires NeedsSelection(f) && !f.parseGbk && !st.present(AllProteins(v))
    ensures Pipeline(f, v, st) == (1, [])
  {
    assert After(1, f, v, st) == Start;
    assert After(2, f, v, st) == Start.(exit := Some(1));
    ExitsStick(f, v, st, 2, 6);
  }

  /** When the report is requested and the run completes, building it is the last call. */
  lemma {:induction false} CompletedReportLast(f: Flags, v: Values, st: Stages)
    requires f.report && Pipeline(f, v, st).0 == 0
    ensures var t := Pipeline(f, v, st).1;
      |t| > 0 && t[|t| - 1] == BuildReport(v.baseDir, v.pdbDir, ReportPdf(v))
  {
    var r5 := After(5, f, v, st);
    if r5.exit.Some? {
      ExitsStick(f, v, st, 5, 6);
    }
    assert After(6, f, v, st) == ReportStep(f, v, st, r5);
  }

  /** Appending one step's calls after calls of no later step keeps the calls in step order. */
  lemma {:induction false} StepOrderKept(r: Run, r': Run, k: nat)
    requires InStepOrder(r.trace) && UpTo(r.trace, k) && Extends(r, r') && AddsOnly(r, r', k)
    ensures InStepOrder(r'.trace) && UpTo(r'.trace, k)
  {
    forall i, j | 0 <= i < j < |r'.trace|
      ensures StageOf(r'.trace[i]) <= StageOf(r'.trace[j])
    {
      if j < |r.trace| {
        assert r'.trace[i] == r.trace[i] && r'.trace[j] == r.trace[j];
      } else if i < |r.trace| {
        assert r'.trace[i] == r.trace[i];
      }
    }
    forall i | 0 <= i < |r'.trace|
      ensures StageOf(r'.trace[i]) <= k
    {
      if i < |r.trace| {
        assert r'.trace[i] == r.trace[i];
      }
    }
  }

  /** After `k` steps the calls are in step order and none is of a later step. */
  lemma {:induction false} AfterInOrder(f: Flags, v: Values, st: Stages, k: nat)
    requires k <= 6
    ensures InStepOrder(After(k, f, v, st).trace) && UpTo(After(k, f, v, st).trace, k)
  {
    if k > 0 {
      AfterInOrder(f, v, st, k - 1);
      StepOrderKept(After(k - 1, f, v, st), After(k, f, v, st), k);
    }
  }

  /** The calls of a run come step by step: parsing, filtering, prediction, pockets, docking,
      the report, never one of an earlier step after one of a later step. */
  lemma {:induction false} StagesInOrder(f: Flags, v: Values, st: Stages)
    ensures InStepOrder(Pipeline(f, v, st).1)
  {
    AfterInOrder(f, v, st, 6);
  }

  /** A call of step `k` in the final trace was made by step `k`: it sits between the runs
      before and after that step. */
  lemma {:induction false} MadeByItsStep(f: Flags, v: Values, st: Stages, i: int)
    requires 0 <= i < |Pipeline(f, v, st).1|
    ensures var k := StageOf(Pipeline(f, v, st).1[i]);
      1 <= k <= 6 && |After(k - 1, f, v, st).trace| <= i < |After(k, f, v, st).trace| &&
      After(k, f, v, st).trace[i] == Pipeline(f, v, st).1[i]
  {
    var k := StepOfIndex(f, v, st, i);
    var t, tk := After(6, f, v, st).trace, After(k, f, v, st).trace;
    PrefixAcross(f, v, st, k, 6);
    assert t[..|tk|] == tk;
    assert tk[i] == t[i];
    StepAdds(f, v, st, k);
    assert StageOf(tk[i]) == k;
    assert Pipeline(f, v, st).1 == t;
  }

  /** The step during which position `i` of the final trace was filled. */
  lemma {:induction false} StepOfIndex(f: Flags, v: Values, st: Stages, i: int) returns (k: nat)
    requires 0 <= i < |After(6, f, v, st).trace|
    ensures 1 <= k <= 6 && |After(k - 1, f, v, st).trace| <= i < |After(k, f, v, st).trace|
  {
    k := 1;
    while k < 6 && |After(k, f, v, st).trace| <= i
      invariant 1 <= k <= 6 && i >= |After(k - 1, f, v, st).trace|
      decreases 6 - k
    {
      k := k + 1;
    }
  }

  /** Step `k` extends the run before it, adding only calls of step `k`. */
  lemma {:induction false} StepAdds(f: Flags, v: Values, st: Stages, k: nat)
    requires 1 <= k <= 6
    ensures Extends(After(k - 1, f, v, st), After(k, f, v, st))
    ensures AddsOnly(After(k - 1, f, v, st), After(k, f, v, st), k)
  {
    assert After(k, f, v, st) == StepAt(k, f, v, st, After(k - 1, f, v, st));
  }

  /** Filtering is asked for, with the configured bounds, whenever a later stage is requested
      and the run completes. */
  lemma {:induction false} CompletedRunFiltered(f: Flags, v: Values, st: Stages)
    requires NeedsSelection(f) && Pipeline(f, v, st).0 == 0
    ensures FilterAndSelect(AllProteins(v), v.minSeqLength, v.maxSeqLength, v.maxSequences, Selected(v))
            in Pipeline(f, v, st).1
  {
    var r1, r2 := After(1, f, v, st), After(2, f, v, st);
    if r2.exit.Some? {
      ExitsStick(f, v, st, 2, 6);
    }
    assert r2 == FilterStep(f, v, st, r1);
    assert r2.trace[|r1.trace|] == FilterAndSelect(AllProteins(v), v.minSeqLength, v.maxSeqLength,
                                                   v.maxSequences, Selected(v));
    PrefixAcross(f, v, st, 2, 6);
    assert After(6, f, v, st).trace[|r1.trace|] == r2.trace[|r1.trace|];
  }

  /** An empty `selected.faa` ends the run with 1 before any structure is predicted. */
  lemma {:induction false} EmptySelectionStops(f: Flags, v: Values, st: Stages, i: int)
    requires 0 <= i < |Pipeline(f, v, st).1| && Pipeline(f, v, st).1[i] == ReadSelected(Selected(v))
    requires st.selected(Selected(v)) == Ok(0)
    ensures Pipeline(f, v, st).0 == 1
    ensures forall j | 0 <= j < |Pipeline(f, v, st).1| :: !Pipeline(f, v, st).1[j].PredictPdbs?
  {
    var t := After(6, f, v, st).trace;
    var r2, r3 := After(2, f, v, st), After(3, f, v, st);
    MadeByItsStep(f, v, st, i);
    assert r3 == PredictStep(f, v, st, r2);
    PredictNeedsRecords(f, v, st, r2);
    assert r3.trace[|r2.trace|..][i - |r2.trace|] == ReadSelected(Selected(v));
    assert r3.exit == Some(1);
    ExitsStick(f, v, st, 3, 6);
    forall j | 0 <= j < |t| ensures !t[j].PredictPdbs? {
      MadeByItsStep(f, v, st, j);
    }
  }

  /** Ligand precedence over the whole run: every ligand prepared is `--ligand` when given and
      `--smiles` otherwise, and every docking run has pockets and the prepared ligand. */
  lemma {:induction false} DockingInputs(f: Flags, v: Values, st: Stages, i: int)
    requires 0 <= i < |Pipeline(f, v, st).1|
    ensures var c := Pipeline(f, v, st).1[i];
      (c.PrepareLigand? ==> c.ligand == (if f.ligand.Some? then f.ligand.value else f.smiles) &&
                            (f.ligand.Some? || f.smiles != "") && c.base == v.baseDir) &&
      (c.RunVina? ==> c.pockets != [] && LigandInput(f).Some? &&
                      st.ligand(LigandInput(f).value, v.baseDir) == Ok(Some(c.pdbqt)))
  {
    var c := Pipeline(f, v, st).1[i];
    if c.PrepareLigand? || c.RunVina? {
      assert StageOf(c) == 5;
      MadeByItsStep(f, v, st, i);
      var r4, r5 := After(4, f, v, st), After(5, f, v, st);
      assert |r4.trace| <= i < |r5.trace| && r5.trace[i] == c;
      assert r5 == VinaStep(f, v, st, r4);
      assert PreparesChosenLigand(f, v, r4, r5) && DocksPreparedLigand(f, v, st, r4, r5);
    }
  }

  /** Without `--vina` nothing is docked and no ligand is prepared. */
  lemma {:induction false} NoVinaNoDocking(f: Flags, v: Values, st: Stages, i: int)
    requires !f.vina && 0 <= i < |Pipeline(f, v, st).1|
    ensures StageOf(Pipeline(f, v, st).1[i]) != 5
  {
    MadeByItsStep(f, v, st, i);
    assert After(5, f, v, st) == VinaStep(f, v, st, After(4, f, v, st));
  }

  /** `main` after the configuration is set: the steps run one after another, each returning
      early with its exit code when a stage fails, as `Pipeline` describes. */
  method RunSteps(f: Flags, v: Values, st: Stages) returns (code: int, trace: seq<Call>)
    ensures (code, trace) == Pipeline(f, v, st)
  {
    var r := FirstSteps(f, v, st);
    if r.exit.Some? {
      ExitsStick(f, v, st, 3, 6);
      return r.exit.value, r.trace;
    }
    r := P2RankStage(f, v, st, r);
    assert r == After(4, f, v, st);
    if r.exit.Some? {
      ExitsStick(f, v, st, 4, 6);
      return r.exit.value, r.trace;
    }
    r := VinaStage(f, v, st, r);
    assert r == After(5, f, v, st);
    if r.exit.Some? {
      ExitsStick(f, v, st, 5, 6);
      return r.exit.value, r.trace;
    }
    r := ReportStage(f, v, st, r);
    assert r == After(6, f, v, st);
    code := if r.exit.Some? then r.exit.value else 0;
    trace := r.trace;
  }

  /** Parsing, filtering and prediction, stopping at the first early return. */
  method FirstSteps(f: Flags, v: Values, st: Stages) returns (r: Run)
    ensures r == After(3, f, v, st)
  {
    r := ParseStage(f, v, st, Start);
    assert r == After(1, f, v, st);
    if r.exit.Some? {
      ExitsStick(f, v, st, 1, 3);
      return;
    }
    r := FilterStage(f, v, st, r);
    assert r == After(2, f, v, st);
    if r.exit.Some? {
      ExitsStick(f, v, st, 2, 3);
      return;
    }
    r := PredictStage(f, v, st, r);
  }

  /** Step 1 of `main`. */
  method ParseStage(f: Flags, v: Values, st: Stages, r: Run) returns (r': Run)
    requires r.exit.None?
    ensures r' == ParseStep(f, v, st, r)
  {
    r' := r;
    if f.parseGbk {
      r' := r'.(trace := r'.trace + [ExtractProteins(v.gbkDir, AllProteins(v))]);
      var n := st.extract(v.gbkDir, AllProteins(v));
      if n.Err? {
        r' := r'.(exit := Some(ExitCode(n.error)));
        return;
      }
      r' := r'.(made := r'.made + {AllProteins(v)});
    }
  }

  /** Step 2 of `main`. */
  method FilterStage(f: Flags, v: Values, st: Stages, r: Run) returns (r': Run)
    requires r.exit.None?
    ensures r' == FilterStep(f, v, st, r)
  {
    r' := r;
    if NeedsSelection(f) {
      var fastaAll := AllProteins(v);
      if !(fastaAll in r.made || st.present(fastaAll)) {
        r' := r'.(exit := Some(1));
        return;
      }
      r' := r'.(trace := r'.trace + [FilterAndSelect(fastaAll, v.minSeqLength, v.maxSeqLength, v.maxSequences, Selected(v))]);
      var kept := st.filter(fastaAll, v.minSeqLength, v.maxSeqLength, v.maxSequences, Selected(v));
      if kept.Err? {
        r' := r'.(exit := Some(ExitCode(kept.error)));
        return;
      }
      r' := r'.(made := r'.made + {Selected(v)});
    }
  }

  /** Step 3 of `main`. */
  method PredictStage(f: Flags, v: Values, st: Stages, r: Run) returns (r': Run)
    requires r.exit.None?
    ensures r' == PredictStep(f, v, st, r)
  {
    r' := r;
    if f.predict {
      r' := r'.(trace := r'.trace + [LoadModel(v.enableCache)]);
      var loaded := st.load(v.enableCache);
      if loaded.Err? {
        r' := r'.(exit := Some(ExitCode(loaded.error)));
        return;
      }
      r' := r'.(trace := r'.trace + [ReadSelected(Selected(v))]);
      var seqs := st.selected(Selected(v));
      if seqs.Err? {
        r' := r'.(exit := Some(ExitCode(seqs.error)));
        return;
      }
      if seqs.value == 0 {
        r' := r'.(exit := Some(1));
        return;
      }
      r' := r'.(trace := r'.trace + [PredictPdbs(v.pdbDir, v.esm3NumSteps, !f.quiet, v.enableCache)]);
      var done := st.predict(v.pdbDir, v.esm3NumSteps, !f.quiet, v.enableCache);
      if done.Err? {
        r' := r'.(exit := Some(ExitCode(done.error)));
        return;
      }
      if !v.enableCache {
        r' := r'.(trace := r'.trace + [ClearModelCache]);
      }
    }
  }

  /** Step 4 of `main`: the P2Rank stage inside its `try`. */
  method P2RankStage(f: Flags, v: Values, st: Stages, r: Run) returns (r': Run)
    requires r.exit.None?
    ensures r' == P2RankStep(f, v, st, r)
  {
    r' := r;
    if f.p2rank {
      r' := r'.(trace := r'.trace + [EnsureP2Rank(v.baseDir, v.p2rankVersion)]);
      var jar := st.ensureP2Rank(v.baseDir, v.p2rankVersion);
      if jar.Err? {
        if jar.error.KeyboardInterrupt? {
          r' := r'.(exit := Some(130));
        }
      } else if jar.value.Some? {
        r' := r'.(trace := r'.trace + [RunP2Rank(jar.value.value, v.pdbDir, v.p2rankThreads, v.p2rankVisualizations)]);
        var results := st.p2rank(jar.value.value, v.pdbDir, v.p2rankThreads, v.p2rankVisualizations);
        if results.Err? {
          if results.error.KeyboardInterrupt? {
            r' := r'.(exit := Some(130));
          }
        } else {
          r' := r'.(pockets := Some(results.value));
          if results.value != [] {
            r' := r'.(trace := r'.trace + [WritePockets(PocketsCsv(v))], made := r'.made + {PocketsCsv(v)});
          }
        }
      }
    }
  }

  /** Step 5 of `main`: the pocket table, the ligand and the docking run. */
  method VinaStage(f: Flags, v: Values, st: Stages, r: Run) returns (r': Run)
    requires r.exit.None?
    ensures r' == VinaStep(f, v, st, r)
  {
    r' := r;
    if !f.vina {
      return;
    }
    var table: seq<Row>;
    if r.pockets.Some? {
      table := r.pockets.value;
    } else if PocketsCsv(v) in r.made || st.present(PocketsCsv(v)) {
      r' := r'.(trace := r'.trace + [ReadPockets(PocketsCsv(v))]);
      var read := st.readPockets(PocketsCsv(v));
      if read.Err? {
        r' := r'.(exit := Some(ExitCode(read.error)));
        return;
      }
      table := read.value;
    } else {
      table := [];
    }
    assert DockingPockets(v, st, r) == (r', table);
    if table == [] {
      return;
    }
    var pdbqt: Option<Path> := None;
    if f.ligand.Some? || f.smiles != "" {
      var input := if f.ligand.Some? then f.ligand.value else f.smiles;
      r' := r'.(trace := r'.trace + [PrepareLigand(input, v.baseDir)]);
      var prepared := st.ligand(input, v.baseDir);
      if prepared.Err? {
        r' := r'.(exit := Some(ExitCode(prepared.error)));
        return;
      }
      pdbqt := prepared.value;
    }
    if pdbqt.Some? {
      r' := r'.(trace := r'.trace + [RunVina(pdbqt.value, table, v.baseDir, v.vinaBoxSize, v.vinaExhaustiveness,
                                             v.vinaNumModes, f.parallel, v.maxWorkers)]);
      var docked := st.vina(pdbqt.value, table, v.baseDir, v.vinaBoxSize, v.vinaExhaustiveness,
                            v.vinaNumModes, f.parallel, v.maxWorkers);
      if docked.Err? {
        r' := r'.(exit := Some(ExitCode(docked.error)));
        return;
      }
      r' := r'.(trace := r'.trace + [WriteDocking(DockingCsv(v))], made := r'.made + {DockingCsv(v)});
    }
  }

  /** Step 6 of `main`. */
  method ReportStage(f: Flags, v: Values, st: Stages, r: Run) returns (r': Run)
    requires r.exit.None?
    ensures r' == ReportStep(f, v, st, r)
  {
    r' := r;
    if f.report {
      r' := r'.(trace := r'.trace + [BuildReport(v.baseDir, v.pdbDir, ReportPdf(v))]);
      var built := st.report(v.baseDir, v.pdbDir, ReportPdf(v));
      if built.Err? {
        r' := r'.(exit := Some(ExitCode(built.error)));
      }
    }
  }
}
