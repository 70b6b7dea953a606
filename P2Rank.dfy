/** Pocket detection with P2Rank (esm3_pipeline/p2rank.py): the Java probe, the decisions of the
    installer, and the loop that runs P2Rank on every structure of a directory and collects the
    top pockets of each. */
module P2Rank {
  import opened Common
  import opened Text
  import opened Table
  import opened Sorting

  /** `check_java_available`: `java -version` either exits, times out, or cannot be started
      (`Raised` stands for the missing binary). */
  function CheckJavaAvailable(probe: Exec): (ok: bool)
    ensures ok <==> probe == Exited(0)
    ensures probe.TimedOut? || probe.Raised? ==> !ok
  {
    match probe
    case Exited(code) => code == 0
    case TimedOut => false
    case Raised => false
  }

  /** What the download branch of `ensure_p2rank` meets: how the download and `unzip` ended,
      and the jars the search finds afterwards. */
  datatype Install = Install(download: Exec, unzip: Exec, jarsAfter: seq<Path>)

  /** `ensure_p2rank`: `jars` are the `p2rank.jar` files the search finds before any download.
      `Ok(None)` is the `None` the function returns when the installation does not produce a jar. */
  function EnsureP2Rank(javaProbe: Exec, jars: seq<Path>, forceDownload: bool, install: Install): (r: Result<Option<Path>>)
    ensures !CheckJavaAvailable(javaProbe) ==> r == Err(DependencyError)
    ensures r.Err? ==> r.error == DependencyError
    ensures CheckJavaAvailable(javaProbe) && jars != [] && !forceDownload ==> r == Ok(Some(jars[0]))
    ensures CheckJavaAvailable(javaProbe) && (jars == [] || forceDownload) ==>
      r.Ok? &&
      (r.value.Some? <==> Succeeded(install.download) && Succeeded(install.unzip) && install.jarsAfter != []) &&
      (r.value.Some? ==> r.value.value == install.jarsAfter[0])
  {
    if !CheckJavaAvailable(javaProbe) then Err(DependencyError)
    else if jars != [] && !forceDownload then Ok(Some(jars[0]))
    else if !Succeeded(install.download) || !Succeeded(install.unzip) then Ok(None)
    else if install.jarsAfter != [] then Ok(Some(install.jarsAfter[0]))
    else Ok(None)
  }

  /** The installer only reaches the network when there is no jar yet or a download is forced. */
  lemma {:induction false} EnsureP2RankKeepsJar(javaProbe: Exec, jars: seq<Path>, i1: Install, i2: Install)
    requires jars != []
    ensures EnsureP2Rank(javaProbe, jars, false, i1) == EnsureP2Rank(javaProbe, jars, false, i2)
    ensures EnsureP2Rank(javaProbe, jars, false, i1).Ok? ==> EnsureP2Rank(javaProbe, jars, false, i1).value == Some(jars[0])
  {
    if CheckJavaAvailable(javaProbe) {
      assert EnsureP2Rank(javaProbe, jars, false, i1) == Ok(Some(jars[0]));
      assert EnsureP2Rank(javaProbe, jars, false, i2) == Ok(Some(jars[0]));
    }
  }

  /** One pocket record as `run_p2rank_on_pdbs` appends it. */
  datatype Pocket = Pocket(pdb: Path, rank: int, center: seq<Cell>, score: Cell, probability: Cell, csv: Path)

  /** The record as a table row, the form the docking stage reads. */
  function AsRow(p: Pocket): (row: Row)
    ensures "pdb" in row && row["pdb"] == Str(p.pdb)
    ensures Get(row, "pocket_rank", Int(1)) == Int(p.rank)
    ensures "center" in row && row["center"] == Tuple(p.center)
  {
    map["pdb" := Str(p.pdb), "pocket_rank" := Int(p.rank), "center" := Tuple(p.center),
        "score" := p.score, "probability" := p.probability, "csv" := Str(p.csv)]
  }

  /** The three centre coordinates, the score and the probability of one table row, each through
      `float()`; `None` when a column is missing or a value is not a number. */
  function PocketOf(pdb: Path, idx: nat, row: Row, csv: Path, floatOf: string -> Option<real>): (r: Option<Pocket>)
    ensures "center_x" !in row || "center_y" !in row || "center_z" !in row || "score" !in row ==> r.None?
    ensures r.Some? ==>
      var p := r.value;
      p.pdb == pdb && p.rank == idx + 1 && p.csv == csv && |p.center| == 3 &&
      Some(p.center[0]) == ToFloat(row["center_x"], floatOf) &&
      Some(p.center[1]) == ToFloat(row["center_y"], floatOf) &&
      Some(p.center[2]) == ToFloat(row["center_z"], floatOf) &&
      Some(p.score) == ToFloat(row["score"], floatOf) &&
      Some(p.probability) == ToFloat(Get(row, "probability", Float(0.0)), floatOf)
    ensures r.Some? && "probability" !in row ==> r.value.probability == Float(0.0)
    ensures "center_x" in row && "center_y" in row && "center_z" in row && "score" in row ==>
      (r.Some? <==> ToFloat(row["center_x"], floatOf).Some? && ToFloat(row["center_y"], floatOf).Some? &&
                    ToFloat(row["center_z"], floatOf).Some? && ToFloat(row["score"], floatOf).Some? &&
                    ToFloat(Get(row, "probability", Float(0.0)), floatOf).Some?)
  {
    if "center_x" !in row || "center_y" !in row || "center_z" !in row || "score" !in row then None
    else
      var x, y, z := ToFloat(row["center_x"], floatOf), ToFloat(row["center_y"], floatOf), ToFloat(row["center_z"], floatOf);
      var score, prob := ToFloat(row["score"], floatOf), ToFloat(Get(row, "probability", Float(0.0)), floatOf);
      if x.None? || y.None? || z.None? || score.None? || prob.None? then None
      else Some(Pocket(pdb, idx + 1, [x.value, y.value, z.value], score.value, prob.value, csv))
  }

  /** The records appended while walking the first rows of a table: one per row, in table order,
      until a row fails to convert; the exception then leaves the records appended so far. */
  function Records(pdb: Path, rows: seq<Row>, csv: Path, floatOf: string -> Option<real>): (r: seq<Pocket>)
    ensures |r| <= |rows|
    ensures forall i :: 0 <= i < |r| ==> PocketOf(pdb, i, rows[i], csv, floatOf) == Some(r[i])
    ensures |r| < |rows| ==> PocketOf(pdb, |r|, rows[|r|], csv, floatOf).None?
  {
    if rows == [] then []
    else
      var init := rows[..|rows| - 1];
      var prev := Records(pdb, init, csv, floatOf);
      if |prev| < |init| then prev
      else
        var p := PocketOf(pdb, |init|, rows[|rows| - 1], csv, floatOf);
        if p.None? then prev else prev + [p.value]
  }

  /** The records of one structure carry its path and its table's path, and their ranks count
      1, 2, ... in table order. */
  lemma {:induction false} RecordsRanks(pdb: Path, rows: seq<Row>, csv: Path, floatOf: string -> Option<real>)
    ensures var r := Records(pdb, rows, csv, floatOf);
      forall i :: 0 <= i < |r| ==> r[i].rank == i + 1 && r[i].pdb == pdb && r[i].csv == csv
  {
    var r := Records(pdb, rows, csv, floatOf);
    forall i | 0 <= i < |r|
      ensures r[i].rank == i + 1 && r[i].pdb == pdb && r[i].csv == csv
    {
      assert PocketOf(pdb, i, rows[i], csv, floatOf) == Some(r[i]);
    }
  }

  /** A table whose rows all convert gives one record per row. */
  lemma {:induction false} RecordsAll(pdb: Path, rows: seq<Row>, csv: Path, floatOf: string -> Option<real>)
    requires forall i :: 0 <= i < |rows| ==> PocketOf(pdb, i, rows[i], csv, floatOf).Some?
    ensures |Records(pdb, rows, csv, floatOf)| == |rows|
  {
  }

  /** The settings of one batch and the oracles it consults: the Java tool, the listing of
      `*_predictions.csv` files in a directory, `pd.read_csv` on a file's text and `float()` on
      a text. */
  datatype Setup = Setup(jar: Path, pdbDir: Path, threads: int, visualizations: int, topN: int,
                         java: Tool, predictions: (Path, FileSystem) -> seq<Path>,
                         readCsv: string -> Option<seq<Row>>, floatOf: string -> Option<real>)

  /** The output directory of one structure, `pdb_dir / f'{pdb.stem}_p2'`. */
  function OutDir(st: Setup, pdb: Path): Path {
    Join(st.pdbDir, Stem(pdb) + "_p2")
  }

  function JavaArgs(st: Setup, pdb: Path): (args: seq<string>)
    ensures |args| == 12
    ensures args[0] == "java" && args[2] == st.jar
    ensures args[5] == pdb && args[7] == OutDir(st, pdb)
  {
    ["java", "-jar", st.jar, "predict", "-f", pdb, "-o", OutDir(st, pdb)] +
    ["-threads", IntToString(st.threads), "-visualizations", IntToString(st.visualizations)]
  }

  /** The table P2Rank left for a structure: the first listed predictions file, read; `None`
      when there is none or it cannot be read. */
  function Predictions(st: Setup, pdb: Path, fs: FileSystem): (r: Option<(Path, seq<Row>)>)
    ensures r.Some? ==> r.value.0 in st.predictions(OutDir(st, pdb), fs) && r.value.0 in fs
  {
    var csvs := st.predictions(OutDir(st, pdb), fs);
    if csvs == [] || csvs[0] !in fs then None
    else
      var table := st.readCsv(fs[csvs[0]]);
      if table.None? then None else Some((csvs[0], table.value))
  }

  /** One iteration of the structure loop: the records it appends and the files present after
      it. A failed run, a missing or unreadable predictions file and an empty table add
      nothing. */
  function Detect(st: Setup, pdb: Path, fs: FileSystem): (res: (seq<Pocket>, FileSystem))
  {
    var run := st.java(JavaArgs(st, pdb), fs);
    var fs1 := After(fs, run);
    if !Succeeded(run.exec) then ([], fs1)
    else
      var found := Predictions(st, pdb, fs1);
      if found.None? || found.value.1 == [] then ([], fs1)
      else (Records(pdb, PyPrefix(found.value.1, st.topN), found.value.0, st.floatOf), fs1)
  }

  /** Every failure of a structure is skipped: a run that does not exit with 0, or no readable
      predictions file, adds no record; otherwise the records come from the first rows of the
      table. The run's writes are kept either way. */
  lemma {:induction false} DetectSkips(st: Setup, pdb: Path, fs: FileSystem)
    ensures var run := st.java(JavaArgs(st, pdb), fs);
      var res := Detect(st, pdb, fs);
      res.1 == After(fs, run) &&
      (!Succeeded(run.exec) ==> res.0 == []) &&
      (Predictions(st, pdb, res.1).None? ==> res.0 == [])
    ensures var res := Detect(st, pdb, fs);
      res.0 != [] ==>
      var (csv, table) := Predictions(st, pdb, res.1).value;
      res.0 == Records(pdb, PyPrefix(table, st.topN), csv, st.floatOf)
    ensures var run := st.java(JavaArgs(st, pdb), fs);
      var res := Detect(st, pdb, fs);
      Succeeded(run.exec) && Predictions(st, pdb, res.1).Some? ==>
      var (csv, table) := Predictions(st, pdb, res.1).value;
      res.0 == Records(pdb, PyPrefix(table, st.topN), csv, st.floatOf)
  {
  }

  /** At most `top_n_pockets` records per structure (with a negative count, `head` keeps all
      rows but that many), ranked 1, 2, ... */
  lemma {:induction false} DetectBounded(st: Setup, pdb: Path, fs: FileSystem)
    ensures var recs := Detect(st, pdb, fs).0;
      (st.topN >= 0 ==> |recs| <= st.topN) &&
      forall i :: 0 <= i < |recs| ==> recs[i].pdb == pdb && recs[i].rank == i + 1
  {
    var recs := Detect(st, pdb, fs).0;
    DetectSkips(st, pdb, fs);
    if recs != [] {
      var (csv, table) := Predictions(st, pdb, Detect(st, pdb, fs).1).value;
      RecordsRanks(pdb, PyPrefix(table, st.topN), csv, st.floatOf);
    }
  }

  /** One structure's iteration, as the loop sees it: a structure path and the files present in,
      its records and the files present out. */
  type Detector = (Path, FileSystem) -> (seq<Pocket>, FileSystem)

  function DetectorFor(st: Setup): Detector {
    (pdb, fs) => Detect(st, pdb, fs)
  }

  /** What the loop relies on from one iteration: its records carry the structure's path and are
      ranked 1, 2, ... */
  ghost predicate RanksRecords(detect: Detector) {
    forall pdb, fs :: RankedFrom(detect(pdb, fs).0, pdb)
  }

  predicate RankedFrom(recs: seq<Pocket>, pdb: Path) {
    forall i :: 0 <= i < |recs| ==> recs[i].pdb == pdb && recs[i].rank == i + 1
  }

  lemma {:induction false} DetectorRanks(st: Setup)
    ensures RanksRecords(DetectorFor(st))
  {
    forall pdb, fs
      ensures RankedFrom(DetectorFor(st)(pdb, fs).0, pdb)
    {
      DetectBounded(st, pdb, fs);
    }
  }

  /** The loop over the sorted structure files: records appended structure by structure, each
      structure's run seeing the files the earlier runs left. */
  function DetectAll(pdbs: seq<Path>, fs: FileSystem, detect: Detector): (res: (seq<Pocket>, FileSystem)) {
    if pdbs == [] then ([], fs)
    else
      var (prev, fs1) := DetectAll(pdbs[..|pdbs| - 1], fs, detect);
      var (recs, fs2) := detect(pdbs[|pdbs| - 1], fs1);
      (prev + recs, fs2)
  }

  /** Each record comes from one of `pdbs`, with a rank of at least 1. */
  predicate FromAmong(r: seq<Pocket>, pdbs: seq<Path>) {
    forall i :: 0 <= i < |r| ==> r[i].pdb in pdbs && r[i].rank >= 1
  }

  /** The records are grouped by structure, structures in path order. */
  predicate GroupedInOrder(r: seq<Pocket>) {
    forall i, j :: 0 <= i < j < |r| ==> StrLe(r[i].pdb, r[j].pdb)
  }

  /** Two records of one structure are as many ranks apart as places apart. */
  predicate AdjacentRanks(r: seq<Pocket>) {
    forall i, j :: 0 <= i < j < |r| && r[i].pdb == r[j].pdb ==> r[j].rank == r[i].rank + (j - i)
  }

  /** Every record comes from one of the structures walked, and ranks start at 1. */
  lemma {:induction false} DetectAllFrom(pdbs: seq<Path>, fs: FileSystem, detect: Detector)
    requires RanksRecords(detect)
    ensures FromAmong(DetectAll(pdbs, fs, detect).0, pdbs)
  {
    if pdbs != [] {
      var init, last := pdbs[..|pdbs| - 1], pdbs[|pdbs| - 1];
      assert pdbs == init + [last];
      DetectAllFrom(init, fs, detect);
      var (prev, fs1) := DetectAll(init, fs, detect);
      assert prev == DetectAll(init, fs, detect).0;
      assert FromAmong(prev, init);
      var recs := detect(last, fs1).0;
      assert RankedFrom(recs, last);
      var r := DetectAll(pdbs, fs, detect).0;
      assert r == prev + recs;
      forall i | 0 <= i < |r|
        ensures r[i].pdb in pdbs && r[i].rank >= 1
      {
        if i < |prev| {
          assert r[i] == prev[i];
        } else {
          assert r[i] == recs[i - |prev|];
        }
      }
    }
  }

  /** With the structures in sorted order, the records are grouped by structure in that
      order. */
  lemma {:induction false} DetectAllOrdered(pdbs: seq<Path>, fs: FileSystem, detect: Detector)
    requires RanksRecords(detect) && Sorted(pdbs, StrLe)
    ensures GroupedInOrder(DetectAll(pdbs, fs, detect).0)
  {
    if pdbs != [] {
      var init, last := pdbs[..|pdbs| - 1], pdbs[|pdbs| - 1];
      assert Sorted(init, StrLe) by {
        forall i, j | 0 <= i < j < |init|
          ensures StrLe(init[i], init[j])
        {
          assert init[i] == pdbs[i] && init[j] == pdbs[j];
        }
      }
      DetectAllOrdered(init, fs, detect);
      DetectAllFrom(init, fs, detect);
      var (prev, fs1) := DetectAll(init, fs, detect);
      assert prev == DetectAll(init, fs, detect).0;
      assert FromAmong(prev, init) && GroupedInOrder(prev);
      var recs := detect(last, fs1).0;
      assert RankedFrom(recs, last);
      var r := DetectAll(pdbs, fs, detect).0;
      assert r == prev + recs;
      StrLeTotal(last, last);
      forall i, j | 0 <= i < j < |r|
        ensures StrLe(r[i].pdb, r[j].pdb)
      {
        if j < |prev| {
          assert r[i] == prev[i] && r[j] == prev[j];
        } else if i < |prev| {
          assert r[i] == prev[i] && r[j] == recs[j - |prev|];
          var k :| 0 <= k < |init| && init[k] == prev[i].pdb;
          assert pdbs[k] == init[k];
        } else {
          assert r[i] == recs[i - |prev|] && r[j] == recs[j - |prev|];
        }
      }
    }
  }

  /** With each structure walked once, two records of the same structure are that many ranks
      apart as they are places apart: a structure's records are adjacent, in table order. */
  lemma {:induction false} DetectAllRanks(pdbs: seq<Path>, fs: FileSystem, detect: Detector)
    requires RanksRecords(detect) && Distinct(pdbs)
    ensures AdjacentRanks(DetectAll(pdbs, fs, detect).0)
  {
    if pdbs != [] {
      var init, last := pdbs[..|pdbs| - 1], pdbs[|pdbs| - 1];
      assert pdbs == init + [last];
      assert multiset(pdbs) == multiset(init) + multiset{last};
      assert Distinct(init) by {
        forall x
          ensures multiset(init)[x] <= 1
        {
          assert multiset(init)[x] <= multiset(pdbs)[x];
        }
      }
      assert last !in init by {
        assert multiset(pdbs)[last] == multiset(init)[last] + 1;
      }
      DetectAllRanks(init, fs, detect);
      DetectAllFrom(init, fs, detect);
      var (prev, fs1) := DetectAll(init, fs, detect);
      assert prev == DetectAll(init, fs, detect).0;
      assert FromAmong(prev, init) && AdjacentRanks(prev);
      var recs := detect(last, fs1).0;
      assert RankedFrom(recs, last);
      var r := DetectAll(pdbs, fs, detect).0;
      assert r == prev + recs;
      forall i, j | 0 <= i < j < |r|
        ensures r[i].pdb == r[j].pdb ==> r[j].rank == r[i].rank + (j - i)
      {
        if j < |prev| {
          assert r[i] == prev[i] && r[j] == prev[j];
        } else if i < |prev| {
          assert r[i] == prev[i] && r[j] == recs[j - |prev|];
          assert r[i].pdb in init && r[j].pdb == last;
        } else {
          assert r[i] == recs[i - |prev|] && r[j] == recs[j - |prev|];
        }
      }
    }
  }

  /** `glob('*.pdb')` as the listing gives it: every file of the directory whose name ends in
      `.pdb`, each once, in some order. */
  predicate PdbFileOf(dir: Path, p: Path) {
    Parent(p) == dir && |Name(p)| >= 4 && Name(p)[|Name(p)| - 4..] == ".pdb"
  }

  ghost predicate ListsPdbFiles(listing: seq<Path>, dir: Path, fs: FileSystem) {
    Distinct(listing) && forall p :: p in listing <==> p in fs && PdbFileOf(dir, p)
  }

  ghost predicate Distinct(s: seq<Path>) {
    forall x :: multiset(s)[x] <= 1
  }

  /** What `run_p2rank_on_pdbs` returns when the jar exists: records only of `.pdb` files of the
      directory, grouped by structure in sorted path order, and within a structure adjacent and
      ranked in table order. */
  lemma {:induction false} RunP2RankShape(st: Setup, listing: seq<Path>, fs0: FileSystem)
    requires ListsPdbFiles(listing, st.pdbDir, fs0)
    ensures var r := DetectAll(SortPaths(listing), fs0, DetectorFor(st)).0;
      FromAmong(r, listing) && GroupedInOrder(r) && AdjacentRanks(r)
    ensures var r := DetectAll(SortPaths(listing), fs0, DetectorFor(st)).0;
      forall i :: 0 <= i < |r| ==> r[i].pdb in fs0 && PdbFileOf(st.pdbDir, r[i].pdb)
  {
    var pdbs := SortPaths(listing);
    DetectorRanks(st);
    assert Distinct(pdbs) by {
      forall x
        ensures multiset(pdbs)[x] <= 1
      {
        assert multiset(pdbs)[x] == multiset(listing)[x];
      }
    }
    DetectAllFrom(pdbs, fs0, DetectorFor(st));
    DetectAllOrdered(pdbs, fs0, DetectorFor(st));
    DetectAllRanks(pdbs, fs0, DetectorFor(st));
    var r := DetectAll(pdbs, fs0, DetectorFor(st)).0;
    forall i | 0 <= i < |r|
      ensures r[i].pdb in listing
    {
      assert r[i].pdb in pdbs;
      assert multiset(pdbs)[r[i].pdb] > 0;
    }
  }

  /** `run_p2rank_on_pdbs`. `listing` is what the directory glob returns. */
  method RunP2Rank(st: Setup, listing: seq<Path>, fs0: FileSystem)
    returns (res: Result<seq<Pocket>>, fs: FileSystem)
    ensures st.jar !in fs0 ==> res == Err(PocketDetectionError) && fs == fs0
    ensures st.jar in fs0 ==> res.Ok? && (res.value, fs) == DetectAll(SortPaths(listing), fs0, DetectorFor(st))
    ensures listing == [] ==> fs == fs0 && (res.Ok? ==> res.value == [])
  {
    if st.jar !in fs0 {
      return Err(PocketDetectionError), fs0;
    }
    var pdbs := SortPaths(listing);
    var results: seq<Pocket> := [];
    if pdbs == [] {
      return Ok(results), fs0;
    }
    results, fs := DetectEach(st, pdbs, fs0);
    res := Ok(results);
  }

  /** `for pdb in pdb_files: ...`, appending each structure's records. */
  method DetectEach(st: Setup, pdbs: seq<Path>, fs0: FileSystem) returns (results: seq<Pocket>, fs: FileSystem)
    ensures (results, fs) == DetectAll(pdbs, fs0, DetectorFor(st))
  {
    results, fs := [], fs0;
    for i := 0 to |pdbs|
      invariant DetectAll(pdbs[..i], fs0, DetectorFor(st)) == (results, fs)
    {
      assert pdbs[..i + 1][..i] == pdbs[..i];
      var recs;
      recs, fs := DetectOne(st, pdbs[i], fs);
      results := results + recs;
    }
    assert pdbs[..|pdbs|] == pdbs;
  }

  /** The body of the structure loop, with the row loop inside it. */
  method DetectOne(st: Setup, pdb: Path, fs0: FileSystem) returns (recs: seq<Pocket>, fs: FileSystem)
    ensures (recs, fs) == Detect(st, pdb, fs0)
  {
    var run := st.java(JavaArgs(st, pdb), fs0);
    fs := After(fs0, run);
    if !Succeeded(run.exec) {
      return [], fs;
    }
    var found := Predictions(st, pdb, fs);
    if found.None? || found.value.1 == [] {
      return [], fs;
    }
    recs := CollectRecords(pdb, PyPrefix(found.value.1, st.topN), found.value.0, st.floatOf);
  }

  /** `for idx, row in df.head(top_n_pockets).iterrows(): results.append({...})`, where a
      conversion error leaves the loop. */
  method CollectRecords(pdb: Path, rows: seq<Row>, csv: Path, floatOf: string -> Option<real>)
    returns (recs: seq<Pocket>)
    ensures recs == Records(pdb, rows, csv, floatOf)
  {
    recs := [];
    var idx := 0;
    while idx < |rows|
      invariant 0 <= idx <= |rows|
      invariant Records(pdb, rows[..idx], csv, floatOf) == recs && |recs| == idx
    {
      assert rows[..idx + 1][..idx] == rows[..idx];
      var p := PocketOf(pdb, idx, rows[idx], csv, floatOf);
      if p.None? {
        RecordsStop(pdb, rows, csv, floatOf, idx + 1);
        return;
      }
      recs := recs + [p.value];
      idx := idx + 1;
    }
    assert rows[..|rows|] == rows;
  }

  /** Once a row has failed, the rows after it add nothing. */
  lemma {:induction false} RecordsStop(pdb: Path, rows: seq<Row>, csv: Path, floatOf: string -> Option<real>, k: nat)
    requires k <= |rows| && |Records(pdb, rows[..k], csv, floatOf)| < k
    ensures Records(pdb, rows, csv, floatOf) == Records(pdb, rows[..k], csv, floatOf)
    decreases |rows| - k
  {
    if k < |rows| {
      assert rows[..k + 1][..k] == rows[..k];
      RecordsStop(pdb, rows, csv, floatOf, k + 1);
    } else {
      assert rows[..k] == rows;
    }
  }
}
