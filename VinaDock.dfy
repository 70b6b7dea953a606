/** AutoDock Vina docking (esm3_pipeline/vina_dock.py): the log parser, the receptor
    conversion cache, one docking run, and the batch driver that turns every pocket row into
    exactly one result row. The programs `obabel` and `vina` are oracles. */
module VinaDock {
  import opened Common
  import opened Text
  import opened Table
  import opened Sorting

  /** The outside world the docking code consults besides the file system: the two programs,
      `float()` on a text, the number syntax of `ast.literal_eval`, and `str()` of a cell
      that is not an integer. */
  datatype Tools = Tools(
    obabel: Tool,
    vina: Tool,
    floatOf: string -> Option<real>,
    literalOf: string -> Option<real>,
    show: Cell -> string)

  // ---------------------------------------------------------------- log parser

  const Marker := "REMARK VINA RESULT:"

  /** A log line the parser takes its answer from: it holds the marker and its fourth
      white-space separated field reads as a number. */
  predicate Yields(line: string, floatOf: string -> Option<real>) {
    Contains(line, Marker) && |Words(line)| > 3 && floatOf(Words(line)[3]).Some?
  }

  /** The number a yielding line gives. */
  function Affinity(line: string, floatOf: string -> Option<real>): real
    requires Yields(line, floatOf)
  {
    floatOf(Words(line)[3]).value
  }

  /** The loop over the lines: the first yielding line decides; marker lines whose fourth
      field is missing or not a number are passed over. */
  function FirstAffinity(lines: seq<string>, floatOf: string -> Option<real>): Option<real> {
    if lines == [] then None
    else if Yields(lines[0], floatOf) then Some(Affinity(lines[0], floatOf))
    else FirstAffinity(lines[1..], floatOf)
  }

  /** Line `i` is the first yielding line. */
  predicate FirstYieldAt(lines: seq<string>, i: int, floatOf: string -> Option<real>) {
    0 <= i < |lines| && Yields(lines[i], floatOf) &&
    forall j :: 0 <= j < i ==> !Yields(lines[j], floatOf)
  }

  /** The parser is a first-match search: it answers with the first yielding line's number,
      and it answers nothing exactly when no line yields. */
  lemma {:induction false} FirstAffinityIsFirstMatch(lines: seq<string>, floatOf: string -> Option<real>)
    ensures FirstAffinity(lines, floatOf).None? <==> forall i :: 0 <= i < |lines| ==> !Yields(lines[i], floatOf)
    ensures forall i :: FirstYieldAt(lines, i, floatOf) ==>
      FirstAffinity(lines, floatOf) == Some(Affinity(lines[i], floatOf))
    ensures FirstAffinity(lines, floatOf).Some? ==> exists i :: FirstYieldAt(lines, i, floatOf)
  {
    if lines != [] {
      FirstAffinityIsFirstMatch(lines[1..], floatOf);
      if Yields(lines[0], floatOf) {
        assert FirstYieldAt(lines, 0, floatOf);
        forall i | FirstYieldAt(lines, i, floatOf)
          ensures i == 0
        {
          if i > 0 {
            assert false;
          }
        }
      } else {
        forall i | FirstYieldAt(lines, i, floatOf)
          ensures FirstYieldAt(lines[1..], i - 1, floatOf)
        {
          assert lines[1..][i - 1] == lines[i];
        }
        if FirstAffinity(lines, floatOf).Some? {
          var k :| FirstYieldAt(lines[1..], k, floatOf);
          assert FirstYieldAt(lines, k + 1, floatOf);
        }
        if FirstAffinity(lines, floatOf).None? {
          forall i | 0 <= i < |lines|
            ensures !Yields(lines[i], floatOf)
          {
            if i > 0 {
              assert lines[i] == lines[1..][i - 1];
            }
          }
        }
      }
    }
  }

  /** A line `REMARK VINA RESULT:` followed by white space and a number gives that number. */
  lemma {:induction false} ResultLineAffinity(sp: string, x: string, rest: string, floatOf: string -> Option<real>)
    requires IsBlank(sp) && IsWord(x) && (rest == [] || IsSpace(rest[0]))
    requires floatOf(x).Some?
    ensures Yields(Marker + sp + x + rest, floatOf)
    ensures Affinity(Marker + sp + x + rest, floatOf) == floatOf(x).value
  {
    var w1, w2, w3, s1 := "REMARK", "VINA", "RESULT:", " ";
    assert Marker == w1 + s1 + w2 + s1 + w3;
    var line, t := Marker + sp + x + rest, sp + (x + rest);
    assert line == Marker + t;
    NestFive(w1, s1, w2, s1, w3, t);
    FourWords(w1, s1, w2, s1, w3, sp, x, rest);
    assert line[..|Marker|] == Marker;
  }

  /** The log of a docking run with a header, one result line and a footer gives the
      affinity printed on the result line. */
  lemma {:induction false} ExampleLog(header: string, result: string, footer: string, floatOf: string -> Option<real>)
    requires header == "Some header\n" && footer == "Some footer\n"
    requires result == Marker + "    " + "-8.5" + "      0.000      0.000\n"
    requires floatOf("-8.5") == Some(-8.5)
    ensures FirstAffinity([header, result, footer], floatOf) == Some(-8.5)
  {
    ContainsShort(header, Marker);
    ResultLineAffinity("    ", "-8.5", "      0.000      0.000\n", floatOf);
    assert [header, result, footer][1..] == [result, footer];
  }

  /** `parse_vina_output(log_file)`: a missing log gives `None`. */
  function ParseVinaOutput(log: Path, fs: FileSystem, floatOf: string -> Option<real>): (r: Option<real>)
    ensures log !in fs ==> r.None?
    ensures log in fs ==> r == FirstAffinity(ReadLines(fs[log]), floatOf)
  {
    if log !in fs then None else FirstAffinity(ReadLines(fs[log]), floatOf)
  }

  // ---------------------------------------------------------------- receptor cache

  /** `obabel <pdb> -O <pdbqt> --partialcharge gasteiger`. */
  function ObabelReceptorArgs(pdb: Path, pdbqt: Path): seq<string> {
    ["obabel", pdb, "-O", pdbqt, "--partialcharge", "gasteiger"]
  }

  /** `ensure_receptor_pdbqt`: the receptor lives next to the structure with suffix
      `.pdbqt`; an existing one is reused unless regeneration is forced, otherwise
      `obabel` converts, and any failure of the conversion is a `DockingError`. A structure
      path without a name cannot take a suffix (`ValueError`). */
  function EnsureReceptor(pdb: Path, force: bool, fs: FileSystem, obabel: Tool): (res: (Result<Path>, FileSystem))
    ensures Name(pdb) == [] ==> res == (Err(ValueError), fs)
    ensures res.0.Ok? ==> res.0.value == WithSuffix(pdb, ".pdbqt")
    ensures Name(pdb) != [] && res.0.Err? ==> res.0.error == DockingError
    ensures Name(pdb) != [] && WithSuffix(pdb, ".pdbqt") in fs && !force ==>
      res == (Ok(WithSuffix(pdb, ".pdbqt")), fs)
    ensures Name(pdb) != [] && (WithSuffix(pdb, ".pdbqt") !in fs || force) ==>
      var run := obabel(ObabelReceptorArgs(pdb, WithSuffix(pdb, ".pdbqt")), fs);
      res.1 == After(fs, run) && (res.0.Ok? <==> Succeeded(run.exec))
  {
    if Name(pdb) == [] then (Err(ValueError), fs)
    else
      var pdbqt := WithSuffix(pdb, ".pdbqt");
      if pdbqt in fs && !force then (Ok(pdbqt), fs)
      else
        var run := obabel(ObabelReceptorArgs(pdb, pdbqt), fs);
        if Succeeded(run.exec) then (Ok(pdbqt), After(fs, run)) else (Err(DockingError), After(fs, run))
  }

  /** Once a conversion has left the receptor file behind, asking again reuses it: the
      same path comes back and nothing runs. */
  lemma {:induction false} EnsureReceptorCaches(pdb: Path, fs: FileSystem, obabel: Tool, obabel2: Tool)
    requires EnsureReceptor(pdb, false, fs, obabel).0.Ok?
    requires WithSuffix(pdb, ".pdbqt") in EnsureReceptor(pdb, false, fs, obabel).1
    ensures var (r1, fs1) := EnsureReceptor(pdb, false, fs, obabel);
      EnsureReceptor(pdb, false, fs1, obabel2) == (r1, fs1)
  {
  }

  // ---------------------------------------------------------------- one docking run

  /** `str(cell)`: integers are printed here, other cells by the `show` oracle. */
  function CellText(c: Cell, show: Cell -> string): string {
    if c.Int? then IntToString(c.i) else if c.Str? then c.s else show(c)
  }

  /** The `vina` command line for one pocket: the one box size is given for all three axes. */
  function VinaArgs(receptor: Path, ligand: Path, center: seq<Cell>, out: Path, log: Path,
                    boxSize: int, exhaustiveness: int, numModes: int, show: Cell -> string): (r: seq<string>)
    requires |center| == 3
    ensures |r| == 25 && r[0] == "vina"
    ensures r[11] == "--size_x" && r[13] == "--size_y" && r[15] == "--size_z"
    ensures r[12] == r[14] == r[16] == IntToString(boxSize)
    ensures r[5] == "--center_x" && r[7] == "--center_y" && r[9] == "--center_z"
    ensures r[6] == CellText(center[0], show) && r[8] == CellText(center[1], show) && r[10] == CellText(center[2], show)
  {
    var size := IntToString(boxSize);
    ["vina", "--receptor", receptor, "--ligand", ligand] +
    ["--center_x", CellText(center[0], show), "--center_y", CellText(center[1], show),
     "--center_z", CellText(center[2], show)] +
    ["--size_x", size, "--size_y", size, "--size_z", size] +
    ["--exhaustiveness", IntToString(exhaustiveness), "--num_modes", IntToString(numModes),
     "--out", out, "--log", log]
  }

  /** `cx, cy, cz = center`: a tuple or a text of exactly three items unpacks (a text into
      its characters), one of another length is a `ValueError`, anything else a `TypeError`. */
  function Unpack3(c: Cell): (r: Result<seq<Cell>>)
    ensures r.Ok? ==> |r.value| == 3
    ensures r.Ok? <==> (c.Tuple? && |c.items| == 3) || (c.Str? && |c.s| == 3)
    ensures c.Tuple? && r.Ok? ==> r.value == c.items
    ensures r.Err? ==> r.error == (if c.Tuple? || c.Str? then ValueError else TypeError)
  {
    match c
    case Tuple(items) => if |items| == 3 then Ok(items) else Err(ValueError)
    case Str(s) => if |s| == 3 then Ok([Str([s[0]]), Str([s[1]]), Str([s[2]])]) else Err(ValueError)
    case _ => Err(TypeError)
  }

  /** `run_single_docking`: the centre is unpacked before anything runs (an error there
      propagates); then `vina` runs, and any failure of the run (exit code, timeout, an
      exception) gives no affinity, while a successful run gives what the log parser reads. */
  function RunSingleDocking(receptor: Path, ligand: Path, center: Cell, out: Path, log: Path,
                            boxSize: int, exhaustiveness: int, numModes: int,
                            fs: FileSystem, t: Tools): (res: (Result<Option<real>>, FileSystem))
    ensures res.0.Err? <==> Unpack3(center).Err?
    ensures res.0.Err? ==> res == (Err(Unpack3(center).error), fs)
    ensures res.0.Ok? ==>
      var run := t.vina(VinaArgs(receptor, ligand, Unpack3(center).value, out, log,
                                 boxSize, exhaustiveness, numModes, t.show), fs);
      res.1 == After(fs, run) &&
      (!Succeeded(run.exec) ==> res.0.value.None?) &&
      (Succeeded(run.exec) ==> res.0.value == ParseVinaOutput(log, res.1, t.floatOf))
    ensures res.0.Ok? && res.0.value.Some? ==>
      log in res.1 &&
      exists i :: FirstYieldAt(ReadLines(res.1[log]), i, t.floatOf) &&
                  Affinity(ReadLines(res.1[log])[i], t.floatOf) == res.0.value.value
  {
    var items := Unpack3(center);
    if items.Err? then (Err(items.error), fs)
    else
      var run := t.vina(VinaArgs(receptor, ligand, items.value, out, log,
                                 boxSize, exhaustiveness, numModes, t.show), fs);
      var fs1 := After(fs, run);
      if !Succeeded(run.exec) then (Ok(None), fs1)
      else
        var a := ParseVinaOutput(log, fs1, t.floatOf);
        if log in fs1 then
          FirstAffinityIsFirstMatch(ReadLines(fs1[log]), t.floatOf);
          (Ok(a), fs1)
        else (Ok(a), fs1)
  }

  // ---------------------------------------------------------------- the batch

  /** One row of the docking result table. */
  datatype DockRow = DockRow(
    pdb: string,
    rank: Cell,
    out: Option<Path>,
    log: Option<Path>,
    affinity: Option<real>,
    center: Option<Cell>)

  /** The row written for a pocket whose docking raised. */
  function FailedRow(pdb: string, rank: Cell): DockRow {
    DockRow(pdb, rank, None, None, None, None)
  }

  /** `f'dock_{pdb.stem}_p{pocket_rank}'`: the base name of a pocket's output files. */
  function DockName(stem: string, rank: Cell, show: Cell -> string): string {
    "dock_" + stem + "_p" + CellText(rank, show)
  }

  /** Pockets with integer ranks never share output files: the name gives back both the
      structure stem and the rank. */
  lemma {:induction false} DockNameInjective(s1: string, r1: int, s2: string, r2: int, show: Cell -> string)
    requires DockName(s1, Int(r1), show) == DockName(s2, Int(r2), show)
    ensures s1 == s2 && r1 == r2
  {
    DockNameParts(s1, r1, show);
    DockNameParts(s2, r2, show);
    var n := DockName(s1, Int(r1), show);
    var i := RFind(n, '_');
    assert s1 == n[5..i] == s2;
    IntToStringInjective(r1, r2);
  }

  /** The name splits at its last `_` into `dock_` and the stem, and `p` and the rank. */
  lemma {:induction false} DockNameParts(stem: string, r: int, show: Cell -> string)
    ensures var n := DockName(stem, Int(r), show);
      RFind(n, '_') == |stem| + 5 && n[5..|stem| + 5] == stem && n[|stem| + 7..] == IntToString(r)
  {
    var d := IntToString(r);
    IntToStringRoundTrip(r);
    var n := DockName(stem, Int(r), show);
    var a, b := "dock_" + stem, ['p'] + d;
    assert n == a + ['_'] + b;
    forall k | 0 < k < |b| ensures b[k] != '_' {
      assert b[k] == d[k - 1];
    }
    UnderscoreSplit(a, b);
    assert n[5..|stem| + 5] == a[5..];
  }

  /** The last `_` of `a + "_" + b` is the one put in, when `b` has none. */
  lemma {:induction false} UnderscoreSplit(a: string, b: string)
    requires forall k :: 0 < k < |b| ==> b[k] != '_'
    requires b != [] && b[0] != '_'
    ensures RFind(a + ['_'] + b, '_') == |a|
    ensures (a + ['_'] + b)[..|a|] == a && (a + ['_'] + b)[|a| + 1..] == b
  {
    var n := a + ['_'] + b;
    assert forall k :: |a| < k < |n| ==> n[k] == b[k - |a| - 1];
    RFindAt(n, '_', |a|);
  }

  /** The centre a row asks for: a text is read with `ast.literal_eval`, anything else is used
      as it is; `None` stands for an unreadable text. */
  function RowCenter(c: Cell, literalOf: string -> Option<real>): (r: Option<Cell>)
    ensures !c.Str? ==> r == Some(c)
    ensures c.Str? ==> r == LiteralEval(c.s, literalOf)
  {
    if c.Str? then LiteralEval(c.s, literalOf) else Some(c)
  }

  /** `dock_pocket(row)`: reading the structure path happens before the guarded part, so a
      row without a text `pdb` raises out of the batch (`KeyError` or `TypeError`). Every
      failure after that - receptor conversion, a missing or unreadable centre, a centre that
      does not unpack - gives the failed row with the same structure and rank. */
  function DockPocket(row: Row, ligand: Path, outBase: Path, boxSize: int, exhaustiveness: int,
                      numModes: int, fs: FileSystem, t: Tools): (res: (Result<DockRow>, FileSystem))
    ensures "pdb" !in row ==> res == (Err(KeyError), fs)
    ensures "pdb" in row && !row["pdb"].Str? ==> res == (Err(TypeError), fs)
    ensures res.0.Ok? <==> "pdb" in row && row["pdb"].Str?
    ensures res.0.Ok? ==>
      var d := res.0.value;
      var name := DockName(Stem(row["pdb"].s), d.rank, t.show);
      d.pdb == row["pdb"].s && d.rank == Get(row, "pocket_rank", Int(1)) &&
      (d.center.None? ==> d == FailedRow(d.pdb, d.rank)) &&
      (d.out.Some? ==> d.out.value == Join(outBase, name + ".pdbqt") && d.out.value in res.1) &&
      (d.log.Some? ==> d.log.value == Join(outBase, name + ".log") && d.log.value in res.1)
    ensures res.0.Ok? && res.0.value.center.Some? ==>
      "center" in row && res.0.value.center == RowCenter(row["center"], t.literalOf)
  {
    if "pdb" !in row then (Err(KeyError), fs)
    else if !row["pdb"].Str? then (Err(TypeError), fs)
    else
      var pdb := row["pdb"].s;
      var rank := Get(row, "pocket_rank", Int(1));
      var (receptor, fs1) := EnsureReceptor(pdb, false, fs, t.obabel);
      if receptor.Err? || "center" !in row then (Ok(FailedRow(pdb, rank)), fs1)
      else
        var center := RowCenter(row["center"], t.literalOf);
        if center.None? then (Ok(FailedRow(pdb, rank)), fs1)
        else
          var name := DockName(Stem(pdb), rank, t.show);
          var out, log := Join(outBase, name + ".pdbqt"), Join(outBase, name + ".log");
          var (affinity, fs2) := RunSingleDocking(receptor.value, ligand, center.value, out, log,
                                                  boxSize, exhaustiveness, numModes, fs1, t);
          if affinity.Err? then (Ok(FailedRow(pdb, rank)), fs2)
          else
            var d := DockRow(pdb, rank, if out in fs2 then Some(out) else None,
                             if log in fs2 then Some(log) else None, affinity.value, center);
            (Ok(d), fs2)
  }

  /** What `dock_pocket` returns for a row with a text `pdb`: the failed row, after the receptor
      conversion, exactly when that conversion fails, the centre is missing or unreadable, or the
      docking raises; otherwise the affinity docking reports, the centre read from the row, and
      `out`/`log` set exactly when those files exist after docking. */
  lemma {:induction false} DockPocketOutcome(row: Row, ligand: Path, outBase: Path, boxSize: int, exhaustiveness: int,
                                             numModes: int, fs: FileSystem, t: Tools)
    requires "pdb" in row && row["pdb"].Str?
    ensures var pdb, rank := row["pdb"].s, Get(row, "pocket_rank", Int(1));
      var rec := EnsureReceptor(pdb, false, fs, t.obabel);
      var res := DockPocket(row, ligand, outBase, boxSize, exhaustiveness, numModes, fs, t);
      (rec.0.Err? || "center" !in row || RowCenter(row["center"], t.literalOf).None?) ==>
      res == (Ok(FailedRow(pdb, rank)), rec.1)
    ensures var pdb, rank := row["pdb"].s, Get(row, "pocket_rank", Int(1));
      var rec := EnsureReceptor(pdb, false, fs, t.obabel);
      var res := DockPocket(row, ligand, outBase, boxSize, exhaustiveness, numModes, fs, t);
      rec.0.Ok? && "center" in row && RowCenter(row["center"], t.literalOf).Some? ==>
      var center := RowCenter(row["center"], t.literalOf).value;
      var name := DockName(Stem(pdb), rank, t.show);
      var out, log := Join(outBase, name + ".pdbqt"), Join(outBase, name + ".log");
      var dock := RunSingleDocking(rec.0.value, ligand, center, out, log, boxSize, exhaustiveness, numModes, rec.1, t);
      res.1 == dock.1 && res.0.Ok? &&
      (dock.0.Err? <==> res.0.value == FailedRow(pdb, rank)) &&
      (dock.0.Ok? ==> res.0.value.affinity == dock.0.value && res.0.value.center == Some(center) &&
                      (res.0.value.out == Some(out) <==> out in dock.1) &&
                      (res.0.value.log == Some(log) <==> log in dock.1))
  {
  }

  /** The docking settings shared by every pocket of a batch. */
  datatype Settings = Settings(ligand: Path, outBase: Path, boxSize: int, exhaustiveness: int, numModes: int)

  /** `dock_pocket` with the batch's settings, as the loops see it: a row and the files
      present in, a result row (or the error raised) and the files present out. */
  type Docker = (Row, FileSystem) -> (Result<DockRow>, FileSystem)

  function DockerFor(st: Settings, t: Tools): Docker {
    (row, fs) => DockPocket(row, st.ligand, st.outBase, st.boxSize, st.exhaustiveness, st.numModes, fs, t)
  }

  /** What the batch relies on from `dock_pocket`: it raises exactly on a row without a text
      structure path, with the error reading it raised, and otherwise keeps the row's
      structure and rank. */
  ghost predicate KeepsRows(dock: Docker) {
    forall row, fs :: KeepsRow(dock(row, fs).0, row)
  }

  predicate KeepsRow(d: Result<DockRow>, row: Row) {
    (d.Ok? <==> "pdb" in row && row["pdb"].Str?) &&
    (d.Err? ==> d.error.KeyError? || d.error.TypeError?) &&
    (d.Ok? ==> d.value.pdb == row["pdb"].s && d.value.rank == Get(row, "pocket_rank", Int(1)))
  }

  lemma DockerKeepsRows(st: Settings, t: Tools)
    ensures KeepsRows(DockerFor(st, t))
  {
    forall row, fs
      ensures KeepsRow(DockerFor(st, t)(row, fs).0, row)
    {
      var _ := DockPocket(row, st.ligand, st.outBase, st.boxSize, st.exhaustiveness, st.numModes, fs, t);
    }
  }

  /** The sequential loop: pockets docked in table order, each seeing the files the earlier
      ones left; the first row that raises ends the batch with its error. */
  function DockAll(rows: seq<Row>, fs: FileSystem, dock: Docker): (Result<seq<DockRow>>, FileSystem) {
    if rows == [] then (Ok([]), fs)
    else
      var (prev, fs1) := DockAll(rows[..|rows| - 1], fs, dock);
      if prev.Err? then (prev, fs1)
      else
        var (d, fs2) := dock(rows[|rows| - 1], fs1);
        if d.Err? then (Err(d.error), fs2) else (Ok(prev.value + [d.value]), fs2)
  }

  /** Every row has a structure path that is text, so no row raises out of `dock_pocket`. */
  predicate AllHavePdb(rows: seq<Row>) {
    forall i :: 0 <= i < |rows| ==> "pdb" in rows[i] && rows[i]["pdb"].Str?
  }

  /** `r` holds one row per pocket row, with its structure and rank. */
  predicate RowsMatch(r: seq<DockRow>, rows: seq<Row>)
    requires AllHavePdb(rows)
  {
    |r| == |rows| &&
    forall i :: 0 <= i < |rows| ==>
      r[i].pdb == rows[i]["pdb"].s && r[i].rank == Get(rows[i], "pocket_rank", Int(1))
  }

  lemma {:induction false} RowsMatchSnoc(r: seq<DockRow>, rows: seq<Row>, d: DockRow, row: Row)
    requires AllHavePdb(rows) && AllHavePdb(rows + [row]) && RowsMatch(r, rows)
    requires "pdb" in row && row["pdb"].Str?
    requires d.pdb == row["pdb"].s && d.rank == Get(row, "pocket_rank", Int(1))
    ensures RowsMatch(r + [d], rows + [row])
  {
    forall i | 0 <= i < |rows| + 1
      ensures (r + [d])[i].pdb == (rows + [row])[i]["pdb"].s
      ensures (r + [d])[i].rank == Get((rows + [row])[i], "pocket_rank", Int(1))
    {
      if i < |rows| {
        assert (r + [d])[i] == r[i] && (rows + [row])[i] == rows[i];
      }
    }
  }

  /** One result row per pocket row, in the same order, with its structure and rank. */
  lemma {:induction false} DockAllOnePerRow(rows: seq<Row>, fs: FileSystem, dock: Docker)
    requires KeepsRows(dock) && AllHavePdb(rows)
    ensures DockAll(rows, fs, dock).0.Ok?
    ensures RowsMatch(DockAll(rows, fs, dock).0.value, rows)
  {
    if rows != [] {
      var init, last := rows[..|rows| - 1], rows[|rows| - 1];
      AllHavePdbSnoc(rows);
      DockAllOnePerRow(init, fs, dock);
      var p := DockAll(init, fs, dock);
      var d := dock(last, p.1);
      assert KeepsRow(d.0, last);
      assert rows == init + [last];
      RowsMatchSnoc(p.0.value, init, d.0.value, last);
    }
  }

  lemma {:induction false} AllHavePdbSnoc(rows: seq<Row>)
    requires rows != []
    ensures AllHavePdb(rows) <==>
      AllHavePdb(rows[..|rows| - 1]) && "pdb" in rows[|rows| - 1] && rows[|rows| - 1]["pdb"].Str?
  {
    var init := rows[..|rows| - 1];
    assert forall i :: 0 <= i < |init| ==> init[i] == rows[i];
  }

  /** A batch stops only at a row without a text structure path, and then with the
      error reading that path raised. */
  lemma {:induction false} DockAllFails(rows: seq<Row>, fs: FileSystem, dock: Docker)
    requires KeepsRows(dock)
    ensures DockAll(rows, fs, dock).0.Err? <==> !AllHavePdb(rows)
    ensures DockAll(rows, fs, dock).0.Err? ==> DockAll(rows, fs, dock).0.error.KeyError? || DockAll(rows, fs, dock).0.error.TypeError?
  {
    if rows != [] {
      var init, last := rows[..|rows| - 1], rows[|rows| - 1];
      DockAllFails(init, fs, dock);
      AllHavePdbSnoc(rows);
      var (prev, fs1) := DockAll(init, fs, dock);
      if prev.Err? {
        assert DockAll(rows, fs, dock).0 == prev;
      } else {
        var (d, fs2) := dock(last, fs1);
        assert KeepsRow(d, last);
        assert DockAll(rows, fs, dock).0 == if d.Err? then Err(d.error) else Ok(prev.value + [d.value]);
      }
    }
  }

  /** The parallel path: every pocket is submitted, so every row is docked, whatever
      happens to the others. The files the runs write are applied in table order. */
  function DockEach(rows: seq<Row>, fs: FileSystem, dock: Docker): (res: (seq<Result<DockRow>>, FileSystem))
    ensures |res.0| == |rows|
  {
    if rows == [] then ([], fs)
    else
      var (prev, fs1) := DockEach(rows[..|rows| - 1], fs, dock);
      var (d, fs2) := dock(rows[|rows| - 1], fs1);
      (prev + [d], fs2)
  }

  /** Collecting the futures as they complete: `order` is the completion order, and the
      first future that raised re-raises its error. */
  function Collect(results: seq<Result<DockRow>>, order: seq<nat>): (r: Result<seq<DockRow>>)
    requires Below(order, |results|)
    ensures r.Ok? ==> |r.value| == |order|
  {
    if order == [] then Ok([])
    else
      var prev := Collect(results, order[..|order| - 1]);
      var d := results[order[|order| - 1]];
      if prev.Err? then prev else if d.Err? then Err(d.error) else Ok(prev.value + [d.value])
  }

  /** When no pocket raises, the parallel path docks each pocket exactly as the sequential
      loop does. */
  lemma {:induction false} DockEachAgrees(rows: seq<Row>, fs: FileSystem, dock: Docker)
    requires KeepsRows(dock) && AllHavePdb(rows)
    ensures DockAll(rows, fs, dock).0.Ok? && |DockAll(rows, fs, dock).0.value| == |rows|
    ensures DockEach(rows, fs, dock).1 == DockAll(rows, fs, dock).1
    ensures forall i :: 0 <= i < |rows| ==>
      DockEach(rows, fs, dock).0[i] == Ok(DockAll(rows, fs, dock).0.value[i])
  {
    DockAllOnePerRow(rows, fs, dock);
    if rows != [] {
      var init, last := rows[..|rows| - 1], rows[|rows| - 1];
      AllHavePdbSnoc(rows);
      DockEachAgrees(init, fs, dock);
      var p, e := DockAll(init, fs, dock), DockEach(init, fs, dock);
      var d := dock(last, p.1);
      assert KeepsRow(d.0, last);
      assert DockAll(rows, fs, dock).1 == d.1 && DockAll(rows, fs, dock).0.value == p.0.value + [d.0.value];
      assert DockEach(rows, fs, dock).1 == d.1 && DockEach(rows, fs, dock).0 == e.0 + [d.0];
      forall i | 0 <= i < |rows|
        ensures DockEach(rows, fs, dock).0[i] == Ok(DockAll(rows, fs, dock).0.value[i])
      {
        if i < |init| {
          assert (e.0 + [d.0])[i] == e.0[i];
          assert (p.0.value + [d.0.value])[i] == p.0.value[i];
        }
      }
    }
  }

  /** Collecting results none of which is an error gives the rows in the order named. */
  lemma {:induction false} CollectAllOk(results: seq<Result<DockRow>>, rows: seq<DockRow>, order: seq<nat>)
    requires |results| == |rows| && Below(order, |rows|)
    requires forall i :: 0 <= i < |rows| ==> results[i] == Ok(rows[i])
    ensures Collect(results, order) == Ok(Permute(rows, order))
  {
    if order != [] {
      CollectAllOk(results, rows, order[..|order| - 1]);
    }
  }

  /** In parallel, the rows are those of the sequential loop in completion order: the same
      rows, one per pocket. */
  lemma {:induction false} ParallelSameRows(rows: seq<Row>, fs: FileSystem, dock: Docker, order: seq<nat>)
    requires KeepsRows(dock) && AllHavePdb(rows) && IsOrderOf(order, |rows|)
    ensures Below(order, |rows|) && DockAll(rows, fs, dock).0.Ok?
    ensures var seqRows := DockAll(rows, fs, dock).0.value;
      var r := Collect(DockEach(rows, fs, dock).0, order);
      r.Ok? && |r.value| == |rows| && multiset(r.value) == multiset(seqRows)
  {
    DockEachAgrees(rows, fs, dock);
    DockAllOnePerRow(rows, fs, dock);
    var seqRows := DockAll(rows, fs, dock).0.value;
    PermuteKeepsElements(seqRows, order);
    CollectAllOk(DockEach(rows, fs, dock).0, seqRows, order);
  }

  /** `run_vina`: both preconditions are checked before any pocket is docked; pockets are
      docked one after the other, or, with `parallel` and more than one pocket, all at once
      and collected in completion order `order`. `vinaOnPath` is `shutil.which('vina')`.
      The summary reads the `affinity` column, which a table built from no rows lacks, so an
      empty pocket table ends in a `KeyError`. */
  method RunVina(pockets: seq<Row>, st: Settings, parallel: bool, vinaOnPath: bool,
                 order: seq<nat>, fs0: FileSystem, t: Tools)
    returns (res: Result<seq<DockRow>>, fs: FileSystem)
    requires parallel && |pockets| > 1 ==> IsOrderOf(order, |pockets|)
    ensures !vinaOnPath ==> res == Err(DependencyError) && fs == fs0
    ensures vinaOnPath && st.ligand !in fs0 ==> res == Err(DockingError) && fs == fs0
    ensures vinaOnPath && st.ligand in fs0 && pockets == [] ==> res == Err(KeyError) && fs == fs0
    ensures vinaOnPath && st.ligand in fs0 && !(parallel && |pockets| > 1) ==>
      var (all, fsAll) := DockAll(pockets, fs0, DockerFor(st, t));
      fs == fsAll && (all.Err? ==> res == all) && (all.Ok? && all.value != [] ==> res == all)
    ensures vinaOnPath && st.ligand in fs0 && parallel && |pockets| > 1 ==>
      Below(order, |pockets|) &&
      var (each, fsEach) := DockEach(pockets, fs0, DockerFor(st, t));
      fs == fsEach && res == Collect(each, order)
  {
    if !vinaOnPath {
      return Err(DependencyError), fs0;
    }
    if st.ligand !in fs0 {
      return Err(DockingError), fs0;
    }
    if parallel && |pockets| > 1 {
      OrderBelow(order, |pockets|);
      var results;
      results, fs := DockAtOnce(pockets, DockerFor(st, t), fs0);
      res := CollectInOrder(results, order);
    } else {
      res, fs := DockInOrder(pockets, DockerFor(st, t), fs0);
    }
    if res.Ok? && res.value == [] {
      res := Err(KeyError);
    }
  }

  /** The sequential loop of `run_vina`. */
  method DockInOrder(pockets: seq<Row>, dock: Docker, fs0: FileSystem)
    returns (res: Result<seq<DockRow>>, fs: FileSystem)
    ensures (res, fs) == DockAll(pockets, fs0, dock)
  {
    fs := fs0;
    var rows: seq<DockRow> := [];
    var i := 0;
    while i < |pockets|
      invariant 0 <= i <= |pockets|
      invariant DockAll(pockets[..i], fs0, dock) == (Ok(rows), fs)
    {
      assert pockets[..i + 1][..i] == pockets[..i];
      var (d, fs1) := dock(pockets[i], fs);
      if d.Err? {
        DockAllStops(pockets, fs0, dock, i + 1);
        return Err(d.error), fs1;
      }
      rows, fs := rows + [d.value], fs1;
      i := i + 1;
    }
    assert pockets[..|pockets|] == pockets;
    res := Ok(rows);
  }

  /** Submitting every pocket to the thread pool. */
  method DockAtOnce(pockets: seq<Row>, dock: Docker, fs0: FileSystem)
    returns (results: seq<Result<DockRow>>, fs: FileSystem)
    ensures (results, fs) == DockEach(pockets, fs0, dock)
  {
    fs := fs0;
    results := [];
    var i := 0;
    while i < |pockets|
      invariant 0 <= i <= |pockets|
      invariant DockEach(pockets[..i], fs0, dock) == (results, fs)
    {
      assert pockets[..i + 1][..i] == pockets[..i];
      var (d, fs1) := dock(pockets[i], fs);
      results, fs := results + [d], fs1;
      i := i + 1;
    }
    assert pockets[..|pockets|] == pockets;
  }

  /** `for future in as_completed(futures): rows.append(future.result())`. */
  method CollectInOrder(results: seq<Result<DockRow>>, order: seq<nat>) returns (res: Result<seq<DockRow>>)
    requires Below(order, |results|)
    ensures res == Collect(results, order)
  {
    var rows: seq<DockRow> := [];
    var k := 0;
    while k < |order|
      invariant 0 <= k <= |order|
      invariant Collect(results, order[..k]) == Ok(rows)
    {
      assert order[..k + 1][..k] == order[..k];
      var d := results[order[k]];
      if d.Err? {
        CollectStops(results, order, k + 1);
        return Err(d.error);
      }
      rows := rows + [d.value];
      k := k + 1;
    }
    assert order[..|order|] == order;
    res := Ok(rows);
  }

  /** Once a future has re-raised, later completions do not change the outcome. */
  lemma {:induction false} CollectStops(results: seq<Result<DockRow>>, order: seq<nat>, k: nat)
    requires Below(order, |results|) && k <= |order|
    requires Collect(results, order[..k]).Err?
    ensures Collect(results, order) == Collect(results, order[..k])
    decreases |order| - k
  {
    if k < |order| {
      assert order[..k + 1][..k] == order[..k];
      CollectStops(results, order, k + 1);
    } else {
      assert order[..k] == order;
    }
  }

  /** Once a pocket has raised, the pockets after it are not docked and do not change the
      outcome. */
  lemma {:induction false} DockAllStops(rows: seq<Row>, fs: FileSystem, dock: Docker, k: nat)
    requires k <= |rows| && DockAll(rows[..k], fs, dock).0.Err?
    ensures DockAll(rows, fs, dock) == DockAll(rows[..k], fs, dock)
    decreases |rows| - k
  {
    if k < |rows| {
      assert rows[..k + 1][..k] == rows[..k];
      DockAllStops(rows, fs, dock, k + 1);
    } else {
      assert rows[..k] == rows;
    }
  }
}
