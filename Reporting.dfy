/** The PDF summary report (esm3_pipeline/reporting.py): which pocket rows, docking rows and
    structure files the report lists, and how a failing section is replaced by an error line.
    The page layout and rendering are left to the PDF library, seen here as a function from the
    list of report elements to the file written. */
module Reporting {
  import opened Common
  import opened Text
  import opened Table
  import opened Sorting

  /** The report elements the story is made of. */
  datatype Flowable = Paragraph(text: string, style: string) | Spacer(height: nat) | TableOf(rows: seq<seq<string>>)

  /** The text conversions the report uses: `fmt2` is `f'{x:.2f}'`, `show` is `str()` of a cell,
      `parse` reads one number (used by `ast.literal_eval`). */
  datatype Formats = Formats(fmt2: real -> string, show: Cell -> string, parse: string -> Option<real>)

  /** `f'{c:.2f}'`: numbers only (NaN prints as `nan`); anything else raises. */
  function Fixed2(c: Cell, f: Formats): (r: Option<string>)
    ensures c.Int? ==> r == Some(f.fmt2(c.i as real))
    ensures c.Float? ==> r == Some(f.fmt2(c.x))
    ensures c.Str? || c.Tuple? ==> r.None?
  {
    match c
    case Null => Some("nan")
    case Int(i) => Some(f.fmt2(i as real))
    case Float(x) => Some(f.fmt2(x))
    case _ => None
  }

  /** `Path(cell).name`: only a text is a path. */
  function PdbName(c: Cell): (r: Option<string>)
    ensures r.Some? <==> c.Str?
    ensures c.Str? ==> r.value == Name(c.s)
  {
    if c.Str? then Some(Name(c.s)) else None
  }

  /** `str(r.get('pocket_rank', 1))`. */
  function RankText(r: Row, f: Formats): string {
    if "pocket_rank" in r then f.show(r["pocket_rank"]) else "1"
  }

  /** `ast.literal_eval(c)` for a text, the cell itself otherwise. */
  function CenterValue(c: Cell, f: Formats): Option<Cell> {
    if c.Str? then LiteralEval(c.s, f.parse) else Some(c)
  }

  const PocketHeader := ["PDB", "Pocket", "Score", "Center X", "Center Y", "Center Z"]
  const DockingHeader := ["PDB", "Pocket", "Affinity (kcal/mol)"]

  /** The centre unpacks into three values that `.2f` accepts. */
  predicate ThreeNumbers(center: Option<Cell>, f: Formats) {
    center.Some? && center.value.Tuple? && |center.value.items| == 3 &&
    forall i :: 0 <= i < 3 ==> Fixed2(center.value.items[i], f).Some?
  }

  /** `cx, cy, cz = center` and their `.2f` texts: the centre must be three numbers. */
  function CenterTexts(c: Cell, f: Formats): (t: Option<seq<string>>)
    ensures t.Some? <==> ThreeNumbers(CenterValue(c, f), f)
    ensures t.Some? ==> |t.value| == 3
    ensures t.Some? ==> forall i :: 0 <= i < 3 ==> Fixed2(CenterValue(c, f).value.items[i], f) == Some(t.value[i])
    ensures CenterValue(c, f).None? ==> t.None?
  {
    var center := CenterValue(c, f);
    if center.None? || !center.value.Tuple? || |center.value.items| != 3 then None
    else
      var xyz := center.value.items;
      var cx, cy, cz := Fixed2(xyz[0], f), Fixed2(xyz[1], f), Fixed2(xyz[2], f);
      if cx.None? || cy.None? || cz.None? then None else Some([cx.value, cy.value, cz.value])
  }

  /** The score column: `.2f` of a number, `N/A` when missing. */
  function ScoreText(c: Cell, f: Formats): (t: Option<string>)
    ensures c.Null? ==> t == Some("N/A")
    ensures NotNa(c) ==> t == Fixed2(c, f)
  {
    if NotNa(c) then Fixed2(c, f) else Some("N/A")
  }

  /** One pocket row of the table, or `None` when the row's `try` raises: the centre is missing
      or does not unpack into three numbers, the structure is not a path, or the score is not
      a number. A missing score prints `N/A`, a missing rank prints `1`. */
  function PocketRow(r: Row, f: Formats): (d: Option<seq<string>>)
    ensures d.Some? ==>
      |d.value| == 6 && "center" in r && "pdb" in r && "score" in r &&
      PdbName(r["pdb"]) == Some(d.value[0]) && d.value[1] == RankText(r, f) &&
      ScoreText(r["score"], f) == Some(d.value[2]) && CenterTexts(r["center"], f) == Some(d.value[3..])
    ensures d.Some? <==> ("center" in r && "pdb" in r && "score" in r &&
                          CenterTexts(r["center"], f).Some? && r["pdb"].Str? && ScoreText(r["score"], f).Some?)
    ensures "center" in r && CenterValue(r["center"], f) == None ==> d.None?
  {
    if "center" !in r || "pdb" !in r || "score" !in r then None
    else
      var xyz, name, score := CenterTexts(r["center"], f), PdbName(r["pdb"]), ScoreText(r["score"], f);
      if xyz.None? || name.None? || score.None? then None
      else
        var d := [name.value, RankText(r, f), score.value] + xyz.value;
        assert d[3..] == xyz.value;
        Some(d)
  }

  /** The data rows collected from `rows`, in order, the rows that raise left out. */
  function PocketRows(rows: seq<Row>, f: Formats): (d: seq<seq<string>>)
    ensures |d| <= |rows|
    ensures forall i :: 0 <= i < |d| ==> |d[i]| == 6
    decreases |rows|
  {
    if rows == [] then []
    else
      var last := PocketRow(rows[|rows| - 1], f);
      PocketRows(rows[..|rows| - 1], f) + (if last.Some? then [last.value] else [])
  }

  /** One row gives its data row when it converts and nothing when it raises. */
  lemma {:induction false} PocketRowsSingle(r: Row, f: Formats)
    ensures PocketRows([r], f) == (if PocketRow(r, f).Some? then [PocketRow(r, f).value] else [])
  {
    assert [r][..0] == [];
  }

  /** The loop treats each row on its own: the data rows of two tables one after the other are
      those of the first followed by those of the second, so in a mixed table exactly the rows
      that convert are kept, in their order. */
  lemma {:induction false} PocketRowsAppend(a: seq<Row>, b: seq<Row>, f: Formats)
    ensures PocketRows(a + b, f) == PocketRows(a, f) + PocketRows(b, f)
    decreases |b|
  {
    if b == [] {
      assert a + b == a;
    } else {
      var init := b[..|b| - 1];
      assert (a + b)[..|a + b| - 1] == a + init;
      assert (a + b)[|a + b| - 1] == b[|b| - 1];
      PocketRowsAppend(a, init, f);
    }
  }

  /** Rows that all convert give one data row each, in order. */
  lemma {:induction false} PocketRowsAllKept(rows: seq<Row>, f: Formats)
    requires forall i :: 0 <= i < |rows| ==> PocketRow(rows[i], f).Some?
    ensures |PocketRows(rows, f)| == |rows|
    ensures forall i :: 0 <= i < |rows| ==> PocketRows(rows, f)[i] == PocketRow(rows[i], f).value
    decreases |rows|
  {
    if rows != [] {
      PocketRowsAllKept(rows[..|rows| - 1], f);
    }
  }

  /** Rows that raise are skipped without a trace. */
  lemma {:induction false} PocketRowsNoneKept(rows: seq<Row>, f: Formats)
    requires forall i :: 0 <= i < |rows| ==> PocketRow(rows[i], f).None?
    ensures PocketRows(rows, f) == []
    decreases |rows|
  {
    if rows != [] {
      PocketRowsNoneKept(rows[..|rows| - 1], f);
    }
  }

  /** The story elements standing for a section whose data could not be loaded. */
  function ErrorLines(what: string): seq<Flowable> {
    [Paragraph("Error loading " + what + " data", "Normal"), Spacer(12)]
  }

  /** The pocket section: nothing without `pockets_summary.csv`, an error line when it cannot be
      read, nothing for an empty table or when no row of the first 10 converts, and otherwise
      the heading, the table and a spacer. `table` is what `pd.read_csv` gives. */
  function PocketSection(present: bool, table: Option<seq<Row>>, f: Formats): (s: seq<Flowable>)
    ensures !present ==> s == []
    ensures present && table.None? ==> s == ErrorLines("pocket")
    ensures present && table.Some? ==>
      var data := PocketRows(PyPrefix(table.value, 10), f);
      (data == [] ==> s == []) &&
      (data != [] ==> s == [Paragraph("Detected Binding Pockets (Top 10)", "Heading2"), TableOf([PocketHeader] + data), Spacer(20)])
  {
    if !present then []
    else if table.None? then ErrorLines("pocket")
    else if table.value == [] then []
    else
      var data := PocketRows(PyPrefix(table.value, 10), f);
      if data == [] then []
      else [Paragraph("Detected Binding Pockets (Top 10)", "Heading2"), TableOf([PocketHeader] + data), Spacer(20)]
  }

  /** The pocket table lists at most 10 rows, each one of the first 10 of the file. */
  lemma {:induction false} PocketSectionBound(table: seq<Row>, f: Formats)
    ensures var s := PocketSection(true, Some(table), f);
      s != [] ==> |s| == 3 && s[1].TableOf? && 2 <= |s[1].rows| <= 11 && s[1].rows[0] == PocketHeader
  {
  }

  /** The affinity of a docking row as a number (`None` for text or a tuple, which make the
      sort or the formatting raise). */
  function Affinity(r: Row): Option<real> {
    if "affinity" !in r then None
    else match r["affinity"]
      case Int(i) => Some(i as real)
      case Float(x) => Some(x)
      case _ => None
  }

  /** Ascending affinity, the order of `sort_values('affinity')`. */
  predicate AffinityLe(a: Row, b: Row) {
    Affinity(a).GetOr(0.0) <= Affinity(b).GetOr(0.0)
  }

  lemma {:induction false} AffinityLeIsTotalPreorder()
    ensures TotalPreorder(AffinityLe)
  {
  }

  /** `dfg[dfg['affinity'].notna()]`. */
  function WithAffinity(rows: seq<Row>): (v: seq<Row>)
    requires forall i :: 0 <= i < |rows| ==> "affinity" in rows[i]
    ensures |v| <= |rows|
    ensures forall i :: 0 <= i < |v| ==> "affinity" in v[i] && NotNa(v[i]["affinity"])
    ensures forall r :: r in v <==> r in rows && NotNa(r["affinity"])
    decreases |rows|
  {
    if rows == [] then []
    else
      var init := WithAffinity(rows[..|rows| - 1]);
      var last := rows[|rows| - 1];
      assert forall r :: r in rows <==> r in rows[..|rows| - 1] || r == last;
      init + (if NotNa(last["affinity"]) then [last] else [])
  }

  /** A docking row converts when its structure is a path and its affinity a number. */
  predicate DockingRowConverts(r: Row) {
    "pdb" in r && r["pdb"].Str? && Affinity(r).Some?
  }

  /** One docking row: structure name, rank and affinity; `None` when it raises. */
  function DockingRow(r: Row, f: Formats): (d: Option<seq<string>>)
    ensures d.Some? ==>
      |d.value| == 3 && "pdb" in r && PdbName(r["pdb"]) == Some(d.value[0]) &&
      Affinity(r).Some? && d.value[2] == f.fmt2(Affinity(r).value)
  {
    if "pdb" !in r || Affinity(r).None? || !r["pdb"].Str? then None
    else Some([Name(r["pdb"].s), RankText(r, f), f.fmt2(Affinity(r).value)])
  }

  /** A docking row converts exactly when its structure is a path and its affinity a number,
      and its middle text is the rank (default 1). */
  lemma {:induction false} DockingRowText(r: Row, f: Formats)
    ensures DockingRow(r, f).Some? <==> DockingRowConverts(r)
    ensures DockingRow(r, f).Some? ==> DockingRow(r, f).value[1] == RankText(r, f)
  {
  }

  /** The rows of the docking table, `None` as soon as one raises (the section has no per-row
      handler). */
  function DockingRows(rows: seq<Row>, f: Formats): (d: Option<seq<seq<string>>>)
    ensures d.Some? ==> |d.value| == |rows| && forall i :: 0 <= i < |rows| ==> DockingRow(rows[i], f) == Some(d.value[i])
    decreases |rows|
  {
    if rows == [] then Some([])
    else
      var init, last := DockingRows(rows[..|rows| - 1], f), DockingRow(rows[|rows| - 1], f);
      if init.None? || last.None? then None else Some(init.value + [last.value])
  }

  /** The table has its rows exactly when every row shown converts. */
  lemma {:induction false} DockingRowsSome(rows: seq<Row>, f: Formats)
    ensures DockingRows(rows, f).Some? <==> forall i :: 0 <= i < |rows| ==> DockingRowConverts(rows[i])
    decreases |rows|
  {
    if rows != [] {
      var init := rows[..|rows| - 1];
      DockingRowsSome(init, f);
      DockingRowText(rows[|rows| - 1], f);
      assert forall i :: 0 <= i < |init| ==> init[i] == rows[i];
      forall i | 0 <= i < |init|
        ensures DockingRow(init[i], f).Some? <==> DockingRowConverts(init[i])
      {
        DockingRowText(init[i], f);
      }
    }
  }

  /** The rows the docking table shows: those with an affinity, best (lowest) first, at most 10.
      pandas' default sort is not stable; the stable order used here is one of the orders it may
      produce. */
  function TopDocking(rows: seq<Row>): seq<Row>
    requires forall i :: 0 <= i < |rows| ==> "affinity" in rows[i]
  {
    PyPrefix(SortBy(WithAffinity(rows), AffinityLe), 10)
  }

  /** The docking section: nothing without `vina_results.csv`, an error line when it cannot be
      read or a shown row raises (missing `affinity` column, an affinity that is not a number, a
      structure that is not a path), nothing when no row has an affinity, else heading, table,
      spacer. */
  function DockingSection(present: bool, table: Option<seq<Row>>, f: Formats): (s: seq<Flowable>)
    ensures !present ==> s == []
    ensures present && table.None? ==> s == ErrorLines("docking")
    ensures present && table.Some? && (exists i :: 0 <= i < |table.value| && "affinity" !in table.value[i]) ==>
      s == ErrorLines("docking")
    ensures present && table.Some? && (forall i :: 0 <= i < |table.value| ==> "affinity" in table.value[i]) ==>
      var rows := table.value;
      var valid := WithAffinity(rows);
      (valid == [] ==> s == []) &&
      ((exists i :: 0 <= i < |valid| && Affinity(valid[i]).None?) ==> s == ErrorLines("docking")) &&
      ((forall i :: 0 <= i < |valid| ==> Affinity(valid[i]).Some?) && valid != [] ==>
        var data := DockingRows(TopDocking(rows), f);
        (data.None? ==> s == ErrorLines("docking")) &&
        (data.Some? ==> s == [Paragraph("Docking Results (Top 10 by Affinity)", "Heading2"), TableOf([DockingHeader] + data.value), Spacer(20)]))
  {
    if !present then []
    else if table.None? then ErrorLines("docking")
    else
      var rows := table.value;
      if exists i :: 0 <= i < |rows| && "affinity" !in rows[i] then ErrorLines("docking")
      else
        var valid := WithAffinity(rows);
        if exists i :: 0 <= i < |valid| && Affinity(valid[i]).None? then ErrorLines("docking")
        else if valid == [] then []
        else
          var data := DockingRows(TopDocking(rows), f);
          if data.None? then ErrorLines("docking")
          else [Paragraph("Docking Results (Top 10 by Affinity)", "Heading2"), TableOf([DockingHeader] + data.value), Spacer(20)]
  }

  /** The docking table shows `min(10, n)` rows of the `n` with an affinity, in ascending order
      of affinity, each a row of the file that has an affinity. */
  lemma {:induction false} DockingSorted(rows: seq<Row>)
    requires forall i :: 0 <= i < |rows| ==> "affinity" in rows[i]
    ensures var top := TopDocking(rows);
      var n := |WithAffinity(rows)|;
      |top| == (if n < 10 then n else 10) && Sorted(top, AffinityLe) &&
      forall i :: 0 <= i < |top| ==> top[i] in rows && NotNa(top[i]["affinity"])
  {
    var valid := WithAffinity(rows);
    var sorted := SortBy(valid, AffinityLe);
    var top := TopDocking(rows);
    AffinityLeIsTotalPreorder();
    SortBySorted(valid, AffinityLe);
    forall i | 0 <= i < |top|
      ensures top[i] in rows && NotNa(top[i]["affinity"])
    {
      assert top[i] == sorted[i];
      assert sorted[i] in multiset(valid);
    }
  }

  /** The rows shown are the best: a row with an affinity that is not shown has an affinity no
      better than any shown. */
  lemma {:induction false} DockingBest(rows: seq<Row>, x: Row)
    requires forall i :: 0 <= i < |rows| ==> "affinity" in rows[i]
    requires x in WithAffinity(rows) && x !in TopDocking(rows)
    ensures forall i :: 0 <= i < |TopDocking(rows)| ==> AffinityLe(TopDocking(rows)[i], x)
  {
    var valid := WithAffinity(rows);
    var sorted := SortBy(valid, AffinityLe);
    var top := TopDocking(rows);
    AffinityLeIsTotalPreorder();
    SortBySorted(valid, AffinityLe);
    assert x in multiset(sorted);
    var k :| 0 <= k < |sorted| && sorted[k] == x;
    assert top == sorted[..|top|];
    assert k >= |top|;
  }

  /** `Generated PDB Files (n total)`. */
  function TotalLine(n: nat): Flowable {
    Paragraph("Generated PDB Files (" + NatToString(n) + " total)", "Heading2")
  }

  /** `... and k more`. */
  function MoreLine(k: nat): Flowable {
    Paragraph("... and " + NatToString(k) + " more", "Normal")
  }

  /** `• name`. */
  function Bullet(p: Path): Flowable {
    Paragraph("• " + Name(p), "Normal")
  }

  /** One bullet per file. */
  function Bullets(files: seq<Path>): (s: seq<Flowable>)
    ensures |s| == |files|
    ensures forall i :: 0 <= i < |files| ==> s[i] == Bullet(files[i])
  {
    if files == [] then [] else Bullets(files[..|files| - 1]) + [Bullet(files[|files| - 1])]
  }

  /** The structure-file list: nothing without files; otherwise the count, the first 20 names in
      sorted order, and a last line with the number left out exactly when there are more. */
  function PdbSection(listing: seq<Path>): (s: seq<Flowable>)
    ensures listing == [] ==> s == []
  {
    var files := SortPaths(listing);
    var n := |files|;
    if n == 0 then []
    else [TotalLine(n), Spacer(6)] + Bullets(PySlice(files, 0, 20)) + (if n > 20 then [MoreLine(n - 20)] else []) + [Spacer(12)]
  }

  /** Where the pieces of the structure-file list sit. */
  lemma {:induction false} PdbLayout(total: Flowable, bullets: seq<Flowable>, more: seq<Flowable>)
    ensures var s := [total, Spacer(6)] + bullets + more + [Spacer(12)];
      |s| == 3 + |bullets| + |more| && s[0] == total &&
      (forall i :: 0 <= i < |bullets| ==> s[2 + i] == bullets[i]) &&
      (more != [] ==> s[2 + |bullets|] == more[0])
  {
  }

  /** At most 20 names are listed, the first 20 in sorted order, and the `... and k more` line
      appears exactly when there are more than 20 files, with `k` the number not listed. */
  lemma {:induction false} PdbSectionShape(listing: seq<Path>)
    requires listing != []
    ensures var s := PdbSection(listing);
      var n := |listing|;
      var shown := if n < 20 then n else 20;
      |s| == 3 + shown + (if n > 20 then 1 else 0) && s[0] == TotalLine(n) &&
      (forall i :: 0 <= i < shown ==> s[2 + i] == Bullet(SortPaths(listing)[i])) &&
      (n > 20 ==> s[2 + shown] == MoreLine(n - 20))
  {
    var files := SortPaths(listing);
    var n := |files|;
    var shown := PySlice(files, 0, 20);
    assert |shown| == if n < 20 then n else 20;
    assert forall i :: 0 <= i < |shown| ==> shown[i] == files[i];
    var more := if n > 20 then [MoreLine(n - 20)] else [];
    PdbLayout(TotalLine(n), Bullets(shown), more);
  }

  /** What the report needs from outside: whether each CSV file exists and what reading it
      gives, the structure files found, and the renderer (`None` when building the document
      raises, which `build_report` re-raises). */
  datatype Inputs = Inputs(pocketsPresent: bool, pockets: Option<seq<Row>>, vinaPresent: bool, vina: Option<seq<Row>>,
                           pdbFiles: seq<Path>, render: seq<Flowable> -> Option<string>)

  /** The story: title and spacer, then the three sections in order. */
  function Story(inp: Inputs, f: Formats): seq<Flowable> {
    [Paragraph("ESM3 Pipeline Results Report", "Title"), Spacer(20)] +
    PocketSection(inp.pocketsPresent, inp.pockets, f) +
    DockingSection(inp.vinaPresent, inp.vina, f) +
    PdbSection(inp.pdbFiles)
  }

  /** `build_report`: the PDF is written from the story; a failure to build it is raised. */
  function Report(inp: Inputs, f: Formats, outPdf: Path, fs: FileSystem): (r: (Result<()>, FileSystem))
    ensures inp.render(Story(inp, f)).None? ==> r == (Err(OtherException), fs)
    ensures inp.render(Story(inp, f)).Some? ==> r == (Ok(()), fs[outPdf := inp.render(Story(inp, f)).value])
  {
    var pdf := inp.render(Story(inp, f));
    if pdf.None? then (Err(OtherException), fs) else (Ok(()), fs[outPdf := pdf.value])
  }

  /** A pocket file that cannot be read costs only its section: the error line stands in its
      place and the docking and file sections follow unchanged. */
  lemma {:induction false} SectionErrorContained(inp: Inputs, f: Formats)
    requires inp.pocketsPresent && inp.pockets.None?
    ensures Story(inp, f) ==
      [Paragraph("ESM3 Pipeline Results Report", "Title"), Spacer(20)] + ErrorLines("pocket") +
      DockingSection(inp.vinaPresent, inp.vina, f) + PdbSection(inp.pdbFiles)
  {
  }

  /** The docking table raises inside the guarded block: a row lacks the `affinity` column, an
      affinity that is not missing is not a number, or a shown row does not convert. */
  predicate DockingRaises(rows: seq<Row>, f: Formats) {
    if exists i :: 0 <= i < |rows| && "affinity" !in rows[i] then true
    else
      var valid := WithAffinity(rows);
      (exists i :: 0 <= i < |valid| && Affinity(valid[i]).None?) ||
      (valid != [] && DockingRows(TopDocking(rows), f).None?)
  }

  /** The docking section is the error line exactly when `vina_results.csv` exists and either
      cannot be read or raises while its table is built. */
  lemma {:induction false} DockingErrorExactly(present: bool, table: Option<seq<Row>>, f: Formats)
    ensures DockingSection(present, table, f) == ErrorLines("docking") <==>
      present && (table.None? || DockingRaises(table.value, f))
  {
    var s := DockingSection(present, table, f);
    if present && table.Some? && !DockingRaises(table.value, f) {
      var rows := table.value;
      if WithAffinity(rows) != [] {
        var data := DockingRows(TopDocking(rows), f);
        assert s[0] == Paragraph("Docking Results (Top 10 by Affinity)", "Heading2");
        assert ErrorLines("docking")[0].text[0] == 'E';
      }
    }
  }

  /** A docking file that cannot be read, or a docking section that raises, costs only that
      section: the pocket section comes before it unchanged, the error line stands in its place,
      and the file section follows unchanged. */
  lemma {:induction false} DockingErrorContained(inp: Inputs, f: Formats)
    requires inp.vinaPresent && (inp.vina.None? || DockingRaises(inp.vina.value, f))
    ensures Story(inp, f) ==
      [Paragraph("ESM3 Pipeline Results Report", "Title"), Spacer(20)] +
      PocketSection(inp.pocketsPresent, inp.pockets, f) + ErrorLines("docking") + PdbSection(inp.pdbFiles)
  {
    DockingErrorExactly(inp.vinaPresent, inp.vina, f);
  }

  /** The pocket loop of `build_report`: `data` grows by one row per row of `dfp.head(10)` that
      converts. */
  method CollectPocketRows(rows: seq<Row>, f: Formats) returns (data: seq<seq<string>>)
    ensures data == PocketRows(rows, f)
  {
    data := [];
    for i := 0 to |rows|
      invariant data == PocketRows(rows[..i], f)
    {
      assert rows[..i + 1][..i] == rows[..i];
      var row := PocketRow(rows[i], f);
      if row.None? {
        continue;
      }
      data := data + [row.value];
    }
    assert rows[..|rows|] == rows;
  }

  /** The loop over `pdb_files[:20]`. */
  method BulletList(shown: seq<Path>) returns (lines: seq<Flowable>)
    ensures lines == Bullets(shown)
  {
    lines := [];
    for i := 0 to |shown|
      invariant lines == Bullets(shown[..i])
    {
      assert shown[..i + 1][..i] == shown[..i];
      lines := lines + [Bullet(shown[i])];
    }
    assert shown[..|shown|] == shown;
  }

  /** The file-list part of `build_report`, appending to the story. */
  method AppendPdbList(story0: seq<Flowable>, listing: seq<Path>) returns (story: seq<Flowable>)
    ensures story == story0 + PdbSection(listing)
  {
    story := story0;
    var files := SortPaths(listing);
    if files == [] {
      return;
    }
    var shown := PySlice(files, 0, 20);
    var bullets := BulletList(shown);
    var lines := [TotalLine(|files|), Spacer(6)] + bullets;
    ghost var front := lines;
    if |files| > 20 {
      lines := lines + [MoreLine(|files| - 20)];
    }
    assert lines == front + (if |files| > 20 then [MoreLine(|files| - 20)] else []);
    lines := lines + [Spacer(12)];
    assert lines == PdbSection(listing);
    story := story + lines;
  }

  /** The docking loop of `build_report` over `dfg_valid.head(10)`; the first row that raises
      ends the section. */
  method CollectDockingRows(rows: seq<Row>, f: Formats) returns (data: Option<seq<seq<string>>>)
    ensures data == DockingRows(rows, f)
  {
    var acc: seq<seq<string>> := [];
    for i := 0 to |rows|
      invariant DockingRows(rows[..i], f) == Some(acc)
    {
      assert rows[..i + 1][..i] == rows[..i];
      var row := DockingRow(rows[i], f);
      if row.None? {
        DockingRowsStops(rows, i + 1, f);
        return None;
      }
      acc := acc + [row.value];
    }
    assert rows[..|rows|] == rows;
    return Some(acc);
  }

  /** Once a row raises, no longer prefix converts. */
  lemma {:induction false} DockingRowsStops(rows: seq<Row>, k: nat, f: Formats)
    requires k <= |rows| && DockingRows(rows[..k], f).None?
    ensures DockingRows(rows, f).None?
    decreases |rows| - k
  {
    if k < |rows| {
      assert rows[..k + 1][..k] == rows[..k];
      DockingRowsStops(rows, k + 1, f);
    } else {
      assert rows[..k] == rows;
    }
  }

  /** The docking part of `build_report`, appending to the story. */
  method AppendDocking(story0: seq<Flowable>, present: bool, table: Option<seq<Row>>, f: Formats) returns (story: seq<Flowable>)
    ensures story == story0 + DockingSection(present, table, f)
  {
    story := story0;
    if !present {
      return;
    }
    if table.None? {
      story := story + ErrorLines("docking");
      return;
    }
    var rows := table.value;
    if exists i :: 0 <= i < |rows| && "affinity" !in rows[i] {
      story := story + ErrorLines("docking");
      return;
    }
    var valid := WithAffinity(rows);
    if exists i :: 0 <= i < |valid| && Affinity(valid[i]).None? {
      story := story + ErrorLines("docking");
      return;
    }
    if valid == [] {
      return;
    }
    var data := CollectDockingRows(TopDocking(rows), f);
    if data.None? {
      story := story + ErrorLines("docking");
      return;
    }
    story := story + [Paragraph("Docking Results (Top 10 by Affinity)", "Heading2"), TableOf([DockingHeader] + data.value), Spacer(20)];
  }

  /** The pocket part of `build_report`, appending to the story. */
  method AppendPockets(story0: seq<Flowable>, present: bool, table: Option<seq<Row>>, f: Formats) returns (story: seq<Flowable>)
    ensures story == story0 + PocketSection(present, table, f)
  {
    story := story0;
    if !present {
      return;
    }
    if table.None? {
      story := story + ErrorLines("pocket");
      return;
    }
    if table.value == [] {
      return;
    }
    var data := CollectPocketRows(PyPrefix(table.value, 10), f);
    if |data| > 0 {
      story := story + [Paragraph("Detected Binding Pockets (Top 10)", "Heading2"), TableOf([PocketHeader] + data), Spacer(20)];
    }
  }

  /** `build_report`, appending to `story` section by section. */
  method BuildReport(inp: Inputs, f: Formats, outPdf: Path, fs0: FileSystem) returns (r: Result<()>, fs: FileSystem)
    ensures (r, fs) == Report(inp, f, outPdf, fs0)
  {
    var story := [Paragraph("ESM3 Pipeline Results Report", "Title"), Spacer(20)];
    story := AppendPockets(story, inp.pocketsPresent, inp.pockets, f);
    story := AppendDocking(story, inp.vinaPresent, inp.vina, f);
    story := AppendPdbList(story, inp.pdbFiles);
    assert story == Story(inp, f);
    var pdf := inp.render(story);
    if pdf.None? {
      return Err(OtherException), fs0;
    }
    return Ok(()), fs0[outPdf := pdf.value];
  }
}
