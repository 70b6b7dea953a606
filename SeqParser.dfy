/** Protein sequences (esm3_pipeline/seq_parser.py): extraction of CDS translations from GenBank
    files into one FASTA file, the length filter with its optional sort and limit, and the
    amino-acid alphabet check. */
module SeqParser {
  import opened Common
  import opened Text
  import opened Sorting

  /** A FASTA record: its identifier and its residues. */
  datatype SeqRec = SeqRec(id: string, residues: string)

  /** `min_len <= len(r.seq) <= max_len`. */
  predicate InWindow(r: SeqRec, minLen: int, maxLen: int) {
    minLen <= |r.residues| <= maxLen
  }

  /** `[r for r in records if min_len <= len(r.seq) <= max_len]`. */
  function FilterWindow(s: seq<SeqRec>, minLen: int, maxLen: int): (r: seq<SeqRec>)
    ensures |r| <= |s|
    ensures forall i :: 0 <= i < |r| ==> InWindow(r[i], minLen, maxLen)
  {
    if s == [] then []
    else (if InWindow(s[0], minLen, maxLen) then [s[0]] else []) + FilterWindow(s[1..], minLen, maxLen)
  }

  /** The filter works record by record, so it keeps the input order. */
  lemma {:induction false} FilterAppend(a: seq<SeqRec>, b: seq<SeqRec>, minLen: int, maxLen: int)
    ensures FilterWindow(a + b, minLen, maxLen) == FilterWindow(a, minLen, maxLen) + FilterWindow(b, minLen, maxLen)
  {
    if a != [] {
      assert (a + b)[0] == a[0] && (a + b)[1..] == a[1..] + b;
      FilterAppend(a[1..], b, minLen, maxLen);
    } else {
      assert a + b == b;
    }
  }

  /** The filter keeps exactly the records inside the window. */
  lemma {:induction false} FilterKeepsExactly(s: seq<SeqRec>, minLen: int, maxLen: int, x: SeqRec)
    ensures x in FilterWindow(s, minLen, maxLen) <==> x in s && InWindow(x, minLen, maxLen)
  {
    if s != [] {
      FilterKeepsExactly(s[1..], minLen, maxLen, x);
      assert s == [s[0]] + s[1..];
    }
  }

  /** The key of `sort(key=lambda r: len(r.seq), reverse=True)`: longer first. */
  predicate LongerOrEqual(a: SeqRec, b: SeqRec) {
    |a.residues| >= |b.residues|
  }

  lemma {:induction false} LongerOrEqualIsTotalPreorder()
    ensures TotalPreorder(LongerOrEqual)
  {
  }

  /** `filter_and_select`: `records` is what the FASTA reader returns (`None` when it fails), and
      `write` is the FASTA writer, used when an output path is given (`None` when it raises,
      which the guarded block turns into `ParseError`). */
  function FilterAndSelect(fasta: Path, fs: FileSystem, records: Option<seq<SeqRec>>, minLen: int, maxLen: int,
                           limit: int, out: Option<Path>, sortByLength: bool,
                           write: seq<SeqRec> -> Option<string>): (res: (Result<seq<SeqRec>>, FileSystem))
    ensures fasta !in fs ==> res == (Err(FileNotFound), fs)
    ensures fasta in fs && records.None? ==> res == (Err(ParseError), fs)
    ensures fasta in fs && records.Some? ==>
      var filtered := FilterWindow(records.value, minLen, maxLen);
      var ordered := if sortByLength then SortBy(filtered, LongerOrEqual) else filtered;
      var selected := PyPrefix(ordered, limit);
      if out.Some? && write(selected).None? then res == (Err(ParseError), fs)
      else
        res.0 == Ok(selected) &&
        res.1 == if out.Some? then fs[out.value := write(selected).value] else fs
  {
    if fasta !in fs then (Err(FileNotFound), fs)
    else if records.None? then (Err(ParseError), fs)
    else
      var filtered := FilterWindow(records.value, minLen, maxLen);
      var ordered := if sortByLength then SortBy(filtered, LongerOrEqual) else filtered;
      var selected := PyPrefix(ordered, limit);
      if out.None? then (Ok(selected), fs)
      else
        var text := write(selected);
        if text.None? then (Err(ParseError), fs)
        else (Ok(selected), fs[out.value := text.value])
  }

  /** Without sorting, the selection is the first `limit` records inside the window, in input
      order (all of them when fewer pass). */
  lemma {:induction false} SelectionInOrder(s: seq<SeqRec>, minLen: int, maxLen: int, limit: int)
    requires limit >= 0
    ensures var filtered := FilterWindow(s, minLen, maxLen);
      var selected := PyPrefix(filtered, limit);
      |selected| == (if limit <= |filtered| then limit else |filtered|) &&
      selected == filtered[..|selected|] &&
      forall i :: 0 <= i < |selected| ==> InWindow(selected[i], minLen, maxLen)
  {
  }

  /** With sorting, the selection is longest first, and records of equal length keep their
      input order. */
  lemma {:induction false} SelectionSorted(s: seq<SeqRec>, minLen: int, maxLen: int, limit: int, x: SeqRec)
    ensures var filtered := FilterWindow(s, minLen, maxLen);
      var ordered := SortBy(filtered, LongerOrEqual);
      Sorted(PyPrefix(ordered, limit), LongerOrEqual) &&
      EquivTo(ordered, x, LongerOrEqual) == EquivTo(filtered, x, LongerOrEqual) &&
      forall i :: 0 <= i < |ordered| ==> InWindow(ordered[i], minLen, maxLen)
  {
    var filtered := FilterWindow(s, minLen, maxLen);
    LongerOrEqualIsTotalPreorder();
    SortBySorted(filtered, LongerOrEqual);
    SortByStable(filtered, x, LongerOrEqual);
    var ordered := SortBy(filtered, LongerOrEqual);
    forall i | 0 <= i < |ordered|
      ensures InWindow(ordered[i], minLen, maxLen)
    {
      assert ordered[i] in multiset(filtered);
    }
    var selected := PyPrefix(ordered, limit);
    assert forall i :: 0 <= i < |selected| ==> selected[i] == ordered[i];
  }

  /** The test's four records of lengths 30, 100, 200 and 2000 with the window [50, 1200]:
      two are selected. */
  lemma {:induction false} FilterExample(fasta: Path, fs: FileSystem, a: SeqRec, b: SeqRec, c: SeqRec, d: SeqRec,
                                         out: Path, write: seq<SeqRec> -> Option<string>)
    requires fasta in fs && write([b, c]).Some?
    requires |a.residues| == 30 && |b.residues| == 100 && |c.residues| == 200 && |d.residues| == 2000
    ensures var res := FilterAndSelect(fasta, fs, Some([a, b, c, d]), 50, 1200, 10, Some(out), false, write).0;
      res.Ok? && res.value == [b, c]
  {
    var s := [a, b, c, d];
    assert s[1..][1..][1..][1..] == [];
    assert FilterWindow(s[1..][1..][1..], 50, 1200) == [];
    assert FilterWindow(s[1..][1..], 50, 1200) == [c];
    assert FilterWindow(s[1..], 50, 1200) == [b, c];
    assert PyPrefix(FilterWindow(s, 50, 1200), 10) == [b, c];
  }

  /** `c.upper()` where the result is a single character: ASCII letters, and the two other
      characters whose capital is an ASCII letter (dotless i and long s). */
  function Upper(c: char): char {
    if 'a' <= c <= 'z' then (c as int - 'a' as int + 'A' as int) as char
    else if c == 'ı' then 'I'
    else if c == 'ſ' then 'S'
    else c
  }

  /** `set('ACDEFGHIKLMNPQRSTVWY*X')`. */
  predicate AminoAcid(c: char) {
    c in "ACDEFGHIKLMNPQRSTVWY*X"
  }

  /** `validate_sequence`: every character, in upper case, is an amino-acid letter, `*` or `X`.
      Characters whose upper case is longer than one character are never in the set, and stay
      themselves here, which are not in it either. */
  function ValidateSequence(s: string): (ok: bool)
    ensures ok <==> forall i :: 0 <= i < |s| ==> AminoAcid(Upper(s[i]))
  {
    if s == [] then true else AminoAcid(Upper(s[0])) && ValidateSequence(s[1..])
  }

  /** The check ignores case: a sequence and its upper-case form are valid together. */
  lemma {:induction false} ValidateIgnoresCase(s: string, t: string)
    requires |s| == |t| && forall i :: 0 <= i < |s| ==> Upper(s[i]) == Upper(t[i])
    ensures ValidateSequence(s) == ValidateSequence(t)
  {
  }

  /** Upper case leaves every character of the alphabet as it is. */
  lemma {:induction false} UpperKeepsAlphabet(c: char)
    requires AminoAcid(c)
    ensures Upper(c) == c
  {
  }

  /** A text over the alphabet passes; with `ValidateIgnoresCase`, so does its lower-case form. */
  lemma {:induction false} ValidateAcceptsAlphabet(s: string)
    requires forall i :: 0 <= i < |s| ==> AminoAcid(s[i])
    ensures ValidateSequence(s)
  {
    forall i | 0 <= i < |s|
      ensures AminoAcid(Upper(s[i]))
    {
      UpperKeepsAlphabet(s[i]);
    }
  }

  /** The test's rejections: a `Z`, and digits. */
  lemma {:induction false} ValidateRejects()
    ensures !ValidateSequence("ACDEFGZ")
    ensures !ValidateSequence("123456")
  {
    assert !AminoAcid(Upper("ACDEFGZ"[6]));
    assert !AminoAcid(Upper("123456"[0]));
  }

  // ---------------------------------------------------------------------------------------------
  // Extraction of protein translations from GenBank files

  /** A feature of a GenBank record: its type and its qualifiers, each a list of values. */
  datatype Feature = Feature(kind: string, qualifiers: map<string, seq<string>>)

  /** A GenBank record: its identifier and its features. */
  datatype GbRecord = GbRecord(id: string, features: seq<Feature>)

  /** One FASTA entry written: the header line (without its newline) and the protein. */
  datatype Entry = Entry(header: string, protein: string)

  /** What the extraction has done so far: the entries written and the translations seen. */
  datatype Progress = Progress(entries: seq<Entry>, seen: set<string>)

  /** The progress after a step, and whether the step raised (which ends the current file). */
  datatype Outcome = Outcome(progress: Progress, failed: bool)

  /** `q.get(key, [default])[0]`: the default when the key is absent, `None` (an `IndexError`)
      when the key holds an empty list. */
  function Qualifier(q: map<string, seq<string>>, key: string, default: string): (r: Option<string>)
    ensures key !in q ==> r == Some(default)
    ensures key in q ==> (r.None? <==> q[key] == []) && (r.Some? ==> r.value == q[key][0])
  {
    if key !in q then Some(default)
    else if q[key] == [] then None
    else Some(q[key][0])
  }

  /** `>{rec.id}|{fn.name}|{pid}|{gene}|{locus_tag}|{product}`. */
  function Header(recId: string, fileName: string, pid: string, gene: string, locus: string, product: string): string {
    ">" + recId + "|" + fileName + "|" + pid + "|" + gene + "|" + locus + "|" + product
  }

  /** The work on one feature. A non-CDS feature and an empty translation are passed over; with
      deduplication a translation already seen is passed over, and a new one is added to the seen
      set before the other qualifiers are read, so a later `IndexError` leaves it there. */
  function FeatureStep(p: Progress, recId: string, fileName: string, dedupe: bool, feat: Feature): (o: Outcome)
    ensures |o.progress.entries| <= |p.entries| + 1
    ensures p.entries <= o.progress.entries
    ensures p.seen <= o.progress.seen
    ensures |o.progress.entries| == |p.entries| + 1 ==>
      var q := feat.qualifiers;
      var prot := o.progress.entries[|p.entries|].protein;
      !o.failed && feat.kind == "CDS" && prot != [] && Qualifier(q, "translation", "") == Some(prot) &&
      (dedupe ==> prot !in p.seen && prot in o.progress.seen) &&
      Qualifier(q, "gene", "unknown").Some? && Qualifier(q, "protein_id", "").Some? &&
      Qualifier(q, "locus_tag", "").Some? && Qualifier(q, "product", "").Some? &&
      o.progress.entries[|p.entries|].header ==
        Header(recId, fileName, Qualifier(q, "protein_id", "").value, Qualifier(q, "gene", "unknown").value,
               Qualifier(q, "locus_tag", "").value, Qualifier(q, "product", "").value)
    ensures feat.kind != "CDS" ==> o == Outcome(p, false)
    ensures !dedupe ==> o.progress.seen == p.seen
    ensures var q := feat.qualifiers; var t := Qualifier(q, "translation", "");
      feat.kind == "CDS" && t.Some? && t.value != [] && !(dedupe && t.value in p.seen) &&
      Qualifier(q, "gene", "unknown").Some? && Qualifier(q, "protein_id", "").Some? &&
      Qualifier(q, "locus_tag", "").Some? && Qualifier(q, "product", "").Some? ==>
        !o.failed && |o.progress.entries| == |p.entries| + 1
    ensures var q := feat.qualifiers; var t := Qualifier(q, "translation", "");
      o.failed <==> (feat.kind == "CDS" && (t.None? ||
                      (t.value != [] && !(dedupe && t.value in p.seen) &&
                       (Qualifier(q, "gene", "unknown").None? || Qualifier(q, "protein_id", "").None? ||
                        Qualifier(q, "locus_tag", "").None? || Qualifier(q, "product", "").None?))))
  {
    if feat.kind != "CDS" then Outcome(p, false)
    else
      var q := feat.qualifiers;
      var t := Qualifier(q, "translation", "");
      if t.None? then Outcome(p, true)
      else if t.value == [] then Outcome(p, false)
      else if dedupe && t.value in p.seen then Outcome(p, false)
      else
        var seen := if dedupe then p.seen + {t.value} else p.seen;
        var gene, pid := Qualifier(q, "gene", "unknown"), Qualifier(q, "protein_id", "");
        var locus, product := Qualifier(q, "locus_tag", ""), Qualifier(q, "product", "");
        if gene.None? || pid.None? || locus.None? || product.None? then Outcome(Progress(p.entries, seen), true)
        else
          var e := Entry(Header(recId, fileName, pid.value, gene.value, locus.value, product.value), t.value);
          Outcome(Progress(p.entries + [e], seen), false)
  }

  /** `for feat in rec.features`, stopping at the first feature that raises. */
  function Features(feats: seq<Feature>, recId: string, fileName: string, dedupe: bool, p: Progress): (o: Outcome)
    decreases |feats|
  {
    if feats == [] then Outcome(p, false)
    else
      var o := FeatureStep(p, recId, fileName, dedupe, feats[0]);
      if o.failed then o else Features(feats[1..], recId, fileName, dedupe, o.progress)
  }

  /** `for rec in SeqIO.parse(...)`: the records the parser yields, stopping at the first record
      whose features raise. */
  function Records(recs: seq<GbRecord>, fileName: string, dedupe: bool, p: Progress): (o: Outcome)
    decreases |recs|
  {
    if recs == [] then Outcome(p, false)
    else
      var o := Features(recs[0].features, recs[0].id, fileName, dedupe, p);
      if o.failed then o else Records(recs[1..], fileName, dedupe, o.progress)
  }

  /** `for fn in sorted(gbk_files)`: an exception inside a file is logged and the next file is
      read. `parse` gives the records the GenBank reader yields for a file before any error. */
  function Files(files: seq<Path>, parse: Path -> seq<GbRecord>, dedupe: bool, p: Progress): (r: Progress)
    decreases |files|
  {
    if files == [] then p
    else Files(files[1..], parse, dedupe, Records(parse(files[0]), Name(files[0]), dedupe, p).progress)
  }

  /** The text written for the entries: each header and each protein on a line of its own. */
  function Render(entries: seq<Entry>): string
    decreases |entries|
  {
    if entries == [] then ""
    else entries[0].header + "\n" + entries[0].protein + "\n" + Render(entries[1..])
  }

  /** `extract_proteins_from_gbk`. `dirExists` says whether the directory exists, `listing` is
      what the two globs find, `canOpen` whether the output file can be opened for writing (the
      only failure left to the outer handler, which turns it into `ParseError`). */
  function Extract(dirExists: bool, listing: seq<Path>, canOpen: bool, parse: Path -> seq<GbRecord>, dedupe: bool,
                   out: Path, fs: FileSystem): (res: (Result<nat>, FileSystem))
  {
    if !dirExists then (Err(FileNotFound), fs)
    else if !canOpen then (Err(ParseError), fs)
    else
      var p := Files(SortPaths(listing), parse, dedupe, Progress([], {}));
      (Ok(|p.entries|), fs[out := Render(p.entries)])
  }

  /** What every entry written satisfies: its protein is not empty, and with deduplication the
      proteins are pairwise different and all in the seen set. */
  predicate Written(p: Progress, dedupe: bool) {
    (forall i :: 0 <= i < |p.entries| ==> p.entries[i].protein != []) &&
    (dedupe ==> forall i :: 0 <= i < |p.entries| ==> p.entries[i].protein in p.seen) &&
    (dedupe ==> forall i, j :: 0 <= i < j < |p.entries| ==> p.entries[i].protein != p.entries[j].protein)
  }

  lemma {:induction false} FeatureStepWritten(p: Progress, recId: string, fileName: string, dedupe: bool, feat: Feature)
    requires Written(p, dedupe)
    ensures Written(FeatureStep(p, recId, fileName, dedupe, feat).progress, dedupe)
  {
    var o := FeatureStep(p, recId, fileName, dedupe, feat);
    var e := o.progress.entries;
    if |e| == |p.entries| + 1 {
      assert e == p.entries + [e[|p.entries|]];
    } else {
      assert e == p.entries;
    }
  }

  lemma {:induction false} FeaturesWritten(feats: seq<Feature>, recId: string, fileName: string, dedupe: bool, p: Progress)
    requires Written(p, dedupe)
    ensures Written(Features(feats, recId, fileName, dedupe, p).progress, dedupe)
    ensures p.entries <= Features(feats, recId, fileName, dedupe, p).progress.entries
    decreases |feats|
  {
    if feats != [] {
      FeatureStepWritten(p, recId, fileName, dedupe, feats[0]);
      var o := FeatureStep(p, recId, fileName, dedupe, feats[0]);
      if !o.failed {
        FeaturesWritten(feats[1..], recId, fileName, dedupe, o.progress);
      }
    }
  }

  lemma {:induction false} RecordsWritten(recs: seq<GbRecord>, fileName: string, dedupe: bool, p: Progress)
    requires Written(p, dedupe)
    ensures Written(Records(recs, fileName, dedupe, p).progress, dedupe)
    ensures p.entries <= Records(recs, fileName, dedupe, p).progress.entries
    decreases |recs|
  {
    if recs != [] {
      FeaturesWritten(recs[0].features, recs[0].id, fileName, dedupe, p);
      var o := Features(recs[0].features, recs[0].id, fileName, dedupe, p);
      if !o.failed {
        RecordsWritten(recs[1..], fileName, dedupe, o.progress);
      }
    }
  }

  /** Over the files, entries are only appended, and what was written keeps its properties. */
  lemma {:induction false} FilesWritten(files: seq<Path>, parse: Path -> seq<GbRecord>, dedupe: bool, p: Progress)
    requires Written(p, dedupe)
    ensures Written(Files(files, parse, dedupe, p), dedupe)
    ensures p.entries <= Files(files, parse, dedupe, p).entries
    decreases |files|
  {
    if files != [] {
      RecordsWritten(parse(files[0]), Name(files[0]), dedupe, p);
      FilesWritten(files[1..], parse, dedupe, Records(parse(files[0]), Name(files[0]), dedupe, p).progress);
    }
  }

  /** The extraction's promises: a missing directory is `FileNotFoundError`; otherwise the count
      returned is the number of entries in the file written, no entry has an empty protein, and
      with deduplication no protein is written twice. No GenBank file gives a count of 0 and an
      empty output file. */
  lemma {:induction false} ExtractShape(dirExists: bool, listing: seq<Path>, canOpen: bool, parse: Path -> seq<GbRecord>,
                                        dedupe: bool, out: Path, fs: FileSystem)
    ensures var res := Extract(dirExists, listing, canOpen, parse, dedupe, out, fs);
      (!dirExists ==> res == (Err(FileNotFound), fs)) &&
      (dirExists && !canOpen ==> res == (Err(ParseError), fs)) &&
      (dirExists && canOpen && listing == [] ==> res.0 == Ok(0) && res.1 == fs[out := ""]) &&
      (dirExists && canOpen ==>
        var p := Files(SortPaths(listing), parse, dedupe, Progress([], {}));
        res.0 == Ok(|p.entries|) && res.1 == fs[out := Render(p.entries)] &&
        (forall i :: 0 <= i < |p.entries| ==> p.entries[i].protein != []) &&
        (dedupe ==> forall i, j :: 0 <= i < j < |p.entries| ==> p.entries[i].protein != p.entries[j].protein))
  {
    if dirExists && canOpen {
      FilesWritten(SortPaths(listing), parse, dedupe, Progress([], {}));
      if listing == [] {
        assert SortPaths(listing) == [];
      }
    }
  }

  /** One turn of the files loop. */
  lemma {:induction false} FilesStep(files: seq<Path>, k: nat, parse: Path -> seq<GbRecord>, dedupe: bool, p: Progress)
    requires k < |files|
    ensures Files(files[k..], parse, dedupe, p) ==
            Files(files[k + 1..], parse, dedupe, Records(parse(files[k]), Name(files[k]), dedupe, p).progress)
  {
    assert files[k..][1..] == files[k + 1..];
  }

  /** The features loop of `extract_proteins_from_gbk`, on the running `seen` set, list of
      entries written and count; `failed` reports the exception that ends the file. */
  method ExtractFeatures(feats: seq<Feature>, recId: string, fileName: string, dedupe: bool,
                         entries0: seq<Entry>, seen0: set<string>, count0: nat)
    returns (entries: seq<Entry>, seen: set<string>, count: nat, failed: bool)
    requires count0 == |entries0|
    ensures Outcome(Progress(entries, seen), failed) == Features(feats, recId, fileName, dedupe, Progress(entries0, seen0))
    ensures count == |entries|
  {
    entries, seen, count, failed := entries0, seen0, count0, false;
    var i := 0;
    while i < |feats|
      invariant 0 <= i <= |feats|
      invariant count == |entries|
      invariant Features(feats, recId, fileName, dedupe, Progress(entries0, seen0)) ==
                Features(feats[i..], recId, fileName, dedupe, Progress(entries, seen))
    {
      assert feats[i..][1..] == feats[i + 1..];
      var feat := feats[i];
      i := i + 1;
      if feat.kind != "CDS" {
        continue;
      }
      var q := feat.qualifiers;
      var t := Qualifier(q, "translation", "");
      if t.None? {
        failed := true;
        return;
      }
      var prot := t.value;
      if prot == [] {
        continue;
      }
      if dedupe {
        if prot in seen {
          continue;
        }
        seen := seen + {prot};
      }
      var gene, pid := Qualifier(q, "gene", "unknown"), Qualifier(q, "protein_id", "");
      var locus, product := Qualifier(q, "locus_tag", ""), Qualifier(q, "product", "");
      if gene.None? || pid.None? || locus.None? || product.None? {
        failed := true;
        return;
      }
      entries := entries + [Entry(Header(recId, fileName, pid.value, gene.value, locus.value, product.value), prot)];
      count := count + 1;
    }
  }

  /** The records loop of one file, inside its `try`. */
  method ExtractRecords(recs: seq<GbRecord>, fileName: string, dedupe: bool,
                        entries0: seq<Entry>, seen0: set<string>, count0: nat)
    returns (entries: seq<Entry>, seen: set<string>, count: nat)
    requires count0 == |entries0|
    ensures Progress(entries, seen) == Records(recs, fileName, dedupe, Progress(entries0, seen0)).progress
    ensures count == |entries|
  {
    entries, seen, count := entries0, seen0, count0;
    var i := 0;
    while i < |recs|
      invariant 0 <= i <= |recs|
      invariant count == |entries|
      invariant Records(recs, fileName, dedupe, Progress(entries0, seen0)) ==
                Records(recs[i..], fileName, dedupe, Progress(entries, seen))
    {
      assert recs[i..][1..] == recs[i + 1..];
      var failed;
      entries, seen, count, failed := ExtractFeatures(recs[i].features, recs[i].id, fileName, dedupe, entries, seen, count);
      if failed {
        return;
      }
      i := i + 1;
    }
  }

  /** `extract_proteins_from_gbk` as the source runs it: the files in sorted order, the running
      `seen` set and count, and the output file written at the end. */
  method ExtractProteins(dirExists: bool, listing: seq<Path>, canOpen: bool, parse: Path -> seq<GbRecord>, dedupe: bool,
                         out: Path, fs: FileSystem)
    returns (res: Result<nat>, fs': FileSystem)
    ensures (res, fs') == Extract(dirExists, listing, canOpen, parse, dedupe, out, fs)
  {
    if !dirExists {
      return Err(FileNotFound), fs;
    }
    if !canOpen {
      return Err(ParseError), fs;
    }
    var files := SortPaths(listing);
    if files == [] {
      return Ok(0), fs[out := ""];
    }
    var entries: seq<Entry>, seen: set<string>, count: nat := [], {}, 0;
    var k := 0;
    while k < |files|
      invariant 0 <= k <= |files|
      invariant count == |entries|
      invariant Files(files, parse, dedupe, Progress([], {})) == Files(files[k..], parse, dedupe, Progress(entries, seen))
    {
      FilesStep(files, k, parse, dedupe, Progress(entries, seen));
      entries, seen, count := ExtractRecords(parse(files[k]), Name(files[k]), dedupe, entries, seen, count);
      k := k + 1;
    }
    assert files[k..] == [];
    return Ok(count), fs[out := Render(entries)];
  }
}
