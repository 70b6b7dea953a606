/** Structure prediction with ESM3 (esm3_pipeline/esm3_predict.py): the module-wide model cache,
    the device choice, and the loop that writes one PDB file per sequence record, skipping
    existing files, reusing cached predictions and counting successes, skips and errors. */
module Esm3Predict {
  import opened Common
  import opened Text
  import opened SeqParser

  /** A loaded model: an opaque handle and the device it was moved to. */
  datatype Loaded = Loaded(model: nat, device: string)

  /** `device` when given, else `cuda` when available, else `mps` when available, else `cpu`. */
  function ChooseDevice(given: Option<string>, cuda: bool, mps: bool): (d: string)
    ensures given.Some? ==> d == given.value
    ensures given.None? ==> (d == "cuda" <==> cuda) && (d == "mps" <==> !cuda && mps) && (d == "cpu" <==> !cuda && !mps)
  {
    if given.Some? then given.value
    else if cuda then "cuda"
    else if mps then "mps"
    else "cpu"
  }

  /** The module-wide `_model_cache`. */
  class ModelCache {
    var cached: Option<Loaded>

    constructor()
      ensures cached.None?
    {
      cached := None;
    }

    /** `load_esm3_small`. `load` is `ESM3.from_pretrained(name).to(device)`, `None` when it
        raises; `cuda` and `mps` are what the two availability probes answer. */
    method LoadEsm3Small(device: Option<string>, modelName: string, useCache: bool, cuda: bool, mps: bool,
                         load: (string, string) -> Option<nat>)
      returns (r: Result<Loaded>)
      modifies this
      ensures useCache && old(cached).Some? ==> r == Ok(old(cached).value) && cached == old(cached)
      ensures !(useCache && old(cached).Some?) ==>
        var d := ChooseDevice(device, cuda, mps);
        (load(modelName, d).None? ==> r == Err(ModelLoadError) && cached == old(cached)) &&
        (load(modelName, d).Some? ==>
          r == Ok(Loaded(load(modelName, d).value, d)) &&
          cached == if useCache then Some(r.value) else old(cached))
    {
      if useCache && cached.Some? {
        return Ok(cached.value);
      }
      var d := ChooseDevice(device, cuda, mps);
      var m := load(modelName, d);
      if m.None? {
        return Err(ModelLoadError);
      }
      if useCache {
        cached := Some(Loaded(m.value, d));
      }
      return Ok(Loaded(m.value, d));
    }

    /** `clear_model_cache`. */
    method ClearModelCache()
      modifies this
      ensures cached.None?
    {
      cached := None;
    }
  }

  /** With the cache in use, a second load returns the model of the first without loading
      again, whatever the loader would now do. */
  method LoadTwice(c: ModelCache, device: Option<string>, modelName: string, cuda: bool, mps: bool,
                   load1: (string, string) -> Option<nat>, load2: (string, string) -> Option<nat>)
    returns (r1: Result<Loaded>, r2: Result<Loaded>)
    modifies c
    ensures r1.Ok? ==> r2 == r1
  {
    r1 := c.LoadEsm3Small(device, modelName, true, cuda, mps, load1);
    r2 := c.LoadEsm3Small(device, modelName, true, cuda, mps, load2);
  }

  /** `'|'`, `'/'` and `'\\'` become `'_'`. */
  function Sanitize(id: string): (r: string)
    ensures |r| == |id|
    ensures forall i :: 0 <= i < |id| ==> r[i] == if id[i] in "|/\\" then '_' else id[i]
  {
    if id == [] then [] else [if id[0] in "|/\\" then '_' else id[0]] + Sanitize(id[1..])
  }

  /** `rec.id.replace('|', '_').replace('/', '_').replace('\\', '_')[:80] + '.pdb'`. */
  function OutputName(id: string): string {
    PyPrefix(Sanitize(id), 80) + ".pdb"
  }

  /** The output name holds no path separator, no `|` and no backslash, is at most 84 long, ends
      in `.pdb`, and begins with the identifier itself when that is short and clean; so the
      file lands directly in the output directory. */
  lemma {:induction false} OutputNameShape(id: string, outDir: Path)
    ensures var n := OutputName(id);
      |n| <= 84 && n[|n| - 4..] == ".pdb" && Free(n, '/') && Free(n, '|') && Free(n, '\\') &&
      Name(Join(outDir, n)) == n
    ensures |id| <= 80 && Free(id, '/') && Free(id, '|') && Free(id, '\\') ==> OutputName(id) == id + ".pdb"
  {
    var s := Sanitize(id);
    var n := OutputName(id);
    var p := PyPrefix(s, 80);
    assert n == p + ".pdb";
    forall k | 0 <= k < |n|
      ensures n[k] != '/' && n[k] != '|' && n[k] != '\\'
    {
      if k < |p| {
        assert n[k] == s[k];
      } else {
        assert n[k] == ".pdb"[k - |p|];
      }
    }
    JoinParts(outDir, n);
    if |id| <= 80 && Free(id, '/') && Free(id, '|') && Free(id, '\\') {
      assert s == id;
    }
  }

  /** The settings of `predict_pdbs`. */
  datatype Settings = Settings(outDir: Path, numSteps: int, skipExisting: bool, cachePredictions: bool, cacheDir: Option<Path>)

  /** The library calls, seen from outside: `generate` is `model.generate` (`None` when it
      raises), `hash` is the MD5 hex digest, `pickle`/`unpickle` serialise a predicted protein
      (`None` when loading raises), `toPdb` is the PDB text the protein writes (`None` when
      `to_pdb` raises). */
  datatype Engine = Engine(generate: (string, int) -> Option<string>, hash: string -> string,
                           pickle: string -> string, unpickle: string -> Option<string>,
                           toPdb: string -> Option<string>)

  /** `cache_dir`, or `out_dir / '.cache'` when caching without one. */
  function CacheDir(st: Settings): (d: Path)
    ensures st.cacheDir.None? ==> d == Join(st.outDir, ".cache")
  {
    st.cacheDir.GetOr(Join(st.outDir, ".cache"))
  }

  /** `cache_dir / f'{md5(seq)}.pkl'`. */
  function CacheFile(rec: SeqRec, st: Settings, e: Engine): Path {
    Join(CacheDir(st), e.hash(rec.residues) + ".pkl")
  }

  /** The directories that exist while the loop runs: those given, which hold the output
      directory once it is made, and the default cache directory, which is made when caching
      without a cache directory. A cache directory passed in is not made. */
  function Directories(st: Settings, given: set<Path>): (dirs: set<Path>)
    ensures given <= dirs
    ensures st.cachePredictions && st.cacheDir.None? ==> CacheDir(st) in dirs
    ensures st.cacheDir.Some? ==> dirs == given
  {
    if st.cachePredictions && st.cacheDir.None? then given + {CacheDir(st)} else given
  }

  /** How one record ended: which of the three counters it increments. */
  datatype Kind = Success | Skipped | Failed

  /** `fs'` keeps every file of `fs` and differs from it at most at `paths`. */
  ghost predicate WritesOnly(fs: FileSystem, fs': FileSystem, paths: set<Path>) {
    fs.Keys <= fs'.Keys && forall p :: p in fs' && p !in paths ==> p in fs && fs'[p] == fs[p]
  }

  /** The work on one record, as in the body of the loop. Opening the cache file for writing
      raises when its directory does not exist; the pickle is written before `to_pdb`, so a
      record whose `to_pdb` raises after a fresh generation still leaves its cache file. */
  function RecordStep(rec: SeqRec, fs: FileSystem, dirs: set<Path>, st: Settings, e: Engine): (r: (Kind, FileSystem))
    ensures r.0 == Skipped <==> st.skipExisting && Join(st.outDir, OutputName(rec.id)) in fs
    ensures r.0 == Skipped ==> r.1 == fs
    ensures WritesOnly(fs, r.1, {Join(st.outDir, OutputName(rec.id)), CacheFile(rec, st, e)})
    ensures r.0 != Success ==> WritesOnly(fs, r.1, {CacheFile(rec, st, e)})
    ensures !st.cachePredictions && r.0 != Success ==> r.1 == fs
    ensures r.0 == Success ==> Join(st.outDir, OutputName(rec.id)) in r.1
  {
    var outp := Join(st.outDir, OutputName(rec.id));
    if st.skipExisting && outp in fs then (Skipped, fs)
    else if st.cachePredictions then
      var cacheFile := CacheFile(rec, st, e);
      if cacheFile in fs then
        var prot := e.unpickle(fs[cacheFile]);
        if prot.None? || e.toPdb(prot.value).None? then (Failed, fs)
        else (Success, fs[outp := e.toPdb(prot.value).value])
      else
        var prot := e.generate(rec.residues, st.numSteps);
        if prot.None? || CacheDir(st) !in dirs then (Failed, fs)
        else
          var cached := fs[cacheFile := e.pickle(prot.value)];
          if e.toPdb(prot.value).None? then (Failed, cached)
          else (Success, cached[outp := e.toPdb(prot.value).value])
    else
      var prot := e.generate(rec.residues, st.numSteps);
      if prot.None? || e.toPdb(prot.value).None? then (Failed, fs)
      else (Success, fs[outp := e.toPdb(prot.value).value])
  }

  /** An existing output (with `skip_existing`) or a cached prediction means no generation: the
      step does not depend on what the model would generate. */
  lemma {:induction false} NoGenerationWhenAvailable(rec: SeqRec, fs: FileSystem, dirs: set<Path>, st: Settings, e: Engine,
                                                     generate: (string, int) -> Option<string>)
    requires (st.skipExisting && Join(st.outDir, OutputName(rec.id)) in fs) ||
             (st.cachePredictions && CacheFile(rec, st, e) in fs)
    ensures RecordStep(rec, fs, dirs, st, e.(generate := generate)) == RecordStep(rec, fs, dirs, st, e)
  {
  }

  /** Without caching, a record that is not skipped succeeds exactly when the model generates
      and its PDB text is produced; then exactly its PDB file is written with that text, and
      otherwise nothing is written. */
  lemma {:induction false} UncachedStep(rec: SeqRec, fs: FileSystem, dirs: set<Path>, st: Settings, e: Engine)
    requires !(st.skipExisting && Join(st.outDir, OutputName(rec.id)) in fs)
    requires !st.cachePredictions
    ensures var prot := e.generate(rec.residues, st.numSteps);
      var r := RecordStep(rec, fs, dirs, st, e);
      (r.0 == Success <==> prot.Some? && e.toPdb(prot.value).Some?) &&
      (r.0 == Success ==> r.1 == fs[Join(st.outDir, OutputName(rec.id)) := e.toPdb(prot.value).value]) &&
      (r.0 != Success ==> r.0 == Failed && r.1 == fs)
  {
  }

  /** With caching on and a cached copy, a record that is not skipped succeeds exactly when the
      copy unpickles and its PDB text is produced; then exactly its PDB file is written with that
      text, and otherwise nothing is written. */
  lemma {:induction false} CacheHitStep(rec: SeqRec, fs: FileSystem, dirs: set<Path>, st: Settings, e: Engine)
    requires !(st.skipExisting && Join(st.outDir, OutputName(rec.id)) in fs)
    requires st.cachePredictions && CacheFile(rec, st, e) in fs
    ensures var prot := e.unpickle(fs[CacheFile(rec, st, e)]);
      var r := RecordStep(rec, fs, dirs, st, e);
      (r.0 == Success <==> prot.Some? && e.toPdb(prot.value).Some?) &&
      (r.0 == Success ==> r.1 == fs[Join(st.outDir, OutputName(rec.id)) := e.toPdb(prot.value).value]) &&
      (r.0 != Success ==> r.0 == Failed && r.1 == fs)
  {
  }

  /** A prediction made with caching on, no cached copy and an existing cache directory is
      stored under the sequence's hash, where a later run finds it, whether or not its PDB text
      can be written; when it can, the PDB is written as well and the record is a success. */
  lemma {:induction false} GeneratedIsCached(rec: SeqRec, fs: FileSystem, dirs: set<Path>, st: Settings, e: Engine)
    requires !(st.skipExisting && Join(st.outDir, OutputName(rec.id)) in fs)
    requires st.cachePredictions && CacheFile(rec, st, e) !in fs && CacheDir(st) in dirs
    requires e.generate(rec.residues, st.numSteps).Some?
    requires CacheFile(rec, st, e) != Join(st.outDir, OutputName(rec.id))
    ensures var prot := e.generate(rec.residues, st.numSteps).value;
      var r := RecordStep(rec, fs, dirs, st, e);
      var cached := fs[CacheFile(rec, st, e) := e.pickle(prot)];
      CacheFile(rec, st, e) in r.1 && r.1[CacheFile(rec, st, e)] == e.pickle(prot) &&
      (e.toPdb(prot).Some? ==> r.0 == Success && r.1 == cached[Join(st.outDir, OutputName(rec.id)) := e.toPdb(prot).value]) &&
      (e.toPdb(prot).None? ==> r.0 == Failed && r.1 == cached)
  {
  }

  /** A cache directory that was passed in but does not exist makes every record that is not
      skipped and not cached fail without writing anything, even when the model generates. */
  lemma {:induction false} MissingCacheDirFails(rec: SeqRec, fs: FileSystem, dirs: set<Path>, st: Settings, e: Engine)
    requires !(st.skipExisting && Join(st.outDir, OutputName(rec.id)) in fs)
    requires st.cachePredictions && CacheFile(rec, st, e) !in fs && CacheDir(st) !in dirs
    ensures RecordStep(rec, fs, dirs, st, e) == (Failed, fs)
  {
  }

  /** The three counters. */
  datatype Counts = Counts(success: nat, skipped: nat, errors: nat) {
    function Total(): nat {
      success + skipped + errors
    }

    function Bump(k: Kind): (c: Counts)
      ensures c.Total() == Total() + 1
    {
      match k
      case Success => this.(success := success + 1)
      case Skipped => this.(skipped := skipped + 1)
      case Failed => this.(errors := errors + 1)
    }
  }

  /** The loop over the records from given counters and files on. */
  function PredictFrom(recs: seq<SeqRec>, fs: FileSystem, dirs: set<Path>, c: Counts, st: Settings, e: Engine): (r: (FileSystem, Counts))
    decreases |recs|
  {
    if recs == [] then (fs, c)
    else
      var step := RecordStep(recs[0], fs, dirs, st, e);
      PredictFrom(recs[1..], step.1, dirs, c.Bump(step.0), st, e)
  }

  /** Every record increments exactly one counter: the counters grow by the number of records. */
  lemma {:induction false} EveryRecordCounted(recs: seq<SeqRec>, fs: FileSystem, dirs: set<Path>, c: Counts, st: Settings, e: Engine)
    ensures PredictFrom(recs, fs, dirs, c, st, e).1.Total() == c.Total() + |recs|
    decreases |recs|
  {
    if recs != [] {
      var step := RecordStep(recs[0], fs, dirs, st, e);
      EveryRecordCounted(recs[1..], step.1, dirs, c.Bump(step.0), st, e);
    }
  }

  /** Files are only added or replaced: what existed before the loop still exists after it. */
  lemma {:induction false} PredictKeepsFiles(recs: seq<SeqRec>, fs: FileSystem, dirs: set<Path>, c: Counts, st: Settings, e: Engine)
    ensures fs.Keys <= PredictFrom(recs, fs, dirs, c, st, e).0.Keys
    decreases |recs|
  {
    if recs != [] {
      var step := RecordStep(recs[0], fs, dirs, st, e);
      PredictKeepsFiles(recs[1..], step.1, dirs, c.Bump(step.0), st, e);
    }
  }

  /** With `skip_existing`, a run over records whose outputs all exist skips every one and
      writes nothing. */
  lemma {:induction false} AllExistingSkipped(recs: seq<SeqRec>, fs: FileSystem, dirs: set<Path>, c: Counts, st: Settings, e: Engine)
    requires st.skipExisting
    requires forall i :: 0 <= i < |recs| ==> Join(st.outDir, OutputName(recs[i].id)) in fs
    ensures PredictFrom(recs, fs, dirs, c, st, e) == (fs, c.(skipped := c.skipped + |recs|))
    decreases |recs|
  {
    if recs != [] {
      assert Join(st.outDir, OutputName(recs[0].id)) in fs;
      AllExistingSkipped(recs[1..], fs, dirs, c.Bump(Skipped), st, e);
    }
  }

  /** The body of the loop for one record. */
  method PredictOne(rec: SeqRec, dirs: set<Path>, st: Settings, e: Engine, fs0: FileSystem) returns (k: Kind, fs: FileSystem)
    ensures (k, fs) == RecordStep(rec, fs0, dirs, st, e)
  {
    fs := fs0;
    var outp := Join(st.outDir, OutputName(rec.id));
    if st.skipExisting && outp in fs {
      return Skipped, fs;
    }
    var prot: Option<string>;
    if st.cachePredictions {
      var cacheFile := CacheFile(rec, st, e);
      if cacheFile in fs {
        prot := e.unpickle(fs[cacheFile]);
      } else {
        prot := e.generate(rec.residues, st.numSteps);
        if prot.Some? {
          if CacheDir(st) !in dirs {
            return Failed, fs;
          }
          fs := fs[cacheFile := e.pickle(prot.value)];
        }
      }
    } else {
      prot := e.generate(rec.residues, st.numSteps);
    }
    if prot.None? {
      return Failed, fs;
    }
    var pdb := e.toPdb(prot.value);
    if pdb.None? {
      return Failed, fs;
    }
    fs := fs[outp := pdb.value];
    return Success, fs;
  }

  /** `predict_pdbs`: the output directory and, when caching without a cache directory, the
      default cache directory are made, then the loop runs with its three counters, a failed
      record counted and passed over; returns the files afterwards and the counters it logs.
      `given` are the directories that exist once the output directory is made. */
  method PredictPdbs(recs: seq<SeqRec>, given: set<Path>, st: Settings, e: Engine, fs0: FileSystem) returns (fs: FileSystem, c: Counts)
    ensures (fs, c) == PredictFrom(recs, fs0, Directories(st, given), Counts(0, 0, 0), st, e)
    ensures c.Total() == |recs|
  {
    var dirs := given;
    if st.cachePredictions && st.cacheDir.None? {
      dirs := dirs + {CacheDir(st)};
    }
    EveryRecordCounted(recs, fs0, dirs, Counts(0, 0, 0), st, e);
    fs, c := fs0, Counts(0, 0, 0);
    for i := 0 to |recs|
      invariant PredictFrom(recs, fs0, dirs, Counts(0, 0, 0), st, e) == PredictFrom(recs[i..], fs, dirs, c, st, e)
    {
      assert recs[i..][1..] == recs[i + 1..];
      var k;
      k, fs := PredictOne(recs[i], dirs, st, e, fs);
      c := c.Bump(k);
    }
    assert recs[|recs|..] == [];
  }
}
