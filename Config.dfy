/** Pipeline configuration (esm3_pipeline/config.py): the `ProtFlowConfig` dataclass with its
    defaults, the paths derived from the base directory, the environment overrides, the JSON or
    YAML file round trip, and the module-wide configuration instance. */
module Config {
  import opened Common

  /** The keyword arguments of the dataclass constructor (or the keys of a loaded file): `None`
      where the argument is not given, so that the default applies. For the fields whose default
      is `None` (device, log file, token), passing `None` and not passing the argument agree. */
  datatype Args = Args(
    baseDir: Option<Path>, gbkDir: Option<Path>, pdbDir: Option<Path>, dataDir: Option<Path>, outputDir: Option<Path>,
    esm3Model: Option<string>, esm3Device: Option<string>, esm3NumSteps: Option<int>,
    minSeqLength: Option<int>, maxSeqLength: Option<int>, maxSequences: Option<int>,
    p2rankVersion: Option<string>, p2rankThreads: Option<int>, p2rankVisualizations: Option<int>,
    vinaBoxSize: Option<int>, vinaExhaustiveness: Option<int>, vinaNumModes: Option<int>,
    antismashEnv: Option<string>, antismashTaxon: Option<string>,
    logLevel: Option<string>, logFile: Option<Path>,
    enableCache: Option<bool>, parallelPredictions: Option<bool>, maxWorkers: Option<int>,
    hfToken: Option<string>)

  /** `ProtFlowConfig()`: no argument given. */
  const NoArgs := Args(None, None, None, None, None, None, None, None, None, None, None, None, None, None,
                       None, None, None, None, None, None, None, None, None, None, None)

  /** The fields of a configuration once `__post_init__` has run (`asdict(config)`); the four
      directories are always set by then. */
  datatype Values = Values(
    baseDir: Path, gbkDir: Path, pdbDir: Path, dataDir: Path, outputDir: Path,
    esm3Model: string, esm3Device: Option<string>, esm3NumSteps: int,
    minSeqLength: int, maxSeqLength: int, maxSequences: int,
    p2rankVersion: string, p2rankThreads: int, p2rankVisualizations: int,
    vinaBoxSize: int, vinaExhaustiveness: int, vinaNumModes: int,
    antismashEnv: string, antismashTaxon: string,
    logLevel: string, logFile: Option<Path>,
    enableCache: bool, parallelPredictions: bool, maxWorkers: int,
    hfToken: Option<string>)

  /** `Path.cwd() / 'esm3_pipeline'`, the default base directory; `cwd` is the working directory
      when the module was imported. */
  function DefaultBase(cwd: Path): Path {
    Join(cwd, "esm3_pipeline")
  }

  /** `if self.X is None: self.X = self.base_dir / name`. */
  function DerivedDir(given: Option<Path>, base: Path, name: string): (d: Path)
    ensures given.Some? ==> d == given.value
    ensures given.None? ==> d == Join(base, name)
  {
    if given.Some? then given.value else Join(base, name)
  }

  /** The constructor's fields with the dataclass defaults filled in and the derived directories
      set, before the environment is read. */
  function Derive(a: Args, cwd: Path): (v: Values)
  {
    var base := a.baseDir.GetOr(DefaultBase(cwd));
    Values(
      base, DerivedDir(a.gbkDir, base, "gbk_input"), DerivedDir(a.pdbDir, base, "pdbs"),
      DerivedDir(a.dataDir, base, "data"), DerivedDir(a.outputDir, base, "outputs"),
      a.esm3Model.GetOr("esm3-sm-open-v1"), a.esm3Device, a.esm3NumSteps.GetOr(8),
      a.minSeqLength.GetOr(50), a.maxSeqLength.GetOr(1200), a.maxSequences.GetOr(10),
      a.p2rankVersion.GetOr("2.5.1"), a.p2rankThreads.GetOr(2), a.p2rankVisualizations.GetOr(0),
      a.vinaBoxSize.GetOr(20), a.vinaExhaustiveness.GetOr(8), a.vinaNumModes.GetOr(9),
      a.antismashEnv.GetOr("antismash"), a.antismashTaxon.GetOr("bacteria"),
      a.logLevel.GetOr("INFO"), a.logFile,
      a.enableCache.GetOr(true), a.parallelPredictions.GetOr(false), a.maxWorkers.GetOr(4),
      a.hfToken)
  }

  /** `_load_from_env`: `HF_TOKEN`, `ANTISMASH_ENV` and `LOG_LEVEL`, when set, replace the
      corresponding fields; nothing else changes. */
  function EnvOverride(v: Values, env: map<string, string>): (r: Values)
    ensures r.hfToken == if "HF_TOKEN" in env then Some(env["HF_TOKEN"]) else v.hfToken
    ensures r.antismashEnv == if "ANTISMASH_ENV" in env then env["ANTISMASH_ENV"] else v.antismashEnv
    ensures r.logLevel == if "LOG_LEVEL" in env then env["LOG_LEVEL"] else v.logLevel
    ensures r.(hfToken := v.hfToken, antismashEnv := v.antismashEnv, logLevel := v.logLevel) == v
  {
    var v1 := if "HF_TOKEN" in env then v.(hfToken := Some(env["HF_TOKEN"])) else v;
    var v2 := if "ANTISMASH_ENV" in env then v1.(antismashEnv := env["ANTISMASH_ENV"]) else v1;
    if "LOG_LEVEL" in env then v2.(logLevel := env["LOG_LEVEL"]) else v2
  }

  /** `ProtFlowConfig(**a)` as `__post_init__` leaves it. */
  function PostInit(a: Args, env: map<string, string>, cwd: Path): Values {
    EnvOverride(Derive(a, cwd), env)
  }

  /** The four directories default to sub-directories of the base directory, explicit values
      are kept, and the environment wins over a value passed to the constructor. */
  lemma {:induction false} PostInitPaths(a: Args, env: map<string, string>, cwd: Path)
    ensures var v := PostInit(a, env, cwd);
      v.baseDir == (if a.baseDir.Some? then a.baseDir.value else Join(cwd, "esm3_pipeline")) &&
      (a.gbkDir.None? ==> v.gbkDir == Join(v.baseDir, "gbk_input")) &&
      (a.pdbDir.None? ==> v.pdbDir == Join(v.baseDir, "pdbs")) &&
      (a.dataDir.None? ==> v.dataDir == Join(v.baseDir, "data")) &&
      (a.outputDir.None? ==> v.outputDir == Join(v.baseDir, "outputs")) &&
      (a.gbkDir.Some? ==> v.gbkDir == a.gbkDir.value) && (a.pdbDir.Some? ==> v.pdbDir == a.pdbDir.value) &&
      (a.dataDir.Some? ==> v.dataDir == a.dataDir.value) && (a.outputDir.Some? ==> v.outputDir == a.outputDir.value) &&
      ("HF_TOKEN" in env ==> v.hfToken == Some(env["HF_TOKEN"])) &&
      ("ANTISMASH_ENV" in env ==> v.antismashEnv == env["ANTISMASH_ENV"]) &&
      ("LOG_LEVEL" in env ==> v.logLevel == env["LOG_LEVEL"])
  {
  }

  /** The defaults the tests check, for a configuration built without arguments in an
      environment that sets none of the three variables. */
  lemma {:induction false} Defaults(env: map<string, string>, cwd: Path)
    requires "HF_TOKEN" !in env && "ANTISMASH_ENV" !in env && "LOG_LEVEL" !in env
    ensures var v := PostInit(NoArgs, env, cwd);
      v.esm3Model == "esm3-sm-open-v1" && v.minSeqLength == 50 && v.maxSeqLength == 1200 &&
      v.vinaBoxSize == 20 && v.vinaExhaustiveness == 8 && v.vinaNumModes == 9 &&
      v.hfToken == None && v.antismashEnv == "antismash" && v.logLevel == "INFO"
  {
  }

  /** `asdict(config)` with paths turned into text, read back as constructor arguments: every
      field is given, so that the constructor, in whatever working directory, takes every field
      back unchanged before the environment is read. */
  function ArgsOf(v: Values): (a: Args)
    ensures a.baseDir == Some(v.baseDir) && a.gbkDir == Some(v.gbkDir) && a.hfToken == v.hfToken
    ensures forall cwd :: Derive(a, cwd) == v
  {
    Args(Some(v.baseDir), Some(v.gbkDir), Some(v.pdbDir), Some(v.dataDir), Some(v.outputDir),
         Some(v.esm3Model), v.esm3Device, Some(v.esm3NumSteps),
         Some(v.minSeqLength), Some(v.maxSeqLength), Some(v.maxSequences),
         Some(v.p2rankVersion), Some(v.p2rankThreads), Some(v.p2rankVisualizations),
         Some(v.vinaBoxSize), Some(v.vinaExhaustiveness), Some(v.vinaNumModes),
         Some(v.antismashEnv), Some(v.antismashTaxon),
         Some(v.logLevel), v.logFile,
         Some(v.enableCache), Some(v.parallelPredictions), Some(v.maxWorkers),
         v.hfToken)
  }

  /** Building a configuration again from the fields of one, in the same environment, gives the
      same fields: the derived directories are already set and the environment overrides apply
      once more with the same values. */
  lemma {:induction false} PostInitIdempotent(a: Args, env: map<string, string>, cwd: Path, cwd2: Path)
    ensures PostInit(ArgsOf(PostInit(a, env, cwd)), env, cwd2) == PostInit(a, env, cwd)
  {
    var v := PostInit(a, env, cwd);
    var d := Derive(ArgsOf(v), cwd2);
    assert d.(hfToken := v.hfToken, antismashEnv := v.antismashEnv, logLevel := v.logLevel) == v;
  }

  /** The file formats chosen by the suffix. */
  datatype Format = Json | Yaml | Unsupported

  /** `.json` is JSON, `.yaml` and `.yml` are YAML, anything else is refused. */
  function FormatOf(p: Path): (f: Format)
    ensures f == Json <==> Suffix(p) == ".json"
    ensures f == Yaml <==> Suffix(p) == ".yaml" || Suffix(p) == ".yml"
  {
    var s := Suffix(p);
    if s == ".json" then Json else if s == ".yaml" || s == ".yml" then Yaml else Unsupported
  }

  /** The serialisers: `dump` writes the fields in a format, `load` reads them back (failing
      with the reader's error, or with `TypeError` for a key the constructor does not take). */
  datatype Codec = Codec(dump: (Format, Args) -> string, load: (Format, string) -> Result<Args>)

  /** A codec whose reader gives back what its writer wrote. */
  ghost predicate RoundTrips(c: Codec, f: Format) {
    forall a: Args :: c.load(f, c.dump(f, a)) == Ok(a)
  }

  /** `ProtFlowConfig.from_file`: a missing file is `FileNotFoundError`, YAML without PyYAML is
      `ImportError`, another suffix is `ValueError`; the loaded keys are constructor arguments. */
  function LoadValues(p: Path, fs: FileSystem, yamlAvailable: bool, c: Codec, env: map<string, string>, cwd: Path): (r: Result<Values>)
    ensures p !in fs ==> r == Err(FileNotFound)
    ensures p in fs && FormatOf(p) == Unsupported ==> r == Err(ValueError)
    ensures p in fs && FormatOf(p) == Yaml && !yamlAvailable ==> r == Err(ImportError)
    ensures r.Ok? ==>
      p in fs && FormatOf(p) != Unsupported && c.load(FormatOf(p), fs[p]).Ok? &&
      r.value == PostInit(c.load(FormatOf(p), fs[p]).value, env, cwd)
  {
    if p !in fs then Err(FileNotFound)
    else
      var f := FormatOf(p);
      if f == Unsupported then Err(ValueError)
      else if f == Yaml && !yamlAvailable then Err(ImportError)
      else
        var data := c.load(f, fs[p]);
        if data.Err? then Err(data.error) else Ok(PostInit(data.value, env, cwd))
  }

  /** `ProtFlowConfig.to_file`: the same suffix rules; on success the file holds the dumped
      fields. Nothing is written when the suffix is refused. */
  function SaveValues(v: Values, p: Path, fs: FileSystem, yamlAvailable: bool, c: Codec): (r: (Result<()>, FileSystem))
    ensures FormatOf(p) == Unsupported ==> r == (Err(ValueError), fs)
    ensures FormatOf(p) == Yaml && !yamlAvailable ==> r == (Err(ImportError), fs)
    ensures r.0.Ok? ==> FormatOf(p) != Unsupported && r.1 == fs[p := c.dump(FormatOf(p), ArgsOf(v))]
  {
    var f := FormatOf(p);
    if f == Unsupported then (Err(ValueError), fs)
    else if f == Yaml && !yamlAvailable then (Err(ImportError), fs)
    else (Ok(()), fs[p := c.dump(f, ArgsOf(v))])
  }

  /** A configuration saved with `to_file` and read back with `from_file` in the same
      environment is the configuration that was saved. */
  lemma {:induction false} SaveLoadRoundTrip(a: Args, env: map<string, string>, cwd: Path, cwd2: Path, p: Path,
                                             fs: FileSystem, yamlAvailable: bool, c: Codec)
    requires FormatOf(p) == Json || (FormatOf(p) == Yaml && yamlAvailable)
    requires RoundTrips(c, FormatOf(p))
    ensures var v := PostInit(a, env, cwd);
      var saved := SaveValues(v, p, fs, yamlAvailable, c);
      saved.0.Ok? && LoadValues(p, saved.1, yamlAvailable, c, env, cwd2) == Ok(v)
  {
    var v := PostInit(a, env, cwd);
    var f := FormatOf(p);
    assert c.load(f, c.dump(f, ArgsOf(v))) == Ok(ArgsOf(v));
    PostInitIdempotent(a, env, cwd, cwd2);
  }

  /** A `ProtFlowConfig` object; its fields are updated in place by `__post_init__`, by
      `_load_from_env` and by the command-line runner. */
  class ProtFlowConfig {
    var baseDir: Path
    var gbkDir: Path
    var pdbDir: Path
    var dataDir: Path
    var outputDir: Path
    var esm3Model: string
    var esm3Device: Option<string>
    var esm3NumSteps: int
    var minSeqLength: int
    var maxSeqLength: int
    var maxSequences: int
    var p2rankVersion: string
    var p2rankThreads: int
    var p2rankVisualizations: int
    var vinaBoxSize: int
    var vinaExhaustiveness: int
    var vinaNumModes: int
    var antismashEnv: string
    var antismashTaxon: string
    var logLevel: string
    var logFile: Option<Path>
    var enableCache: bool
    var parallelPredictions: bool
    var maxWorkers: int
    var hfToken: Option<string>

    /** `asdict(self)`. */
    function Fields(): Values
      reads this
    {
      Values(baseDir, gbkDir, pdbDir, dataDir, outputDir, esm3Model, esm3Device, esm3NumSteps,
             minSeqLength, maxSeqLength, maxSequences, p2rankVersion, p2rankThreads, p2rankVisualizations,
             vinaBoxSize, vinaExhaustiveness, vinaNumModes, antismashEnv, antismashTaxon,
             logLevel, logFile, enableCache, parallelPredictions, maxWorkers, hfToken)
    }

    /** The directories `_ensure_directories` creates, in its order. */
    function Directories(): seq<Path>
      reads this
    {
      [baseDir, gbkDir, pdbDir, dataDir, outputDir]
    }

    /** `ProtFlowConfig(**a)`: the dataclass fields with the derived directories of
        `__post_init__`, then the environment. */
    constructor(a: Args, env: map<string, string>, cwd: Path)
      ensures Fields() == PostInit(a, env, cwd)
    {
      var d := Derive(a, cwd);
      baseDir := d.baseDir; gbkDir := d.gbkDir; pdbDir := d.pdbDir; dataDir := d.dataDir;
      outputDir := d.outputDir; esm3Model := d.esm3Model; esm3Device := d.esm3Device;
      esm3NumSteps := d.esm3NumSteps; minSeqLength := d.minSeqLength; maxSeqLength := d.maxSeqLength;
      maxSequences := d.maxSequences; p2rankVersion := d.p2rankVersion; p2rankThreads := d.p2rankThreads;
      p2rankVisualizations := d.p2rankVisualizations; vinaBoxSize := d.vinaBoxSize;
      vinaExhaustiveness := d.vinaExhaustiveness; vinaNumModes := d.vinaNumModes;
      antismashEnv := d.antismashEnv; antismashTaxon := d.antismashTaxon; logLevel := d.logLevel;
      logFile := d.logFile; enableCache := d.enableCache; parallelPredictions := d.parallelPredictions;
      maxWorkers := d.maxWorkers; hfToken := d.hfToken;
      new;
      assert Fields() == d;
      LoadFromEnv(env);
    }

    /** `_load_from_env`. */
    method LoadFromEnv(env: map<string, string>)
      modifies this
      ensures Fields() == EnvOverride(old(Fields()), env)
    {
      ghost var v := Fields();
      if "HF_TOKEN" in env {
        hfToken := Some(env["HF_TOKEN"]);
      }
      ghost var v1 := Fields();
      assert v1 == if "HF_TOKEN" in env then v.(hfToken := Some(env["HF_TOKEN"])) else v;
      if "ANTISMASH_ENV" in env {
        antismashEnv := env["ANTISMASH_ENV"];
      }
      ghost var v2 := Fields();
      assert v2 == if "ANTISMASH_ENV" in env then v1.(antismashEnv := env["ANTISMASH_ENV"]) else v1;
      if "LOG_LEVEL" in env {
        logLevel := env["LOG_LEVEL"];
      }
    }

    /** `from_file`: a new configuration built from the file's keys. */
    static method FromFile(p: Path, fs: FileSystem, yamlAvailable: bool, c: Codec, env: map<string, string>, cwd: Path)
      returns (r: Result<ProtFlowConfig>)
      ensures LoadValues(p, fs, yamlAvailable, c, env, cwd).Err? ==>
              r == Err(LoadValues(p, fs, yamlAvailable, c, env, cwd).error)
      ensures LoadValues(p, fs, yamlAvailable, c, env, cwd).Ok? ==>
              r.Ok? && fresh(r.value) && r.value.Fields() == LoadValues(p, fs, yamlAvailable, c, env, cwd).value
    {
      var loaded := LoadValues(p, fs, yamlAvailable, c, env, cwd);
      if loaded.Err? {
        return Err(loaded.error);
      }
      var data := c.load(FormatOf(p), fs[p]);
      var cfg := new ProtFlowConfig(data.value, env, cwd);
      return Ok(cfg);
    }

    /** `to_file`. */
    method ToFile(p: Path, fs: FileSystem, yamlAvailable: bool, c: Codec) returns (r: Result<()>, fs': FileSystem)
      ensures (r, fs') == SaveValues(Fields(), p, fs, yamlAvailable, c)
    {
      var f := FormatOf(p);
      if f == Unsupported {
        return Err(ValueError), fs;
      }
      if f == Yaml && !yamlAvailable {
        return Err(ImportError), fs;
      }
      return Ok(()), fs[p := c.dump(f, ArgsOf(Fields()))];
    }
  }

  /** The module-wide `_config`, `None` until first asked for. */
  class Registry {
    var current: ProtFlowConfig?

    constructor()
      ensures current == null
    {
      current := null;
    }

    /** `get_config`: creates a default configuration only when none is set, and otherwise
        returns the one that is set. */
    method GetConfig(env: map<string, string>, cwd: Path) returns (c: ProtFlowConfig)
      modifies this
      ensures old(current) != null ==> c == old(current)
      ensures old(current) == null ==> fresh(c) && c.Fields() == PostInit(NoArgs, env, cwd)
      ensures current == c
    {
      if current == null {
        current := new ProtFlowConfig(NoArgs, env, cwd);
      }
      c := current;
    }

    /** `set_config`. */
    method SetConfig(c: ProtFlowConfig)
      modifies this
      ensures current == c
    {
      current := c;
    }

    /** `reset_config`: a fresh default configuration replaces the current one. */
    method ResetConfig(env: map<string, string>, cwd: Path)
      modifies this
      ensures current != null && fresh(current) && current.Fields() == PostInit(NoArgs, env, cwd)
    {
      current := new ProtFlowConfig(NoArgs, env, cwd);
    }
  }

  /** Two calls of `get_config` with nothing in between return the same object. */
  method GetConfigTwice(r: Registry, env: map<string, string>, cwd: Path) returns (c1: ProtFlowConfig, c2: ProtFlowConfig)
    modifies r
    ensures c1 == c2
  {
    c1 := r.GetConfig(env, cwd);
    c2 := r.GetConfig(env, cwd);
  }
}
