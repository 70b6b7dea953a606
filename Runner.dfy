/** The command-line runner (scripts/runner.py): how the command line overrides the
    configuration, and `main` from loading the configuration to the exit code. */
module Runner {
  import opened Common
  import opened Config
  import opened RunnerSteps

  /** The argument parser's defaults; `base` and `gbk` are the package's `BASE` and `GBK_DIR`. */
  function DefaultFlags(base: Path, gbk: Path): (f: Flags)
    ensures f.limit == 10 && f.minLen == 50 && f.maxLen == 1200 && f.workers == 4
    ensures f.base == base && f.gbkDir == gbk && f.config.None? && f.ligand.None? && f.smiles == ""
    ensures !(f.parseGbk || f.predict || f.p2rank || f.vina || f.report || f.parallel || f.noCache || f.quiet)
  {
    Flags(None, gbk, base, 10, 50, 1200, false, false, false, false, false, "", None, false, 4, false, false)
  }

  /** The configuration after the command line is applied: `--base` and `--gbk-dir` replace
      the configured directories only when they differ from the defaults; lengths, limit,
      cache switch and worker count always replace theirs. The derived directories are not
      recomputed. */
  function Overrides(v: Values, f: Flags, defaultBase: Path, defaultGbk: Path): (r: Values)
    ensures r.baseDir == if f.base != defaultBase then f.base else v.baseDir
    ensures r.gbkDir == if f.gbkDir != defaultGbk then f.gbkDir else v.gbkDir
    ensures r.minSeqLength == f.minLen && r.maxSeqLength == f.maxLen && r.maxSequences == f.limit
    ensures r.enableCache == !f.noCache && r.maxWorkers == f.workers
    ensures r.(baseDir := v.baseDir, gbkDir := v.gbkDir, minSeqLength := v.minSeqLength,
               maxSeqLength := v.maxSeqLength, maxSequences := v.maxSequences,
               enableCache := v.enableCache, maxWorkers := v.maxWorkers) == v
  {
    var b := if f.base != defaultBase then f.base else v.baseDir;
    var g := if f.gbkDir != defaultGbk then f.gbkDir else v.gbkDir;
    v.(baseDir := b, gbkDir := g, minSeqLength := f.minLen, maxSeqLength := f.maxLen,
       maxSequences := f.limit, enableCache := !f.noCache, maxWorkers := f.workers)
  }

  /** Applying the command line twice changes nothing more. */
  lemma {:induction false} OverridesIdempotent(v: Values, f: Flags, defaultBase: Path, defaultGbk: Path)
    ensures Overrides(Overrides(v, f, defaultBase, defaultGbk), f, defaultBase, defaultGbk) ==
            Overrides(v, f, defaultBase, defaultGbk)
  {
    var once := Overrides(v, f, defaultBase, defaultGbk);
    var twice := Overrides(once, f, defaultBase, defaultGbk);
    assert twice.baseDir == once.baseDir && twice.gbkDir == once.gbkDir;
  }

  /** A default command line leaves the configured directories alone, so with no configuration
      file every directory is the one `__post_init__` derived; `--base` alone moves the base
      directory but not the structure directory derived from the old one. */
  lemma {:induction false} DefaultDirectoriesKept(v: Values, defaultBase: Path, defaultGbk: Path, base: Path)
    ensures var r := Overrides(v, DefaultFlags(defaultBase, defaultGbk), defaultBase, defaultGbk);
      r.baseDir == v.baseDir && r.gbkDir == v.gbkDir && r.pdbDir == v.pdbDir
    ensures base != defaultBase ==>
      var r := Overrides(v, DefaultFlags(defaultBase, defaultGbk).(base := base), defaultBase, defaultGbk);
      r.baseDir == base && r.pdbDir == v.pdbDir && r.gbkDir == v.gbkDir
  {
  }

  /** The configuration `main` starts from: the file given with `--config`, else the defaults. */
  function Initial(f: Flags, fs: FileSystem, yamlAvailable: bool, c: Codec, env: map<string, string>, cwd: Path)
    : (r: Result<Values>)
    ensures f.config.None? ==> r == Ok(PostInit(NoArgs, env, cwd))
    ensures f.config.Some? && f.config.value !in fs ==> r == Err(FileNotFound)
  {
    if f.config.Some? then LoadValues(f.config.value, fs, yamlAvailable, c, env, cwd)
    else Ok(PostInit(NoArgs, env, cwd))
  }

  /** The runner's assignments to the configuration object. */
  method ApplyOverrides(cfg: ProtFlowConfig, f: Flags, defaultBase: Path, defaultGbk: Path)
    modifies cfg
    ensures cfg.Fields() == Overrides(old(cfg.Fields()), f, defaultBase, defaultGbk)
  {
    OverrideDirectories(cfg, f, defaultBase, defaultGbk);
    OverrideLengths(cfg, f);
    OverrideRuntime(cfg, f);
  }

  /** `--base` and `--gbk-dir`, each only when it differs from its default. */
  method OverrideDirectories(cfg: ProtFlowConfig, f: Flags, defaultBase: Path, defaultGbk: Path)
    modifies cfg
    ensures cfg.Fields() == old(cfg.Fields()).(baseDir := if f.base != defaultBase then f.base else old(cfg.baseDir),
                                                gbkDir := if f.gbkDir != defaultGbk then f.gbkDir else old(cfg.gbkDir))
  {
    if f.base != defaultBase {
      cfg.baseDir := f.base;
    }
    if f.gbkDir != defaultGbk {
      cfg.gbkDir := f.gbkDir;
    }
  }

  /** `--min-len`, `--max-len` and `--limit`, always. */
  method OverrideLengths(cfg: ProtFlowConfig, f: Flags)
    modifies cfg
    ensures cfg.Fields() == old(cfg.Fields()).(minSeqLength := f.minLen, maxSeqLength := f.maxLen,
                                                maxSequences := f.limit)
  {
    cfg.minSeqLength := f.minLen;
    cfg.maxSeqLength := f.maxLen;
    cfg.maxSequences := f.limit;
  }

  /** `--no-cache` and `--workers`, always. */
  method OverrideRuntime(cfg: ProtFlowConfig, f: Flags)
    modifies cfg
    ensures cfg.Fields() == old(cfg.Fields()).(enableCache := !f.noCache, maxWorkers := f.workers)
  {
    cfg.enableCache := !f.noCache;
    cfg.maxWorkers := f.workers;
  }

  /** `main` of the runner: the configuration is loaded (a file that cannot be read ends the run
      with 1 before any stage), overridden from the command line and installed with
      `set_config`; then the steps run. */
  method RunMain(f: Flags, defaultBase: Path, defaultGbk: Path, fs: FileSystem, yamlAvailable: bool, c: Codec,
                 env: map<string, string>, cwd: Path, registry: Registry, st: Stages)
    returns (code: int, trace: seq<Call>)
    modifies registry
    ensures var init := Initial(f, fs, yamlAvailable, c, env, cwd);
      (init.Err? ==> code == ExitCode(init.error) && trace == [] && registry.current == old(registry.current)) &&
      (init.Ok? ==> registry.current != null && fresh(registry.current) &&
                    registry.current.Fields() == Overrides(init.value, f, defaultBase, defaultGbk) &&
                    (code, trace) == Pipeline(f, registry.current.Fields(), st))
  {
    var loaded := LoadConfig(f, fs, yamlAvailable, c, env, cwd);
    if loaded.Err? {
      return ExitCode(loaded.error), [];
    }
    var cfg := loaded.value;
    ApplyOverrides(cfg, f, defaultBase, defaultGbk);
    registry.SetConfig(cfg);
    code, trace := RunSteps(f, cfg.Fields(), st);
  }

  /** `ProtFlowConfig.from_file(args.config)` when `--config` is given, else `ProtFlowConfig()`. */
  method LoadConfig(f: Flags, fs: FileSystem, yamlAvailable: bool, c: Codec, env: map<string, string>, cwd: Path)
    returns (r: Result<ProtFlowConfig>)
    ensures var init := Initial(f, fs, yamlAvailable, c, env, cwd);
      (init.Err? ==> r == Err(init.error)) &&
      (init.Ok? ==> r.Ok? && fresh(r.value) && r.value.Fields() == init.value)
  {
    if f.config.Some? {
      r := ProtFlowConfig.FromFile(f.config.value, fs, yamlAvailable, c, env, cwd);
    } else {
      var cfg := new ProtFlowConfig(NoArgs, env, cwd);
      r := Ok(cfg);
    }
  }
}
