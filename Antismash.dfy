/** The antiSMASH runner (esm3_pipeline/antismash.py): which executable is used, whether
    antiSMASH counts as available, the argument list passed to it, and the path returned. */
module Antismash {
  import opened Common

  /** `_find_antismash_executable`: `antismash` when `shutil.which` finds it, else
      `run_antismash` when that is found, else nothing. `onPath` answers `shutil.which`. */
  function FindExecutable(onPath: string -> bool): (exe: Option<string>)
    ensures exe == Some("antismash") <==> onPath("antismash")
    ensures exe == Some("run_antismash") <==> !onPath("antismash") && onPath("run_antismash")
    ensures exe.None? <==> !onPath("antismash") && !onPath("run_antismash")
  {
    if onPath("antismash") then Some("antismash")
    else if onPath("run_antismash") then Some("run_antismash")
    else None
  }

  /** `is_antismash_available`: an executable is found and the `--help` probe could be started;
      its exit code does not matter. `probe` is how that run came back. */
  function IsAvailable(onPath: string -> bool, probe: Exec): (ok: bool)
    ensures ok <==> FindExecutable(onPath).Some? && !probe.Raised?
    ensures FindExecutable(onPath).Some? && probe.Exited? ==> ok
  {
    FindExecutable(onPath).Some? && !probe.Raised?
  }

  /** The argument list of `run_antismash`: the native program takes the output directory after
      `--output-dir`, the Docker wrapper takes it as a second positional argument; the extra
      arguments follow, in their order. */
  function AntismashArgs(exe: string, inp: Path, out: Path, extra: seq<string>): (args: seq<string>)
    ensures exe == "antismash" ==> args == [exe, inp, "--output-dir", out] + extra
    ensures exe != "antismash" ==> args == [exe, inp, out] + extra
    ensures args[0] == exe && args[1] == inp && args[|args| - |extra|..] == extra
  {
    var base := if exe == "antismash" then [exe, inp, "--output-dir", out] else [exe, inp, out];
    assert (base + extra)[|base + extra| - |extra|..] == extra;
    base + extra
  }

  /** `run_antismash`. `resolve` is `Path.resolve()`; `run` is the program run, whose exit
      code is ignored (an exception starting it propagates). The result is `out/index.html`
      when the run left that file, else the output directory; nothing when no executable is
      found. */
  function RunAntismash(input: Path, outDir: Path, extra: Option<seq<string>>, onPath: string -> bool,
                        resolve: Path -> Path, run: Tool, fs: FileSystem): (r: (Result<Option<Path>>, FileSystem))
    ensures FindExecutable(onPath).None? ==> r == (Ok(None), fs)
    ensures FindExecutable(onPath).Some? ==>
      var args := AntismashArgs(FindExecutable(onPath).value, resolve(input), resolve(outDir), extra.GetOr([]));
      r.1 == After(fs, run(args, fs)) &&
      (r.0.Err? <==> run(args, fs).exec.Raised?) &&
      (r.0.Err? ==> r.0.error == OtherException)
    ensures FindExecutable(onPath).Some? && r.0.Ok? ==>
      var out := resolve(outDir);
      r.0 == Ok(Some(if Join(out, "index.html") in r.1 then Join(out, "index.html") else out))
  {
    var exe := FindExecutable(onPath);
    if exe.None? then (Ok(None), fs)
    else
      var inp, out := resolve(input), resolve(outDir);
      var args := AntismashArgs(exe.value, inp, out, extra.GetOr([]));
      var ran := run(args, fs);
      var fs1 := After(fs, ran);
      if ran.exec.Raised? then (Err(OtherException), fs1)
      else
        var index := Join(out, "index.html");
        (Ok(Some(if index in fs1 then index else out)), fs1)
  }

  /** The native program is used whenever both are installed, and its run gets `--output-dir`;
      a failing exit code still returns a path. */
  lemma {:induction false} NativePreferred(input: Path, outDir: Path, extra: Option<seq<string>>, onPath: string -> bool,
                                           resolve: Path -> Path, run: Tool, fs: FileSystem)
    requires onPath("antismash")
    ensures var args := AntismashArgs("antismash", resolve(input), resolve(outDir), extra.GetOr([]));
      args[2] == "--output-dir" && args[3] == resolve(outDir) &&
      (!run(args, fs).exec.Raised? ==> RunAntismash(input, outDir, extra, onPath, resolve, run, fs).0.Ok? &&
                                       RunAntismash(input, outDir, extra, onPath, resolve, run, fs).0.value.Some?)
  {
  }

  /** With only the Docker wrapper installed, the wrapper runs with the output directory as its
      second positional argument, and a path is returned unless starting it raised. */
  lemma {:induction false} WrapperFallback(input: Path, outDir: Path, extra: Option<seq<string>>, onPath: string -> bool,
                                           resolve: Path -> Path, run: Tool, fs: FileSystem)
    requires !onPath("antismash") && onPath("run_antismash")
    ensures var args := AntismashArgs("run_antismash", resolve(input), resolve(outDir), extra.GetOr([]));
      args == ["run_antismash", resolve(input), resolve(outDir)] + extra.GetOr([]) &&
      (!run(args, fs).exec.Raised? <==> RunAntismash(input, outDir, extra, onPath, resolve, run, fs).0.Ok? &&
                                        RunAntismash(input, outDir, extra, onPath, resolve, run, fs).0.value.Some?)
  {
  }
}
