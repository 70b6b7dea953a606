/** Ligand preparation with OpenBabel (esm3_pipeline/ligand_prep.py): a ligand file or a SMILES
    text is converted to PDB and then to PDBQT, each step an `obabel` run, the first failing
    step ending the chain; and the check that a PDBQT file looks usable. */
module LigandPrep {
  import opened Common
  import opened Text

  /** What the caller passes: the SMILES text or file path, the output directory, the optional
      output name, the pH (already printed by `str()`) and whether to validate the result. */
  datatype Request = Request(input: string, baseDir: Path, outputName: Option<string>, phText: string, validate: bool)

  /** `output_name or in_path.stem` in the file branch, `output_name or 'ligand'` for SMILES:
      an empty name counts as none. */
  function LigandName(req: Request, isFile: bool): (name: string)
    ensures req.outputName.Some? && req.outputName.value != [] ==> name == req.outputName.value
    ensures (req.outputName.None? || req.outputName.value == []) && isFile ==> name == Stem(req.input)
    ensures (req.outputName.None? || req.outputName.value == []) && !isFile ==> name == "ligand"
  {
    if req.outputName.Some? && req.outputName.value != [] then req.outputName.value
    else if isFile then Stem(req.input) else "ligand"
  }

  /** The last conversion: PDB to PDBQT with Gasteiger charges, protonated at the given pH. */
  function PdbqtArgs(pdb: Path, pdbqt: Path, phText: string): seq<string> {
    ["obabel", pdb, "-O", pdbqt, "--partialcharge", "gasteiger", "-p", phText]
  }

  /** `'ATOM' in content or 'HETATM' in content`. */
  predicate HasAtoms(content: string) {
    Contains(content, "ATOM") || Contains(content, "HETATM")
  }

  /** The output checks made when `validate` is set: the file exists, is not empty and holds
      atom records. */
  predicate OutputValid(pdbqt: Path, fs: FileSystem) {
    pdbqt in fs && fs[pdbqt] != [] && HasAtoms(fs[pdbqt])
  }

  /** The conversion to PDBQT and the checks after it, common to both branches. */
  function FinishPdbqt(req: Request, pdb: Path, pdbqt: Path, fs: FileSystem, obabel: Tool): (res: (Result<Option<Path>>, FileSystem))
    ensures var run := obabel(PdbqtArgs(pdb, pdbqt, req.phText), fs);
      res.1 == After(fs, run) &&
      (res.0.Ok? <==> Succeeded(run.exec) && (req.validate ==> OutputValid(pdbqt, res.1))) &&
      (res.0.Ok? ==> res.0.value == Some(pdbqt)) &&
      (res.0.Err? ==> res.0.error == LigandPreparationError)
  {
    var run := obabel(PdbqtArgs(pdb, pdbqt, req.phText), fs);
    var fs1 := After(fs, run);
    if !Succeeded(run.exec) then (Err(LigandPreparationError), fs1)
    else if req.validate && !OutputValid(pdbqt, fs1) then (Err(LigandPreparationError), fs1)
    else (Ok(Some(pdbqt)), fs1)
  }

  /** `smiles_or_file_to_pdbqt`. The input names a file when a file of that path exists; a
      time-out or another exception inside the chain becomes `LigandPreparationError`, as a
      non-zero exit does. */
  function SmilesOrFileToPdbqt(req: Request, obabelOnPath: bool, fs: FileSystem, obabel: Tool): (res: (Result<Option<Path>>, FileSystem))
    ensures req.input == [] ==> res == (Ok(None), fs)
    ensures req.input != [] && !obabelOnPath ==> res == (Err(DependencyError), fs)
    ensures res.0.Err? ==> res.0.error == DependencyError || res.0.error == LigandPreparationError
    ensures res.0.Ok? && req.input != [] ==>
      var name := LigandName(req, req.input in fs);
      res.0.value == Some(Join(req.baseDir, name + ".pdbqt")) &&
      (req.validate ==> OutputValid(res.0.value.value, res.1))
  {
    if req.input == [] then (Ok(None), fs)
    else if !obabelOnPath then (Err(DependencyError), fs)
    else if req.input in fs then
      var name := LigandName(req, true);
      var pdb := Join(req.baseDir, name + ".pdb");
      var run := obabel(["obabel", req.input, "-O", pdb], fs);
      var fs1 := After(fs, run);
      if !Succeeded(run.exec) then (Err(LigandPreparationError), fs1)
      else FinishPdbqt(req, pdb, Join(req.baseDir, name + ".pdbqt"), fs1, obabel)
    else
      var name := LigandName(req, false);
      var sdf, pdb := Join(req.baseDir, name + ".sdf"), Join(req.baseDir, name + ".pdb");
      var run1 := obabel(["obabel", "-:" + req.input, "-O", sdf, "--gen3D"], fs);
      var fs1 := After(fs, run1);
      if !Succeeded(run1.exec) then (Err(LigandPreparationError), fs1)
      else
        var run2 := obabel(["obabel", sdf, "-O", pdb], fs1);
        var fs2 := After(fs1, run2);
        if !Succeeded(run2.exec) then (Err(LigandPreparationError), fs2)
        else FinishPdbqt(req, pdb, Join(req.baseDir, name + ".pdbqt"), fs2, obabel)
  }

  /** A SMILES text goes through 3D generation to SDF, then PDB, then PDBQT; when the first step
      fails, nothing after it runs, and when all three succeed (and the output passes the
      checks) the PDBQT path is returned. */
  lemma {:induction false} SmilesChain(req: Request, fs: FileSystem, obabel: Tool)
    requires req.input != [] && req.input !in fs
    ensures var name := LigandName(req, false);
      var sdf, pdb := Join(req.baseDir, name + ".sdf"), Join(req.baseDir, name + ".pdb");
      var run1 := obabel(["obabel", "-:" + req.input, "-O", sdf, "--gen3D"], fs);
      var res := SmilesOrFileToPdbqt(req, true, fs, obabel);
      (!Succeeded(run1.exec) ==> res == (Err(LigandPreparationError), After(fs, run1))) &&
      (Succeeded(run1.exec) ==>
        var fs1 := After(fs, run1);
        var run2 := obabel(["obabel", sdf, "-O", pdb], fs1);
        (!Succeeded(run2.exec) ==> res == (Err(LigandPreparationError), After(fs1, run2))) &&
        (Succeeded(run2.exec) ==> res == FinishPdbqt(req, pdb, Join(req.baseDir, name + ".pdbqt"), After(fs1, run2), obabel)))
  {
  }

  /** A ligand file is converted to PDB and then to PDBQT; a failed first step ends the chain. */
  lemma {:induction false} FileChain(req: Request, fs: FileSystem, obabel: Tool)
    requires req.input != [] && req.input in fs
    ensures var name := LigandName(req, true);
      var pdb := Join(req.baseDir, name + ".pdb");
      var run := obabel(["obabel", req.input, "-O", pdb], fs);
      var res := SmilesOrFileToPdbqt(req, true, fs, obabel);
      (!Succeeded(run.exec) ==> res == (Err(LigandPreparationError), After(fs, run))) &&
      (Succeeded(run.exec) ==> res == FinishPdbqt(req, pdb, Join(req.baseDir, name + ".pdbqt"), After(fs, run), obabel))
  {
  }

  /** `validate_pdbqt`: `False` for a missing file; otherwise atom records and either a `ROOT`
      or a `TORSDOF` line. */
  function ValidatePdbqt(p: Path, fs: FileSystem): (ok: bool)
    ensures p !in fs ==> !ok
    ensures ok ==> HasAtoms(fs[p])
    ensures p in fs ==> (ok <==> HasAtoms(fs[p]) && (Contains(fs[p], "ROOT") || Contains(fs[p], "TORSDOF")))
  {
    p in fs && HasAtoms(fs[p]) && (Contains(fs[p], "ROOT") || Contains(fs[p], "TORSDOF"))
  }

  /** A file holding an atom line and a `ROOT` line is a valid PDBQT file, as in the test with
      `ATOM ...`, `ROOT`, `TORSDOF 0`. */
  lemma {:induction false} ValidatePdbqtAccepts(p: Path, fs: FileSystem, atomLine: string, root: string, rest: string)
    requires StartsWith(atomLine, "ATOM") && StartsWith(root, "ROOT")
    requires p in fs && fs[p] == atomLine + root + rest
    ensures ValidatePdbqt(p, fs)
  {
    assert Contains(atomLine, "ATOM");
    assert Contains(root, "ROOT");
    ContainsInside([], atomLine, root + rest, "ATOM");
    assert [] + atomLine + (root + rest) == fs[p];
    ContainsInside(atomLine, root, rest, "ROOT");
  }

  /** A file without any atom record is rejected whatever else it holds. */
  lemma {:induction false} ValidatePdbqtNeedsAtoms(p: Path, fs: FileSystem)
    requires p in fs && !Contains(fs[p], "ATOM") && !Contains(fs[p], "HETATM")
    ensures !ValidatePdbqt(p, fs)
  {
  }
}
