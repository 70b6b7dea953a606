# ProtFlow pipeline core in Dafny

This project models the core of ProtFlow, a pipeline that goes from GenBank files to
docked ligands. It extracts protein sequences from GenBank files, filters them by length,
predicts structures with ESM3, finds pockets with P2Rank, prepares ligands with OpenBabel,
docks them with AutoDock Vina and writes a PDF summary report. Around these stages it models
the configuration object, the command-line runner that chains them, the antiSMASH wrapper,
the three notebook checkers and the DALI naming scheme. Every external program, library and
probe is a parameter of the model. This covers `obabel`, `vina`, `java`, P2Rank, antiSMASH,
the ESM3 model, pandas' CSV reader, the regular-expression engine, JSON and YAML decoding,
`shutil.which`, the GPU probes and `random.choices`. The model decides what the pipeline does
with their answers: which files it writes, which errors it raises or swallows, in what order
it visits things, and what it returns.

One Dafny module per source file:

| module | source |
|---|---|
| `Config` | `esm3_pipeline/config.py` |
| `SeqParser` | `esm3_pipeline/seq_parser.py` |
| `Esm3Predict` | `esm3_pipeline/esm3_predict.py` |
| `P2Rank` | `esm3_pipeline/p2rank.py` |
| `LigandPrep` | `esm3_pipeline/ligand_prep.py` |
| `VinaDock` | `esm3_pipeline/vina_dock.py` |
| `Reporting` | `esm3_pipeline/reporting.py` |
| `Antismash` | `esm3_pipeline/antismash.py` |
| `RunnerSteps`, `Runner` | `scripts/runner.py` (the steps of `main`, then the configuration handling and `main` itself) |
| `NotebookValidator` | `scripts/validate_notebook.py` |
| `NotebookCompleteness` | `check_notebook_complete.py` |
| `NotebookQuality` | `check_notebook_quality.py` |
| `DaliNaming` | `test_dali_naming.py` |

Four support modules hold what the others share:
- `Common`: optional values, results, the exception classes of `esm3_pipeline/exceptions.py`, paths, the file system as a map from path to text, and tool runs.
- `Text`: substring tests, `str.split()`, `readlines()`, `strip()`, slices and `str(int)`.
- `Table`: pandas rows as maps from column name to cell.
- `Sorting`: Python's stable `sorted`, written as an insertion sort.

The model follows the source's form:
- The configuration object, the module-wide configuration and model caches, and the set of used DALI identifiers are classes whose methods update their fields.
- Every loop of the source is a method with a loop, proved against a recursive specification function.
- The properties of those specification functions are proved as lemmas.

## Model

| member | source | states |
|---|---|---|
| Antismash.FindExecutable | esm3_pipeline/antismash.py:17-25 | `antismash` exactly when it is on the PATH; `run_antismash` exactly when only that one is; nothing exactly when neither is |
| Antismash.IsAvailable | esm3_pipeline/antismash.py:28-37 | available exactly when an executable is found and the `--help` probe did not raise; a probe that exits, with any code, counts as available |
| Antismash.AntismashArgs | esm3_pipeline/antismash.py:50-59 | native program: executable, input, `--output-dir`, output; wrapper: executable, input, output; the extra arguments follow in their order |
| Antismash.RunAntismash | esm3_pipeline/antismash.py:40-65 | no executable: nothing is run and the result is `None`; otherwise the tool runs once with `AntismashArgs` of the found executable, the resolved input and output and the extra arguments (none when `None`), the files are what that run leaves, a run that raises propagates as an error, and any run that started (whatever its exit code) returns `index.html` in the resolved output directory when present, else that directory |
| Antismash.WrapperFallback | esm3_pipeline/antismash.py:17-61 | with only the Docker wrapper installed, it runs with input and output as positional arguments followed by the extra arguments, and a path is returned exactly when starting it did not raise |
| Antismash.NativePreferred | esm3_pipeline/antismash.py:17-61 | with both programs installed the native one runs with `--output-dir` and, unless starting it raised, a path is returned whatever its exit code |
| Config.DerivedDir | esm3_pipeline/config.py:65-72 | a directory given to the constructor is kept; a missing one becomes the named sub-directory of the base directory |
| Config.EnvOverride | esm3_pipeline/config.py:86-93 | `HF_TOKEN`, `ANTISMASH_ENV` and `LOG_LEVEL`, when set, replace the token, the antiSMASH environment and the log level; every other field is unchanged |
| Config.PostInitPaths | esm3_pipeline/config.py:17-93 | after `__post_init__` the base directory is the given one or `cwd/esm3_pipeline`, each of the four directories is the given one or its sub-directory of the base, and the environment wins over constructor values |
| Config.Defaults | esm3_pipeline/config.py:24-48 | without arguments and without the three variables: model `esm3-sm-open-v1`, lengths 50 and 1200, Vina box 20, exhaustiveness 8, 9 modes, no token, environment `antismash`, level `INFO` |
| Config.ArgsOf | esm3_pipeline/config.py:128-133 | `asdict` with paths as text, read back as constructor arguments, gives every field: the constructor, in any working directory, takes every field back unchanged before the environment is read |
| Config.PostInitIdempotent | esm3_pipeline/config.py:59-93 | building a configuration again from the fields of one, in the same environment, gives the same fields |
| Config.FormatOf | esm3_pipeline/config.py:110-121 | JSON exactly for the suffix `.json`, YAML exactly for `.yaml` or `.yml`, anything else refused |
| Config.LoadValues | esm3_pipeline/config.py:103-123 | a missing file is `FileNotFoundError`; another suffix is `ValueError`; YAML without PyYAML is `ImportError`; a success is `__post_init__` applied to the keys the reader returned |
| Config.SaveValues | esm3_pipeline/config.py:125-146 | the same suffix rules, with nothing written on an error; on success the file holds the dumped fields |
| Config.SaveLoadRoundTrip | esm3_pipeline/config.py:103-146 | a configuration saved with `to_file` in a supported format and read back with `from_file` in the same environment is the configuration that was saved |
| Config.ProtFlowConfig.LoadFromEnv | esm3_pipeline/config.py:86-93 | the object's fields become `EnvOverride` of its old fields |
| Config.ProtFlowConfig.FromFile | esm3_pipeline/config.py:102-123 | an error of `LoadValues` is returned as is; otherwise a new object whose fields are the loaded values |
| Config.ProtFlowConfig.ToFile | esm3_pipeline/config.py:125-146 | the outcome and the files are those of `SaveValues` on the object's fields |
| Config.ProtFlowConfig.constructor | esm3_pipeline/config.py:59-84 | the new object's fields are `PostInit` of the arguments |
| Config.Registry.GetConfig | esm3_pipeline/config.py:157-162 | an existing configuration is returned unchanged; only when none is set is a new default one created and installed |
| Config.Registry.SetConfig | esm3_pipeline/config.py:165-168 | the given object becomes the current configuration |
| Config.Registry.ResetConfig | esm3_pipeline/config.py:171-174 | a new default configuration replaces the current one |
| Config.GetConfigTwice | esm3_pipeline/config.py:157-162 | two calls of `get_config` in a row return the same object |
| SeqParser.FilterWindow | esm3_pipeline/seq_parser.py:128 | every record kept lies inside the length window, and no more records are kept than given |
| SeqParser.FilterAppend | esm3_pipeline/seq_parser.py:128 | the filter works record by record, so it keeps the input order |
| SeqParser.FilterKeepsExactly | esm3_pipeline/seq_parser.py:128 | a record is kept exactly when it is in the input and `min_len <= len <= max_len` |
| SeqParser.LongerOrEqualIsTotalPreorder | esm3_pipeline/seq_parser.py:133 | the descending-length key is a total preorder, so the stable sort is well defined |
| SeqParser.FilterAndSelect | esm3_pipeline/seq_parser.py:91-148 | a missing FASTA is `FileNotFoundError`; a reader failure, or a failing write of the output file, is `ParseError` and leaves the files as they were; otherwise the result is the first `limit` records of the filtered (and, when asked, sorted) list, and the output file, when one is given, holds exactly them |
| SeqParser.SelectionInOrder | esm3_pipeline/seq_parser.py:128-137 | without sorting, the selection is the prefix of length `min(limit, filtered)` of the filtered records |
| SeqParser.SelectionSorted | esm3_pipeline/seq_parser.py:132-137 | with sorting, the selection is in non-increasing length order, records of equal length keep their input order, and every record still lies in the window |
| SeqParser.FilterExample | tests/test_pipeline.py:77-96 | records of lengths 30, 100, 200 and 2000 with the window [50, 1200] select the two middle ones |
| SeqParser.ValidateSequence | esm3_pipeline/seq_parser.py:151-162 | valid exactly when every character, in upper case, is one of `ACDEFGHIKLMNPQRSTVWY*X`; the empty text is valid |
| SeqParser.ValidateIgnoresCase | esm3_pipeline/seq_parser.py:162 | two texts equal up to case are valid together |
| SeqParser.UpperKeepsAlphabet | esm3_pipeline/seq_parser.py:161-162 | upper case leaves every letter of the alphabet unchanged |
| SeqParser.ValidateAcceptsAlphabet | tests/test_pipeline.py:60-66 | any text over the alphabet, such as the test's three, is valid |
| SeqParser.ValidateRejects | tests/test_pipeline.py:64-65 | `ACDEFGZ` and `123456` are rejected |
| SeqParser.Qualifier | esm3_pipeline/seq_parser.py:62-73 | `q.get(key, [default])[0]`: the default when the key is absent, the first value otherwise, and an `IndexError` for an empty list |
| SeqParser.FeatureStep | esm3_pipeline/seq_parser.py:55-79 | at most one entry is appended, only for a CDS with a non-empty translation; with deduplication only for a translation not seen before, which is then seen; its header is `>{id}|{file}|{protein_id}|{gene}|{locus_tag}|{product}` with `unknown` and empty defaults; conversely a CDS with a new non-empty translation and readable qualifiers is appended; the record fails exactly for a CDS whose translation list is empty or whose new translation has an empty gene, protein_id, locus_tag or product list; other features change nothing |
| SeqParser.FeatureStepWritten | esm3_pipeline/seq_parser.py:60-79 | every entry written has a non-empty protein, and with deduplication the proteins written stay pairwise different |
| SeqParser.FeaturesWritten | esm3_pipeline/seq_parser.py:59-79 | the features loop only appends entries and keeps that property |
| SeqParser.RecordsWritten | esm3_pipeline/seq_parser.py:58-79 | the records loop of one file only appends entries and keeps that property |
| SeqParser.FilesWritten | esm3_pipeline/seq_parser.py:56-82 | the files loop only appends entries and keeps that property, a file that raises only ending itself |
| SeqParser.ExtractShape | esm3_pipeline/seq_parser.py:15-88 | a missing directory is `FileNotFoundError`; an output that cannot be opened is `ParseError`; no GenBank file gives 0; otherwise the files are read in sorted order, the count is the number of entries written to the FASTA file, every protein is non-empty and, with deduplication, no protein is written twice |
| SeqParser.FilesStep | esm3_pipeline/seq_parser.py:56-82 | one turn of the files loop reads one file's records on the progress so far |
| SeqParser.ExtractFeatures | esm3_pipeline/seq_parser.py:59-79 | the loop's entries, seen set and exception are those of `Features`, and the count is the number of entries |
| SeqParser.ExtractRecords | esm3_pipeline/seq_parser.py:57-82 | the loop's entries and seen set are those of `Records`, and the count is the number of entries |
| SeqParser.ExtractProteins | esm3_pipeline/seq_parser.py:15-88 | the count and the file written are those of `Extract` |
| Esm3Predict.ChooseDevice | esm3_pipeline/esm3_predict.py:48-58 | a given device is used as is; otherwise `cuda` exactly when CUDA is available, `mps` exactly when only MPS is, `cpu` exactly when neither is |
| Esm3Predict.ModelCache.constructor | esm3_pipeline/esm3_predict.py:17-18 | the module starts with no cached model |
| Esm3Predict.ModelCache.LoadEsm3Small | esm3_pipeline/esm3_predict.py:21-77 | with the cache on and a model cached, that model is returned untouched; otherwise the model is loaded on the chosen device, a failed load is `ModelLoadError` and leaves the cache alone, and a success is cached only when the cache is on |
| Esm3Predict.ModelCache.ClearModelCache | esm3_pipeline/esm3_predict.py:168-172 | no model is cached afterwards |
| Esm3Predict.LoadTwice | esm3_pipeline/esm3_predict.py:40-45 | once a cached load succeeded, a second cached load returns the same model and device, whatever the loader would do |
| Esm3Predict.Sanitize | esm3_pipeline/esm3_predict.py:126 | the name has the identifier's length, with each `|`, `/` and `\` replaced by `_` and every other character kept |
| Esm3Predict.OutputNameShape | esm3_pipeline/esm3_predict.py:126-127 | the file name is at most 84 characters, ends in `.pdb`, holds no separator and names a file directly in the output directory; a short clean identifier gives `<id>.pdb` |
| Esm3Predict.CacheDir | esm3_pipeline/esm3_predict.py:110-111 | without a cache directory the cache is `.cache` in the output directory |
| Esm3Predict.Directories | esm3_pipeline/esm3_predict.py:108-112 | the directories the loop finds: the given ones, plus the default cache directory when caching without a cache directory; a cache directory passed in is not made |
| Esm3Predict.RecordStep | esm3_pipeline/esm3_predict.py:123-162 | a record is skipped exactly when skipping is on and its PDB exists, and then writes nothing; a record writes at most its PDB and its cache file and removes nothing; a record that is not a success writes at most its cache file, and nothing without caching; a success leaves its PDB in the output directory |
| Esm3Predict.UncachedStep | esm3_pipeline/esm3_predict.py:122-162 | without caching, an unskipped record succeeds exactly when the model generates and `to_pdb` produces text; a success writes exactly its PDB with that text, anything else fails and writes nothing |
| Esm3Predict.CacheHitStep | esm3_pipeline/esm3_predict.py:122-162 | with caching and a cached copy, an unskipped record succeeds exactly when the copy unpickles and `to_pdb` produces text; a success writes exactly its PDB with that text, anything else fails and writes nothing |
| Esm3Predict.NoGenerationWhenAvailable | esm3_pipeline/esm3_predict.py:130-143 | when the PDB is skipped or the prediction is cached, the model's generation is never consulted: any generator gives the same outcome |
| Esm3Predict.GeneratedIsCached | esm3_pipeline/esm3_predict.py:144-159 | with caching on, no cache file and an existing cache directory, a successful generation writes the pickle to the cache; the PDB is then written and the record is a success when `to_pdb` works, and otherwise the record fails with the pickle left in place |
| Esm3Predict.MissingCacheDirFails | esm3_pipeline/esm3_predict.py:144-163 | a cache directory passed in that does not exist makes an uncached, unskipped record fail without writing anything, whatever the model generates |
| Esm3Predict.Counts.Bump | esm3_pipeline/esm3_predict.py:119-162 | each record adds exactly one to the total of successes, skips and errors |
| Esm3Predict.EveryRecordCounted | esm3_pipeline/esm3_predict.py:119-165 | after the loop the three counters add up to the number of records, whatever the failures |
| Esm3Predict.PredictKeepsFiles | esm3_pipeline/esm3_predict.py:123-163 | the loop never removes a file |
| Esm3Predict.AllExistingSkipped | esm3_pipeline/esm3_predict.py:129-133 | with skipping on and every PDB present, nothing is written and every record counts as skipped |
| Esm3Predict.PredictOne | esm3_pipeline/esm3_predict.py:124-162 | one iteration's outcome and files are those of `RecordStep` |
| Esm3Predict.PredictPdbs | esm3_pipeline/esm3_predict.py:80-165 | the default cache directory is made, then the loop's files and counters are those of `PredictFrom` from zero counters over the resulting directories, and every record is counted once |
| P2Rank.CheckJavaAvailable | esm3_pipeline/p2rank.py:16-32 | Java is available exactly when `java -version` exits with 0; a timeout or a missing binary is `False` |
| P2Rank.EnsureP2Rank | esm3_pipeline/p2rank.py:35-112 | no Java is `DependencyError`, the only error; an existing jar is returned without downloading unless a download is forced; otherwise a jar is returned exactly when download and unzip succeeded and the search then finds one, and every other ending is `None` |
| P2Rank.EnsureP2RankKeepsJar | esm3_pipeline/p2rank.py:60-64 | with a jar present and no forced download, the outcome does not depend on the download at all, and it is that jar |
| P2Rank.AsRow | esm3_pipeline/p2rank.py:189-196 | a record read as a table row has its structure path as `pdb`, its rank as `pocket_rank` and its centre tuple as `center` |
| P2Rank.PocketOf | esm3_pipeline/p2rank.py:189-196 | a row converts exactly when its three centre columns, its score and its probability (default 0.0) all convert with `float()`; a missing centre or score column is a failure; the record carries the structure, rank index+1, the converted values and the CSV path |
| P2Rank.Records | esm3_pipeline/p2rank.py:188-196 | one record per table row, in table order, up to the first row that does not convert, which ends the row loop |
| P2Rank.RecordsRanks | esm3_pipeline/p2rank.py:190-191 | a structure's records carry its path and rank 1, 2, ... in table order |
| P2Rank.RecordsAll | esm3_pipeline/p2rank.py:188-196 | a table whose rows all convert gives one record per row |
| P2Rank.RecordsStop | esm3_pipeline/p2rank.py:188-205 | once a row fails to convert, the rows after it add nothing |
| P2Rank.JavaArgs | esm3_pipeline/p2rank.py:152-162 | `java -jar <jar> predict -f <pdb> -o <pdb_dir>/<stem>_p2 -threads .. -visualizations ..` |
| P2Rank.Predictions | esm3_pipeline/p2rank.py:177-182 | the table comes from a predictions file listed in the structure's output directory that exists |
| P2Rank.DetectSkips | esm3_pipeline/p2rank.py:150-205 | a run that does not exit with 0, or no readable predictions file, adds no record and is not raised; a run that exits with 0 and leaves a readable predictions file gives exactly the records of the first `top_n_pockets` rows of its table (none for an empty table); the files are those the run leaves |
| P2Rank.DetectBounded | esm3_pipeline/p2rank.py:188 | at most `top_n_pockets` records per structure, carrying its path, ranked 1, 2, ... |
| P2Rank.DetectorRanks | esm3_pipeline/p2rank.py:150-205 | every structure's iteration gives records of that structure ranked 1, 2, ... |
| P2Rank.DetectAllFrom | esm3_pipeline/p2rank.py:150-205 | every record comes from one of the structures walked, with a rank of at least 1 |
| P2Rank.DetectAllOrdered | esm3_pipeline/p2rank.py:142-196 | with the structures in sorted order, the result is grouped by structure in that order |
| P2Rank.DetectAllRanks | esm3_pipeline/p2rank.py:150-196 | with each structure walked once, a structure's records are adjacent and their ranks are as far apart as their places |
| P2Rank.RunP2RankShape | esm3_pipeline/p2rank.py:141-208 | the records name only `.pdb` files of the directory, grouped by structure in sorted path order, and within a structure adjacent and ranked in table order |
| P2Rank.RunP2Rank | esm3_pipeline/p2rank.py:115-208 | a missing jar is `PocketDetectionError` before any structure is processed; otherwise the result is the loop over the sorted listing, and no structure file gives no record and writes nothing |
| P2Rank.DetectEach | esm3_pipeline/p2rank.py:150-205 | the loop's records and files are those of `DetectAll` |
| P2Rank.DetectOne | esm3_pipeline/p2rank.py:151-205 | one structure's records and files are those of `Detect` |
| P2Rank.CollectRecords | esm3_pipeline/p2rank.py:188-196 | the row loop's records are those of `Records` |
| LigandPrep.LigandName | esm3_pipeline/ligand_prep.py:64 | a non-empty output name wins; otherwise a ligand file gives its stem and a SMILES text gives `ligand` |
| LigandPrep.FinishPdbqt | esm3_pipeline/ligand_prep.py:110-138 | the PDBQT conversion with Gasteiger charges at the given pH; the result is the PDBQT path exactly when the conversion succeeded and, with `validate`, the file exists, is not empty and holds `ATOM` or `HETATM`; every failure is `LigandPreparationError` |
| LigandPrep.SmilesOrFileToPdbqt | esm3_pipeline/ligand_prep.py:25-145 | an empty input is `None` before anything else; no `obabel` is `DependencyError`; the only other error is `LigandPreparationError`; a result is `base_dir/{name}.pdbqt` and, with `validate`, a file that passed the checks |
| LigandPrep.SmilesChain | esm3_pipeline/ligand_prep.py:79-121 | a SMILES text goes to `.sdf` with `--gen3D`, then to `.pdb`, then to `.pdbqt`; a failed step is `LigandPreparationError` and no later step runs |
| LigandPrep.FileChain | esm3_pipeline/ligand_prep.py:61-121 | an existing file is converted to `{name}.pdb` and then to `.pdbqt`; a failed first step is `LigandPreparationError` and the second does not run |
| LigandPrep.ValidatePdbqt | esm3_pipeline/ligand_prep.py:148-172 | `False` for a missing file; otherwise `True` exactly when the content has `ATOM` or `HETATM` and has `ROOT` or `TORSDOF` |
| LigandPrep.ValidatePdbqtAccepts | tests/test_pipeline.py:145-162 | a file holding an `ATOM` line and a `ROOT` line is valid |
| LigandPrep.ValidatePdbqtNeedsAtoms | esm3_pipeline/ligand_prep.py:166-170 | a file without `ATOM` or `HETATM` is rejected whatever else it holds |
| Table.Get | esm3_pipeline/vina_dock.py:211 | `row.get(key, default)`: the row's cell when the column is present, the default otherwise |
| Table.ToFloat | esm3_pipeline/p2rank.py:189-194 | `float(cell)`: a missing value stays missing, a number is kept, a tuple is refused |
| Table.LiteralEval | esm3_pipeline/vina_dock.py:209 | `ast.literal_eval` of a centre text, surrounding white space ignored: a text without brackets is read as one number; a bracketed text is read by `DisplayEval`; the result is a number or a tuple |
| Table.DisplayEval | esm3_pipeline/vina_dock.py:209 | a tuple or list display of numbers, with one trailing comma allowed, is the tuple of its items; a parenthesised single item without a comma is that number, and only a parenthesised text can give a number |
| Table.CenterRoundTrip | esm3_pipeline/vina_dock.py:209 | a pocket centre written to a CSV file as the text of its tuple is read back by `ast.literal_eval` as the same three numbers, for any number printer that reads back |
| VinaDock.FirstAffinityIsFirstMatch | esm3_pipeline/vina_dock.py:83-90 | the log parser answers with the number of the first `REMARK VINA RESULT:` line whose fourth field is a number, passing over marker lines whose fourth field is missing or not a number, and answers nothing exactly when no line yields |
| VinaDock.ResultLineAffinity | esm3_pipeline/vina_dock.py:84-87 | a line holding the marker, white space and a number yields that number |
| VinaDock.ExampleLog | tests/test_pipeline.py:121-134 | the log with a header, the line `REMARK VINA RESULT:    -8.5 ...` and a footer gives -8.5 |
| VinaDock.ParseVinaOutput | esm3_pipeline/vina_dock.py:68-93 | a missing log gives `None`; an existing one gives the first-match search over its lines |
| VinaDock.EnsureReceptor | esm3_pipeline/vina_dock.py:28-65 | the receptor is the structure path with suffix `.pdbqt`; an existing one is returned without running anything unless regeneration is forced; otherwise `obabel` runs and the result is the path exactly when it succeeded, every failure being a `DockingError` |
| VinaDock.EnsureReceptorCaches | esm3_pipeline/vina_dock.py:42-46 | once a conversion has left the receptor file, a second request returns the same path and runs nothing |
| VinaDock.VinaArgs | esm3_pipeline/vina_dock.py:124-138 | the `vina` command has 25 words, the three centre coordinates after their flags and the one box size for all three axes |
| VinaDock.Unpack3 | esm3_pipeline/vina_dock.py:122 | a centre unpacks exactly when it is a tuple or text of three items; another length is a `ValueError`, another kind of value a `TypeError` |
| VinaDock.RunSingleDocking | esm3_pipeline/vina_dock.py:96-159 | an unpacking error propagates before anything runs; a failed `vina` run gives `None`; a successful one gives the parsed log, and a number returned is the first result line of the log it wrote |
| VinaDock.DockNameInjective | esm3_pipeline/vina_dock.py:212-213 | two pockets with integer ranks share output names only when they have the same structure stem and rank |
| VinaDock.DockNameParts | esm3_pipeline/vina_dock.py:212-213 | the output name splits at its last `_` into `dock_` and the stem, and `p` and the rank |
| VinaDock.RowCenter | esm3_pipeline/vina_dock.py:209 | a text centre is read with `ast.literal_eval`; any other centre is used as it is |
| VinaDock.DockPocket | esm3_pipeline/vina_dock.py:204-238 | a row without a `pdb` raises `KeyError` and one whose `pdb` is not text `TypeError`, before the guarded part; any other row gives one row with its structure and rank (default 1), where a row without a centre is the all-`None` failure row and `out`/`log` are set only to files that exist under `dock_{stem}_p{rank}` |
| VinaDock.DockPocketOutcome | esm3_pipeline/vina_dock.py:204-238 | for a row with a text `pdb`: the failed row, with the files left by the receptor conversion, exactly when the conversion fails, the row has no `center`, the centre does not read, or docking raises; otherwise the row carries the affinity docking reported and the centre read from the row, and `out`/`log` are set exactly when those files exist after docking |
| VinaDock.DockerKeepsRows | esm3_pipeline/vina_dock.py:204-238 | `dock_pocket` raises exactly on rows without a text structure path and otherwise keeps each row's structure and rank |
| VinaDock.DockAllOnePerRow | esm3_pipeline/vina_dock.py:246-248 | when every row has a text structure path, the sequential loop gives exactly one result row per pocket row, in table order, with its structure and rank |
| VinaDock.DockAllFails | esm3_pipeline/vina_dock.py:246-248 | the sequential loop fails exactly when some row has no text structure path, and then with `KeyError` or `TypeError` |
| VinaDock.DockAllStops | esm3_pipeline/vina_dock.py:246-248 | once a pocket has raised, the pockets after it are not docked |
| VinaDock.DockEach | esm3_pipeline/vina_dock.py:242-243 | every pocket is submitted, so there is one outcome per pocket row |
| VinaDock.Collect | esm3_pipeline/vina_dock.py:244-245 | results collected in completion order: one row per completed future unless a future re-raises |
| VinaDock.DockEachAgrees | esm3_pipeline/vina_dock.py:240-248 | when no pocket raises, every pocket is docked in parallel exactly as in the sequential loop |
| VinaDock.CollectAllOk | esm3_pipeline/vina_dock.py:244-245 | results none of which raised are collected in completion order |
| VinaDock.CollectStops | esm3_pipeline/vina_dock.py:244-245 | once a future has re-raised, later completions do not change the outcome |
| VinaDock.ParallelSameRows | esm3_pipeline/vina_dock.py:240-248 | the parallel path gives the rows of the sequential loop, one per pocket, in completion order: the same multiset of rows |
| VinaDock.RunVina | esm3_pipeline/vina_dock.py:162-260 | no `vina` is `DependencyError` and a missing ligand `DockingError`, both before any docking; no pockets is the `KeyError` of the empty frame; otherwise the sequential loop, or with `parallel` and more than one pocket the parallel path in completion order |
| VinaDock.DockInOrder | esm3_pipeline/vina_dock.py:246-248 | the loop's rows and files are those of `DockAll` |
| VinaDock.DockAtOnce | esm3_pipeline/vina_dock.py:242-243 | the submitted outcomes and files are those of `DockEach` |
| VinaDock.CollectInOrder | esm3_pipeline/vina_dock.py:244-245 | the collected rows are those of `Collect` |
| Sorting.SortBy | esm3_pipeline/seq_parser.py:133 | a sort keeps the length and the elements of its input |
| Sorting.SortBySorted | esm3_pipeline/seq_parser.py:133 | for a total preorder, the sorted list is ordered and is a permutation of the input |
| Sorting.SortByStable | esm3_pipeline/seq_parser.py:133 | the sort is stable: elements that rank equal keep their input order |
| Sorting.StrLeIsTotalPreorder | esm3_pipeline/p2rank.py:142 | Python's string order is total and transitive |
| Sorting.SortPaths | esm3_pipeline/p2rank.py:142 | `sorted(paths)` is an ordered permutation of the paths |
| Sorting.SortPathsOrderFree | esm3_pipeline/p2rank.py:142 | `sorted(glob)` depends only on the files found, not on the order the directory lists them in |
| Sorting.PermuteKeepsElements | esm3_pipeline/vina_dock.py:243-245 | taking results in any order that names each one once gives the same elements |
| Reporting.Fixed2 | esm3_pipeline/reporting.py:50-52 | `.2f` formats numbers only; a text or a tuple raises |
| Reporting.PdbName | esm3_pipeline/reporting.py:48 | `Path(cell).name` exists exactly for a text cell and is its last component |
| Reporting.CenterTexts | esm3_pipeline/reporting.py:46-52 | the centre gives texts exactly when it unpacks into three values that `.2f` accepts, and then the three texts are their `.2f` texts in order; a text centre that `ast.literal_eval` refuses gives none |
| Reporting.ScoreText | esm3_pipeline/reporting.py:50 | a missing score prints `N/A`; a present one its `.2f` text |
| Reporting.PocketRow | esm3_pipeline/reporting.py:45-52 | a row gives six texts: the structure name, the rank (default 1), the score and the three centre coordinates; it gives them exactly when the centre, structure and score columns are present, the centre converts, the structure is a path and the score formats, and a row whose centre cannot be read gives none |
| Reporting.PocketRows | esm3_pipeline/reporting.py:44-55 | at most one data row per pocket row, six texts each |
| Reporting.PocketRowsAllKept | esm3_pipeline/reporting.py:44-55 | rows that all convert give one data row each, in order |
| Reporting.PocketRowsNoneKept | esm3_pipeline/reporting.py:53-55 | rows that raise are skipped, so a table whose rows all raise gives no data row |
| Reporting.PocketRowsSingle | esm3_pipeline/reporting.py:44-55 | one row gives its data row when it converts and nothing when it raises |
| Reporting.PocketRowsAppend | esm3_pipeline/reporting.py:44-55 | each row is handled on its own: the data rows of two tables in sequence are those of the first followed by those of the second, so a mixed table keeps exactly its converting rows, in order |
| Reporting.PocketSection | esm3_pipeline/reporting.py:37-75 | no file gives nothing; an unreadable file gives the error line; otherwise the section shows the rows of the first 10 that convert, and is left out when none does |
| Reporting.PocketSectionBound | esm3_pipeline/reporting.py:44-71 | a pocket section shown has a header and between one and ten data rows |
| Reporting.AffinityLeIsTotalPreorder | esm3_pipeline/reporting.py:83 | ascending affinity is a total preorder |
| Reporting.WithAffinity | esm3_pipeline/reporting.py:83 | the rows kept are exactly the rows whose affinity is not missing |
| Reporting.DockingRow | esm3_pipeline/reporting.py:87-90 | a docking row that converts gives three texts: first the structure name, last the `.2f` affinity |
| Reporting.DockingRowText | esm3_pipeline/reporting.py:87-90 | a docking row converts exactly when its structure is a path and its affinity a number, and its middle text is `str` of its rank, `1` when the column is missing |
| Reporting.DockingRows | esm3_pipeline/reporting.py:87-91 | the rows of the docking table, one per row shown and each that row's texts, or nothing as soon as one raises |
| Reporting.DockingRowsSome | esm3_pipeline/reporting.py:86-90 | the docking table has its rows exactly when every row shown has a path structure and a numeric affinity |
| Reporting.DockingSection | esm3_pipeline/reporting.py:77-110 | no file gives nothing; an unreadable file, a missing affinity column, a non-numeric affinity or a shown row that raises gives the error line; no row with an affinity gives nothing; otherwise the heading, the table of the header and the rows of `TopDocking`, and a spacer |
| Reporting.DockingSorted | esm3_pipeline/reporting.py:83-87 | the table shows `min(10, n)` of the `n` rows with an affinity, in ascending order of affinity, each a row of the file that has one |
| Reporting.DockingBest | esm3_pipeline/reporting.py:83-87 | a row with an affinity that is not shown has an affinity no better than any row shown |
| Reporting.Bullets | esm3_pipeline/reporting.py:117-118 | one bullet `• name` per file, in order |
| Reporting.PdbSection | esm3_pipeline/reporting.py:113-114 | no structure file gives no section |
| Reporting.PdbSectionShape | esm3_pipeline/reporting.py:113-121 | the section gives the total, the first 20 names in sorted order, and `... and {n-20} more` exactly when there are more than 20 files |
| Reporting.Report | esm3_pipeline/reporting.py:123-129 | the PDF is written from the story; a failure to build it is raised and writes nothing |
| Reporting.SectionErrorContained | esm3_pipeline/reporting.py:72-75 | an unreadable pocket file costs only its own section: the error line stands in its place and the other sections follow unchanged |
| Reporting.DockingErrorExactly | esm3_pipeline/reporting.py:77-110 | the docking section is the error line exactly when `vina_results.csv` exists and cannot be read, lacks an affinity in some row, has a non-numeric affinity, or has a shown row that raises |
| Reporting.DockingErrorContained | esm3_pipeline/reporting.py:77-110 | whenever the docking section raises (any of those causes), only that section is lost: the pocket section before it and the file section after it are unchanged, and the error line stands in its place |
| Reporting.CollectPocketRows | esm3_pipeline/reporting.py:44-55 | the loop's data rows are those of `PocketRows` |
| Reporting.BulletList | esm3_pipeline/reporting.py:117-118 | the loop's bullets are those of `Bullets` |
| Reporting.AppendPdbList | esm3_pipeline/reporting.py:112-121 | the story grows by exactly `PdbSection` |
| Reporting.CollectDockingRows | esm3_pipeline/reporting.py:87-91 | the loop's rows are those of `DockingRows` |
| Reporting.DockingRowsStops | esm3_pipeline/reporting.py:87-91 | once a row raises, the section fails whatever follows |
| Reporting.AppendDocking | esm3_pipeline/reporting.py:77-110 | the story grows by exactly `DockingSection` |
| Reporting.AppendPockets | esm3_pipeline/reporting.py:37-75 | the story grows by exactly `PocketSection` |
| Reporting.BuildReport | esm3_pipeline/reporting.py:19-129 | the outcome and the files are those of `Report` |
| RunnerSteps.ExitCode | scripts/runner.py:245-253 | an exception reaching `main` gives 130 exactly for an interrupt and 1 for a `ProtFlowError` or any other exception |
| RunnerSteps.ParseStep | scripts/runner.py:123-130 | with `--parse-gbk` the extraction runs and a success leaves `all_proteins.faa`; an empty extraction is only logged; without the flag nothing happens |
| RunnerSteps.FilterStep | scripts/runner.py:132-146 | filtering happens exactly when one of `--predict`, `--p2rank`, `--vina` or `--report` is given; a missing `all_proteins.faa` then returns 1 before filtering; otherwise `filter_and_select` is called with the configured bounds and `selected.faa` |
| RunnerSteps.PredictStep | scripts/runner.py:148-169 | without `--predict` nothing happens; the step only appends its own calls and keeps earlier ones |
| RunnerSteps.PredictNeedsRecords | scripts/runner.py:151-157 | an empty `selected.faa` returns 1 right after it is read, and no structure is predicted unless the selection has records |
| RunnerSteps.PredictEnds | scripts/runner.py:159-169 | a completed prediction step ends with the prediction when caching is on and with clearing the model cache when it is off |
| RunnerSteps.P2RankStep | scripts/runner.py:171-193 | without `--p2rank` nothing happens; a failure of the stage is only logged, except an interrupt, which returns 130 |
| RunnerSteps.P2RankPockets | scripts/runner.py:176-191 | `pockets_summary.csv` is written exactly when P2Rank produced a non-empty table, and the table kept is the one P2Rank returned with the installed jar |
| RunnerSteps.DockingPockets | scripts/runner.py:199-205 | this run's P2Rank table is used when there is one; otherwise `pockets_summary.csv` is read back when it exists, and its absence gives no pockets |
| RunnerSteps.LigandInput | scripts/runner.py:211-215 | `--ligand` when given, else `--smiles` when not empty, else no ligand |
| RunnerSteps.Dock | scripts/runner.py:217-228 | docking runs with the configured box, exhaustiveness, modes, `--parallel` and workers, and a completed run writes `vina_results.csv`; a failing one ends the run |
| RunnerSteps.LigandAndDock | scripts/runner.py:210-230 | every ligand prepared is the `--ligand`/`--smiles` choice, every docking run uses the file that preparation made, and with no ligand nothing is called |
| RunnerSteps.PreparedThenDocked | scripts/runner.py:213-227 | a preparation that gave a file is followed by docking with that file |
| RunnerSteps.VinaStep | scripts/runner.py:195-230 | without `--vina` nothing happens; no pockets means no docking; ligands and docking runs keep the precedence and the prepared file |
| RunnerSteps.AfterPocketsRead | scripts/runner.py:199-230 | reading the pocket file before the ligand calls keeps those properties |
| RunnerSteps.ReportStep | scripts/runner.py:232-238 | with `--report` the report is built into `esm3_results_report.pdf` in the base directory; without it nothing happens |
| RunnerSteps.StepAt | scripts/runner.py:123-238 | each step only appends calls of its own step and keeps an early return as it is |
| RunnerSteps.After | scripts/runner.py:123-238 | any early return within the first steps is 1 or 130 |
| RunnerSteps.Pipeline | scripts/runner.py:123-253 | `main` exits with 0, 1 or 130 |
| RunnerSteps.PrefixAcross | scripts/runner.py:123-238 | a later step never removes a call made by an earlier one |
| RunnerSteps.ExitsStick | scripts/runner.py:136-157 | once a step has returned, later steps do nothing |
| RunnerSteps.OnlyParsing | scripts/runner.py:132-238 | without a stage that needs the selection, the run is the parsing step alone |
| RunnerSteps.ParsingAlone | scripts/runner.py:123-133 | without `--predict`, `--p2rank`, `--vina` or `--report` the run makes at most the extraction call |
| RunnerSteps.MissingFastaStops | scripts/runner.py:133-136 | a later stage with no `all_proteins.faa` and no parsing step returns 1 having called nothing |
| RunnerSteps.CompletedReportLast | scripts/runner.py:233-243 | when the report is requested and the run completes, building it is the last call |
| RunnerSteps.StepOrderKept | scripts/runner.py:123-238 | appending one step's calls after calls of no later step keeps step order |
| RunnerSteps.AfterInOrder | scripts/runner.py:123-238 | after `k` steps the calls are in step order and none is of a later step |
| RunnerSteps.StagesInOrder | scripts/runner.py:123-238 | the calls come step by step: parsing, filtering, prediction, pockets, docking, report |
| RunnerSteps.MadeByItsStep | scripts/runner.py:123-238 | every call of the final trace was made by its own step |
| RunnerSteps.CompletedRunFiltered | scripts/runner.py:133-145 | a completed run that needed the selection called `filter_and_select` with the configured bounds |
| RunnerSteps.EmptySelectionStops | scripts/runner.py:154-157 | an empty selection returns 1 and no structure is ever predicted |
| RunnerSteps.DockingInputs | scripts/runner.py:207-227 | over the whole run, every ligand prepared is `--ligand` when given and `--smiles` otherwise, and every docking run has pockets and the file its preparation made |
| RunnerSteps.NoVinaNoDocking | scripts/runner.py:196 | without `--vina` no ligand is prepared and nothing is docked |
| RunnerSteps.RunSteps | scripts/runner.py:123-253 | the steps' exit code and calls are those of `Pipeline` |
| RunnerSteps.FirstSteps | scripts/runner.py:123-169 | parsing, filtering and prediction give the run `After(3)` |
| RunnerSteps.ParseStage | scripts/runner.py:123-130 | the run after step 1 is `ParseStep` |
| RunnerSteps.FilterStage | scripts/runner.py:132-146 | the run after step 2 is `FilterStep` |
| RunnerSteps.PredictStage | scripts/runner.py:148-169 | the run after step 3 is `PredictStep` |
| RunnerSteps.P2RankStage | scripts/runner.py:171-193 | the run after step 4 is `P2RankStep` |
| RunnerSteps.VinaStage | scripts/runner.py:195-230 | the run after step 5 is `VinaStep` |
| RunnerSteps.ReportStage | scripts/runner.py:232-238 | the run after step 6 is `ReportStep` |
| Runner.DefaultFlags | scripts/runner.py:44-74 | the parser's defaults: limit 10, lengths 50 and 1200, 4 workers, `BASE` and `GBK_DIR`, no steps, empty SMILES |
| Runner.Overrides | scripts/runner.py:97-107 | `--base` and `--gbk-dir` replace the configured directories only when they differ from the defaults; lengths, limit, cache and workers always replace theirs; every other field, the derived directories included, is kept |
| Runner.OverridesIdempotent | scripts/runner.py:97-107 | applying the command line twice changes nothing more |
| Runner.DefaultDirectoriesKept | scripts/runner.py:97-114 | a default command line keeps the configured directories; `--base` alone moves the base but not the structure directory derived from the old one |
| Runner.Initial | scripts/runner.py:90-95 | without `--config` the configuration is the default one; a missing configuration file is `FileNotFoundError` |
| Runner.ApplyOverrides | scripts/runner.py:97-107 | the object's fields become `Overrides` of its old fields |
| Runner.OverrideDirectories | scripts/runner.py:98-101 | only the base and GenBank directories change, each only when its flag differs from its default |
| Runner.OverrideLengths | scripts/runner.py:103-105 | the length bounds and the limit take the flags' values and nothing else changes |
| Runner.OverrideRuntime | scripts/runner.py:106-107 | the cache switch and the worker count take the flags' values and nothing else changes |
| Runner.RunMain | scripts/runner.py:35-253 | a configuration that cannot be loaded returns its exit code with no stage called and the global configuration unchanged; otherwise a new configuration with the overrides is installed and the steps run on it |
| Runner.LoadConfig | scripts/runner.py:90-95 | the configuration comes from the file given with `--config` or from the defaults, errors passed on |
| NotebookValidator.KeywordWarnings | scripts/validate_notebook.py:65-70 | the keyword warnings are all missing-keyword warnings |
| NotebookValidator.KeywordWarningsIff | scripts/validate_notebook.py:56-70 | a keyword is reported missing exactly when it is one of the list and no code cell's joined source contains it |
| NotebookValidator.CellWarnings | scripts/validate_notebook.py:73-84 | the cell warnings are wildcard-import and local-path warnings naming cells that exist |
| NotebookValidator.CellWarningsIff | scripts/validate_notebook.py:73-84 | cell `i` is reported for `import *` exactly when it is a code cell whose source contains it, and for a local path exactly when it is a code cell with `/home/` or `/Users/` and without `/content` |
| NotebookValidator.Errors | scripts/validate_notebook.py:26-27 | the only error is a missing `cells` field |
| NotebookValidator.Verdict | scripts/validate_notebook.py:18-23 | valid exactly when the file parses as JSON and has `cells`; warnings never fail it |
| NotebookValidator.MissingKeywordIff | scripts/validate_notebook.py:44-70 | in the full warning list, a keyword is missing exactly when it is critical and no code cell contains it |
| NotebookValidator.HardcodedPathIff | scripts/validate_notebook.py:81-84 | in the full warning list a cell is reported for a local path exactly when it has one, and the verdict is `cells` being present |
| NotebookValidator.FoundStep | scripts/validate_notebook.py:58-63 | a keyword is found in one more cell exactly when it was found before or that cell is code and contains it |
| NotebookValidator.ValidateNotebook | scripts/validate_notebook.py:11-120 | invalid JSON returns `False` with nothing collected; otherwise the errors and warnings are those of `Errors` and `Warnings` (missing metadata, missing keywords, cell issues, no `colab`), and the result is `Verdict` |
| NotebookValidator.FindKeywords | scripts/validate_notebook.py:56-63 | every keyword is marked found exactly when some code cell contains it |
| NotebookValidator.MarkKeywords | scripts/validate_notebook.py:61-63 | one cell marks exactly the keywords its source contains and unmarks none |
| NotebookValidator.KeywordReport | scripts/validate_notebook.py:66-70 | one warning per keyword not found, in list order |
| NotebookValidator.CellReport | scripts/validate_notebook.py:73-84 | the loop's warnings are those of `CellWarnings` |
| NotebookValidator.CheckImports | scripts/validate_notebook.py:123-161 | `True` exactly when every critical module imports; optional modules never matter |
| NotebookValidator.ValidatorMain | scripts/validate_notebook.py:164-200 | 1 when the notebook is missing or invalid, otherwise 0, even when the environment check fails |
| NotebookCompleteness.VariableChecks | check_notebook_complete.py:114-115 | one check per required variable, in order, with the pattern `\b<name>\s*=` |
| NotebookCompleteness.CodeSources | check_notebook_complete.py:28 | at most one source per cell: the code cells' joined sources, in order |
| NotebookCompleteness.SectionIssues | check_notebook_complete.py:63-68 | the section issues are all missing-section issues |
| NotebookCompleteness.SectionIssuesIff | check_notebook_complete.py:55-68 | a section is reported missing exactly when it is expected and no markdown cell's joined source, stripped, starts with it |
| NotebookCompleteness.SectionFoundStep | check_notebook_complete.py:56-61 | a heading is found in one more cell exactly when it was found before or that cell is markdown and starts with it |
| NotebookCompleteness.FindSections | check_notebook_complete.py:55-61 | every expected heading is recorded exactly when some markdown cell starts with it |
| NotebookCompleteness.CollectHeadings | check_notebook_complete.py:59-61 | one cell records exactly the headings it starts with and forgets none |
| NotebookCompleteness.SectionReport | check_notebook_complete.py:63-68 | the loop's issues are those of `SectionIssues` |
| NotebookCompleteness.UnmetIff | check_notebook_complete.py:93-163 | a name is reported exactly when the search finds nothing for a check of that name |
| NotebookCompleteness.UnmetChecks | check_notebook_complete.py:93-98 | the loop reports the names of `Unmet`, in order |
| NotebookCompleteness.Warned | check_notebook_complete.py:93-143 | an unmet critical pattern, variable or import is a warning, one per name, in order |
| NotebookCompleteness.DaliIssues | check_notebook_complete.py:158-163 | an unmet DALI check is an issue, one per name, in order |
| NotebookCompleteness.PosMonotone | check_notebook_complete.py:195-200 | `last_pos` never moves back, so each flow step is searched for no earlier than where the steps before it were found |
| NotebookCompleteness.FlowMissIff | check_notebook_complete.py:197-204 | a flow step is reported exactly when its pattern does not occur in the code from the position the steps before it reached |
| NotebookCompleteness.CheckFlow | check_notebook_complete.py:194-204 | the loop's warnings and final `last_pos` are those of `FlowMisses` and `PosBefore` |
| NotebookCompleteness.SectionIndices | check_notebook_complete.py:233-239 | the index of section 12 is a markdown cell mentioning its heading; the index of section 13 is a markdown cell mentioning heading 13 but not heading 12 |
| NotebookCompleteness.Section12Last | check_notebook_complete.py:233-237 | the recorded index of section 12 is that of the last markdown cell mentioning it |
| NotebookCompleteness.FindSections12And13 | check_notebook_complete.py:230-239 | the loop's two indices are those of `SectionIndices` |
| NotebookCompleteness.FirstCellCountsAsMissing | check_notebook_complete.py:241 | a notebook whose only section-12 cell is the very first one counts as lacking section 12: no order issue, only the warning |
| NotebookCompleteness.VerdictIff | check_notebook_complete.py:266-285 | the notebook passes exactly when every expected section is present, every DALI pattern occurs, sections 12 and 13 are not out of order and the `.ent` glob is used; warnings never change the verdict |
| NotebookCompleteness.CheckNotebook | check_notebook_complete.py:10-285 | the issues, the warnings and the verdict are those of `AllIssues` and `AllChecksWarnings`, and the verdict is that no issue was found |
| NotebookCompleteness.CheckFlowAndFiles | check_notebook_complete.py:184-224 | the flow and file-extension warnings are those of `FlowWarnings` |
| NotebookCompleteness.CheckOrderAndGlob | check_notebook_complete.py:230-259 | the order issue, the `.ent` issue and the 12/13 warning are those of `OrderIssues`, `EntIssues` and `OrderWarnings` |
| NotebookCompleteness.CheckSections | check_notebook_complete.py:38-68 | the section issues are those of `SectionIssues` over the fourteen headings |
| NotebookCompleteness.CheckCode | check_notebook_complete.py:76-177 | the pattern, variable, import and try/except warnings are those of `CodeWarnings` |
| NotebookCompleteness.CheckDali | check_notebook_complete.py:149-163 | the DALI issues are those of the unmet DALI checks |
| NotebookCompleteness.CompletenessMain | check_notebook_complete.py:287-295 | exit 1 when the notebook is missing or has an issue, 0 otherwise |
| NotebookQuality.ParamIssues | check_notebook_quality.py:36-46 | the parameter issues are all out-of-range issues |
| NotebookQuality.ParamIssueIff | check_notebook_quality.py:29-46 | a parameter is reported with a value exactly when its first match captures that value and the value lies outside the parameter's range (NUM_STEPS 1-100, MAX_SEQ_LENGTH 10-10000, MIN_SEQ_LENGTH 1-1000, CPUS 1-128) |
| NotebookQuality.ParamsPass | check_notebook_quality.py:36-46 | no parameter issue exactly when every parameter is absent or in its range: an absent parameter is never an issue |
| NotebookQuality.CheckParams | check_notebook_quality.py:36-46 | the loop's issues are those of `ParamIssues` |
| NotebookQuality.TryIssues | check_notebook_quality.py:164-175 | every try issue names a `try:` by its number, counted from 1 |
| NotebookQuality.TryIssueIff | check_notebook_quality.py:162-175 | the `i`-th `try:` is reported exactly when the 500 characters after its match hold no `except` |
| NotebookQuality.ExceptInWindow | check_notebook_quality.py:166-167 | an `except` that starts after a `try:` and ends within the next 500 characters clears it |
| NotebookQuality.TriesPass | check_notebook_quality.py:162-175 | no try issue exactly when every `try:` has an `except` in its window |
| NotebookQuality.CheckTries | check_notebook_quality.py:162-175 | the loop's issues are those of `TryIssues` |
| NotebookQuality.QualityVerdictIff | check_notebook_quality.py:216-224 | the checks pass exactly when every parameter is absent or in range, the `used_ids` set, the four-character `random.choices` and the mapping header are all present, and every `try:` has its `except`; the print-only checks never matter |
| NotebookQuality.CheckDali | check_notebook_quality.py:114-139 | the DALI issues are those of `DaliIssues`: one per missing `used_ids = set()`, `random.choices(..., k=4)` and mapping header |
| NotebookQuality.AdditionalChecks | check_notebook_quality.py:10-224 | the issues are those of `QualityIssues`, and the result is `True` exactly when there are none |
| NotebookQuality.QualityMain | check_notebook_quality.py:226-234 | exit 1 when the notebook is missing or has an issue, 0 otherwise |
| DaliNaming.IdChar | test_dali_naming.py:20 | character number d of the 36 identifier characters is a digit or upper-case letter, and its position reads back as d |
| DaliNaming.DecodeBase36 | test_dali_naming.py:20-22 | the base-36 spelling of any k below 36^n reads back as k, so distinct numbers give distinct identifiers |
| DaliNaming.IdOf | test_dali_naming.py:20-22 | every enumerated identifier matches the format: four characters, each a digit or an upper-case letter |
| DaliNaming.EveryIdNumbered | test_dali_naming.py:20-22 | the enumeration misses nothing: every text of the four-character format is `IdOf` of some number below 36^4 |
| DaliNaming.EnumeratedSize | test_dali_naming.py:20-22 | the first n enumerated identifiers (n at most 36^4) are n different identifiers |
| DaliNaming.SomeIdFree | test_dali_naming.py:21-25 | while fewer than 36^4 identifiers are used, some identifier is still unused, so the drawing loop can end |
| DaliNaming.UsedIds.constructor | test_dali_naming.py:27 | the shared set of used identifiers starts empty |
| DaliNaming.UsedIds.GeneratePdbId | test_dali_naming.py:19-25 | given an unused identifier exists, the identifier returned has the four-character format, was not used before, and the used set grows by exactly that identifier |
| DaliNaming.UsedIds.GenerateIds | test_dali_naming.py:27-42 | n calls in a row give n well-formed identifiers that are pairwise different, all new and all now used; the used set grows by n |
| DaliNaming.UsedIds.ConvertNames | test_dali_naming.py:72-87 | every original file gets a name matching pdb[0-9A-Z]{4}.ent, paired with that original in order; no two files get the same name; each name's identifier was not used before and is used now, and the used set grows by exactly the number of files |
| DaliNaming.DaliName | test_dali_naming.py:77 | the DALI name is seven characters longer than the identifier, carries it at positions 3 to 6 and matches the DALI format when the identifier is well formed |
| DaliNaming.DaliNameInjective | test_dali_naming.py:77 | two different well-formed identifiers never give the same DALI file name |
| DaliNaming.PairLines | test_dali_naming.py:111-112 | one line per pair, in order: the DALI name, a tab, the original name, a newline |
| DaliNaming.WriteMapping | test_dali_naming.py:109-112 | the text written is the header line followed by the line of every pair, in order |
| DaliNaming.MappingLineIsLine | test_dali_naming.py:112 | a pair of names without newlines is written as exactly one line |
| DaliNaming.MappingLinesAreLines | test_dali_naming.py:110-112 | the header and every pair of names without newlines each make exactly one line of the mapping file |
| DaliNaming.ParseMappingLineInverse | test_dali_naming.py:127 | a mapping line of tab-free names, cut at the tab, gives back exactly the two names |
| DaliNaming.ConcatCons | test_dali_naming.py:109-112 | writing one line and then the rest is writing all lines in order |
| DaliNaming.ReadConcatLines | test_dali_naming.py:115-116 | reading back lines that were written one after another gives exactly those lines |
| DaliNaming.MappingRoundTrip | test_dali_naming.py:108-119 | read back, the mapping file has one line more than there are pairs, the header first and every pair in order, and each line of tab-free names splits back into its pair |
| DaliNaming.ListLines | test_dali_naming.py:155-156 | one line per name, in order, each the name followed by a newline |
| DaliNaming.WriteList | test_dali_naming.py:153-156 | the text written is the line of every name, in order |
| DaliNaming.StripAll | test_dali_naming.py:160 | one stripped line per line read, in order |
| DaliNaming.StripNewline | test_dali_naming.py:160 | a name without white space, stripped after its newline, is the name again |
| DaliNaming.ListRoundTrip | test_dali_naming.py:153-160 | names without white space come back from the list file unchanged and in order |
| DaliNaming.DaliNamesSurviveList | test_dali_naming.py:145-160 | any list of DALI names comes back from the list file unchanged and in order |

## Left out

- Logging, progress bars (`tqdm`), `mkdir` calls and console output are not modelled. Where a check only prints, the printed text is left out. This applies to the optional-module probe of `scripts/validate_notebook.py` and to the checks of `check_notebook_quality.py` that only print (lines 52-108, 129-132, 146-156, 181-209).
- External programs and libraries are oracles. The model states what the pipeline does with their answers, not what the programs compute. This covers `obabel`, `vina`, `java`/P2Rank, antiSMASH, ESM3 generation, MD5 and pickling, `pd.read_csv`, `Bio.SeqIO`, the regular-expression engine, and JSON and YAML decoding.
- `check_vina_available` and `check_obabel_available` are `shutil.which` probes. They become boolean parameters of the operations that consult them.
- Floating-point numbers are reals. Number parsing (`float()`, the number syntax of `ast.literal_eval`) and number printing (`f'{x:.2f}'`, `str(float)`) are oracle functions. Rounding is not modelled.
- The P2Rank download goes through `wget`, `curl` or `urllib`, then `unzip`. It is one `Install` outcome: how the download and the unpacking ended, and which jars the search then finds.
- The thread pools of `run_vina` and `predict_pdbs` are not modelled as threads. Vina's parallel path is modelled by a completion-order parameter. The files the parallel runs write are applied in table order.
- `Sorting.SortPaths`: compares paths as their text. Python compares `Path` objects part by part. The two orders agree for the files of one directory, but can differ for the recursive GenBank glob across subdirectories.
- `Reporting.TopDocking`: sorts the docking rows stably. pandas' default sort is not stable. The stable order is one of the orders pandas may produce.
- `Reporting.BuildReport`: the page layout and PDF rendering are a function from the list of report elements to the file written.
- `ProtFlowConfig.to_dict` is not a separate member. Its value is `Fields()`, which the file round trip uses.
- The runner's stages are oracles that answer with a value or an exception. The model records the calls `main` makes and the files it writes. Writing a CSV file with `to_csv` is assumed to succeed.
- `--log-level` and `--log-file` of the runner are not modelled.
- `--base` moves the base directory but does not re-derive `pdb_dir` and the other derived directories. This is modelled as written (`Runner.DefaultDirectoriesKept`).
- `random.choices` is a free choice among the unused identifiers. The distribution and the number of draws before an unused identifier comes up are not modelled. The DALI test's fixed example lists, its 100-identifier count and its pandas read-back are replaced by properties proved for all inputs.
- `check_notebook_complete.py` and `check_notebook_quality.py` index `cell['cell_type']` and `cell['source']` directly. A cell missing either key raises `KeyError` there. The model gives every cell both keys. `json.load` errors in these two scripts end the script with a traceback and are not modelled.
- In `check_notebook_quality.py` a captured numeric group is modelled as its integer value, parsed by the regular-expression oracle.
- `validate_pdbqt` returns `False` when reading the file raises. Apart from a missing file, reading a file never fails in the model.
- `extract_proteins_from_gbk`: the `recursive` flag only chooses the glob pattern. What the two globs find is a parameter.
- `P2Rank.CheckJavaAvailable`: `Raised` stands for the `FileNotFoundError` of a missing `java`. Another `OSError` from `subprocess.run`, such as a `PermissionError`, is not caught by `check_java_available` and propagates. The model does not distinguish it from a missing binary.
- `Common.Join`: joins with one `/`. pathlib's normalisation of repeated or trailing separators, of `.` parts and of an empty directory is not modelled.
- `VinaDock.DockPocket`: the structure path of a docking row is the text of the `pdb` cell itself. `str(Path(row['pdb']))` in `dock_pocket` normalises that text, and the model does not.
- `Text.IsSpace`: ASCII white space only (space, tab, newline, carriage return, vertical tab, form feed). `str.strip()` and `str.split()` also treat `\x1c`-`\x1f`, `\x85` and Unicode spaces such as U+00A0 and U+2028 as white space.
- `Text.ReadLines`: splits the file's characters at `\n` as they are. The universal-newline translation of text mode (`\r\n` and `\r` read as `\n`) is not modelled.
- `Table.LiteralEval`: reads only numbers and flat tuple or list displays of numbers. A list is kept as the tuple it unpacks to. Integer literals become reals. Nested displays, strings, other literals and comments are refused, where `ast.literal_eval` accepts some of them.
- `Reporting.DockingSection`: a table is its sequence of rows, so a header-only `vina_results.csv` without an `affinity` column gives no section. The source raises `KeyError` at `dfg['affinity']` and shows the error line.
- `SeqParser.FilterAndSelect`: a FASTA write that raises gives `ParseError` with the files unchanged. A partly written output file is not modelled.
- `LigandPrep.SmilesOrFileToPdbqt`: the input text is passed to `obabel` as given. The source passes `str(Path(input_str))`, which normalises the text (for example, it drops a trailing `/`). The model does not.
- `DaliNaming.UsedIds.GeneratePdbId`: requires an unused identifier. When all 36^4 identifiers are used, the source's `while True` loop never ends.
- `Esm3Predict.RecordStep`: a `to_pdb` that raises writes no PDB file. A partly written file is not modelled.
- `Esm3Predict.ModelCache.LoadEsm3Small`: the model handle is opaque. Moving the model to a device is part of the loader oracle.
