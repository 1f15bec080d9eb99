# COMPSs reproducibility service: address mapping and command reconstruction

This project is a Dafny model of the core of the COMPSs reproducibility
service. The service reads an RO-Crate written by a COMPSs run and prepares
that run to execute again. The model covers this core:

- **File verifiers.** They check the crate's files against the crate's
  metadata (existence, size and modification date) before anything runs.
- **Address mapper.** It takes each path token of the recorded command line
  and finds where that asset now lives. When the crate does not persist its
  data, the DPF mapper does this job instead: it matches the token against
  the component lists of the catalogue's objects and results, and gives
  each result token a fresh numbered output directory.
- **Command reconstructors.** They classify the recorded tokens as flags,
  paths and values, rewrite the paths and values, and merge them back in
  their original order. Then they set the launcher (`enqueue_compss` on a
  SLURM cluster, `runcompss` otherwise).
- **Catalogue helpers.** These are the projections of the RO-Crate metadata
  that the core uses: entities by id, objects with composite `hasPart`
  objects flattened, results by name, and the objects dictionary keyed by
  `(name, id)`. There are also the small helpers the core uses: file-name
  indexes, the flags of the recorded command, status symbols and text
  wrapping.
- **Older variant.** The older mapper and generator under `repro_methods/`
  are modelled separately, and lemmas state where they differ from the
  newer code.

The outside world becomes values:

- The filesystem is a `Disk`. It records the existing paths, file sizes,
  modification times (already rendered the way the verifiers compare them),
  readability, directory listings, `os.walk` results and file contents.
  Operations that create directories change a `FileSystem` object whose
  `disk` field they reassign.
- The parsed RO-Crate is a `Crate` value.
- `squeue` is a `SqueueRun` value: it either completed with a return code
  and stdout, or raised.
- `shlex.split` is either a parameter or an already-split token sequence.
- The DPF module's globals `RESULT_PATH` and `OUTPUT_NUM` are the fields of
  an `OutputAllocator` object.
- Every exception the code raises is an `Err` value of a `Result`. Uncaught
  errors of the Python runtime are modelled too, where the code reaches
  them: `TypeError` on `None`, `KeyError`, `IndexError`, `StopIteration`,
  and an unbound local variable.

Python's dictionaries keep insertion order, and the code iterates them. So a
dictionary is the sequence of its items (`Dicts.Dict`), and `d[k] = v`
replaces a value where it stands or appends a new key.

The modules are:

- `Common`: Option, Result, errors.
- `Paths`: `str` methods and `posixpath`.
- `Dicts`.
- `FileSystems`.
- `Tokens`: classification and the two-pointer merge.
- `Catalog`: `utils.py`.
- `UtilsR`: `reproducibility_methods/utilsr.py`.
- `AddressMapper`, `CommandLine`, `DpfMapper`, `DpfGenerator`, `DpfVerifier`
  and `FileVerifier`.
- `LegacyAddressMapper` and `LegacyCommandLine`: the older variant.

Loops of the source are `while` loops in Dafny methods. Each method is
proved equal to a specification function, and lemmas about those functions
state what the code promises.

Orders and error paths the code fixes, and the model keeps:

- Path tokens try the categories in the order remote dataset, then dataset
  (`new_dataset` when the run generated its dataset), then application
  sources (`reproducibility_methods/address_mapper.py:98-111`).
- Bare value tokens try a result name first, then the remote dataset, the
  application sources and the dataset
  (`reproducibility_methods/generate_command_line.py:128-140`).
- A missing instrument makes `files_verifier` raise out of
  `os.path.getsize` (`file_verifier.py:49`). So the `(…, 0, 0)` record it
  prepares at line 47 never reaches the table.

## Model

| member | source | states |
|---|---|---|
| AddressMapper.Normalise | reproducibility_methods/address_mapper.py:38-42 | the address the backend works on always starts with "/", and an absolute address is left as it is |
| AddressMapper.NormaliseComponents | reproducibility_methods/address_mapper.py:38-44 | normalising is idempotent; "./a/b", "/a/b" and "a/b" all end up with the components a, b after the leading empty one |
| AddressMapper.SplitAddress | reproducibility_methods/address_mapper.py:44-49 | a file name is popped exactly when the address does not end in "/", and no component holds a "/" |
| AddressMapper.SplitAddressFile | reproducibility_methods/address_mapper.py:44-49 | the popped file name is the basename of the normalised address and is non-empty |
| AddressMapper.FirstAnchor | reproducibility_methods/address_mapper.py:51-59 | the anchor is the first component at or after the start that is a listed name and whose candidate exists; no earlier component anchors |
| AddressMapper.ScanMapped | reproducibility_methods/address_mapper.py:51-59 | the directory the scan settles on exists |
| AddressMapper.JoinFrom | reproducibility_methods/address_mapper.py:52-54 | the inner loop joins the base path with every component from the anchor on, which is Candidate |
| AddressMapper.Scan | reproducibility_methods/address_mapper.py:51-59 | the nested scan loop with its break computes ScanMapped |
| AddressMapper.Backend | reproducibility_methods/address_mapper.py:19-73 | the backend method computes BackendSpec |
| AddressMapper.BackendSound | reproducibility_methods/address_mapper.py:62-71 | a mapped address exists on disk and is non-empty; every failure is the FileNotFoundError naming the normalised address |
| AddressMapper.BackendKeepsFileName | reproducibility_methods/address_mapper.py:62-67 | a file address maps to a path with the same basename, joined under the anchored directory when one was found and under the category root otherwise |
| AddressMapper.BackendDirectory | reproducibility_methods/address_mapper.py:51-71 | a directory address maps exactly when some component from index 1 on anchors, and it maps to the candidate of the first anchoring component |
| AddressMapper.Attempts | reproducibility_methods/address_mapper.py:98-111 | the remote dataset comes first only when dataset_flags[0] holds; then dataset or new_dataset per dataset_flags[1]; application_sources last, each with its context label |
| AddressMapper.ConversionFailure | reproducibility_methods/address_mapper.py:140-146 | with no errors the handler's errors[-1] raises IndexError; otherwise a FileNotFoundError whose message starts with the raw address |
| AddressMapper.ContextLines | reproducibility_methods/address_mapper.py:144 | one "context: error" line per recorded error, in order |
| AddressMapper.Convert | reproducibility_methods/address_mapper.py:75-119 | the converter's loop over the attempts computes ConvertSpec |
| AddressMapper.ConvertFirstSuccess | reproducibility_methods/address_mapper.py:113-117 | the conversion succeeds exactly when some category maps the address, and then it gives the answer of the first such category |
| AddressMapper.ConvertAllFail | reproducibility_methods/address_mapper.py:113-146 | when every category fails, the error carries every category's failure line in attempt order under the raw address |
| AddressMapper.RemoteFirst | reproducibility_methods/address_mapper.py:105-111 | with a remote dataset, an address that the remote dataset maps takes that answer, whatever the other categories hold |
| AddressMapper.ConvertFailureNamesCategories | reproducibility_methods/address_mapper.py:113-119 | a failed conversion is always the aggregated FileNotFoundError naming the address, never IndexError |
| AddressMapper.AddrExtractor | reproducibility_methods/address_mapper.py:120-138 | the directory exists afterwards (created when missing) and the names are exactly its direct children |
| CommandLine.LongestCommonSuffixUnique | reproducibility_methods/generate_command_line.py:57-69 | two strings have a single longest common suffix |
| CommandLine.CommonSuffixExists | reproducibility_methods/generate_command_line.py:60-63 | reversing the common prefix of the reversed dirnames gives their longest common suffix |
| CommandLine.CommonSuffixSpec | reproducibility_methods/generate_command_line.py:57-69 | commonsuffix returns the longest common suffix of the two dirnames when it is a whole component of path1, and None otherwise |
| CommandLine.FirstSuffixSound | reproducibility_methods/generate_command_line.py:80-85 | the segment found is non-empty and comes from some result id; None means no id gives a truthy segment |
| CommandLine.FindSegment | reproducibility_methods/generate_command_line.py:80-85 | the loop over the result ids with its break computes FirstSuffix, the first truthy common suffix |
| CommandLine.IsResult | reproducibility_methods/generate_command_line.py:71-90 | the method computes IsResultSpec; the Result folder exists afterwards, and besides it only the one result directory it returns is created |
| CommandLine.IsResultFile | reproducibility_methods/generate_command_line.py:76-78 | a file path names a result exactly when its basename is a result name, and it then maps into the Result folder under the same basename |
| CommandLine.IsResultDirectory | reproducibility_methods/generate_command_line.py:79-88 | a directory path maps to Result/<seg>/ for a result id whose common segment is seg, and that directory exists afterwards |
| CommandLine.ResolveKeepsName | reproducibility_methods/generate_command_line.py:128-140 | a value token is replaced by a path to a file of the same name or kept as it is |
| CommandLine.Classify | reproducibility_methods/generate_command_line.py:121-140 | the path and value lists hold exactly the path and value tokens with their positions, in order, the values resolved; the Result folder is created when a value names a result |
| CommandLine.RewritePaths | reproducibility_methods/generate_command_line.py:144-156 | each path token is mapped by is_result or else by address_converter, keeps its position, and the first error stops the loop |
| CommandLine.Launch | reproducibility_methods/generate_command_line.py:180-183 | the first token becomes enqueue_compss when the SLURM check is true and runcompss otherwise, and the rest is unchanged; a None check raises TypeError and an empty command IndexError |
| CommandLine.SetLauncher | reproducibility_methods/generate_command_line.py:180-185 | the launcher assignment computes Launch |
| CommandLine.CommandLineGenerator | reproducibility_methods/generate_command_line.py:92-185 | the generator method computes GeneratorSpec, including the disk it leaves |
| CommandLine.GeneratorShape | reproducibility_methods/generate_command_line.py:121-183 | the rebuilt command has one token per path and value token (flags dropped), and its first token is enqueue_compss exactly when squeue exited 0, runcompss otherwise |
| CommandLine.GenerateCommandLine | reproducibility_methods/generate_command_line.py:21-55 | the category listings (folders created), then the first line of the command file, stripped and split, passed to the generator |
| Tokens.SelectSound | reproducibility_methods/generate_command_line.py:121-140 | the classification lists hold only tokens of their kind at their own positions, in ascending order |
| Tokens.SelectComplete | reproducibility_methods/generate_command_line.py:121-140 | every token of a kind is in its list, which has one element per such token |
| Tokens.MergeAssembles | reproducibility_methods/generate_command_line.py:158-178 | the two-pointer merge of the rewritten paths and values rebuilds the command token by token: nothing lost, duplicated or reordered |
| Tokens.MergedInOrder | reproducibility_methods/generate_command_line.py:163-178 | the merged output is in strictly ascending original position and has one entry per path and value token |
| Tokens.Merge | reproducibility_methods/generate_command_line.py:158-178 | the three merge loops compute the tagged merge |
| Catalog.EntityById | utils.py:67-81 | the result is the first entity with that id; None exactly when no entity has it |
| Catalog.GetById | utils.py:78-81 | the loop computes EntityById |
| Catalog.ObjectIdsMembers | utils.py:119-133 | an id is among the objects exactly when it is a plain object's id or a part's id of a composite object |
| Catalog.GetObjects | utils.py:110-133 | the loop computes the flattened ids, and [] when the action has no object property |
| Catalog.FillResults | utils.py:152-153 | the loop fails with KeyError("name") exactly when a result has no name, and otherwise builds the dict of (name, id) pairs |
| Catalog.GetResultsDict | utils.py:135-154 | get_results_dict computes ResultsDict ({} without results) |
| Catalog.ResultsDictLookup | utils.py:148-154 | keys are distinct, a name's value is the id of the last result with that name, and a key exists exactly when some result carries that name |
| Catalog.AddEntry | utils.py:175-180 | the inner loop stores each (name, id) item of one object and raises KeyError at an unnamed part or object |
| Catalog.GetObjectsDict | utils.py:157-182 | get_objects_dict computes ObjectsDict |
| Catalog.ObjectsDictShape | utils.py:166-182 | keys are distinct, every (name, id) key maps to id, and a key exists exactly when a plain object or a part has that name and id |
| Catalog.KeyExistsWithFirst | utils.py:197-198 | true exactly when some key's first element equals the value given |
| Catalog.GetFileNames | utils.py:200-213 | the walk loop builds the dict of (file, join(root, file)) pairs in walk order |
| Catalog.FileNamesLookup | utils.py:209-213 | a name maps to the path of the last file met under it, a key exists exactly when a walked file has that name, and a plain name's path has it as basename |
| Catalog.PreviousFlagsMembers | utils.py:474-480 | a token is kept exactly when it occurs, starts with "-" and does not start with "--provenance" or "-p" |
| Catalog.GetPreviousFlags | utils.py:460-480 | the first line of the command file, stripped and split on whitespace, filtered to those flags; a missing or empty file raises |
| Catalog.CheckSlurmCluster | utils.py:443-458 | true exactly when squeue completed with code 0, with its stdout; otherwise false with the exception's or the fixed message |
| Catalog.StatusSymbols | utils.py:498-504 | existence 1 gives a check mark and anything else a cross; size 1 gives a check mark, 0 a cross, anything else a dash |
| Catalog.ChunksSpec | utils.py:507-511 | the chunks are non-empty, at most width long, all but the last exactly width, and concatenated they are the text |
| Catalog.WrapText | utils.py:507-511 | a zero width raises ValueError, a negative width gives "", and a positive one gives the chunks joined by newlines |
| UtilsR.GetResultsDictR | reproducibility_methods/utilsr.py:30-43 | the loop computes ResultsDictR, None when the action has no result property |
| UtilsR.ResultsDictRLookup | reproducibility_methods/utilsr.py:41-43 | keys are distinct and a key exists exactly when some result carries that name |
| UtilsR.ResultsDictVersions | reproducibility_methods/utilsr.py:30-43 | the two get_results_dict agree everywhere except a crate without results, where utils answers {} and utilsr None |
| UtilsR.CheckSlurmClusterR | reproducibility_methods/utilsr.py:45-58 | None exactly when squeue exits non-zero; (True, stdout) on a zero exit; (False, message) when it raises |
| UtilsR.SlurmCheckVersions | reproducibility_methods/utilsr.py:45-58 | where utilsr answers, both versions agree; where it answers None, utils answers False |
| Dicts.PutSpec | utils.py:152-154 | d[k] = v keeps keys distinct, stores v under k, leaves other keys alone and appends only a new key |
| Dicts.FromPairsGet | utils.py:152-154 | the dict built by assignment has distinct keys and each key holds its last pair's value |
| FileSystems.WithDir | reproducibility_methods/address_mapper.py:132-133 | after os.makedirs the path exists, only it is added, an existing path is unchanged, and a new directory lists nothing |
| FileSystems.FirstLine | reproducibility_methods/generate_command_line.py:49-50 | next(open(p)) gives the first line; a missing file raises, an empty one raises StopIteration |
| DpfMapper.UrlSplitter | data_persistance_false.py:368-394 | the components of a catalogue id hold no "/" |
| DpfMapper.UrlSplitterRebuilds | data_persistance_false.py:378-394 | behind a "/" and followed by the file part, the components rebuild the stripped, normalised id |
| DpfMapper.BackendDpf | data_persistance_false.py:198-248 | the DPF backend method computes BackendDpfSpec; an answer exists on disk |
| DpfMapper.BackendDpfAgrees | data_persistance_false.py:198-248 | the DPF backend gives a path exactly when the local backend does not raise, and the same path |
| DpfMapper.LastIndex | data_persistance_false.py:299-301 | the backwards loop finds the last occurrence of the component, -1 exactly when it is absent |
| DpfMapper.ObjectMatch | data_persistance_false.py:313-330 | a kept object candidate exists under "/", and a positive length always has a candidate |
| DpfMapper.ScanChoosesBest | data_persistance_false.py:292-344 | the scan settles on the component with the greatest match length, the last of equals in the address; with no match the state is unchanged |
| DpfMapper.BeatsUnique | data_persistance_false.py:332-344 | at most one component is the best match |
| DpfMapper.ScanToResult | data_persistance_false.py:332-344 | the address goes to the results exactly when, at its best component, the result length is strictly greater than the object length; ties go to the object |
| DpfMapper.ScanDpf | data_persistance_false.py:292-344 | the last-to-first scan loop computes ScanFrom |
| DpfMapper.ResultLength | data_persistance_false.py:296-311 | the result-list loop computes ResultLen |
| DpfMapper.ObjectLength | data_persistance_false.py:313-330 | the object-list loop computes ObjectMatch |
| DpfMapper.OutputDirsDistinct | data_persistance_false.py:346-351 | distinct counter values give distinct new_output directories |
| DpfMapper.MapDpfOutcome | data_persistance_false.py:250-366 | an application source is answered as is; a result match creates and returns new_output_N and advances the counter by exactly 1; other answers exist and are absolute; errors are TypeError (no result path) or FileNotFoundError |
| DpfMapper.OutputAllocator.SetExecutionPath | data_persistance_false.py:501-502 | RESULT_PATH becomes execution_path/Result and the counter is unchanged |
| DpfMapper.OutputAllocator.MapAddress | data_persistance_false.py:250-366 | one mapping computes MapDpfSpec on the disk and the counter, leaving RESULT_PATH alone |
| DpfGenerator.SplitAllRebuilds | data_persistance_false.py:416-420 | every list url_splitter builds rebuilds its id's local path |
| DpfGenerator.Unshared | data_persistance_false.py:422 | an object list is kept exactly when it is not a result list |
| DpfGenerator.ObjectValue | data_persistance_false.py:439-447 | None exactly when every object has another name; the only errors are TypeError or KeyError from get_by_id |
| DpfGenerator.ObjectValueFirst | data_persistance_false.py:439-447 | a value found is the stripped id of an object named like the token, and every earlier object has another name |
| DpfGenerator.ValueDpfMeaning | data_persistance_false.py:436-451 | an application source of that name gives a path with the token as basename; with no source and no object of that name the token is kept |
| DpfGenerator.ClassifyDpf | data_persistance_false.py:429-451 | the path list is the path tokens with positions; the values are resolved in order; the first error stops the loop |
| DpfGenerator.ObjectLookup | data_persistance_false.py:439-447 | the loop with its break computes ObjectValue |
| DpfGenerator.MapFromOutcome | data_persistance_false.py:455-459 | the path loop only grows the disk and the counter, every mapped path exists, and it fails only as the mapper fails |
| DpfGenerator.MapPaths | data_persistance_false.py:455-459 | the path loop computes MapFrom, with the disk and counter it leaves |
| DpfGenerator.CommandLineGeneratorDpf | data_persistance_false.py:396-487 | the generator method computes GeneratorDpfSpec |
| DpfGenerator.GeneratorDpfShape | data_persistance_false.py:429-485 | one output token per path and value token, flags dropped, the launcher set from the SLURM check, and the disk and counter only grow |
| DpfVerifier.CheckFileAccessibility | data_persistance_false.py:25-54 | the loop computes Accessibility |
| DpfVerifier.AccessibilityLookup | data_persistance_false.py:38-47 | the dict has one key per checked local path (http ids and empty paths skipped), holding its readability |
| DpfVerifier.AccessibilityFlag | data_persistance_false.py:48-54 | the flag is true exactly when every entry of the dict is |
| DpfVerifier.InstrumentRecord | data_persistance_false.py:81-89 | the instrument's size is read first (OSError when missing); its status is 1 when it equals contentSize and 0 otherwise |
| DpfVerifier.CheckObjectDpf | data_persistance_false.py:93-127 | http ids are skipped; size status 2 without contentSize, 1 on a match, 0 otherwise; date status 0 exactly when a recorded date differs |
| DpfVerifier.SizePathsEmpty | data_persistance_false.py:110-114 | no size mismatch is listed exactly when no row's size status is 0 |
| DpfVerifier.DatePathsEmpty | data_persistance_false.py:120-124 | no date mismatch is listed exactly when no row's date status is 0 |
| DpfVerifier.FilesVerifierDpfReport | data_persistance_false.py:56-142 | the first row is the instrument's, then one row per local object id in order; both verdicts hold exactly when no row shows a mismatch |
| DpfVerifier.FilesVerifierDpf | data_persistance_false.py:56-142 | the method computes FilesVerifierDpfSpec and never raises on a mismatch |
| DpfVerifier.DataPersistenceFalseVerifier | data_persistance_false.py:144-177 | the method computes DpfVerifySpec |
| DpfVerifier.DpfVerifyRaises | data_persistance_false.py:162-175 | ValueError exactly when some checked object cannot be read; otherwise the outcome of files_verifier_dpf |
| FileVerifier.InstrumentRowMatchesLists | file_verifier.py:41-54 | corrected instrument row: marked present, size status 1 exactly when the sizes match, and the lists agree with it |
| FileVerifier.InstrumentMismatchShownAsMatch | file_verifier.py:49-52 | as written, a mismatched instrument gets size status 1 (a check mark) while being listed as a size mismatch |
| FileVerifier.InstrumentVersions | file_verifier.py:41-54 | the written and corrected instrument steps differ only in the row's size status, and only on a mismatch |
| FileVerifier.CheckInstrument | file_verifier.py:41-54 | the instrument step computes InstrumentState |
| FileVerifier.Skips | file_verifier.py:63-67 | an object is skipped exactly when its id starts with "http": the remote-dict guard can never fire |
| FileVerifier.ObjectRow | file_verifier.py:67-94 | the row of one checked object: its name and joined path, existence status 0 exactly when the path is missing, and then size status 0; statuses in range; errors only TypeError or the OSError of that path |
| FileVerifier.ObjectStep | file_verifier.py:62-95 | one iteration fails only with TypeError or the OSError of the object's path |
| FileVerifier.VerifyItem | file_verifier.py:62-95 | the loop body computes ObjectStep |
| FileVerifier.ObjectStepKeeps | file_verifier.py:66-95 | a skipped object changes nothing; any other adds exactly one row with its name and path, and the mismatch and missing lists stay consistent with the rows |
| FileVerifier.VerdictMatchesTable | file_verifier.py:101-107 | the raised error is SizeMismatch (with missing paths if any), then FilesMissing, then none, as read from the rows; nothing is raised exactly when every row is present with a non-mismatch size |
| FileVerifier.FilesVerifierReport | file_verifier.py:14-109 | with the instrument row corrected as under "## Findings" (size status 0 on a mismatch): no objects returns without raising; otherwise the instrument row, then one row per non-skipped object in order, and a verdict read from those rows after all of them |
| FileVerifier.FilesVerifier | file_verifier.py:14-109 | the verifier method computes FilesVerifierSpec, whose instrument row carries the correction under "## Findings" |
| LegacyAddressMapper.Stripped | repro_methods/address_mapper.py:48-49 | a leading "./" is removed entirely and no "/" is added |
| LegacyAddressMapper.LegacyBackendSound | repro_methods/address_mapper.py:30-81 | a mapped address exists; a failure is the Exception naming the stripped address |
| LegacyAddressMapper.LegacyAgreesOnAbsolute | repro_methods/address_mapper.py:30-81 | on an absolute address the older and newer backends agree up to the error class |
| LegacyAddressMapper.LegacyTopLevelIgnored | repro_methods/address_mapper.py:58-74 | a relative dir/file never anchors at dir: the file is looked up directly under the root, and must exist |
| LegacyAddressMapper.LegacyBackend | repro_methods/address_mapper.py:30-81 | the backend method computes LegacyBackendSpec |
| LegacyAddressMapper.LegacyConvertChoice | repro_methods/address_mapper.py:83-95 | success exactly when either category maps, the dataset first; on failure one Exception naming the address with both categories' messages |
| LegacyAddressMapper.LegacyConvert | repro_methods/address_mapper.py:83-95 | the converter method computes LegacyConvertSpec |
| LegacyCommandLine.FirstRawLine | repro_methods/generate_command_line.py:21-23 | only the first line is read, unstripped; an empty file leaves the variable unbound |
| LegacyCommandLine.ConvertFromMeaning | repro_methods/generate_command_line.py:49-53 | the path loop succeeds exactly when every path converts, in order; otherwise it fails with the first failing path's error |
| LegacyCommandLine.Relaunch | repro_methods/generate_command_line.py:76-77 | only enqueue_compss at position 0 becomes runcompss; any other first token is kept; an empty command raises IndexError |
| LegacyCommandLine.LegacyGeneratorShape | repro_methods/generate_command_line.py:29-79 | success exactly when the command keeps a token and every path converts; one token per path and value, each an existing path, an unchanged value of the command, or runcompss first |
| LegacyCommandLine.Classify | repro_methods/generate_command_line.py:37-45 | the flag, path and value lists are exactly the tokens of each kind with their positions |
| LegacyCommandLine.ConvertPaths | repro_methods/generate_command_line.py:49-53 | the path loop computes ConvertFrom with the older converter, keeping positions |
| LegacyCommandLine.LegacyCommandLineGenerator | repro_methods/generate_command_line.py:29-79 | the generator method computes LegacyGeneratorSpec |
| LegacyCommandLine.LegacyGenerateCommandLine | repro_methods/generate_command_line.py:12-27 | the dataset and application_sources listings (folders created), the first line of the command file, then the generator |

## Left out

- Printing, coloured output and the status tables: `generate_file_status_table`
  and `print_colored` are presentation only. The table's symbols are modelled
  by `Catalog.StatusSymbols`.
- The `values = sorted(values, ...)` of the newer generator is not a separate
  step. The classification appends values in ascending position
  (`Tokens.SelectSound`), so the sort leaves the list as it is.
- `run_dpf` beyond setting `RESULT_PATH`: it reads the command file, asks the
  user for flags and values (`get_more_flags`, `get_change_values`) and runs
  the command.
- `get_Create_Action` and `get_instument` are thin lookups. They are the
  `action` and `instrument` fields of the crate value, read through
  `Catalog.ActionOf` and `DpfVerifier.InstrumentOf`.
- The copies of `addr_extractor` in `data_persistance_false.py:179-197` and
  `repro_methods/address_mapper.py:12-28` do the same loop as the newer one,
  so both are modelled by `AddressMapper.AddrExtractor`.
- `check_is_true` of the older mapper is not used by the modelled code.
- Parent directories missing under `os.mkdir`, the intermediate
  directories `os.makedirs` creates, and `os.listdir` on a path that is not
  a directory, are not modelled. A created directory lists nothing, and
  `FileSystems.WithDir` does not add it to its parent's listing, which
  stays as it was.
- `Paths.IsSpace` counts only ASCII whitespace. Python's `str.strip()` and
  `str.split()` also treat Unicode whitespace as space.
- `contentSize` is taken to be an integer. A string value would never match
  `os.path.getsize`.
- `os.access`, `os.path.getmtime` and the ISO rendering of a date are inputs
  of the disk value. The modification time is stored already rendered.
- `shlex` quoting rules: the generators take the command already split, and
  `generate_command_line` takes the split as a parameter.
- The older generator collects flags but never merges them. The model
  computes the flag list (`LegacyCommandLine.Classify`) and drops it, as the
  code does.
- The `j == -1` exit in the DPF object loop cannot be taken once the list
  holds the component, so it is not a separate path of
  `DpfMapper.ObjectLength`.
- The `except ValueError` of `data_persistence_false_verifier` is not
  modelled, because `files_verifier_dpf` raises no ValueError.
- FileVerifier.FilesVerifier: computes the corrected instrument row
  (`FileVerifier.InstrumentState`, size status 0 on a size mismatch), where
  `file_verifier.py:52` as written leaves status 1;
  `FileVerifier.InstrumentStateAsWritten` models the code as written.
- FileVerifier.FilesVerifierReport: it requires a disk on which only existing
  paths have sizes (`SizesExist`). The verifier methods themselves need no
  such condition.
- FileVerifier.InstrumentRowMatchesLists: it requires `SizesExist` as well.
- Concurrency, signals, downloads, YAML handling, file copying and moving,
  and the orchestration scripts are outside this core.

## Findings

| source | as written | input that shows it | evidently intended | confidence | as-written member | corrected member |
|---|---|---|---|---|---|---|
| file_verifier.py:49-52 | on an instrument size mismatch the record's size status is set to 1, the "match" symbol, while the path is listed as mismatched | an instrument `main.py` that exists with size 2 on disk and `contentSize` 1 | size status 0, as the objects loop (line 90) and `files_verifier_dpf` (data_persistance_false.py:88) set it | not executed | FileVerifier.InstrumentMismatchShownAsMatch | FileVerifier.InstrumentRowMatchesLists |
