# IITSign batch signer — a Dafny model

IITSign signs folders of documents with detached CAdES-X Long signatures through the EUSignCP
library. This project models its core and proves properties of that model:

- the signing function `sign_file_cades_x_long` (`src/sign/cadesLong_sign.py`) and its earlier
  draft (`scr/cadesLong_signer.py`), as imperative methods that drive a scripted stand-in for
  the native interface (`Provider`, which records every call in `trace`) and a `Disk` of files.
  Each method is proved equal to a pure reference function (`Protocol`, `Draft`). The lemmas
  about those functions state the call order, the error paths, the cleanup in `finally`, the
  algorithm choice and which files change;
- the batch signer (`src/sign/thread_signer.py`): finding the documents one level below a root
  folder, building one task per document, signing each task on a worker that never raises,
  and collecting one result per task in the order the futures complete. The completion order
  is a parameter: any permutation of the task indices;
- `sign_folder_documents` (`src/sign/services.py`): the default extensions, the summary
  counts, and the `(success, message)` report;
- the dataclass records of `src/sign/model.py` and their defaults;
- the ledger of `src/db/dbManager.py`: a `DatabaseManager` class whose `rows` field is the
  committed table, with adding, marking and listing files;
- `remove_signed_files` (`src/utils/utils.py`) on a `Volume` whose entries are updated in
  place;
- `add_log` (`src/web/utils.py`) on a `SessionState` whose log is capped at a hundred entries.

Python exceptions are values (`Common.Exception`, `Common.Outcome`). Paths are sequences of
components (`Paths.Path`). A folder's listing is a `FileTree.Entry` sequence. The native
library is uninterpreted: a `Script` says, for each call, what it fills in or the error it
raises. UTF-8 encoding and base64 decoding are the fields of a `Codec` parameter. Clocks are
left out, and a formatted timestamp is a parameter.

Files: `common.dfy`, `paths.dfy`, `file_tree.dfy`, `provider.dfy`, `cades_steps.dfy` (steps shared
by both signer versions), `cades_long_sign.dfy`, `cades_long_signer.dfy`, `thread_signer.dfy`,
`services.dfy`, `model.dfy`, `db_manager.dfy`, `signature_cleanup.dfy`, `web_log.dfy`.

## Model

| member | source | states |
|---|---|---|
| Paths.Child | src/sign/thread_signer.py:80 | An entry listed in a folder is named by its name and lies in that folder. |
| Paths.RelPath | src/sign/thread_signer.py:108 | The path relative to a base, joined back onto the base, is the path again. |
| Paths.AddExtension | src/sign/cadesLong_sign.py:195 | Appending text to a path string keeps the folder and lengthens the last name. |
| Paths.Suffix | src/sign/thread_signer.py:81 | The suffix is "" or a dot-led tail of the name with no other dot, shorter than the name. |
| Paths.Lower | src/sign/thread_signer.py:81 | Lower-casing keeps the length and leaves no upper-case ASCII letter. |
| Paths.UpperCaseExtensionNeverMatches | src/sign/thread_signer.py:81 | An extension with an upper-case letter never equals a lower-cased suffix, so it never selects a file. |
| Paths.LedgerKeyInjective | src/sign/model.py:13-16 | When folder names have no "/", equal keys mean equal file names and equal folder names. |
| Paths.SuffixOfExtended | src/utils/utils.py:24 | Gluing "." plus a dot-free extension onto a non-empty name makes that its suffix. |
| Paths.ContainerNameIsSignature | src/utils/utils.py:24 | The name of `target + ".p7s"` has the suffix ".p7s" whenever the target has a name. |
| FileTree.Subfolders | src/sign/thread_signer.py:78 | Exactly the directories of a listing. |
| CadesSteps.SelectAlgorithms | src/sign/cadesLong_sign.py:145-155 | The lookup table: ECDSA signs with ECDSA_WITH_SHA and hashes with SHA-256. RSA signs with RSA_WITH_SHA and hashes with SHA-256. DSTU 4145 signs with DSTU4145_WITH_DSTU7564 and hashes with DSTU 7564-256. Any other key type gets none (the caller raises ValueError). |
| CadesSteps.SelectAlgorithmsInjective | src/sign/cadesLong_sign.py:145-153 | Different supported key types never share a signature algorithm. |
| CadesSteps.RawSignerOnlyAsLastResort | src/sign/cadesLong_sign.py:185-192 | The final signer is the byte output when it is non-empty. Otherwise it is the decoded text output when that is non-empty, and otherwise the raw signer. |
| CadesSteps.ContainerPath | src/sign/cadesLong_sign.py:195 | The container lies in the target's folder under the target's name plus ".p7s". |
| CadesSteps.Certify | src/sign/cadesLong_sign.py:113-132 | The certificate is parsed only when the own-certificate call returned a non-empty one. The step goes on only with that certificate, a parsed key type and the algorithms that type selects. |
| CadesSteps.Digest | src/sign/cadesLong_sign.py:158-162 | There is one hash call on the document with the chosen algorithm. The step goes on exactly when the digest is non-empty. |
| CadesSteps.Signer | src/sign/cadesLong_sign.py:165-192 | Validation data is added only to a signer that was created. The step goes on with the final signer the fallback chose. |
| CadesSteps.WriteContainer | src/sign/cadesLong_sign.py:194-213 | The empty container is created first. The signer is appended only if that succeeded, and at the same path. No file other than the container changes. On success the container holds what the append wrote. |
| CadesSteps.ReadBack | src/sign/cadesLong_sign.py:220-223 | The read succeeds exactly when the file exists and returns its bytes with its path. Otherwise it raises FileNotFound. |
| Provider.ReadFile | src/sign/cadesLong_sign.py:57-63 | A read succeeds exactly when the file exists, yielding its bytes. Otherwise it raises FileNotFound for that path. |
| CadesSteps.FinishEffect | src/sign/cadesLong_sign.py:194-221 | Writing and reading back make calls in order, all at the container path and appending the given signer. Only the container changes; a success is the read-back of what was appended. |
| CadesSteps.SignAndFinishEffect | src/sign/cadesLong_sign.py:164-221 | Signer creation precedes the container calls. Every call carries the chosen algorithm, the fallback's signer and the container path. |
| CadesSteps.HashAndSignEffect | src/sign/cadesLong_sign.py:157-221 | Hashing precedes signing and uses the chosen hash algorithm. The file effect is the same. |
| CadesSteps.AssembleEffect | src/sign/cadesLong_sign.py:112-221 | From the certificate to the read-back, calls follow the protocol order. Each carries the algorithms the parsed key type selects and the signer the fallback chose. Only the container changes. |
| CadesSteps.AssembleIgnoresCleanup | src/sign/cadesLong_sign.py:225-237 | The shared steps never depend on the replies of the cleanup calls. |
| CadesSteps.CertifyKey | src/sign/cadesLong_sign.py:113-132 | Makes exactly the calls of `Certify`, in order, and returns its result. |
| CadesSteps.HashDocument | src/sign/cadesLong_sign.py:158-162 | Makes exactly the calls of `Digest` and returns its result. |
| CadesSteps.CreateSigner | src/sign/cadesLong_sign.py:165-192 | Makes exactly the calls of `Signer` and returns its result. |
| CadesSteps.AssembleContainer | src/sign/cadesLong_sign.py:196-213 | Makes exactly the calls of `WriteContainer`. The disk afterwards is what it describes. |
| CadesSteps.WriteAndReadBack | src/sign/cadesLong_sign.py:194-221 | Its result, calls and disk are those of `Finish`. |
| CadesSteps.SignAndWrite | src/sign/cadesLong_sign.py:164-221 | Its result, calls and disk are those of `SignAndFinish`. |
| CadesSteps.HashAndWrite | src/sign/cadesLong_sign.py:157-221 | Its result, calls and disk are those of `HashAndSign`. |
| CadesSteps.AssembleSignature | src/sign/cadesLong_sign.py:112-223 | Its result, calls and disk are those of `Assemble`. |
| CadesLongSign.ReadBackPath | src/sign/cadesLong_sign.py:215-218 | With an output directory, the file read back is `output_dir/basename + ".p7s"`. Without one it is the container path. |
| CadesLongSign.ProtocolInOrder | src/sign/cadesLong_sign.py:68-237 | Every run calls the library in the fixed protocol order, each call at most once. |
| CadesLongSign.LoadedRun | src/sign/cadesLong_sign.py:68-237 | With a loaded key the calls are: the context and key calls, then the shared steps, then both frees. |
| CadesLongSign.LoadedCleanup | src/sign/cadesLong_sign.py:225-237 | With a loaded key, the key is freed second to last and the context last, and neither is freed earlier. |
| CadesLongSign.CleanupIffFilled | src/sign/cadesLong_sign.py:225-237 | The key is freed exactly when it was loaded and the context exactly when it was created. Each is freed once, at the end. |
| CadesLongSign.CleanupErrorsSwallowed | src/sign/cadesLong_sign.py:227-237 | Errors of the two free calls change neither the result, the calls nor the files. |
| CadesLongSign.PasswordEncoded | src/sign/cadesLong_sign.py:54-55 | The key reader receives a text password UTF-8 encoded and a bytes password unchanged. |
| CadesLongSign.MissingInputTouchesNothing | src/sign/cadesLong_sign.py:57-63 | A missing key or target file raises FileNotFound for the first one missing. The library is not called and no file changes. |
| CadesLongSign.EmptyCertificateStops | src/sign/cadesLong_sign.py:123-124 | An empty certificate raises RuntimeError("Error get certificate") with the exact call list: nothing is parsed or written, and both handles are freed. |
| CadesLongSign.MissingKeyTypeStops | src/sign/cadesLong_sign.py:129-132 | A parse with no key type raises RuntimeError with the exact call list; nothing is hashed. |
| CadesLongSign.UnsupportedKeyTypeStops | src/sign/cadesLong_sign.py:145-155 | An unsupported key type raises ValueError with the exact call list; nothing is hashed. |
| CadesLongSign.EmptyDigestStops | src/sign/cadesLong_sign.py:161-162 | An empty digest raises RuntimeError("Error get digest file") right after the hash call. No signer is created and no file is written. |
| CadesLongSign.CallsFollowCertificate | src/sign/cadesLong_sign.py:144-213 | Whatever the output directory, every call agrees with the key type, the fallback signer and the container at `target + ".p7s"`. No other file changes. |
| CadesLongSign.ReturnedPath | src/sign/cadesLong_sign.py:215-223 | A success returns the read-back path and the bytes there. Without an output directory this is the container just written. |
| CadesLongSign.OutputDirReadBackFails | src/sign/cadesLong_sign.py:195-223 | As written: with an output directory other than the target's folder, a run that appended the signer still raises FileNotFound. It leaves the container at `target + ".p7s"`. |
| CadesLongSign.SucceedsIffAppended | src/sign/cadesLong_sign.py:194-223 | Without an output directory, a run succeeds exactly when it appended the signer and the append succeeded. The container at `target + ".p7s"` then holds what the append wrote. |
| CadesLongSign.CorrectedReturnsWrittenContainer | src/sign/cadesLong_sign.py:195-223 | Corrected: when the append call succeeds, a run succeeds exactly when it appended the signer, returning the container it wrote at the path it returns. Without an output directory it equals the code as written. |
| CadesLongSign.SignFileCadesXLong | src/sign/cadesLong_sign.py:36-237 | Its result, the calls added to the trace, and the disk afterwards are those of `Protocol`. |
| CadesLongSign.SignSession | src/sign/cadesLong_sign.py:65-237 | The `try` block and its `finally` behave as `Session` describes. |
| CadesLongSign.TrySign | src/sign/cadesLong_sign.py:68-223 | The `try` block behaves as `TryBlock` describes, including the handles left for the cleanup. |
| CadesLongSign.Cleanup | src/sign/cadesLong_sign.py:225-237 | Frees the key if `pk_ctx` holds one, then the context if `lib_ctx` does, and nothing else. |
| CadesLongSigner.Configure | scr/cadesLong_signer.py:39-60 | Preparation calls are a prefix of Initialize, CMP, OCSP, TSP, CtxCreate and stop at the first failure. The step goes on exactly when all succeed, with the created context. |
| CadesLongSigner.StepInOrder | scr/cadesLong_signer.py:60-92 | A run of calls with strictly increasing stages is in order. |
| CadesLongSigner.UnlockInOrder | scr/cadesLong_signer.py:62-92 | The alias, key-extraction and key-load calls are in order and lie between those stages. |
| CadesLongSigner.FreesInOrder | scr/cadesLong_signer.py:197-209 | The frees are in order. |
| CadesLongSigner.KeyAndSignEffect | scr/cadesLong_signer.py:62-195 | Loading the key and then the shared steps make calls in order. The files change as the shared steps change them, read back in place. |
| CadesLongSigner.DraftTryEffect | scr/cadesLong_signer.py:38-195 | The `try` block's calls are in order from Initialize to the append, with the same file effect. |
| CadesLongSigner.LoadedShape | scr/cadesLong_signer.py:26-216 | Once the interface is obtained, the run is the `try` block followed by the cleanup calls. |
| CadesLongSigner.DraftInOrder | scr/cadesLong_signer.py:26-216 | Every run of the draft calls load, interface, preparation, key, shared steps, frees, finalize and unload in that order, each at most once. |
| CadesLongSigner.WrappedInOrder | scr/cadesLong_signer.py:26-216 | The `try` block's calls wrapped in the library calls and the cleanup stay in order. |
| CadesLongSigner.WrappedAppended | scr/cadesLong_signer.py:183-216 | Wrapping in the library calls and the cleanup adds no append. |
| CadesLongSigner.LoadFailureSkipsCleanup | scr/cadesLong_signer.py:26-27 | A failing load or interface call escapes before the `try`. No other call follows, not even the unload. |
| CadesLongSigner.DraftTryHandles | scr/cadesLong_signer.py:35-92 | `lib_ctx` is filled exactly when the context was created, and `pk_ctx` exactly when the key was loaded. |
| CadesLongSigner.DraftCleanup | scr/cadesLong_signer.py:197-216 | After the interface is obtained, every run ends with the key free (if it was loaded), the context free (if it was created), Finalize and EUUnload. |
| CadesLongSigner.DraftCleanupErrorsSwallowed | scr/cadesLong_signer.py:198-214 | Errors of the three guarded cleanup calls change neither the result, the calls nor the files. |
| CadesLongSigner.NoAliasStops | scr/cadesLong_signer.py:63-82 | A failing lookup, an empty list or an empty alias raises ValueError after that one lookup. No key is extracted or loaded, and the context is freed before finalize and unload. |
| CadesLongSigner.EmptyKeyBlobStops | scr/cadesLong_signer.py:85-88 | An empty key extraction raises IndexError with the exact call list. |
| CadesLongSigner.KeyFromFirstAlias | scr/cadesLong_signer.py:67-92 | The key is extracted for the first alias (index 0) and loaded from the first blob with the encoded password. |
| CadesLongSigner.DraftAroundSteps | scr/cadesLong_signer.py:26-216 | Once the key is loaded, a draft run has the shared steps' outcome and files. Its calls are the library load, the setup and the key loading, then the shared steps' calls, then both frees, Finalize and EUUnload. |
| CadesLongSigner.DraftEmptyCertificateStops | scr/cadesLong_signer.py:94-106 | An empty own certificate raises the draft's RuntimeError with the exact call list. Both handles are freed, then finalize and unload. |
| CadesLongSigner.DraftMissingKeyTypeStops | scr/cadesLong_signer.py:108-114 | A parsed certificate without a key type raises the draft's RuntimeError right after the parse call, with the exact call list and nothing hashed. Both handles are freed, then finalize and unload; no file changes. |
| CadesLongSigner.DraftUnsupportedKeyTypeStops | scr/cadesLong_signer.py:116-127 | A key type other than ECDSA, RSA and DSTU 4145 raises the draft's ValueError right after the parse call, with the exact call list and nothing hashed. Both handles are freed, then finalize and unload; no file changes. |
| CadesLongSigner.DraftEmptyDigestStops | scr/cadesLong_signer.py:129-134 | An empty digest raises the draft's RuntimeError right after the hash call, which used the selected hash algorithm. No signer is created and no file changes. Both handles are freed, then finalize and unload. |
| CadesLongSigner.DraftReturnsWrittenContainer | scr/cadesLong_signer.py:172-195 | When the append call succeeds, a run succeeds exactly when the signer was appended, returning what the append wrote at `file_path + ".p7s"`. No other file changes. |
| CadesLongSigner.SignFileCadesXLongDraft | scr/cadesLong_signer.py:14-216 | Its result, the calls added to the trace, and the disk afterwards are those of `Draft`. |
| CadesLongSigner.DraftSession | scr/cadesLong_signer.py:26-216 | Load and interface, then the guarded part, as `Loaded` describes. |
| CadesLongSigner.GuardedSession | scr/cadesLong_signer.py:38-216 | The `try` block, its `finally` and the unload, as `Loaded` describes. |
| CadesLongSigner.DraftAttempt | scr/cadesLong_signer.py:38-195 | The `try` block as `DraftTry` describes, with the handles for the cleanup. |
| CadesLongSigner.KeySigning | scr/cadesLong_signer.py:62-195 | Loading the key and signing, as `KeyAndSign` describes. |
| CadesLongSigner.ConfigureLibrary | scr/cadesLong_signer.py:39-60 | Makes the calls of `Configure` and returns its result. |
| CadesLongSigner.ChooseAlias | scr/cadesLong_signer.py:63-79 | The `while True` loop makes exactly one lookup (index 0) and chooses what `FirstAlias` says. |
| CadesLongSigner.UnlockKey | scr/cadesLong_signer.py:62-92 | Makes the calls of `Unlock` and returns its result. |
| ThreadSigner.NewBatchSigner | src/sign/thread_signer.py:60-61 | A batch signer has ten workers by default. |
| ThreadSigner.Extensions | src/sign/thread_signer.py:72-73 | No extensions means [".pdf"]. A given list, even an empty one, is used as is. |
| ThreadSigner.MatchingFiles | src/sign/thread_signer.py:80-81 | A path is listed for a folder exactly when it names a file of that folder whose lower-cased suffix is one of the extensions. |
| ThreadSigner.FoundExactly | src/sign/thread_signer.py:78-85 | A path is found exactly when it is `root/d/f` for a directory `d` of the root and a wanted file `f` of `d`. |
| ThreadSigner.FoundUnderRoot | src/sign/thread_signer.py:78-85 | Every document found lies exactly two levels below the root. |
| ThreadSigner.NoExtensionsNothingFound | src/sign/thread_signer.py:72-81 | An empty extension list finds nothing. |
| ThreadSigner.FindDocumentsToSign | src/sign/thread_signer.py:64-85 | The loops over directories and files return exactly `Documents`. |
| ThreadSigner.OutputDirMirrorsFolder | src/sign/thread_signer.py:107-112 | A document `root/d/f` gets output directory `base/d` when a non-empty base is given, and none otherwise. |
| ThreadSigner.Tasks | src/sign/thread_signer.py:105-119 | One task per document, in the documents' order, with the given key file and password. |
| ThreadSigner.BuildTasks | src/sign/thread_signer.py:105-119 | The task-building loop returns exactly `Tasks`. |
| ThreadSigner.SignSingleFile | src/sign/thread_signer.py:22-54 | The result names the task's file. It is a success exactly when the signing run appended the signer and the append succeeded. Its output is then `file + ".p7s"`, because the task's output directory is not passed on, and that container holds the signature. A failure has an empty output path and carries the exception the signing raised. |
| ThreadSigner.Indices | src/sign/thread_signer.py:123-126 | The task indices 0..n-1, in order. |
| ThreadSigner.Completed | src/sign/thread_signer.py:128-146 | One result per completed future. |
| ThreadSigner.CompletionOrderBounds | src/sign/thread_signer.py:122-128 | A completion order has one slot per task, names only task indices, and names every one. |
| ThreadSigner.SingleFileWorkerReportsOwnFile | src/sign/thread_signer.py:22-54 | `sign_single_file` never raises and reports its own task's file. On success it names the container, which its run wrote. |
| ThreadSigner.BatchReportsEveryTask | src/sign/thread_signer.py:121-147 | Whatever the completion order, the results are the tasks' own results, each exactly once (equal as multisets). Every task's file is reported. The k-th result belongs to the k-th task to complete, and a success names that task's container, which its run wrote. |
| ThreadSigner.CompletedPermutesTasks | src/sign/thread_signer.py:121-146 | The results collected in any completion order are a permutation of the per-task results in task order. |
| ThreadSigner.CrashedFutureFails | src/sign/thread_signer.py:139-146 | A future that raised gives a failed result for its own task's file, with an empty output path and the error. |
| ThreadSigner.SignDocumentsBatch | src/sign/thread_signer.py:87-147 | No documents gives no results. Otherwise the results are those of the tasks for the documents found, in completion order. |
| ThreadSigner.CollectResults | src/sign/thread_signer.py:128-146 | The `as_completed` loop returns exactly `Completed`. |
| Services.FolderExtensions | src/sign/services.py:41-42 | No extensions means [".pdf", ".xml"]. |
| Services.FirstUnexpected | src/sign/services.py:45-53 | The first keyword the callee does not accept, or none exactly when every keyword is accepted. |
| Services.ConstructBatchSigner | src/sign/thread_signer.py:60-61 | Construction succeeds exactly when every keyword is `max_workers`, and then has that many workers. |
| Services.CountsAddUp | src/sign/services.py:69-70 | Every result is counted once, as a success or as a failure. |
| Services.CountsIgnoreOrder | src/sign/services.py:69-70 | The counts depend only on which results there are, not on the completion order. |
| Services.CountsAreCardinalities | src/sign/services.py:69-70 | The success count is the number of positions holding a successful result, and the failure count the number holding a failed one. |
| Services.Summarize | src/sign/services.py:64-98 | Success exactly when the batch returned some results. The summary then counts the results that succeeded and those that did not, and the two add up to the total. No results means "No file for sign!", and an exception means a failure carrying it. |
| Services.AsWrittenAlwaysFails | src/sign/services.py:45-62 | As written: every call reports the TypeError for `key_file_path`. A constructor that accepted it would still fail on `progress_callback`. |
| Services.SignFolderDocumentsCorrected | src/sign/services.py:41-93 | Corrected: success exactly when documents are found. No documents means "No file for sign!". The summary's total is the number of documents. Its counts are the numbers of tasks whose results succeeded and failed, whatever order the futures completed in. |
| Model.NewSignTask | src/sign/model.py:5-11 | A task has no output directory and no callback by default. |
| Model.NewSignResult | src/sign/model.py:19-26 | A result's error message is "" by default. |
| Model.NewSignerConfig | src/sign/model.py:29-37 | No certificate file, the long signature type, 10 attempts, a 10-second delay and one worker. |
| Model.FormattedPath | src/sign/model.py:13-16 | The key is the parent folder's name, "/", then the file name. |
| Model.FormattedPathIdentifiesFile | src/sign/model.py:13-16 | Equal keys mean equal file names and equal folder names. |
| DbManager.FirstWith | src/db/dbManager.py:63-65 | The position of the first row, in insertion order, whose key equals the given one exactly, or none exactly when no row has it (see "## Left out" for the collation). |
| DbManager.Absent | src/db/dbManager.py:56-78 | The paths without a row, in order. |
| DbManager.AbsentMembers | src/db/dbManager.py:63-68 | Exactly the paths whose key has no row are absent. |
| DbManager.Keys | src/db/dbManager.py:57-61 | The formatted key of each path, in order. |
| DbManager.NewRows | src/db/dbManager.py:72-77 | One unsigned row per path, holding its name and key. |
| DbManager.MarkFirst | src/db/dbManager.py:100-105 | Only the first row with the key changes, and it becomes signed. Names and keys are kept. |
| DbManager.WithStatus | src/db/dbManager.py:135-152 | Exactly the rows with the given status. |
| DbManager.MarkKeepsKeys | src/db/dbManager.py:100-105 | Marking changes no row's key, so every lookup finds the same row. |
| DbManager.MarkIdempotent | src/db/dbManager.py:90-113 | Marking a key twice is marking it once. |
| DbManager.MarkAllKeepsKeys | src/db/dbManager.py:116-132 | For every key, bulk marking leaves unchanged whether it has a row and which row is its first. |
| DbManager.MarkAllShape | src/db/dbManager.py:116-132 | Bulk marking keeps the number of rows and every row's name and key, never unsigns a row, and leaves unchanged every row that is not the first row of a listed key. |
| DbManager.MarkAllSigns | src/db/dbManager.py:116-132 | After bulk marking, the first row of every listed key that has a row is signed. |
| DbManager.RepeatedKeyCountedTwice | src/db/dbManager.py:126-132 | A key listed twice is counted twice by the bulk update. |
| DbManager.AddedPathsPresent | src/db/dbManager.py:41-87 | After adding, every path given has a row. |
| DbManager.AddTwiceAddsNothing | src/db/dbManager.py:41-87 | A second call with the same paths adds nothing. |
| DbManager.AbsentWhenAllPresent | src/db/dbManager.py:63-68 | When every path has a row, none is absent. |
| DbManager.StatusesPartition | src/db/dbManager.py:135-162 | The signed and unsigned listings together are the whole table. |
| DbManager.DatabaseManager.constructor | src/db/dbManager.py:37-38 | The manager starts on the committed table. |
| DbManager.DatabaseManager.AddFilesForSigning | src/db/dbManager.py:41-87 | Checking mode changes nothing and returns 0, or raises the missing keys in order. Adding mode appends one unsigned row per absent path and returns their number. |
| DbManager.DatabaseManager.LookUpPaths | src/db/dbManager.py:53-78 | The loop reports the missing keys (checking) or stages the new rows (adding) for exactly the absent paths, in order. |
| DbManager.DatabaseManager.MarkFileAsSigned | src/db/dbManager.py:90-113 | Returns true exactly when a row has the key. The table becomes `MarkFirst`. |
| DbManager.DatabaseManager.MarkMultipleFilesAsSigned | src/db/dbManager.py:116-132 | The count is the number of listed keys with a row, repeats included. The table is marked key by key. |
| DbManager.DatabaseManager.GetUnsignedFiles | src/db/dbManager.py:135-142 | Exactly the unsigned rows. |
| DbManager.DatabaseManager.GetSignedFiles | src/db/dbManager.py:145-152 | Exactly the signed rows. |
| DbManager.DatabaseManager.GetAllFiles | src/db/dbManager.py:155-162 | Every row, made up of the signed and the unsigned ones. |
| SignatureCleanup.WithoutSignatures | src/utils/utils.py:23-24 | A folder keeps no more entries than it had. |
| SignatureCleanup.WithoutSignaturesKeeps | src/utils/utils.py:23-28 | Exactly the entries that are not `.p7s` files (suffix compared lower-cased) remain. |
| SignatureCleanup.Stripped | src/utils/utils.py:20-28 | The same root entries under the same names. Root files are unchanged. Each sub-directory keeps exactly its entries that are not signature files, so deeper levels are untouched. |
| SignatureCleanup.WithoutSignaturesIdempotent | src/utils/utils.py:23-28 | Filtering a folder twice is filtering it once. |
| SignatureCleanup.StrippedIdempotent | src/utils/utils.py:20-28 | Running the cleanup a second time changes nothing. |
| SignatureCleanup.ContainerIsRemoved | src/utils/utils.py:23-24 | A container `name + ".p7s"` written by the signer counts as a signature file. |
| SignatureCleanup.SignatureFileAnyCase | src/utils/utils.py:24 | For every non-empty name and dot-free extension, `name.ext` is a signature file exactly when the extension lower-cases to `p7s`, so `.P7S` containers are removed too. |
| SignatureCleanup.Volume.constructor | src/utils/utils.py:20-21 | The volume holds the root's entries. |
| SignatureCleanup.RemoveSignedFiles | src/utils/utils.py:3-28 | The loop over the root's sub-directories leaves the root's entries as `Stripped` says. |
| WebLog.Capped | src/web/utils.py:13-15 | At most 100 entries, and the newest ones: a suffix of the log, the whole log when it is short. |
| WebLog.CappedAppend | src/web/utils.py:8-15 | Capping before appending gives the same log as capping after. |
| WebLog.LogKeepsNewest | src/web/utils.py:5-15 | After any run of calls from an empty log, the log holds exactly the newest hundred entries, in order. |
| WebLog.SessionState.constructor | src/web/app.py:39-40 | The log starts empty. |
| WebLog.AddLog | src/web/utils.py:5-15 | Appends the entry, then keeps the newest hundred. |

## Left out

- I/O beyond reading and writing whole files, `print` and `logging` output, and clocks. `processing_time`, the elapsed times in the summary and the timestamp format are not modelled; the timestamp is a parameter.
- The exception texts that embed Python values, such as `f"Error parsing certificate {cert_info2}"`, are modelled by their fixed prefix. `str(e)` is modelled by the exception value itself (`ThreadSigner.SignResult.errorMessage`, `Services.Message.Failure`).
- `Services.Summarize`: the message text is the three counts (`Summary`), not the formatted string with timings.
- The values written into the CMP, OCSP and TSP settings dictionaries (addresses and ports). Each setting call is modelled only as a call that can fail. The unused `dSettings` built for TSP before `SetTSPSettings(tsp_settings)` is not modelled.
- `EUUnload()` in the draft cannot fail in the model: an error there would escape after the `finally`.
- UTF-8 encoding and base64 decoding are uninterpreted functions of a `Codec`.
- The module-level DLL set-up of the draft (path, `add_dll_directory`, the 64-bit assertion) and the platform-dependent import of `EUSignCP`.
- `src/sign/signManager.py` is not part of this model. Its `iface` is the `Provider`.
- Threads: each worker signs against the same snapshot of the native library and the files. The interleaving of workers, `max_workers` as a bound on concurrency, and the unused lock are not modelled. Only the completion order of the futures is, as any permutation of the tasks.
- The folder listing used for discovery and cleanup (`FileTree`) and the file contents used by signing (`Provider.Disk`) are separate views. The model does not tie them together.
- `os.makedirs(output_dir, exist_ok=True)` in the task loop: creating directories is not modelled.
- A root that is not a directory (where `iterdir` raises) is not modelled: the root is always a listing.
- `str.lower()` is modelled on ASCII letters only.
- `schema.SignResult.output_path` is declared `bytes` and is given a `str`. The model keeps it a path, with "" as the empty path.
- `SignatureCleanup.RemoveSignedFiles`: the per-file `unlink` loop is one update of the folder's listing, so the order of unlinks is not modelled.
- Database commits always succeed. The rollback-and-reraise branches, engine and session set-up, `close`, and SQL beyond the table as a sequence of rows are not modelled. Lookups see only committed rows (`autoflush=False`), so a path listed twice in one adding call is added twice.
- DbManager.FirstWith: keys are compared by exact string equality and "first" means first in insertion order. The `RelativePath` column uses the case-insensitive `Cyrillic_General_CI_AS` collation of a fixed-width `NCHAR(256)` and `.first()` has no `ORDER BY`, so the server also matches keys that differ only in letter case or trailing spaces, and may pick any matching row. `DbManager.DatabaseManager.AddFilesForSigning` and `DbManager.DatabaseManager.MarkFileAsSigned` (and bulk marking) inherit this: for such keys the model may report a row missing, or mark a different duplicate, where the server would not.
- `Services.SignFolderDocumentsCorrected`: `output_base_dir` and `callback_progress` are passed through, but progress reporting is not modelled.

## Findings

| source | as written | input that shows it | evidently intended | confidence | as-written member | corrected member |
|---|---|---|---|---|---|---|
| src/sign/cadesLong_sign.py:195-223 | The container is always written at `target + ".p7s"`, but with `output_dir` set it is read back from `output_dir/basename + ".p7s"` | Any `output_dir` other than the target's folder, with no file already there: the signature is written, then the read raises FileNotFoundError | Write the container where it is read back, and return it | not executed | CadesLongSign.OutputDirReadBackFails | CadesLongSign.CorrectedReturnsWrittenContainer |
| src/sign/services.py:45-62 | `BatchSigner(...)` is called with seven keyword arguments, but `BatchSigner.__init__` (src/sign/thread_signer.py:60) accepts only `max_workers`. `sign_documents_batch` is then called with `progress_callback`, which it does not accept, and without `key_file_path` and `extensions` | Any call: it returns `(False, "Batch signing failed: ...unexpected keyword argument 'key_file_path'")` | Build the signer, sign the folder with the defaulted extensions, and report the counts | not executed | Services.AsWrittenAlwaysFails | Services.SignFolderDocumentsCorrected |
