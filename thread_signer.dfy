/**
 * The batch signer: find the documents one level below a root folder, make one task per
 * document, sign each task on a worker, and collect one result per task in the order the
 * workers complete.
 */
module ThreadSigner {
  import opened Common
  import opened Paths
  import opened Provider
  import opened CadesSteps
  import opened CadesLongSign
  import opened FileTree

  /** The task record the batch builds (the pydantic `SignTask`). */
  datatype SignTask = SignTask(filePath: Path, keyFilePath: Path, keyPassword: string, outputDir: Option<Path>)

  /**
   * The result record (the pydantic `SignResult`). The output path "" is the empty path; the
   * error message is absent unless the signing failed, and then it is the exception raised.
   */
  datatype SignResult = SignResult(filePath: Path, outputPath: Path, success: bool, errorMessage: Option<Exception>)

  /** `BatchSigner(max_workers)`: the pool size; the only parameter of its constructor. */
  datatype BatchSigner = BatchSigner(maxWorkers: nat)

  /** The keyword parameters `BatchSigner.__init__` accepts. */
  const BatchSignerParameters: seq<string> := ["max_workers"]

  /** `BatchSigner()`: ten workers unless told otherwise. */
  function NewBatchSigner(): (b: BatchSigner)
    ensures b.maxWorkers == 10
  {
    BatchSigner(10)
  }

  // ---------------------------------------------------------------------------------------
  // Finding the documents

  /** `extensions` is `['.pdf']` when it is None; an empty list stays empty. */
  function Extensions(extensions: Option<seq<string>>): (r: seq<string>)
    ensures extensions.None? ==> r == [".pdf"]
    ensures extensions.Some? ==> r == extensions.value
  {
    match extensions
    case None => [".pdf"]
    case Some(list) => list
  }

  /** `item.is_file() and item.suffix.lower() in extensions`. */
  predicate Wanted(e: Entry, extensions: seq<string>) {
    e.node.File? && Lower(Suffix(e.name)) in extensions
  }

  /** The inner list comprehension: the wanted files of one directory, in listing order. */
  function MatchingFiles(dir: Path, entries: seq<Entry>, extensions: seq<string>): (r: seq<Path>)
    ensures |r| <= |entries|
    ensures forall p :: p in r <==> exists e :: e in entries && Wanted(e, extensions) && p == Child(dir, e.name)
  {
    if entries == [] then []
    else
      var rest := MatchingFiles(dir, entries[1..], extensions);
      assert forall e :: e in entries[1..] ==> e in entries;
      assert forall e :: e in entries ==> e == entries[0] || e in entries[1..];
      (if Wanted(entries[0], extensions) then [Child(dir, entries[0].name)] else []) + rest
  }

  /** The files of one listed sub-directory (none when the entry is not a directory). */
  function Listed(root: Path, d: Entry, extensions: seq<string>): seq<Path> {
    if d.node.Folder? then MatchingFiles(Child(root, d.name), d.node.entries, extensions) else []
  }

  /** The documents found in the directories `dirs` of `root`, directory after directory. */
  function Found(root: Path, dirs: seq<Entry>, extensions: seq<string>): seq<Path> {
    if dirs == [] then []
    else Found(root, dirs[..|dirs| - 1], extensions) + Listed(root, dirs[|dirs| - 1], extensions)
  }

  /** What `find_documents_to_sign(root, extensions)` returns for a root listing `entries`. */
  function Documents(root: Path, entries: seq<Entry>, extensions: Option<seq<string>>): seq<Path> {
    Found(root, Subfolders(entries), Extensions(extensions))
  }

  /** A path is among one directory's files exactly when it names a wanted file of that directory. */
  lemma ListedExactly(root: Path, d: Entry, extensions: seq<string>, p: Path)
    ensures p in Listed(root, d, extensions)
            <==> d.node.Folder? && exists f :: f in d.node.entries && Wanted(f, extensions)
                                             && p == Child(Child(root, d.name), f.name)
  {
  }

  /**
   * A path is found exactly when it names a wanted file directly inside one of the directories:
   * files at the root and anything deeper are never found.
   */
  lemma {:induction false} FoundExactly(root: Path, dirs: seq<Entry>, extensions: seq<string>, p: Path)
    ensures p in Found(root, dirs, extensions)
            <==> exists d, f :: d in dirs && d.node.Folder? && f in d.node.entries && Wanted(f, extensions)
                                && p == Child(Child(root, d.name), f.name)
  {
    if dirs != [] {
      var init, last := dirs[..|dirs| - 1], dirs[|dirs| - 1];
      FoundExactly(root, init, extensions, p);
      ListedExactly(root, last, extensions, p);
      assert Found(root, dirs, extensions) == Found(root, init, extensions) + Listed(root, last, extensions);
      if p in Found(root, init, extensions) {
        var d, f :| d in init && d.node.Folder? && f in d.node.entries && Wanted(f, extensions)
                    && p == Child(Child(root, d.name), f.name);
        assert d in dirs;
      } else if p in Listed(root, last, extensions) {
        var f :| f in last.node.entries && Wanted(f, extensions) && p == Child(Child(root, last.name), f.name);
        assert last in dirs;
      }
      if exists d, f :: d in dirs && d.node.Folder? && f in d.node.entries && Wanted(f, extensions)
                        && p == Child(Child(root, d.name), f.name) {
        var d, f :| d in dirs && d.node.Folder? && f in d.node.entries && Wanted(f, extensions)
                    && p == Child(Child(root, d.name), f.name);
        if d != last {
          assert d in init;
        }
      }
    }
  }

  /** Every document found lies two levels below the root. */
  lemma {:induction false} FoundUnderRoot(root: Path, dirs: seq<Entry>, extensions: seq<string>)
    ensures forall p :: p in Found(root, dirs, extensions) ==> root.parts <= p.parts && |p.parts| == |root.parts| + 2
  {
    forall p | p in Found(root, dirs, extensions)
      ensures root.parts <= p.parts && |p.parts| == |root.parts| + 2
    {
      FoundExactly(root, dirs, extensions, p);
      var d, f :| d in dirs && d.node.Folder? && f in d.node.entries && Wanted(f, extensions)
                  && p == Child(Child(root, d.name), f.name);
      assert p.parts == root.parts + [d.name, f.name];
    }
  }

  /** With an empty list of extensions nothing is found. */
  lemma NoExtensionsNothingFound(root: Path, entries: seq<Entry>)
    ensures Documents(root, entries, Some([])) == []
  {
    var found := Documents(root, entries, Some([]));
    if found != [] {
      FoundExactly(root, Subfolders(entries), [], found[0]);
      assert false;
    }
  }

  /** `find_documents_to_sign`: walk the sub-directories and gather their wanted files. */
  method FindDocumentsToSign(root: Path, entries: seq<Entry>, extensions: Option<seq<string>>)
    returns (documents: seq<Path>)
    ensures documents == Documents(root, entries, extensions)
  {
    var wanted := Extensions(extensions);
    var directories := Subfolders(entries);
    documents := [];
    var i := 0;
    while i < |directories|
      invariant 0 <= i <= |directories|
      invariant documents == Found(root, directories[..i], wanted)
    {
      var dir := directories[i];
      assert dir in directories;
      var files := MatchingFiles(Child(root, dir.name), dir.node.entries, wanted);
      assert files == Listed(root, dir, wanted);
      assert directories[..i + 1][..i] == directories[..i];
      assert Found(root, directories[..i + 1], wanted) == Found(root, directories[..i], wanted) + files;
      documents := documents + files;
      i := i + 1;
    }
    assert directories[..i] == directories;
  }

  // ---------------------------------------------------------------------------------------
  // Tasks

  /**
   * The task for one document: with an output base directory (a non-empty string), the
   * document's folder relative to the root is mirrored below it; otherwise there is none.
   */
  function TaskFor(root: Path, doc: Path, keyFilePath: Path, keyPassword: string, outputBase: Option<Path>): SignTask
    requires root.parts <= doc.parts
  {
    var outputDir := if outputBase.Some? && IsSet(outputBase.value)
                     then Some(Join(outputBase.value, Parent(RelPath(doc, root))))
                     else None;
    SignTask(doc, keyFilePath, keyPassword, outputDir)
  }

  /** A document `root/d/f` gets the output directory `base/d`, or none without a base. */
  lemma OutputDirMirrorsFolder(root: Path, d: string, f: string, keyFilePath: Path, keyPassword: string,
                               outputBase: Option<Path>)
    ensures var doc := Child(Child(root, d), f);
      && root.parts <= doc.parts
      && TaskFor(root, doc, keyFilePath, keyPassword, outputBase).outputDir
         == (if outputBase.Some? && IsSet(outputBase.value) then Some(Child(outputBase.value, d)) else None)
  {
    var doc := Child(Child(root, d), f);
    assert doc.parts == root.parts + [d, f];
    assert RelPath(doc, root).parts == [d, f];
    assert Parent(RelPath(doc, root)) == Path([d]);
  }

  /** The tasks, one per document, in the documents' order. */
  function Tasks(root: Path, docs: seq<Path>, keyFilePath: Path, keyPassword: string, outputBase: Option<Path>)
    : (r: seq<SignTask>)
    requires forall p :: p in docs ==> root.parts <= p.parts
    ensures |r| == |docs|
    ensures forall i :: 0 <= i < |r| ==> (r[i].filePath == docs[i] && r[i].keyFilePath == keyFilePath
                                        && r[i].keyPassword == keyPassword)
  {
    seq(|docs|, i requires 0 <= i < |docs| => TaskFor(root, docs[i], keyFilePath, keyPassword, outputBase))
  }

  /** The `for doc_path in documents` loop building the tasks. */
  method BuildTasks(root: Path, docs: seq<Path>, keyFilePath: Path, keyPassword: string, outputBase: Option<Path>)
    returns (tasks: seq<SignTask>)
    requires forall p :: p in docs ==> root.parts <= p.parts
    ensures tasks == Tasks(root, docs, keyFilePath, keyPassword, outputBase)
  {
    tasks := [];
    var i := 0;
    while i < |docs|
      invariant 0 <= i <= |docs|
      invariant tasks == Tasks(root, docs[..i], keyFilePath, keyPassword, outputBase)
    {
      assert docs[i] in docs;
      var outputDir: Option<Path>;
      if outputBase.Some? && IsSet(outputBase.value) {
        outputDir := Some(Join(outputBase.value, Parent(RelPath(docs[i], root))));
      } else {
        outputDir := None;
      }
      tasks := tasks + [SignTask(docs[i], keyFilePath, keyPassword, outputDir)];
      i := i + 1;
    }
    assert docs[..i] == docs;
  }

  // ---------------------------------------------------------------------------------------
  // One file

  /** The run `sign_single_file` makes for a task: its file signed with no output directory. */
  function TaskRun(s: Script, codec: Codec, files: map<Path, Bytes>, task: SignTask): Run {
    Protocol(s, codec, files, task.keyFilePath, Text(task.keyPassword), task.filePath, None)
  }

  /** The task's run appended the signer and left it in the container `file + ".p7s"`. */
  predicate ContainerWritten(s: Script, codec: Codec, files: map<Path, Bytes>, task: SignTask) {
    var run := TaskRun(s, codec, files, task);
    && Appended(run.calls) && s.appendSignerFile.Fills?
    && ContainerPath(task.filePath) in run.files
    && run.files[ContainerPath(task.filePath)] == s.appendSignerFile.value
  }

  /**
   * `sign_single_file`: sign the task's file with no output directory (the task's own is not
   * passed on) and turn any exception into a failed result; it never raises. The result is a
   * success exactly when the signer was appended to the container, and a failure carries the
   * exception the signing raised.
   */
  function SignSingleFile(s: Script, codec: Codec, files: map<Path, Bytes>, task: SignTask): (r: SignResult)
    ensures var run := TaskRun(s, codec, files, task);
      && r.filePath == task.filePath
      && (r.success <==> Appended(run.calls) && s.appendSignerFile.Fills?)
      && (r.success ==> && r.outputPath == ContainerPath(task.filePath) && r.errorMessage.None?
                        && ContainerWritten(s, codec, files, task))
      && (!r.success ==> && r.outputPath == Path([]) && run.outcome.Raised?
                         && r.errorMessage == Some(run.outcome.error))
  {
    var run := TaskRun(s, codec, files, task);
    ReturnedPath(s, codec, files, task.keyFilePath, Text(task.keyPassword), task.filePath, None);
    SucceedsIffAppended(s, codec, files, task.keyFilePath, Text(task.keyPassword), task.filePath);
    match run.outcome
    case Ok(signed) => SignResult(task.filePath, signed.path, true, None)
    case Raised(e) => SignResult(task.filePath, Path([]), false, Some(e))
  }

  // ---------------------------------------------------------------------------------------
  // The batch

  function Indices(n: nat): (r: seq<nat>)
    ensures |r| == n && forall i :: 0 <= i < n ==> r[i] == i
  {
    seq(n, i requires 0 <= i < n => i)
  }

  /** The order in which the `n` futures complete: each task index exactly once. */
  predicate IsCompletionOrder(order: seq<nat>, n: nat) {
    multiset(order) == multiset(Indices(n))
  }

  /**
   * What the `as_completed` loop appends for a task: the future's result, or, when the future
   * raised, a failed result for the task with no output path.
   */
  function Collected(task: SignTask, outcome: Outcome<SignResult>): SignResult {
    match outcome
    case Ok(result) => result
    case Raised(e) => SignResult(task.filePath, Path([]), false, Some(e))
  }

  /** The results in completion order, given what each task's future produced. */
  function Completed(tasks: seq<SignTask>, order: seq<nat>, worker: SignTask -> Outcome<SignResult>)
    : (r: seq<SignResult>)
    requires forall k :: 0 <= k < |order| ==> order[k] < |tasks|
    ensures |r| == |order|
  {
    seq(|order|, k requires 0 <= k < |order| => Collected(tasks[order[k]], worker(tasks[order[k]])))
  }

  /** A completion order names task indices only and has one slot per task. */
  lemma CompletionOrderBounds(order: seq<nat>, n: nat)
    requires IsCompletionOrder(order, n)
    ensures |order| == n
    ensures forall k :: 0 <= k < |order| ==> order[k] < n
    ensures forall i: nat :: i < n ==> i in order
  {
    assert |multiset(order)| == |multiset(Indices(n))|;
    forall k | 0 <= k < |order| ensures order[k] < n {
      assert order[k] in multiset(Indices(n));
    }
    forall i: nat | i < n ensures i in order {
      assert Indices(n)[i] == i;
      assert i in multiset(order);
    }
  }

  /**
   * A worker that reports on its own task's file and, on success, names the container
   * `file + ".p7s"` that its run against `files` wrote.
   */
  ghost predicate ReportsOwnFile(worker: SignTask -> Outcome<SignResult>, s: Script, codec: Codec, files: map<Path, Bytes>) {
    forall t :: worker(t).Ok? ==> && worker(t).value.filePath == t.filePath
                                  && (worker(t).value.success ==> && worker(t).value.outputPath == ContainerPath(t.filePath)
                                                                  && ContainerWritten(s, codec, files, t))
  }

  /** `sign_single_file` is such a worker, and it never raises. */
  lemma SingleFileWorkerReportsOwnFile(s: Script, codec: Codec, files: map<Path, Bytes>)
    ensures ReportsOwnFile(t => Ok(SignSingleFile(s, codec, files, t)), s, codec, files)
  {
    var worker := t => Ok(SignSingleFile(s, codec, files, t));
    forall t ensures worker(t).Ok? ==> && worker(t).value.filePath == t.filePath
                                       && (worker(t).value.success ==> && worker(t).value.outputPath == ContainerPath(t.filePath)
                                                                       && ContainerWritten(s, codec, files, t))
    {
      var r := SignSingleFile(s, codec, files, t);
      assert worker(t) == Ok(r);
    }
  }

  /** Each task's result in task order: what its future produced, or the failure it raised. */
  function PerTask(tasks: seq<SignTask>, worker: SignTask -> Outcome<SignResult>): (r: seq<SignResult>)
    ensures |r| == |tasks|
  {
    seq(|tasks|, i requires 0 <= i < |tasks| => Collected(tasks[i], worker(tasks[i])))
  }

  /** The elements of `s` at the positions `idx`, in that order. */
  function Pick<T>(s: seq<T>, idx: seq<nat>): (r: seq<T>)
    requires forall k :: 0 <= k < |idx| ==> idx[k] < |s|
    ensures |r| == |idx| && forall k :: 0 <= k < |idx| ==> r[k] == s[idx[k]]
  {
    seq(|idx|, k requires 0 <= k < |idx| => s[idx[k]])
  }

  /** Taking the same element out of two permutations of each other leaves permutations. */
  lemma PermutationWithout<T>(a: seq<T>, b: seq<T>, i: nat)
    requires multiset(a) == multiset(b) && a != [] && i < |b| && b[i] == a[0]
    ensures multiset(a[1..]) == multiset(b[..i] + b[i + 1..])
  {
    assert a == [a[0]] + a[1..];
    assert b == b[..i] + [b[i]] + b[i + 1..];
    assert multiset(a[1..]) == multiset(a) - multiset{a[0]};
    assert multiset(b[..i] + b[i + 1..]) == multiset(b) - multiset{a[0]};
  }

  /** Picking by joined positions is joining the picks. */
  lemma PickJoin<T>(s: seq<T>, a: seq<nat>, b: seq<nat>)
    requires forall k :: 0 <= k < |a| ==> a[k] < |s|
    requires forall k :: 0 <= k < |b| ==> b[k] < |s|
    ensures forall k :: 0 <= k < |a + b| ==> (a + b)[k] < |s|
    ensures Pick(s, a + b) == Pick(s, a) + Pick(s, b)
  {
    assert forall k :: 0 <= k < |a + b| ==> (a + b)[k] == if k < |a| then a[k] else b[k - |a|];
  }

  /** Picking by positions that start with `a[0]`: that element, then the rest of the pick. */
  lemma PickFirst<T>(s: seq<T>, a: seq<nat>)
    requires a != [] && forall k :: 0 <= k < |a| ==> a[k] < |s|
    ensures multiset(Pick(s, a)) == multiset{s[a[0]]} + multiset(Pick(s, a[1..]))
  {
    assert Pick(s, a) == [s[a[0]]] + Pick(s, a[1..]);
  }

  /** Picking by positions with `b[i]` taken out loses exactly the element at `b[i]`. */
  lemma PickWithout<T>(s: seq<T>, b: seq<nat>, i: nat, rest: seq<nat>)
    requires i < |b| && forall k :: 0 <= k < |b| ==> b[k] < |s|
    requires rest == b[..i] + b[i + 1..]
    ensures forall k :: 0 <= k < |rest| ==> rest[k] < |s|
    ensures multiset(Pick(s, b)) == multiset{s[b[i]]} + multiset(Pick(s, rest))
  {
    var before, after := b[..i], b[i + 1..];
    PickJoin(s, before, after);
    PickJoin(s, before, [b[i]]);
    PickJoin(s, before + [b[i]], after);
    assert before + [b[i]] + after == b;
    assert Pick(s, [b[i]]) == [s[b[i]]];
  }

  /** Picking by two permutations of the same positions picks the same elements. */
  lemma {:induction false} PickPermutes<T>(s: seq<T>, a: seq<nat>, b: seq<nat>)
    requires multiset(a) == multiset(b)
    requires forall k :: 0 <= k < |a| ==> a[k] < |s|
    requires forall k :: 0 <= k < |b| ==> b[k] < |s|
    ensures multiset(Pick(s, a)) == multiset(Pick(s, b))
    decreases |a|
  {
    if a == [] {
      assert |multiset(b)| == 0;
    } else {
      assert a[0] in multiset(b);
      var i :| 0 <= i < |b| && b[i] == a[0];
      var rest := b[..i] + b[i + 1..];
      PermutationWithout(a, b, i);
      PickWithout(s, b, i, rest);
      PickPermutes(s, a[1..], rest);
      PickFirst(s, a);
    }
  }

  /** Whatever order the futures complete in, the results are the tasks' results, each once. */
  lemma CompletedPermutesTasks(tasks: seq<SignTask>, order: seq<nat>, worker: SignTask -> Outcome<SignResult>)
    requires IsCompletionOrder(order, |tasks|)
    ensures forall k :: 0 <= k < |order| ==> order[k] < |tasks|
    ensures multiset(Completed(tasks, order, worker)) == multiset(PerTask(tasks, worker))
  {
    CompletionOrderBounds(order, |tasks|);
    var outcomes := PerTask(tasks, worker);
    var n := Indices(|tasks|);
    PickPermutes(outcomes, order, n);
    assert Completed(tasks, order, worker) == Pick(outcomes, order);
    assert Pick(outcomes, n) == outcomes;
  }

  /** Some result names the file `path`. */
  predicate Reports(results: seq<SignResult>, path: Path) {
    exists k :: 0 <= k < |results| && results[k].filePath == path
  }

  /**
   * Every task is reported exactly once with its own outcome: the results are the tasks'
   * results in some order. Each task has a result naming its file, and a successful result
   * names the container `file + ".p7s"` that its task's run wrote, whatever output base was
   * asked for.
   */
  lemma BatchReportsEveryTask(tasks: seq<SignTask>, order: seq<nat>, worker: SignTask -> Outcome<SignResult>,
                              s: Script, codec: Codec, files: map<Path, Bytes>)
    requires IsCompletionOrder(order, |tasks|) && ReportsOwnFile(worker, s, codec, files)
    ensures forall k :: 0 <= k < |order| ==> order[k] < |tasks|
    ensures var results := Completed(tasks, order, worker);
      && |results| == |tasks|
      && multiset(results) == multiset(PerTask(tasks, worker))
      && (forall i :: 0 <= i < |tasks| ==> Reports(results, tasks[i].filePath))
      && (forall k :: 0 <= k < |results| ==> results[k].filePath == tasks[order[k]].filePath)
      && (forall k :: 0 <= k < |results| && results[k].success ==>
            && results[k].outputPath == ContainerPath(results[k].filePath)
            && ContainerWritten(s, codec, files, tasks[order[k]]))
  {
    CompletionOrderBounds(order, |tasks|);
    CompletedPermutesTasks(tasks, order, worker);
    var results := Completed(tasks, order, worker);
    forall i | 0 <= i < |tasks| ensures Reports(results, tasks[i].filePath) {
      assert i in order;
      var k :| 0 <= k < |order| && order[k] == i;
      assert results[k] == Collected(tasks[i], worker(tasks[i]));
    }
    forall k | 0 <= k < |results|
      ensures results[k].filePath == tasks[order[k]].filePath
      ensures results[k].success ==> && results[k].outputPath == ContainerPath(results[k].filePath)
                                     && ContainerWritten(s, codec, files, tasks[order[k]])
    {
      var t := tasks[order[k]];
      assert results[k] == Collected(t, worker(t));
    }
  }

  /** A future that raised yields a failed result for its own task. */
  lemma CrashedFutureFails(tasks: seq<SignTask>, order: seq<nat>, worker: SignTask -> Outcome<SignResult>, k: nat)
    requires forall j :: 0 <= j < |order| ==> order[j] < |tasks|
    requires k < |order| && worker(tasks[order[k]]).Raised?
    ensures var r := Completed(tasks, order, worker)[k];
      && r.filePath == tasks[order[k]].filePath && !r.success && r.outputPath == Path([])
      && r.errorMessage == Some(worker(tasks[order[k]]).error)
  {
  }

  /**
   * `sign_documents_batch`: find the documents (none: an empty list), build the tasks, run them
   * on the pool and collect one result per future in completion order `order`; `worker` is what
   * each future produced.
   */
  method SignDocumentsBatch(root: Path, entries: seq<Entry>, keyFilePath: Path, keyPassword: string,
                            extensions: Option<seq<string>>, outputBase: Option<Path>, order: seq<nat>,
                            worker: SignTask -> Outcome<SignResult>)
    returns (results: seq<SignResult>)
    requires IsCompletionOrder(order, |Documents(root, entries, extensions)|)
    ensures var docs := Documents(root, entries, extensions);
      && (forall p :: p in docs ==> root.parts <= p.parts)
      && (forall k :: 0 <= k < |order| ==> order[k] < |docs|)
      && results == Completed(Tasks(root, docs, keyFilePath, keyPassword, outputBase), order, worker)
  {
    var documents := FindDocumentsToSign(root, entries, extensions);
    FoundUnderRoot(root, Subfolders(entries), Extensions(extensions));
    CompletionOrderBounds(order, |documents|);
    if documents == [] {
      return [];
    }
    var tasks := BuildTasks(root, documents, keyFilePath, keyPassword, outputBase);
    results := CollectResults(tasks, order, worker);
  }

  /** The `for future in as_completed(futures)` loop: one result per future, in completion order. */
  method CollectResults(tasks: seq<SignTask>, order: seq<nat>, worker: SignTask -> Outcome<SignResult>)
    returns (results: seq<SignResult>)
    requires forall k :: 0 <= k < |order| ==> order[k] < |tasks|
    ensures results == Completed(tasks, order, worker)
  {
    results := [];
    var k := 0;
    while k < |order|
      invariant 0 <= k <= |order| && |results| == k
      invariant forall j :: 0 <= j < k ==> results[j] == Collected(tasks[order[j]], worker(tasks[order[j]]))
    {
      var task := tasks[order[k]];
      var result: SignResult;
      match worker(task) {
        case Ok(r) => result := r;
        case Raised(e) => result := SignResult(task.filePath, Path([]), false, Some(e));
      }
      results := results + [result];
      k := k + 1;
    }
  }
}
