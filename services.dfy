/**
 * `sign_folder_documents`: default the extensions, build a batch signer, sign the folder and
 * summarise the results as a (success, message) pair; any exception becomes a failed report.
 */
module Services {
  import opened Common
  import opened Paths
  import opened FileTree
  import opened ThreadSigner

  /** The extensions signed when none are given. */
  const FolderDefaultExtensions: seq<string> := [".pdf", ".xml"]

  const NoFilesMessage: string := "No file for sign!"

  /** The keyword arguments of the `BatchSigner(...)` call, in the order they are written. */
  const ConstructorKeywords: seq<string> :=
    ["key_file_path", "cert_file_path", "is_sign_long_type", "max_attempts", "retry_delay", "max_workers",
     "extensions"]

  /** What the call reports: the summary counts, the empty batch, or the exception caught. */
  datatype Message = NoFiles | Summary(successful: nat, failed: nat, total: nat) | Failure(error: Exception)

  /** The returned `(bool, message)` pair; the message's text and timings are not modelled. */
  datatype Report = Report(success: bool, message: Message)

  /** `if extensions is None: extensions = ['.pdf', '.xml']`. */
  function FolderExtensions(extensions: Option<seq<string>>): (r: seq<string>)
    ensures extensions.None? ==> r == FolderDefaultExtensions
    ensures extensions.Some? ==> r == extensions.value
  {
    if extensions.None? then FolderDefaultExtensions else extensions.value
  }

  /** The first keyword argument the callee does not accept: the one its TypeError names. */
  function FirstUnexpected(keywords: seq<string>, accepted: seq<string>): (r: Option<string>)
    ensures r.None? <==> forall i :: 0 <= i < |keywords| ==> keywords[i] in accepted
    ensures r.Some? ==> exists i :: 0 <= i < |keywords| && keywords[i] == r.value && r.value !in accepted
                                    && forall j :: 0 <= j < i ==> keywords[j] in accepted
  {
    if keywords == [] then None
    else if keywords[0] !in accepted then Some(keywords[0])
    else
      var r := FirstUnexpected(keywords[1..], accepted);
      if r.Some? then
        var i :| 0 <= i < |keywords[1..]| && keywords[1..][i] == r.value && r.value !in accepted
                 && forall j :: 0 <= j < i ==> keywords[1..][j] in accepted;
        assert keywords[i + 1] == r.value;
        r
      else
        assert forall i :: 1 <= i < |keywords| ==> keywords[i] == keywords[1..][i - 1];
        r
  }

  /** The keyword arguments of the `sign_documents_batch(...)` call, in the order they are written. */
  const BatchCallKeywords: seq<string> := ["root_folder", "key_password", "output_base_dir", "progress_callback"]

  /** The parameters `sign_documents_batch` accepts. */
  const BatchParameters: seq<string> := ["root_folder", "key_file_path", "key_password", "extensions", "output_base_dir"]

  /** The TypeError Python raises for a keyword argument the callee does not accept. */
  function UnexpectedKeyword(callee: string, keyword: string): Exception {
    TypeError(callee + "() got an unexpected keyword argument '" + keyword + "'")
  }

  /** `BatchSigner(**keywords)`: a TypeError for the first keyword other than `max_workers`. */
  function ConstructBatchSigner(keywords: seq<string>, workers: nat): (r: Outcome<BatchSigner>)
    ensures r.Ok? <==> forall i :: 0 <= i < |keywords| ==> keywords[i] in BatchSignerParameters
    ensures r.Ok? ==> r.value.maxWorkers == workers
  {
    match FirstUnexpected(keywords, BatchSignerParameters)
    case Some(k) => Raised(UnexpectedKeyword("BatchSigner.__init__", k))
    case None => Ok(BatchSigner(workers))
  }

  /** `sum(1 for r in results if r.success)`. */
  function CountSucceeded(results: seq<SignResult>): nat {
    if results == [] then 0 else CountSucceeded(results[..|results| - 1]) + (if results[|results| - 1].success then 1 else 0)
  }

  /** `sum(1 for r in results if not r.success)`. */
  function CountFailed(results: seq<SignResult>): nat {
    if results == [] then 0 else CountFailed(results[..|results| - 1]) + (if results[|results| - 1].success then 0 else 1)
  }

  /** Every result is counted once, as a success or as a failure. */
  lemma {:induction false} CountsAddUp(results: seq<SignResult>)
    ensures CountSucceeded(results) + CountFailed(results) == |results|
  {
    if results != [] {
      CountsAddUp(results[..|results| - 1]);
    }
  }

  lemma {:induction false} CountsOfJoin(a: seq<SignResult>, b: seq<SignResult>)
    ensures CountSucceeded(a + b) == CountSucceeded(a) + CountSucceeded(b)
    ensures CountFailed(a + b) == CountFailed(a) + CountFailed(b)
  {
    if b == [] {
      assert a + b == a;
    } else {
      assert (a + b)[..|a + b| - 1] == a + b[..|b| - 1];
      assert (a + b)[|a + b| - 1] == b[|b| - 1];
      CountsOfJoin(a, b[..|b| - 1]);
    }
  }

  lemma CountsOfOne(r: SignResult)
    ensures CountSucceeded([r]) == (if r.success then 1 else 0)
    ensures CountFailed([r]) == (if r.success then 0 else 1)
  {
    assert [r][..0] == [];
  }

  /** Taking one result out of the list takes it out of its count. */
  lemma CountsWithout(results: seq<SignResult>, i: nat)
    requires i < |results|
    ensures CountSucceeded(results) == CountSucceeded(results[..i] + results[i + 1..]) + (if results[i].success then 1 else 0)
    ensures CountFailed(results) == CountFailed(results[..i] + results[i + 1..]) + (if results[i].success then 0 else 1)
  {
    var before, after := results[..i], results[i + 1..];
    var upTo := results[..i + 1];
    assert upTo == before + [results[i]];
    assert results == upTo + after;
    CountsOfJoin(upTo, after);
    CountsOfJoin(before, [results[i]]);
    CountsOfJoin(before, after);
    CountsOfOne(results[i]);
  }

  /** The counts depend only on which results there are, not on the order the workers finished in. */
  lemma {:induction false} CountsIgnoreOrder(results: seq<SignResult>, other: seq<SignResult>)
    requires multiset(results) == multiset(other)
    ensures CountSucceeded(results) == CountSucceeded(other) && CountFailed(results) == CountFailed(other)
  {
    if results != [] {
      var r := results[0];
      assert r in multiset(other);
      var i :| 0 <= i < |other| && other[i] == r;
      var rest := other[..i] + other[i + 1..];
      PermutationWithout(results, other, i);
      CountsIgnoreOrder(results[1..], rest);
      CountsWithout(results, 0);
      assert results[..0] + results[1..] == results[1..];
      CountsWithout(other, i);
    }
  }

  /** The success count is the number of positions holding a successful result. */
  lemma {:induction false} SucceededCardinality(results: seq<SignResult>)
    ensures CountSucceeded(results) == |set k | 0 <= k < |results| && results[k].success|
  {
    if results != [] {
      var n := |results| - 1;
      var init := results[..n];
      SucceededCardinality(init);
      var before := set k | 0 <= k < |init| && init[k].success;
      var after := set k | 0 <= k < |results| && results[k].success;
      assert forall k :: 0 <= k < n ==> init[k] == results[k];
      assert after == before + (if results[n].success then {n} else {});
      assert n !in before;
    }
  }

  /** The failure count is the number of positions holding a failed result. */
  lemma {:induction false} FailedCardinality(results: seq<SignResult>)
    ensures CountFailed(results) == |set k | 0 <= k < |results| && !results[k].success|
  {
    if results != [] {
      var n := |results| - 1;
      var init := results[..n];
      FailedCardinality(init);
      var before := set k | 0 <= k < |init| && !init[k].success;
      var after := set k | 0 <= k < |results| && !results[k].success;
      assert forall k :: 0 <= k < n ==> init[k] == results[k];
      assert after == before + (if results[n].success then {} else {n});
      assert n !in before;
    }
  }

  /** Each count is the number of positions holding a result of its kind. */
  lemma CountsAreCardinalities(results: seq<SignResult>)
    ensures CountSucceeded(results) == |set k | 0 <= k < |results| && results[k].success|
    ensures CountFailed(results) == |set k | 0 <= k < |results| && !results[k].success|
  {
    SucceededCardinality(results);
    FailedCardinality(results);
  }

  /**
   * The report for what the batch returned or raised: an exception is a failure, no results is
   * "No file for sign!", otherwise a success counting the results that succeeded and those that
   * did not.
   */
  function Summarize(batch: Outcome<seq<SignResult>>): (r: Report)
    ensures r.success <==> batch.Ok? && batch.value != []
    ensures batch.Raised? ==> r.message == Failure(batch.error)
    ensures batch.Ok? && batch.value == [] ==> r.message == NoFiles
    ensures r.success ==> && r.message.Summary? && r.message.total == |batch.value|
                          && r.message.successful == |set k | 0 <= k < |batch.value| && batch.value[k].success|
                          && r.message.failed == |set k | 0 <= k < |batch.value| && !batch.value[k].success|
                          && r.message.successful + r.message.failed == r.message.total
  {
    match batch
    case Raised(e) => Report(false, Failure(e))
    case Ok(results) =>
      if results == [] then Report(false, NoFiles)
      else
        CountsAddUp(results);
        CountsAreCardinalities(results);
        Report(true, Summary(CountSucceeded(results), CountFailed(results), |results|))
  }

  /**
   * The function as written: build the batch signer, call `sign_documents_batch` with the
   * keyword arguments written there, and summarise `batch`, what that call returned; the first
   * exception is caught and reported.
   */
  function SignFolderDocuments(workers: nat, batch: Outcome<seq<SignResult>>): Report {
    match ConstructBatchSigner(ConstructorKeywords, workers)
    case Raised(e) => Report(false, Failure(e))
    case Ok(_) =>
      match FirstUnexpected(BatchCallKeywords, BatchParameters)
      case Some(k) => Report(false, Failure(UnexpectedKeyword("BatchSigner.sign_documents_batch", k)))
      case None => Summarize(batch)
  }

  /**
   * As written, every call fails with the TypeError for `key_file_path`, whatever it is asked to
   * sign; and a constructor that took those arguments would only move the failure on to the
   * batch call, which is handed `progress_callback`.
   */
  lemma AsWrittenAlwaysFails(workers: nat, batch: Outcome<seq<SignResult>>)
    ensures SignFolderDocuments(workers, batch)
            == Report(false, Failure(UnexpectedKeyword("BatchSigner.__init__", "key_file_path")))
    ensures FirstUnexpected(BatchCallKeywords, BatchParameters) == Some("progress_callback")
  {
    assert ConstructorKeywords[0] == "key_file_path";
    assert "key_file_path" != "max_workers";
    assert FirstUnexpected(ConstructorKeywords, BatchSignerParameters) == Some("key_file_path");
    assert BatchCallKeywords[3] == "progress_callback";
    assert "root_folder" in BatchParameters && "key_password" in BatchParameters && "output_base_dir" in BatchParameters;
    assert "progress_callback" !in BatchParameters;
    assert FirstUnexpected(BatchCallKeywords[3..], BatchParameters) == Some("progress_callback");
    assert FirstUnexpected(BatchCallKeywords[2..], BatchParameters) == Some("progress_callback");
    assert FirstUnexpected(BatchCallKeywords[1..], BatchParameters) == Some("progress_callback");
  }

  /**
   * The evident intent: sign the folder with the batch signer (the extensions defaulted here),
   * with the futures completing in `order`, and summarise what it returned. The counts are those
   * of the tasks whose results succeeded and failed, whatever the completion order.
   */
  function SignFolderDocumentsCorrected(root: Path, entries: seq<Entry>, keyFilePath: Path, keyPassword: string,
                                        extensions: Option<seq<string>>, outputBase: Option<Path>, order: seq<nat>,
                                        worker: SignTask -> Outcome<SignResult>): (r: Report)
    requires IsCompletionOrder(order, |Documents(root, entries, Some(FolderExtensions(extensions)))|)
    ensures var docs := Documents(root, entries, Some(FolderExtensions(extensions)));
      && (r.success <==> docs != [])
      && (docs == [] ==> r.message == NoFiles)
      && (forall p :: p in docs ==> root.parts <= p.parts)
      && (r.success ==>
            var outcomes := PerTask(Tasks(root, docs, keyFilePath, keyPassword, outputBase), worker);
            && r.message.Summary? && r.message.total == |docs|
            && r.message.successful == |set i | 0 <= i < |outcomes| && outcomes[i].success|
            && r.message.failed == |set i | 0 <= i < |outcomes| && !outcomes[i].success|)
  {
    var docs := Documents(root, entries, Some(FolderExtensions(extensions)));
    FoundUnderRoot(root, Subfolders(entries), FolderExtensions(extensions));
    if docs == [] then Report(false, NoFiles)
    else
      var tasks := Tasks(root, docs, keyFilePath, keyPassword, outputBase);
      CompletedPermutesTasks(tasks, order, worker);
      var results := Completed(tasks, order, worker);
      CountsIgnoreOrder(results, PerTask(tasks, worker));
      CountsAreCardinalities(results);
      CountsAreCardinalities(PerTask(tasks, worker));
      Summarize(Ok(results))
  }
}
