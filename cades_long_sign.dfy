/**
 * `sign_file_cades_x_long` of the signing package: read the key file and the document, create
 * a library context, load the private key, then run the shared steps (certificate, algorithms,
 * digest, CAdES-X Long signer, detached container at `target + ".p7s"`), read the container
 * back and return it with its path. Whatever happens after the files are read, the `finally`
 * block frees the private key if it was loaded and the context if it was created, ignoring
 * errors from either call.
 */
module CadesLongSign {
  import opened Common
  import opened Paths
  import opened Provider
  import opened CadesSteps

  /** The error texts of this version. */
  const Errors: Messages :=
    Messages("Error get certificate", "Error parsing certificate", "Unsupported type key in certificate",
             "Error get digest file")

  /** `if output_dir:`: an output directory that is given and not the empty string. */
  predicate HasOutputDir(outputDir: Option<Path>) {
    outputDir.Some? && IsSet(outputDir.value)
  }

  /**
   * The path returned and read back: `output_dir/basename(target) + ".p7s"` when there is an
   * output directory, `target + ".p7s"` otherwise.
   */
  function ReadBackPath(target: Path, outputDir: Option<Path>): (r: Path)
    ensures HasOutputDir(outputDir) ==> Parent(r) == outputDir.value && Name(r) == Name(target) + SignatureExtension
    ensures !HasOutputDir(outputDir) ==> r == ContainerPath(target)
  {
    if HasOutputDir(outputDir) then Child(outputDir.value, Name(target) + SignatureExtension)
    else AddExtension(target, SignatureExtension)
  }

  /** One run of the function: how it ended, the library calls in order, the files afterwards. */
  datatype Run = Run(outcome: Outcome<Signed>, calls: seq<Call>, files: map<Path, Bytes>)

  /**
   * The protocol with the container written at `container` and read back from `readBack`:
   * the two input files are read before anything else, the `try` starts at CtxCreate, and the
   * cleanup calls close every run that created a context.
   */
  function SignInto(s: Script, codec: Codec, files: map<Path, Bytes>, keyFilePath: Path, keyPassword: Password,
                    target: Path, container: Path, readBack: Path): Run
  {
    match ReadFile(files, keyFilePath)
    case Raised(e) => Run(Raised(e), [], files)
    case Ok(key) =>
      match ReadFile(files, target)
      case Raised(e) => Run(Raised(e), [], files)
      case Ok(document) => Session(s, codec, files, key, PasswordBytes(keyPassword, codec), document, container, readBack)
  }

  /** How the `try` block ended, and which handles it left in `lib_ctx` and `pk_ctx`. */
  datatype Attempt = Attempt(outcome: Outcome<Signed>, calls: seq<Call>, files: map<Path, Bytes>,
                             libCtx: seq<Handle>, pkCtx: seq<Handle>)

  /** The `try` block: create the context, load the key, then run the shared steps. */
  function TryBlock(s: Script, codec: Codec, files: map<Path, Bytes>, key: Bytes, password: Bytes, document: Bytes,
                    container: Path, readBack: Path): Attempt
  {
    match s.ctxCreate
    case Fails(code) => Attempt(Raised(LibraryError(code)), [Call.CtxCreate], files, [], [])
    case Fills(lib) =>
      var c1 := [Call.CtxCreate, Call.CtxReadPrivateKeyBinary(lib, key, password)];
      match s.readPrivateKey
      case Fails(code) => Attempt(Raised(LibraryError(code)), c1, files, [lib], [])
      case Fills(pk) =>
        var t := Assemble(s, codec, Errors, files, lib, pk, document, container, readBack);
        Attempt(t.outcome, c1 + t.calls, t.files, [lib], [pk])
  }

  /** The `finally` block's calls: free the key if `pk_ctx` was filled, then the context if `lib_ctx` was. */
  function Frees(pkCtx: seq<Handle>, libCtx: seq<Handle>): seq<Call> {
    (if pkCtx != [] then [Call.CtxFreePrivateKey(pkCtx[0])] else [])
    + (if libCtx != [] then [Call.CtxFree(libCtx[0])] else [])
  }

  /** The `try` block and its `finally`, once both input files have been read. */
  function Session(s: Script, codec: Codec, files: map<Path, Bytes>, key: Bytes, password: Bytes, document: Bytes,
                   container: Path, readBack: Path): Run
  {
    var a := TryBlock(s, codec, files, key, password, document, container, readBack);
    Run(a.outcome, a.calls + Frees(a.pkCtx, a.libCtx), a.files)
  }

  /** The function as written: the container goes to `target + ".p7s"`, the read-back may not. */
  function Protocol(s: Script, codec: Codec, files: map<Path, Bytes>, keyFilePath: Path, keyPassword: Password,
                    target: Path, outputDir: Option<Path>): Run
  {
    SignInto(s, codec, files, keyFilePath, keyPassword, target, ContainerPath(target), ReadBackPath(target, outputDir))
  }

  /** The evident intent: the container is written where it is read back from. */
  function ProtocolCorrected(s: Script, codec: Codec, files: map<Path, Bytes>, keyFilePath: Path,
                             keyPassword: Password, target: Path, outputDir: Option<Path>): Run
  {
    SignInto(s, codec, files, keyFilePath, keyPassword, target, ReadBackPath(target, outputDir),
             ReadBackPath(target, outputDir))
  }

  /** The input files both exist and the context and the key are created: the shared steps run. */
  predicate KeyLoaded(s: Script, files: map<Path, Bytes>, keyFilePath: Path, target: Path) {
    keyFilePath in files && target in files && s.ctxCreate.Fills? && s.readPrivateKey.Fills?
  }

  /** The calls of a run whose key was loaded: context, key, the shared steps, then both frees. */
  function LoadedCalls(s: Script, codec: Codec, files: map<Path, Bytes>, keyFilePath: Path, keyPassword: Password,
                       target: Path, container: Path, readBack: Path): seq<Call>
    requires KeyLoaded(s, files, keyFilePath, target)
  {
    var lib := s.ctxCreate.value;
    var pk := s.readPrivateKey.value;
    [Call.CtxCreate, Call.CtxReadPrivateKeyBinary(lib, files[keyFilePath], PasswordBytes(keyPassword, codec))]
    + Assemble(s, codec, Errors, files, lib, pk, files[target], container, readBack).calls
    + [Call.CtxFreePrivateKey(pk), Call.CtxFree(lib)]
  }

  // ---------------------------------------------------------------------------------------
  // What the protocol guarantees

  /** Every run calls the library in the fixed protocol order, each call at most once. */
  lemma ProtocolInOrder(s: Script, codec: Codec, files: map<Path, Bytes>, keyFilePath: Path,
                        keyPassword: Password, target: Path, container: Path, readBack: Path)
    ensures InOrder(SignInto(s, codec, files, keyFilePath, keyPassword, target, container, readBack).calls)
  {
    if KeyLoaded(s, files, keyFilePath, target) {
      var lib := s.ctxCreate.value;
      var pk := s.readPrivateKey.value;
      var c1 := [Call.CtxCreate, Call.CtxReadPrivateKeyBinary(lib, files[keyFilePath], PasswordBytes(keyPassword, codec))];
      var t := Assemble(s, codec, Errors, files, lib, pk, files[target], container, readBack);
      var frees := [Call.CtxFreePrivateKey(pk), Call.CtxFree(lib)];
      LoadedRun(s, codec, files, keyFilePath, keyPassword, target, container, readBack);
      AssembleEffect(s, codec, Errors, files, lib, pk, files[target], container, readBack);
      ShortInOrder(c1, 6, 9);
      InOrderJoin(c1, t.calls, 6, 9, 16);
      ShortInOrder(frees, 17, 18);
      InOrderJoin(c1 + t.calls, frees, 6, 16, 18);
    } else if keyFilePath in files && target in files && s.ctxCreate.Fills? {
      var lib := s.ctxCreate.value;
      var c1 := [Call.CtxCreate, Call.CtxReadPrivateKeyBinary(lib, files[keyFilePath], PasswordBytes(keyPassword, codec))];
      ShortInOrder(c1, 6, 9);
      ShortInOrder([Call.CtxFree(lib)], 18, 18);
      InOrderJoin(c1, [Call.CtxFree(lib)], 6, 9, 18);
      assert Frees([], [lib]) == [Call.CtxFree(lib)];
    }
  }

  /** The run of a loaded key: the context and key calls, the shared steps, then both frees. */
  lemma LoadedRun(s: Script, codec: Codec, files: map<Path, Bytes>, keyFilePath: Path,
                  keyPassword: Password, target: Path, container: Path, readBack: Path)
    requires KeyLoaded(s, files, keyFilePath, target)
    ensures var lib, pk := s.ctxCreate.value, s.readPrivateKey.value;
      var t := Assemble(s, codec, Errors, files, lib, pk, files[target], container, readBack);
      SignInto(s, codec, files, keyFilePath, keyPassword, target, container, readBack)
        == Run(t.outcome, [Call.CtxCreate, Call.CtxReadPrivateKeyBinary(lib, files[keyFilePath], PasswordBytes(keyPassword, codec))]
                          + t.calls + [Call.CtxFreePrivateKey(pk), Call.CtxFree(lib)], t.files)
  {
    assert Frees([s.readPrivateKey.value], [s.ctxCreate.value])
        == [Call.CtxFreePrivateKey(s.readPrivateKey.value), Call.CtxFree(s.ctxCreate.value)];
  }

  /** Calls staged before the cleanup, followed by the two frees: the frees come last and only there. */
  lemma FreesLast(head: seq<Call>, body: seq<Call>, pk: Handle, lib: Handle)
    requires StagesWithin(head, 6, 9) && StagesWithin(body, 10, 16)
    ensures var calls := head + body + [Call.CtxFreePrivateKey(pk), Call.CtxFree(lib)];
      && calls[|calls| - 2] == Call.CtxFreePrivateKey(pk) && calls[|calls| - 1] == Call.CtxFree(lib)
      && (forall c :: c in calls[..|calls| - 2] ==> !c.CtxFreePrivateKey? && !c.CtxFree?)
  {
    var calls := head + body + [Call.CtxFreePrivateKey(pk), Call.CtxFree(lib)];
    assert calls[..|calls| - 2] == head + body;
    forall c | c in head + body ensures !c.CtxFreePrivateKey? && !c.CtxFree? {
      if c in head {
        assert Stage(c) <= 9;
      } else {
        assert c in body && Stage(c) <= 16;
      }
    }
  }

  /** Cleanup when the key was loaded: the key, then the context, are freed last and nowhere else. */
  lemma LoadedCleanup(s: Script, codec: Codec, files: map<Path, Bytes>, keyFilePath: Path,
                      keyPassword: Password, target: Path, container: Path, readBack: Path)
    requires KeyLoaded(s, files, keyFilePath, target)
    ensures var run := SignInto(s, codec, files, keyFilePath, keyPassword, target, container, readBack);
      && |run.calls| >= 2
      && run.calls[|run.calls| - 2] == Call.CtxFreePrivateKey(s.readPrivateKey.value)
      && run.calls[|run.calls| - 1] == Call.CtxFree(s.ctxCreate.value)
      && (forall c :: c in run.calls[..|run.calls| - 2] ==> !c.CtxFreePrivateKey? && !c.CtxFree?)
  {
    var lib, pk := s.ctxCreate.value, s.readPrivateKey.value;
    var c1 := [Call.CtxCreate, Call.CtxReadPrivateKeyBinary(lib, files[keyFilePath], PasswordBytes(keyPassword, codec))];
    LoadedRun(s, codec, files, keyFilePath, keyPassword, target, container, readBack);
    AssembleStages(s, codec, Errors, files, lib, pk, files[target], container, readBack);
    ShortInOrder(c1, 6, 9);
    FreesLast(c1, Assemble(s, codec, Errors, files, lib, pk, files[target], container, readBack).calls, pk, lib);
  }

  /** Which handles a run of calls frees, and where. */
  predicate FreesExactly(calls: seq<Call>, pk: Option<Handle>, lib: Option<Handle>) {
    && (pk.Some? <==> exists c :: c in calls && c.CtxFreePrivateKey?)
    && (lib.Some? <==> exists c :: c in calls && c.CtxFree?)
    && (forall c :: c in calls && c.CtxFreePrivateKey? ==> pk == Some(c.pk) && |calls| >= 2 && c == calls[|calls| - 2])
    && (forall c :: c in calls && c.CtxFree? ==> lib == Some(c.ctx) && |calls| >= 1 && c == calls[|calls| - 1])
  }

  /** Both frees at the end and nowhere before: both handles are freed, each once. */
  lemma BothFreed(calls: seq<Call>, pk: Handle, lib: Handle)
    requires |calls| >= 2
    requires calls[|calls| - 2] == Call.CtxFreePrivateKey(pk) && calls[|calls| - 1] == Call.CtxFree(lib)
    requires forall c :: c in calls[..|calls| - 2] ==> !c.CtxFreePrivateKey? && !c.CtxFree?
    ensures FreesExactly(calls, Some(pk), Some(lib))
  {
    var n := |calls|;
    assert calls == calls[..n - 2] + [calls[n - 2], calls[n - 1]];
    assert calls[n - 2] in calls && calls[n - 1] in calls;
  }

  /**
   * Cleanup: the key is freed exactly when it was loaded and the context exactly when it was
   * created, each once, the key second to last and the context last.
   */
  lemma CleanupIffFilled(s: Script, codec: Codec, files: map<Path, Bytes>, keyFilePath: Path,
                         keyPassword: Password, target: Path, container: Path, readBack: Path)
    ensures var run := SignInto(s, codec, files, keyFilePath, keyPassword, target, container, readBack);
      var readable := keyFilePath in files && target in files;
      FreesExactly(run.calls,
                   if KeyLoaded(s, files, keyFilePath, target) then Some(s.readPrivateKey.value) else None,
                   if readable && s.ctxCreate.Fills? then Some(s.ctxCreate.value) else None)
  {
    var run := SignInto(s, codec, files, keyFilePath, keyPassword, target, container, readBack);
    if KeyLoaded(s, files, keyFilePath, target) {
      LoadedCleanup(s, codec, files, keyFilePath, keyPassword, target, container, readBack);
      BothFreed(run.calls, s.readPrivateKey.value, s.ctxCreate.value);
    } else if keyFilePath in files && target in files && s.ctxCreate.Fills? {
      var lib := s.ctxCreate.value;
      assert Frees([], [lib]) == [Call.CtxFree(lib)];
      assert run.calls == [Call.CtxCreate, Call.CtxReadPrivateKeyBinary(lib, files[keyFilePath], PasswordBytes(keyPassword, codec)),
                           Call.CtxFree(lib)];
      assert run.calls[2] in run.calls;
    }
  }

  /** Errors raised by the two cleanup calls never change the result, the calls or the files. */
  lemma CleanupErrorsSwallowed(s: Script, codec: Codec, files: map<Path, Bytes>, keyFilePath: Path,
                               keyPassword: Password, target: Path, container: Path, readBack: Path,
                               freeKey: Reply<()>, freeContext: Reply<()>)
    ensures SignInto(s.(freePrivateKey := freeKey, free := freeContext), codec, files, keyFilePath, keyPassword,
                     target, container, readBack)
         == SignInto(s, codec, files, keyFilePath, keyPassword, target, container, readBack)
  {
    var s' := s.(freePrivateKey := freeKey, free := freeContext);
    if KeyLoaded(s, files, keyFilePath, target) {
      LoadedRun(s, codec, files, keyFilePath, keyPassword, target, container, readBack);
      LoadedRun(s', codec, files, keyFilePath, keyPassword, target, container, readBack);
      AssembleIgnoresCleanup(s, s', codec, Errors, files, s.ctxCreate.value, s.readPrivateKey.value, files[target],
                             container, readBack);
    }
  }

  /** A text password reaches the key reader UTF-8 encoded; bytes reach it unchanged. */
  lemma PasswordEncoded(s: Script, codec: Codec, files: map<Path, Bytes>, keyFilePath: Path,
                        keyPassword: Password, target: Path, container: Path, readBack: Path)
    requires keyFilePath in files && target in files && s.ctxCreate.Fills?
    ensures var run := SignInto(s, codec, files, keyFilePath, keyPassword, target, container, readBack);
      var pw := if keyPassword.Text? then codec.utf8(keyPassword.text) else keyPassword.bytes;
      |run.calls| >= 2 && run.calls[1] == Call.CtxReadPrivateKeyBinary(s.ctxCreate.value, files[keyFilePath], pw)
  {
  }

  /** A missing input file raises FileNotFoundError before the library is touched. */
  lemma MissingInputTouchesNothing(s: Script, codec: Codec, files: map<Path, Bytes>, keyFilePath: Path,
                                   keyPassword: Password, target: Path, outputDir: Option<Path>)
    requires keyFilePath !in files || target !in files
    ensures var run := Protocol(s, codec, files, keyFilePath, keyPassword, target, outputDir);
      run == Run(Raised(FileNotFound(if keyFilePath !in files then keyFilePath else target)), [], files)
  {
  }

  /**
   * An empty certificate list, or an empty first certificate, raises RuntimeError("Error get
   * certificate"); no parse, hash, signer or container call follows, and both handles are freed.
   */
  lemma EmptyCertificateStops(s: Script, codec: Codec, files: map<Path, Bytes>, keyFilePath: Path,
                              keyPassword: Password, target: Path, outputDir: Option<Path>)
    requires KeyLoaded(s, files, keyFilePath, target)
    requires s.ownCertificate.Fills? && (s.ownCertificate.value == [] || s.ownCertificate.value[0] == [])
    ensures var run := Protocol(s, codec, files, keyFilePath, keyPassword, target, outputDir);
      var lib, pk := s.ctxCreate.value, s.readPrivateKey.value;
      && run.outcome == Raised(RuntimeError("Error get certificate"))
      && run.calls == [Call.CtxCreate, Call.CtxReadPrivateKeyBinary(lib, files[keyFilePath], PasswordBytes(keyPassword, codec)),
                       Call.CtxGetOwnCertificate(pk), Call.CtxFreePrivateKey(pk), Call.CtxFree(lib)]
      && run.files == files
  {
  }

  /** A parsed certificate without a public-key type raises RuntimeError; nothing is hashed. */
  lemma MissingKeyTypeStops(s: Script, codec: Codec, files: map<Path, Bytes>, keyFilePath: Path,
                            keyPassword: Password, target: Path, outputDir: Option<Path>)
    requires KeyLoaded(s, files, keyFilePath, target)
    requires s.ownCertificate.Fills? && s.ownCertificate.value != [] && s.ownCertificate.value[0] != []
    requires s.parseCertificate == Fills(None)
    ensures var run := Protocol(s, codec, files, keyFilePath, keyPassword, target, outputDir);
      var lib, pk := s.ctxCreate.value, s.readPrivateKey.value;
      && run.outcome == Raised(RuntimeError("Error parsing certificate"))
      && run.calls == [Call.CtxCreate, Call.CtxReadPrivateKeyBinary(lib, files[keyFilePath], PasswordBytes(keyPassword, codec)),
                       Call.CtxGetOwnCertificate(pk), Call.ParseCertificateEx(s.ownCertificate.value[0]),
                       Call.CtxFreePrivateKey(pk), Call.CtxFree(lib)]
      && run.files == files
  {
  }

  /** A key type other than ECDSA, RSA and DSTU 4145 raises ValueError; nothing is hashed. */
  lemma UnsupportedKeyTypeStops(s: Script, codec: Codec, files: map<Path, Bytes>, keyFilePath: Path,
                                keyPassword: Password, target: Path, outputDir: Option<Path>, code: int)
    requires KeyLoaded(s, files, keyFilePath, target)
    requires s.ownCertificate.Fills? && s.ownCertificate.value != [] && s.ownCertificate.value[0] != []
    requires s.parseCertificate == Fills(Some(OtherKey(code)))
    ensures var run := Protocol(s, codec, files, keyFilePath, keyPassword, target, outputDir);
      var lib, pk := s.ctxCreate.value, s.readPrivateKey.value;
      && run.outcome == Raised(ValueError("Unsupported type key in certificate"))
      && run.calls == [Call.CtxCreate, Call.CtxReadPrivateKeyBinary(lib, files[keyFilePath], PasswordBytes(keyPassword, codec)),
                       Call.CtxGetOwnCertificate(pk), Call.ParseCertificateEx(s.ownCertificate.value[0]),
                       Call.CtxFreePrivateKey(pk), Call.CtxFree(lib)]
      && run.files == files
  {
  }

  /**
   * An empty digest raises RuntimeError("Error get digest file") right after the hash call, which
   * used the selected hash algorithm: no signer is created, no file is written, both handles are freed.
   */
  lemma EmptyDigestStops(s: Script, codec: Codec, files: map<Path, Bytes>, keyFilePath: Path,
                         keyPassword: Password, target: Path, outputDir: Option<Path>)
    requires KeyLoaded(s, files, keyFilePath, target) && KnownKeyType(s)
    requires s.ownCertificate.Fills? && s.ownCertificate.value != [] && s.ownCertificate.value[0] != []
    requires s.hashData.Fills? && (s.hashData.value == [] || s.hashData.value[0] == [])
    ensures var run := Protocol(s, codec, files, keyFilePath, keyPassword, target, outputDir);
      var lib, pk := s.ctxCreate.value, s.readPrivateKey.value;
      var hash := SelectAlgorithms(s.parseCertificate.value.value).value.1;
      && run.outcome == Raised(RuntimeError("Error get digest file"))
      && run.calls == [Call.CtxCreate, Call.CtxReadPrivateKeyBinary(lib, files[keyFilePath], PasswordBytes(keyPassword, codec)),
                       Call.CtxGetOwnCertificate(pk), Call.ParseCertificateEx(s.ownCertificate.value[0]),
                       Call.CtxHashData(lib, hash, files[target]), Call.CtxFreePrivateKey(pk), Call.CtxFree(lib)]
      && run.files == files
  {
    LoadedRun(s, codec, files, keyFilePath, keyPassword, target, ContainerPath(target), ReadBackPath(target, outputDir));
  }

  /**
   * The digest and the signer use the algorithms the certificate's key type selects, the signer
   * appended is the one the validation-data fallback chose, and whatever the output directory,
   * the container is only ever created and appended at `target + ".p7s"`; no other file changes.
   */
  lemma CallsFollowCertificate(s: Script, codec: Codec, files: map<Path, Bytes>, keyFilePath: Path,
                               keyPassword: Password, target: Path, outputDir: Option<Path>)
    ensures var run := Protocol(s, codec, files, keyFilePath, keyPassword, target, outputDir);
      && (forall c :: c in run.calls ==> Agrees(s, codec, ContainerPath(target), c))
      && run.files - {ContainerPath(target)} == files - {ContainerPath(target)}
  {
    var run := Protocol(s, codec, files, keyFilePath, keyPassword, target, outputDir);
    if KeyLoaded(s, files, keyFilePath, target) {
      var lib, pk := s.ctxCreate.value, s.readPrivateKey.value;
      var container, readBack := ContainerPath(target), ReadBackPath(target, outputDir);
      var t := Assemble(s, codec, Errors, files, lib, pk, files[target], container, readBack);
      AssembleEffect(s, codec, Errors, files, lib, pk, files[target], container, readBack);
      assert run.calls == [Call.CtxCreate, Call.CtxReadPrivateKeyBinary(lib, files[keyFilePath], PasswordBytes(keyPassword, codec))]
                          + t.calls + [Call.CtxFreePrivateKey(pk), Call.CtxFree(lib)];
    }
  }

  /**
   * A successful run returns the bytes at the read-back path together with that path; without
   * an output directory this is the container just written, at `target + ".p7s"`.
   */
  lemma ReturnedPath(s: Script, codec: Codec, files: map<Path, Bytes>, keyFilePath: Path,
                     keyPassword: Password, target: Path, outputDir: Option<Path>)
    ensures var run := Protocol(s, codec, files, keyFilePath, keyPassword, target, outputDir);
      && (run.outcome.Ok? ==> run.outcome.value.path == ReadBackPath(target, outputDir)
                              && run.outcome.value.path in run.files
                              && run.outcome.value.data == run.files[run.outcome.value.path])
      && (run.outcome.Ok? && !HasOutputDir(outputDir) ==>
            run.outcome.value == Signed(s.appendSignerFile.value, ContainerPath(target)))
  {
    if KeyLoaded(s, files, keyFilePath, target) {
      AssembleEffect(s, codec, Errors, files, s.ctxCreate.value, s.readPrivateKey.value, files[target],
                     ContainerPath(target), ReadBackPath(target, outputDir));
    }
  }

  /**
   * As written: when the output directory is not the target's own directory and no file lies at
   * `output_dir/basename + ".p7s"`, a run that appended the signer to its container still raises
   * FileNotFoundError, leaving the container behind at `target + ".p7s"`.
   */
  lemma OutputDirReadBackFails(s: Script, codec: Codec, files: map<Path, Bytes>, keyFilePath: Path,
                               keyPassword: Password, target: Path, dir: Path)
    requires IsSet(dir) && dir != Parent(target)
    requires Child(dir, Name(target) + SignatureExtension) !in files
    requires s.appendSignerFile.Fills?
    ensures var run := Protocol(s, codec, files, keyFilePath, keyPassword, target, Some(dir));
      Appended(run.calls) ==>
        && run.outcome == Raised(FileNotFound(Child(dir, Name(target) + SignatureExtension)))
        && run.files == files[ContainerPath(target) := s.appendSignerFile.value]
  {
    var readBack := Child(dir, Name(target) + SignatureExtension);
    assert readBack != ContainerPath(target) by {
      assert Parent(readBack) == dir != Parent(target) == Parent(ContainerPath(target));
    }
    if KeyLoaded(s, files, keyFilePath, target) {
      var lib, pk := s.ctxCreate.value, s.readPrivateKey.value;
      var t := Assemble(s, codec, Errors, files, lib, pk, files[target], ContainerPath(target), readBack);
      AssembleEffect(s, codec, Errors, files, lib, pk, files[target], ContainerPath(target), readBack);
      var run := Protocol(s, codec, files, keyFilePath, keyPassword, target, Some(dir));
      assert run.calls == [Call.CtxCreate, Call.CtxReadPrivateKeyBinary(lib, files[keyFilePath], PasswordBytes(keyPassword, codec))]
                          + t.calls + [Call.CtxFreePrivateKey(pk), Call.CtxFree(lib)];
      assert Appended(run.calls) ==> Appended(t.calls);
    }
  }

  /**
   * Corrected: with the container written where it is read back, every run that appended the
   * signer succeeds and returns exactly the container it wrote, at the path it returns; with
   * no output directory it is the function as written.
   */
  lemma CorrectedReturnsWrittenContainer(s: Script, codec: Codec, files: map<Path, Bytes>, keyFilePath: Path,
                                         keyPassword: Password, target: Path, outputDir: Option<Path>)
    requires s.appendSignerFile.Fills?
    ensures var run := ProtocolCorrected(s, codec, files, keyFilePath, keyPassword, target, outputDir);
      && (Appended(run.calls) <==> run.outcome.Ok?)
      && (run.outcome.Ok? ==> run.outcome.value == Signed(s.appendSignerFile.value, ReadBackPath(target, outputDir)))
      && (!HasOutputDir(outputDir) ==> run == Protocol(s, codec, files, keyFilePath, keyPassword, target, outputDir))
  {
    var readBack := ReadBackPath(target, outputDir);
    if KeyLoaded(s, files, keyFilePath, target) {
      var lib, pk := s.ctxCreate.value, s.readPrivateKey.value;
      var t := Assemble(s, codec, Errors, files, lib, pk, files[target], readBack, readBack);
      AssembleEffect(s, codec, Errors, files, lib, pk, files[target], readBack, readBack);
      var run := ProtocolCorrected(s, codec, files, keyFilePath, keyPassword, target, outputDir);
      assert run.calls == [Call.CtxCreate, Call.CtxReadPrivateKeyBinary(lib, files[keyFilePath], PasswordBytes(keyPassword, codec))]
                          + t.calls + [Call.CtxFreePrivateKey(pk), Call.CtxFree(lib)];
      assert Appended(run.calls) <==> Appended(t.calls);
    }
  }

  /**
   * Without an output directory a run succeeds exactly when it appended the signer and the
   * append succeeded; the container at `target + ".p7s"` then holds what the append wrote.
   */
  lemma SucceedsIffAppended(s: Script, codec: Codec, files: map<Path, Bytes>, keyFilePath: Path,
                            keyPassword: Password, target: Path)
    ensures var run := Protocol(s, codec, files, keyFilePath, keyPassword, target, None);
      && (run.outcome.Ok? <==> Appended(run.calls) && s.appendSignerFile.Fills?)
      && (run.outcome.Ok? ==> && ContainerPath(target) in run.files
                              && run.files[ContainerPath(target)] == s.appendSignerFile.value)
  {
    ReturnedPath(s, codec, files, keyFilePath, keyPassword, target, None);
    if s.appendSignerFile.Fills? {
      CorrectedReturnsWrittenContainer(s, codec, files, keyFilePath, keyPassword, target, None);
    } else if KeyLoaded(s, files, keyFilePath, target) {
      AssembleEffect(s, codec, Errors, files, s.ctxCreate.value, s.readPrivateKey.value, files[target],
                     ContainerPath(target), ContainerPath(target));
    }
  }

  // ---------------------------------------------------------------------------------------
  // The function itself, against the provider

  method SignFileCadesXLong(iface: Provider, disk: Disk, codec: Codec, keyFilePath: Path, keyPassword: Password,
                            targetFilePath: Path, outputDir: Option<Path>)
    returns (r: Outcome<Signed>)
    modifies iface, disk
    ensures var run := Protocol(iface.script, codec, old(disk.files), keyFilePath, keyPassword, targetFilePath, outputDir);
      r == run.outcome && iface.trace == old(iface.trace) + run.calls && disk.files == run.files
  {
    var password := PasswordBytes(keyPassword, codec);
    var keyRead := ReadFile(disk.files, keyFilePath);
    if keyRead.Raised? {
      return Raised(keyRead.error);
    }
    var fileRead := ReadFile(disk.files, targetFilePath);
    if fileRead.Raised? {
      return Raised(fileRead.error);
    }
    var outputFilename := targetFilePath;
    if HasOutputDir(outputDir) {
      outputFilename := Child(outputDir.value, Name(targetFilePath) + SignatureExtension);
    } else {
      outputFilename := AddExtension(targetFilePath, SignatureExtension);
    }
    r := SignSession(iface, disk, codec, keyRead.value, password, fileRead.value,
                     AddExtension(targetFilePath, SignatureExtension), outputFilename);
  }

  /** The `try` block of the function with its `finally`. */
  method SignSession(iface: Provider, disk: Disk, codec: Codec, keyBytes: Bytes, password: Bytes, fileData: Bytes,
                     container: Path, readBack: Path)
    returns (r: Outcome<Signed>)
    modifies iface, disk
    ensures var run := Session(iface.script, codec, old(disk.files), keyBytes, password, fileData, container, readBack);
      r == run.outcome && iface.trace == old(iface.trace) + run.calls && disk.files == run.files
  {
    var libCtx, pkCtx;
    r, libCtx, pkCtx := TrySign(iface, disk, codec, keyBytes, password, fileData, container, readBack);
    // finally: errors of either call are swallowed
    Cleanup(iface, pkCtx, libCtx);
  }

  /** The `try` block: on an exception the handles obtained so far are returned for the cleanup. */
  method TrySign(iface: Provider, disk: Disk, codec: Codec, keyBytes: Bytes, password: Bytes, fileData: Bytes,
                 container: Path, readBack: Path)
    returns (r: Outcome<Signed>, libCtx: seq<Handle>, pkCtx: seq<Handle>)
    modifies iface, disk
    ensures var a := TryBlock(iface.script, codec, old(disk.files), keyBytes, password, fileData, container, readBack);
      && r == a.outcome && libCtx == a.libCtx && pkCtx == a.pkCtx
      && iface.trace == old(iface.trace) + a.calls && disk.files == a.files
  {
    libCtx, pkCtx := [], [];
    var created := iface.CreateContext();
    if created.Fails? {
      return Raised(LibraryError(created.code)), libCtx, pkCtx;
    }
    libCtx := [created.value];
    var read := iface.ReadPrivateKey(libCtx[0], keyBytes, password);
    if read.Fails? {
      return Raised(LibraryError(read.code)), libCtx, pkCtx;
    }
    pkCtx := [read.value];
    ghost var c1 := [Call.CtxCreate, Call.CtxReadPrivateKeyBinary(libCtx[0], keyBytes, password)];
    ghost var mid := iface.trace;
    assert mid == old(iface.trace) + c1;
    r := AssembleSignature(iface, disk, codec, Errors, libCtx[0], pkCtx[0], fileData, container, readBack);
    ghost var t := Assemble(iface.script, codec, Errors, old(disk.files), libCtx[0], pkCtx[0], fileData, container, readBack);
    assert iface.trace == mid + t.calls;
    JoinCalls(old(iface.trace), c1, t.calls);
  }

  /** The `finally` block: free the key if it was loaded, then the context if it was created. */
  method Cleanup(iface: Provider, pkCtx: seq<Handle>, libCtx: seq<Handle>)
    modifies iface
    ensures iface.trace == old(iface.trace) + Frees(pkCtx, libCtx)
  {
    if pkCtx != [] {
      var _ := iface.FreePrivateKey(pkCtx[0]);
    }
    if libCtx != [] {
      var _ := iface.FreeContext(libCtx[0]);
    }
  }
}
