/**
 * The earlier draft of the signer, `sign_file_cades_x_long(key_file_path, key_password,
 * file_path)`: the key file is a JKS key store. After reading both files it loads the library
 * and gets its interface outside any `try`; inside the `try` it initializes the library, sets
 * the CMP, OCSP and TSP services, creates a context, takes the first alias of the key store,
 * extracts and loads that private key, and runs the same certificate, digest, signer and
 * container steps as the later version, always at `file_path + ".p7s"`. The `finally` block
 * frees the key and the context when they were obtained and finalizes the library, ignoring
 * errors of all three, and then unloads the library.
 */
module CadesLongSigner {
  import opened Common
  import opened Paths
  import opened Provider
  import opened CadesSteps
  import opened CadesLongSign

  /** The error texts of the draft. */
  const DraftErrors: Messages :=
    Messages("Не удалось получить собственный сертификат из ключа", "Не удалось распарсить сертификат:",
             "Неподдерживаемый тип ключа в сертификате", "Не удалось получить digest файла")

  /** Raised when the key store yields no usable alias. */
  const NoAliasMessage: string := "В JKS не найден ни один приватный ключ (alias)."

  /** The calls that prepare the library, in order, when all of them succeed. */
  const SetupCalls: seq<Call> :=
    [Call.Initialize, Call.SetCMPSettings, Call.SetOCSPSettings, Call.SetTSPSettings, Call.CtxCreate]

  /** Initialize, set the CMP, OCSP and TSP services, create the context; the first failure stops. */
  function Configure(s: Script): (r: Step<Handle>)
    ensures r.calls != [] && r.calls <= SetupCalls
    ensures r.Go? <==> s.initialize.Fills? && s.cmpSettings.Fills? && s.ocspSettings.Fills? && s.tspSettings.Fills?
                       && s.ctxCreate.Fills?
    ensures r.Go? ==> r.value == s.ctxCreate.value && r.calls == SetupCalls
  {
    if s.initialize.Fails? then Stop(LibraryError(s.initialize.code), SetupCalls[..1])
    else if s.cmpSettings.Fails? then Stop(LibraryError(s.cmpSettings.code), SetupCalls[..2])
    else if s.ocspSettings.Fails? then Stop(LibraryError(s.ocspSettings.code), SetupCalls[..3])
    else if s.tspSettings.Fails? then Stop(LibraryError(s.tspSettings.code), SetupCalls[..4])
    else match s.ctxCreate
      case Fails(code) => Stop(LibraryError(code), SetupCalls)
      case Fills(lib) => Go(lib, SetupCalls)
  }

  /**
   * The alias the `while True` loop chooses: the first one listed at index 0, if that call
   * succeeds with a non-empty list. An error of the call is swallowed by the loop.
   */
  function FirstAlias(s: Script): Option<string> {
    match s.jksAliases(0)
    case Fails(_) => None
    case Fills(aliases) => if aliases == [] then None else Some(aliases[0])
  }

  /** `if not chosen_alias`: no alias, or the empty alias. */
  predicate Usable(alias: Option<string>) {
    alias.Some? && alias.value != ""
  }

  /**
   * Choose the alias, extract its private key from the key store (`pk_blob_out[0]`) and load
   * it into the context.
   */
  function Unlock(s: Script, jks: Bytes, password: Bytes, lib: Handle): Step<Handle> {
    var c1 := [Call.EnumJKSPrivateKeys(jks, 0)];
    var alias := FirstAlias(s);
    if !Usable(alias) then Stop(ValueError(NoAliasMessage), c1)
    else
      var c2 := c1 + [Call.GetJKSPrivateKey(jks, alias.value)];
      match s.jksPrivateKey
      case Fails(code) => Stop(LibraryError(code), c2)
      case Fills(blobs) =>
        if blobs == [] then Stop(IndexError, c2)
        else
          var c3 := c2 + [Call.CtxReadPrivateKeyBinary(lib, blobs[0], password)];
          match s.readPrivateKey
          case Fails(code) => Stop(LibraryError(code), c3)
          case Fills(pk) => Go(pk, c3)
  }

  /** After the context is created: load the key, then run the shared steps, reading back in place. */
  function KeyAndSign(s: Script, codec: Codec, files: map<Path, Bytes>, jks: Bytes, password: Bytes, document: Bytes,
                      container: Path, lib: Handle): Attempt
  {
    match Unlock(s, jks, password, lib)
    case Stop(e, c1) => Attempt(Raised(e), c1, files, [lib], [])
    case Go(pk, c1) =>
      var t := Assemble(s, codec, DraftErrors, files, lib, pk, document, container, container);
      Attempt(t.outcome, c1 + t.calls, t.files, [lib], [pk])
  }

  /** The draft's `try` block, with the handles it leaves in `lib_ctx` and `pk_ctx`. */
  function DraftTry(s: Script, codec: Codec, files: map<Path, Bytes>, jks: Bytes, password: Bytes, document: Bytes,
                    container: Path): Attempt
  {
    match Configure(s)
    case Stop(e, c0) => Attempt(Raised(e), c0, files, [], [])
    case Go(lib, c0) =>
      var b := KeyAndSign(s, codec, files, jks, password, document, container, lib);
      Attempt(b.outcome, c0 + b.calls, b.files, b.libCtx, b.pkCtx)
  }

  /**
   * The draft once both files are read: load the library and get its interface (an error here
   * escapes with no cleanup), then the `try` block, its `finally` (frees and finalize, errors
   * swallowed) and the final unload.
   */
  function Loaded(s: Script, codec: Codec, files: map<Path, Bytes>, jks: Bytes, password: Bytes, document: Bytes,
                  container: Path): Run
  {
    if s.load.Fails? then Run(Raised(LibraryError(s.load.code)), [Call.EULoad], files)
    else if s.getInterface.Fails? then Run(Raised(LibraryError(s.getInterface.code)), [Call.EULoad, Call.EUGetInterface], files)
    else
      var a := DraftTry(s, codec, files, jks, password, document, container);
      Run(a.outcome, [Call.EULoad, Call.EUGetInterface] + a.calls + Frees(a.pkCtx, a.libCtx)
                     + [Call.Finalize, Call.EUUnload], a.files)
  }

  /** The draft: read the key store and the document, then sign into `file_path + ".p7s"`. */
  function Draft(s: Script, codec: Codec, files: map<Path, Bytes>, keyFilePath: Path, keyPassword: Password,
                 filePath: Path): Run
  {
    match ReadFile(files, keyFilePath)
    case Raised(e) => Run(Raised(e), [], files)
    case Ok(jks) =>
      match ReadFile(files, filePath)
      case Raised(e) => Run(Raised(e), [], files)
      case Ok(document) => Loaded(s, codec, files, jks, PasswordBytes(keyPassword, codec), document, ContainerPath(filePath))
  }

  /** Both files exist, the library loads and every preparation call succeeds. */
  predicate Prepared(s: Script, files: map<Path, Bytes>, keyFilePath: Path, filePath: Path) {
    && keyFilePath in files && filePath in files && s.load.Fills? && s.getInterface.Fills?
    && Configure(s).Go?
  }

  // ---------------------------------------------------------------------------------------
  // What the draft guarantees

  /** Calls staged between two bounds, whatever they are, in order. */
  lemma StepInOrder(calls: seq<Call>, lo: nat, hi: nat)
    requires forall i :: 0 <= i < |calls| ==> Stage(calls[i]) == lo + i
    requires lo + |calls| <= hi + 1
    ensures InOrder(calls) && StagesWithin(calls, lo, hi)
  {
    forall c | c in calls ensures lo <= Stage(c) <= hi {
      var i :| 0 <= i < |calls| && calls[i] == c;
    }
  }

  /** The calls of `Unlock` are in order and lie between the alias lookup and the key load. */
  lemma UnlockInOrder(s: Script, jks: Bytes, password: Bytes, lib: Handle)
    ensures var u := Unlock(s, jks, password, lib);
      InOrder(u.calls) && StagesWithin(u.calls, 7, 9) && 1 <= |u.calls| <= 3
      && u.calls[0] == Call.EnumJKSPrivateKeys(jks, 0)
  {
    var u := Unlock(s, jks, password, lib);
    StepInOrder(u.calls, 7, 9);
  }

  /** The frees are in order. */
  lemma FreesInOrder(pkCtx: seq<Handle>, libCtx: seq<Handle>)
    ensures InOrder(Frees(pkCtx, libCtx)) && StagesWithin(Frees(pkCtx, libCtx), 17, 18)
  {
    var f := Frees(pkCtx, libCtx);
    if f != [] {
      ShortInOrder(f, 17, 18);
    }
  }

  /**
   * Loading the key and running the shared steps: the calls are in order, and the files change
   * as the shared steps change them, with the container read back from where it was written.
   */
  lemma KeyAndSignEffect(s: Script, codec: Codec, files: map<Path, Bytes>, jks: Bytes, password: Bytes,
                         document: Bytes, container: Path, lib: Handle)
    ensures var b := KeyAndSign(s, codec, files, jks, password, document, container, lib);
      && InOrder(b.calls) && StagesWithin(b.calls, 7, 16)
      && FileEffect(s, files, container, container, Tail(b.outcome, b.calls, b.files))
  {
    var u := Unlock(s, jks, password, lib);
    UnlockInOrder(s, jks, password, lib);
    NotAppended(u.calls, 7, 9);
    if u.Go? {
      var t := Assemble(s, codec, DraftErrors, files, lib, u.value, document, container, container);
      AssembleEffect(s, codec, DraftErrors, files, lib, u.value, document, container, container);
      InOrderJoin(u.calls, t.calls, 7, 9, 16);
      AppendedJoin(u.calls, t.calls);
    }
  }

  /** The `try` block's calls are in order, from Initialize to the append, with the same file effect. */
  lemma DraftTryEffect(s: Script, codec: Codec, files: map<Path, Bytes>, jks: Bytes, password: Bytes,
                       document: Bytes, container: Path)
    ensures var a := DraftTry(s, codec, files, jks, password, document, container);
      && InOrder(a.calls) && StagesWithin(a.calls, 2, 16)
      && FileEffect(s, files, container, container, Tail(a.outcome, a.calls, a.files))
  {
    var c := Configure(s);
    StepInOrder(c.calls, 2, 6);
    NotAppended(c.calls, 2, 6);
    if c.Go? {
      var b := KeyAndSign(s, codec, files, jks, password, document, container, c.value);
      KeyAndSignEffect(s, codec, files, jks, password, document, container, c.value);
      InOrderJoin(c.calls, b.calls, 2, 6, 16);
      AppendedJoin(c.calls, b.calls);
    }
  }

  /** Once the interface is obtained, the run is the `try` block followed by the cleanup calls. */
  lemma LoadedShape(s: Script, codec: Codec, files: map<Path, Bytes>, keyFilePath: Path, keyPassword: Password,
                    filePath: Path)
    requires keyFilePath in files && filePath in files && s.load.Fills? && s.getInterface.Fills?
    ensures var a := DraftTry(s, codec, files, files[keyFilePath], PasswordBytes(keyPassword, codec), files[filePath],
                              ContainerPath(filePath));
      Draft(s, codec, files, keyFilePath, keyPassword, filePath)
        == Run(a.outcome, [Call.EULoad, Call.EUGetInterface] + a.calls + Frees(a.pkCtx, a.libCtx)
                          + [Call.Finalize, Call.EUUnload], a.files)
  {
  }

  /**
   * The draft's calls follow the protocol order: load, interface, the preparation calls, the
   * alias and key calls, the shared steps, the frees, finalize, unload; each at most once.
   */
  lemma DraftInOrder(s: Script, codec: Codec, files: map<Path, Bytes>, keyFilePath: Path,
                     keyPassword: Password, filePath: Path)
    ensures InOrder(Draft(s, codec, files, keyFilePath, keyPassword, filePath).calls)
  {
    if keyFilePath in files && filePath in files && s.load.Fills? && s.getInterface.Fills? {
      var password := PasswordBytes(keyPassword, codec);
      var a := DraftTry(s, codec, files, files[keyFilePath], password, files[filePath], ContainerPath(filePath));
      LoadedShape(s, codec, files, keyFilePath, keyPassword, filePath);
      DraftTryEffect(s, codec, files, files[keyFilePath], password, files[filePath], ContainerPath(filePath));
      WrappedInOrder(a.calls, a.pkCtx, a.libCtx);
    } else if keyFilePath in files && filePath in files && s.load.Fills? {
      StepInOrder([Call.EULoad, Call.EUGetInterface], 0, 1);
    }
  }

  /** The `try` block's calls between the library calls and the cleanup stay in order. */
  lemma WrappedInOrder(calls: seq<Call>, pkCtx: seq<Handle>, libCtx: seq<Handle>)
    requires InOrder(calls) && StagesWithin(calls, 2, 16)
    ensures InOrder([Call.EULoad, Call.EUGetInterface] + calls + Frees(pkCtx, libCtx) + [Call.Finalize, Call.EUUnload])
  {
    var head := [Call.EULoad, Call.EUGetInterface];
    StepInOrder(head, 0, 1);
    InOrderJoin(head, calls, 0, 1, 16);
    var frees := Frees(pkCtx, libCtx);
    FreesInOrder(pkCtx, libCtx);
    InOrderJoin(head + calls, frees, 0, 16, 18);
    var tail := [Call.Finalize, Call.EUUnload];
    StepInOrder(tail, 19, 20);
    InOrderJoin(head + calls + frees, tail, 0, 18, 20);
  }

  /** Wrapping the `try` block's calls in the library calls and the cleanup adds no append. */
  lemma WrappedAppended(calls: seq<Call>, pkCtx: seq<Handle>, libCtx: seq<Handle>)
    ensures Appended([Call.EULoad, Call.EUGetInterface] + calls + Frees(pkCtx, libCtx) + [Call.Finalize, Call.EUUnload])
            <==> Appended(calls)
  {
    var head := [Call.EULoad, Call.EUGetInterface];
    var frees := Frees(pkCtx, libCtx);
    var tail := [Call.Finalize, Call.EUUnload];
    StepInOrder(head, 0, 1);
    NotAppended(head, 0, 1);
    FreesInOrder(pkCtx, libCtx);
    NotAppended(frees, 17, 18);
    StepInOrder(tail, 19, 20);
    NotAppended(tail, 19, 20);
    AppendedJoin(head, calls);
    AppendedJoin(head + calls, frees);
    AppendedJoin(head + calls + frees, tail);
  }

  /**
   * An error from loading the library or getting its interface escapes before the `try`: no
   * other call follows, not even the cleanup or the unload.
   */
  lemma LoadFailureSkipsCleanup(s: Script, codec: Codec, files: map<Path, Bytes>, keyFilePath: Path,
                                keyPassword: Password, filePath: Path)
    requires keyFilePath in files && filePath in files
    requires s.load.Fails? || s.getInterface.Fails?
    ensures var run := Draft(s, codec, files, keyFilePath, keyPassword, filePath);
      && run.calls == (if s.load.Fails? then [Call.EULoad] else [Call.EULoad, Call.EUGetInterface])
      && run.outcome == Raised(LibraryError(if s.load.Fails? then s.load.code else s.getInterface.code))
      && run.files == files
  {
  }

  /** The `try` block leaves the context in `lib_ctx` exactly when it was created, the key in `pk_ctx` exactly when it was loaded. */
  lemma DraftTryHandles(s: Script, codec: Codec, files: map<Path, Bytes>, jks: Bytes, password: Bytes,
                        document: Bytes, container: Path)
    ensures var a := DraftTry(s, codec, files, jks, password, document, container);
      && a.libCtx == (if Configure(s).Go? then [s.ctxCreate.value] else [])
      && a.pkCtx == (if Configure(s).Go? && Unlock(s, jks, password, s.ctxCreate.value).Go?
                     then [s.readPrivateKey.value] else [])
  {
    if Configure(s).Go? {
      var u := Unlock(s, jks, password, s.ctxCreate.value);
      if u.Go? {
        assert u.value == s.readPrivateKey.value;
      }
    }
  }

  /**
   * Once the interface is obtained, every run ends by freeing the key exactly when it was
   * loaded, the context exactly when it was created, then finalizing and unloading the library.
   */
  lemma DraftCleanup(s: Script, codec: Codec, files: map<Path, Bytes>, keyFilePath: Path,
                     keyPassword: Password, filePath: Path)
    requires keyFilePath in files && filePath in files && s.load.Fills? && s.getInterface.Fills?
    ensures var run := Draft(s, codec, files, keyFilePath, keyPassword, filePath);
      var password := PasswordBytes(keyPassword, codec);
      var a := DraftTry(s, codec, files, files[keyFilePath], password, files[filePath], ContainerPath(filePath));
      var pkCtx := if Configure(s).Go? && Unlock(s, files[keyFilePath], password, s.ctxCreate.value).Go?
                   then [s.readPrivateKey.value] else [];
      var libCtx := if Configure(s).Go? then [s.ctxCreate.value] else [];
      run.calls == [Call.EULoad, Call.EUGetInterface] + a.calls + Frees(pkCtx, libCtx) + [Call.Finalize, Call.EUUnload]
  {
    var password := PasswordBytes(keyPassword, codec);
    LoadedShape(s, codec, files, keyFilePath, keyPassword, filePath);
    DraftTryHandles(s, codec, files, files[keyFilePath], password, files[filePath], ContainerPath(filePath));
  }

  /** Errors raised by the three guarded cleanup calls never change the result, the calls or the files. */
  lemma DraftCleanupErrorsSwallowed(s: Script, codec: Codec, files: map<Path, Bytes>, keyFilePath: Path,
                                    keyPassword: Password, filePath: Path,
                                    freeKey: Reply<()>, freeContext: Reply<()>, finalize: Reply<()>)
    ensures Draft(s.(freePrivateKey := freeKey, free := freeContext, finalize := finalize), codec, files, keyFilePath,
                  keyPassword, filePath)
         == Draft(s, codec, files, keyFilePath, keyPassword, filePath)
  {
    var s' := s.(freePrivateKey := freeKey, free := freeContext, finalize := finalize);
    if Prepared(s, files, keyFilePath, filePath) {
      var lib := s.ctxCreate.value;
      var password := PasswordBytes(keyPassword, codec);
      var u := Unlock(s, files[keyFilePath], password, lib);
      assert Unlock(s', files[keyFilePath], password, lib) == u;
      if u.Go? {
        AssembleIgnoresCleanup(s, s', codec, DraftErrors, files, lib, u.value, files[filePath],
                               ContainerPath(filePath), ContainerPath(filePath));
      }
    }
  }

  /**
   * No alias: when the alias lookup fails, lists nothing or lists the empty alias, the draft
   * raises ValueError with its message right after that one lookup; no key is extracted or
   * loaded, and the context is freed before finalizing and unloading.
   */
  lemma NoAliasStops(s: Script, codec: Codec, files: map<Path, Bytes>, keyFilePath: Path,
                     keyPassword: Password, filePath: Path)
    requires Prepared(s, files, keyFilePath, filePath)
    requires !Usable(FirstAlias(s))
    ensures var run := Draft(s, codec, files, keyFilePath, keyPassword, filePath);
      && run.outcome == Raised(ValueError(NoAliasMessage))
      && run.calls == [Call.EULoad, Call.EUGetInterface] + SetupCalls
                      + [Call.EnumJKSPrivateKeys(files[keyFilePath], 0), Call.CtxFree(s.ctxCreate.value),
                         Call.Finalize, Call.EUUnload]
      && run.files == files
  {
    assert Frees([], [s.ctxCreate.value]) == [Call.CtxFree(s.ctxCreate.value)];
  }

  /** The key store lists the alias but extracting its key yields nothing: `pk_blob_out[0]` raises IndexError. */
  lemma EmptyKeyBlobStops(s: Script, codec: Codec, files: map<Path, Bytes>, keyFilePath: Path,
                          keyPassword: Password, filePath: Path)
    requires Prepared(s, files, keyFilePath, filePath)
    requires Usable(FirstAlias(s)) && s.jksPrivateKey == Fills([])
    ensures var run := Draft(s, codec, files, keyFilePath, keyPassword, filePath);
      && run.outcome == Raised(IndexError)
      && run.calls == [Call.EULoad, Call.EUGetInterface] + SetupCalls
                      + [Call.EnumJKSPrivateKeys(files[keyFilePath], 0),
                         Call.GetJKSPrivateKey(files[keyFilePath], FirstAlias(s).value),
                         Call.CtxFree(s.ctxCreate.value), Call.Finalize, Call.EUUnload]
      && run.files == files
  {
    assert Frees([], [s.ctxCreate.value]) == [Call.CtxFree(s.ctxCreate.value)];
  }

  /** The key is extracted for the first alias and loaded from the first blob, with the encoded password. */
  lemma KeyFromFirstAlias(s: Script, codec: Codec, files: map<Path, Bytes>, keyFilePath: Path,
                          keyPassword: Password, filePath: Path)
    requires Prepared(s, files, keyFilePath, filePath)
    requires Usable(FirstAlias(s)) && s.jksPrivateKey.Fills? && s.jksPrivateKey.value != []
    ensures var run := Draft(s, codec, files, keyFilePath, keyPassword, filePath);
      var jks := files[keyFilePath];
      var pw := if keyPassword.Text? then codec.utf8(keyPassword.text) else keyPassword.bytes;
      && |run.calls| >= 10
      && run.calls[..10] == [Call.EULoad, Call.EUGetInterface] + SetupCalls
                            + [Call.EnumJKSPrivateKeys(jks, 0), Call.GetJKSPrivateKey(jks, FirstAlias(s).value),
                               Call.CtxReadPrivateKeyBinary(s.ctxCreate.value, s.jksPrivateKey.value[0], pw)]
  {
    var run := Draft(s, codec, files, keyFilePath, keyPassword, filePath);
    var password := PasswordBytes(keyPassword, codec);
    var a := DraftTry(s, codec, files, files[keyFilePath], password, files[filePath], ContainerPath(filePath));
    var u := Unlock(s, files[keyFilePath], password, s.ctxCreate.value);
    assert |u.calls| == 3;
    assert a.calls[..8] == SetupCalls + u.calls;
    assert run.calls[..10] == [Call.EULoad, Call.EUGetInterface] + a.calls[..8];
  }

  /**
   * Once the key is loaded, a draft run is the shared steps' run, between the library calls,
   * the setup and the key loading before it and the frees, Finalize and EUUnload after it.
   */
  lemma DraftAroundSteps(s: Script, codec: Codec, files: map<Path, Bytes>, keyFilePath: Path,
                         keyPassword: Password, filePath: Path)
    requires Prepared(s, files, keyFilePath, filePath)
    requires Unlock(s, files[keyFilePath], PasswordBytes(keyPassword, codec), s.ctxCreate.value).Go?
    ensures var run := Draft(s, codec, files, keyFilePath, keyPassword, filePath);
      var jks, lib, pk := files[keyFilePath], s.ctxCreate.value, s.readPrivateKey.value;
      var t := Assemble(s, codec, DraftErrors, files, lib, pk, files[filePath], ContainerPath(filePath),
                        ContainerPath(filePath));
      && FirstAlias(s).Some? && s.jksPrivateKey.Fills? && s.jksPrivateKey.value != []
      && run.outcome == t.outcome && run.files == t.files
      && run.calls == [Call.EULoad, Call.EUGetInterface] + SetupCalls
                      + [Call.EnumJKSPrivateKeys(jks, 0), Call.GetJKSPrivateKey(jks, FirstAlias(s).value),
                         Call.CtxReadPrivateKeyBinary(lib, s.jksPrivateKey.value[0], PasswordBytes(keyPassword, codec))]
                      + t.calls + [Call.CtxFreePrivateKey(pk), Call.CtxFree(lib), Call.Finalize, Call.EUUnload]
  {
    var password := PasswordBytes(keyPassword, codec);
    var jks, lib, pk := files[keyFilePath], s.ctxCreate.value, s.readPrivateKey.value;
    var u := Unlock(s, jks, password, lib);
    var unlockCalls := [Call.EnumJKSPrivateKeys(jks, 0), Call.GetJKSPrivateKey(jks, FirstAlias(s).value),
                        Call.CtxReadPrivateKeyBinary(lib, s.jksPrivateKey.value[0], password)];
    assert u.value == pk && u.calls == unlockCalls;
    var t := Assemble(s, codec, DraftErrors, files, lib, pk, files[filePath], ContainerPath(filePath),
                      ContainerPath(filePath));
    var b := KeyAndSign(s, codec, files, jks, password, files[filePath], ContainerPath(filePath), lib);
    assert b == Attempt(t.outcome, unlockCalls + t.calls, t.files, [lib], [pk]);
    var a := DraftTry(s, codec, files, jks, password, files[filePath], ContainerPath(filePath));
    assert a == Attempt(b.outcome, SetupCalls + b.calls, t.files, [lib], [pk]);
    LoadedShape(s, codec, files, keyFilePath, keyPassword, filePath);
    assert Frees([pk], [lib]) == [Call.CtxFreePrivateKey(pk), Call.CtxFree(lib)];
  }

  /**
   * An empty own certificate stops the draft with its own message, before the certificate is
   * parsed: the key and the context are freed, the library finalized and unloaded.
   */
  lemma DraftEmptyCertificateStops(s: Script, codec: Codec, files: map<Path, Bytes>, keyFilePath: Path,
                                   keyPassword: Password, filePath: Path)
    requires Prepared(s, files, keyFilePath, filePath)
    requires Unlock(s, files[keyFilePath], PasswordBytes(keyPassword, codec), s.ctxCreate.value).Go?
    requires s.ownCertificate.Fills? && (s.ownCertificate.value == [] || s.ownCertificate.value[0] == [])
    ensures var run := Draft(s, codec, files, keyFilePath, keyPassword, filePath);
      var jks, lib, pk := files[keyFilePath], s.ctxCreate.value, s.readPrivateKey.value;
      && FirstAlias(s).Some? && s.jksPrivateKey.Fills? && s.jksPrivateKey.value != []
      && run.outcome == Raised(RuntimeError("Не удалось получить собственный сертификат из ключа"))
      && run.calls == [Call.EULoad, Call.EUGetInterface] + SetupCalls
                      + [Call.EnumJKSPrivateKeys(jks, 0), Call.GetJKSPrivateKey(jks, FirstAlias(s).value),
                         Call.CtxReadPrivateKeyBinary(lib, s.jksPrivateKey.value[0], PasswordBytes(keyPassword, codec)),
                         Call.CtxGetOwnCertificate(pk), Call.CtxFreePrivateKey(pk),
                         Call.CtxFree(lib), Call.Finalize, Call.EUUnload]
      && run.files == files
  {
    var lib, pk := s.ctxCreate.value, s.readPrivateKey.value;
    DraftAroundSteps(s, codec, files, keyFilePath, keyPassword, filePath);
    var t := Assemble(s, codec, DraftErrors, files, lib, pk, files[filePath], ContainerPath(filePath),
                      ContainerPath(filePath));
    assert t == Tail(Raised(RuntimeError(DraftErrors.certificate)), [Call.CtxGetOwnCertificate(pk)], files);
  }

  /**
   * A parsed certificate without a public-key type stops the draft with a RuntimeError after the
   * parse call: nothing is hashed, the key and the context are freed, the library finalized and
   * unloaded. The source's message also shows the parsed fields; the model keeps its fixed prefix.
   */
  lemma DraftMissingKeyTypeStops(s: Script, codec: Codec, files: map<Path, Bytes>, keyFilePath: Path,
                                 keyPassword: Password, filePath: Path)
    requires Prepared(s, files, keyFilePath, filePath)
    requires Unlock(s, files[keyFilePath], PasswordBytes(keyPassword, codec), s.ctxCreate.value).Go?
    requires s.ownCertificate.Fills? && s.ownCertificate.value != [] && s.ownCertificate.value[0] != []
    requires s.parseCertificate == Fills(None)
    ensures var run := Draft(s, codec, files, keyFilePath, keyPassword, filePath);
      var jks, lib, pk := files[keyFilePath], s.ctxCreate.value, s.readPrivateKey.value;
      && FirstAlias(s).Some? && s.jksPrivateKey.Fills? && s.jksPrivateKey.value != []
      && run.outcome == Raised(RuntimeError("Не удалось распарсить сертификат:"))
      && run.calls == [Call.EULoad, Call.EUGetInterface] + SetupCalls
                      + [Call.EnumJKSPrivateKeys(jks, 0), Call.GetJKSPrivateKey(jks, FirstAlias(s).value),
                         Call.CtxReadPrivateKeyBinary(lib, s.jksPrivateKey.value[0], PasswordBytes(keyPassword, codec)),
                         Call.CtxGetOwnCertificate(pk), Call.ParseCertificateEx(s.ownCertificate.value[0]),
                         Call.CtxFreePrivateKey(pk), Call.CtxFree(lib), Call.Finalize, Call.EUUnload]
      && run.files == files
  {
    var lib, pk := s.ctxCreate.value, s.readPrivateKey.value;
    DraftAroundSteps(s, codec, files, keyFilePath, keyPassword, filePath);
    var t := Assemble(s, codec, DraftErrors, files, lib, pk, files[filePath], ContainerPath(filePath),
                      ContainerPath(filePath));
    assert t == Tail(Raised(RuntimeError(DraftErrors.parse)),
                     [Call.CtxGetOwnCertificate(pk), Call.ParseCertificateEx(s.ownCertificate.value[0])], files);
  }

  /**
   * A key type other than ECDSA, RSA and DSTU 4145 stops the draft with a ValueError after the
   * parse call: nothing is hashed, the key and the context are freed, the library finalized and
   * unloaded.
   */
  lemma DraftUnsupportedKeyTypeStops(s: Script, codec: Codec, files: map<Path, Bytes>, keyFilePath: Path,
                                     keyPassword: Password, filePath: Path, code: int)
    requires Prepared(s, files, keyFilePath, filePath)
    requires Unlock(s, files[keyFilePath], PasswordBytes(keyPassword, codec), s.ctxCreate.value).Go?
    requires s.ownCertificate.Fills? && s.ownCertificate.value != [] && s.ownCertificate.value[0] != []
    requires s.parseCertificate == Fills(Some(OtherKey(code)))
    ensures var run := Draft(s, codec, files, keyFilePath, keyPassword, filePath);
      var jks, lib, pk := files[keyFilePath], s.ctxCreate.value, s.readPrivateKey.value;
      && FirstAlias(s).Some? && s.jksPrivateKey.Fills? && s.jksPrivateKey.value != []
      && run.outcome == Raised(ValueError("Неподдерживаемый тип ключа в сертификате"))
      && run.calls == [Call.EULoad, Call.EUGetInterface] + SetupCalls
                      + [Call.EnumJKSPrivateKeys(jks, 0), Call.GetJKSPrivateKey(jks, FirstAlias(s).value),
                         Call.CtxReadPrivateKeyBinary(lib, s.jksPrivateKey.value[0], PasswordBytes(keyPassword, codec)),
                         Call.CtxGetOwnCertificate(pk), Call.ParseCertificateEx(s.ownCertificate.value[0]),
                         Call.CtxFreePrivateKey(pk), Call.CtxFree(lib), Call.Finalize, Call.EUUnload]
      && run.files == files
  {
    var lib, pk := s.ctxCreate.value, s.readPrivateKey.value;
    DraftAroundSteps(s, codec, files, keyFilePath, keyPassword, filePath);
    var t := Assemble(s, codec, DraftErrors, files, lib, pk, files[filePath], ContainerPath(filePath),
                      ContainerPath(filePath));
    assert t == Tail(Raised(ValueError(DraftErrors.keyType)),
                     [Call.CtxGetOwnCertificate(pk), Call.ParseCertificateEx(s.ownCertificate.value[0])], files);
  }

  /**
   * An empty digest stops the draft with a RuntimeError right after the hash call, which used
   * the selected hash algorithm: no signer is created and no file is written; the key and the
   * context are freed, the library finalized and unloaded.
   */
  lemma DraftEmptyDigestStops(s: Script, codec: Codec, files: map<Path, Bytes>, keyFilePath: Path,
                              keyPassword: Password, filePath: Path)
    requires Prepared(s, files, keyFilePath, filePath) && KnownKeyType(s)
    requires Unlock(s, files[keyFilePath], PasswordBytes(keyPassword, codec), s.ctxCreate.value).Go?
    requires s.ownCertificate.Fills? && s.ownCertificate.value != [] && s.ownCertificate.value[0] != []
    requires s.hashData.Fills? && (s.hashData.value == [] || s.hashData.value[0] == [])
    ensures var run := Draft(s, codec, files, keyFilePath, keyPassword, filePath);
      var jks, lib, pk := files[keyFilePath], s.ctxCreate.value, s.readPrivateKey.value;
      var hash := SelectAlgorithms(s.parseCertificate.value.value).value.1;
      && FirstAlias(s).Some? && s.jksPrivateKey.Fills? && s.jksPrivateKey.value != []
      && run.outcome == Raised(RuntimeError("Не удалось получить digest файла"))
      && run.calls == [Call.EULoad, Call.EUGetInterface] + SetupCalls
                      + [Call.EnumJKSPrivateKeys(jks, 0), Call.GetJKSPrivateKey(jks, FirstAlias(s).value),
                         Call.CtxReadPrivateKeyBinary(lib, s.jksPrivateKey.value[0], PasswordBytes(keyPassword, codec)),
                         Call.CtxGetOwnCertificate(pk), Call.ParseCertificateEx(s.ownCertificate.value[0]),
                         Call.CtxHashData(lib, hash, files[filePath]),
                         Call.CtxFreePrivateKey(pk), Call.CtxFree(lib), Call.Finalize, Call.EUUnload]
      && run.files == files
  {
    var lib, pk := s.ctxCreate.value, s.readPrivateKey.value;
    var hash := SelectAlgorithms(s.parseCertificate.value.value).value.1;
    DraftAroundSteps(s, codec, files, keyFilePath, keyPassword, filePath);
    var t := Assemble(s, codec, DraftErrors, files, lib, pk, files[filePath], ContainerPath(filePath),
                      ContainerPath(filePath));
    assert t == Tail(Raised(RuntimeError(DraftErrors.digest)),
                     [Call.CtxGetOwnCertificate(pk), Call.ParseCertificateEx(s.ownCertificate.value[0]),
                      Call.CtxHashData(lib, hash, files[filePath])], files);
  }

  /**
   * The draft writes its container at `file_path + ".p7s"` and reads it back from there: a run
   * succeeds exactly when the signer was appended, and then returns what the append wrote there,
   * with that path; no other file changes.
   */
  lemma DraftReturnsWrittenContainer(s: Script, codec: Codec, files: map<Path, Bytes>, keyFilePath: Path,
                                     keyPassword: Password, filePath: Path)
    requires s.appendSignerFile.Fills?
    ensures var run := Draft(s, codec, files, keyFilePath, keyPassword, filePath);
      && (Appended(run.calls) <==> run.outcome.Ok?)
      && (run.outcome.Ok? ==> run.outcome.value == Signed(s.appendSignerFile.value, ContainerPath(filePath))
                              && run.files == files[ContainerPath(filePath) := s.appendSignerFile.value])
      && run.files - {ContainerPath(filePath)} == files - {ContainerPath(filePath)}
  {
    var container := ContainerPath(filePath);
    if keyFilePath in files && filePath in files && s.load.Fills? && s.getInterface.Fills? {
      var password := PasswordBytes(keyPassword, codec);
      var a := DraftTry(s, codec, files, files[keyFilePath], password, files[filePath], container);
      LoadedShape(s, codec, files, keyFilePath, keyPassword, filePath);
      DraftTryEffect(s, codec, files, files[keyFilePath], password, files[filePath], container);
      WrappedAppended(a.calls, a.pkCtx, a.libCtx);
      if a.files != files {
        assert a.files - {container} == files - {container};
      }
    } else if keyFilePath in files && filePath in files && s.load.Fills? {
      StepInOrder([Call.EULoad, Call.EUGetInterface], 0, 1);
      NotAppended([Call.EULoad, Call.EUGetInterface], 0, 1);
    } else if keyFilePath in files && filePath in files {
      StepInOrder([Call.EULoad], 0, 0);
      NotAppended([Call.EULoad], 0, 0);
    }
  }

  // ---------------------------------------------------------------------------------------
  // The draft itself, against the provider

  method SignFileCadesXLongDraft(iface: Provider, disk: Disk, codec: Codec, keyFilePath: Path, keyPassword: Password,
                                 filePath: Path)
    returns (r: Outcome<Signed>)
    modifies iface, disk
    ensures var run := Draft(iface.script, codec, old(disk.files), keyFilePath, keyPassword, filePath);
      r == run.outcome && iface.trace == old(iface.trace) + run.calls && disk.files == run.files
  {
    var password := PasswordBytes(keyPassword, codec);
    var jksRead := ReadFile(disk.files, keyFilePath);
    if jksRead.Raised? {
      return Raised(jksRead.error);
    }
    var fileRead := ReadFile(disk.files, filePath);
    if fileRead.Raised? {
      return Raised(fileRead.error);
    }
    r := DraftSession(iface, disk, codec, jksRead.value, password, fileRead.value, AddExtension(filePath, SignatureExtension));
  }

  /** Load the library and get its interface, then the guarded part. */
  method DraftSession(iface: Provider, disk: Disk, codec: Codec, jks: Bytes, password: Bytes, fileData: Bytes,
                      container: Path)
    returns (r: Outcome<Signed>)
    modifies iface, disk
    ensures var run := Loaded(iface.script, codec, old(disk.files), jks, password, fileData, container);
      r == run.outcome && iface.trace == old(iface.trace) + run.calls && disk.files == run.files
  {
    var loaded := iface.EULoadLibrary();
    if loaded.Fails? {
      return Raised(LibraryError(loaded.code));
    }
    var gotInterface := iface.GetInterface();
    if gotInterface.Fails? {
      return Raised(LibraryError(gotInterface.code));
    }
    ghost var a := DraftTry(iface.script, codec, disk.files, jks, password, fileData, container);
    ghost var head := [Call.EULoad, Call.EUGetInterface];
    assert iface.trace == old(iface.trace) + head;
    r := GuardedSession(iface, disk, codec, jks, password, fileData, container);
    ghost var f, t := Frees(a.pkCtx, a.libCtx), [Call.Finalize, Call.EUUnload];
    JoinCalls(old(iface.trace), head, a.calls);
    JoinCalls(old(iface.trace), head + a.calls, f);
    JoinCalls(old(iface.trace), head + a.calls + f, t);
  }

  /** The `try` block, then its `finally` and the unload. */
  method GuardedSession(iface: Provider, disk: Disk, codec: Codec, jks: Bytes, password: Bytes, fileData: Bytes,
                        container: Path)
    returns (r: Outcome<Signed>)
    modifies iface, disk
    ensures var a := DraftTry(iface.script, codec, old(disk.files), jks, password, fileData, container);
      && r == a.outcome && disk.files == a.files
      && iface.trace == old(iface.trace) + a.calls + Frees(a.pkCtx, a.libCtx) + [Call.Finalize, Call.EUUnload]
  {
    var libCtx, pkCtx;
    r, libCtx, pkCtx := DraftAttempt(iface, disk, codec, jks, password, fileData, container);
    // finally: errors of the three calls are swallowed; the unload is not guarded
    Cleanup(iface, pkCtx, libCtx);
    var _ := iface.FinalizeLibrary();
    iface.Unload();
  }

  /** The draft's `try` block. */
  method DraftAttempt(iface: Provider, disk: Disk, codec: Codec, jks: Bytes, password: Bytes, fileData: Bytes,
                      container: Path)
    returns (r: Outcome<Signed>, libCtx: seq<Handle>, pkCtx: seq<Handle>)
    modifies iface, disk
    ensures var a := DraftTry(iface.script, codec, old(disk.files), jks, password, fileData, container);
      && r == a.outcome && libCtx == a.libCtx && pkCtx == a.pkCtx
      && iface.trace == old(iface.trace) + a.calls && disk.files == a.files
  {
    libCtx, pkCtx := [], [];
    var configured := ConfigureLibrary(iface);
    if configured.Stop? {
      return Raised(configured.error), libCtx, pkCtx;
    }
    ghost var mid := iface.trace;
    libCtx := [configured.value];
    r, pkCtx := KeySigning(iface, disk, codec, jks, password, fileData, container, libCtx[0]);
    ghost var b := KeyAndSign(iface.script, codec, old(disk.files), jks, password, fileData, container, libCtx[0]);
    assert iface.trace == mid + b.calls && mid == old(iface.trace) + configured.calls;
    JoinCalls(old(iface.trace), configured.calls, b.calls);
  }

  /** The rest of the `try` block once the context exists: load the key, then sign. */
  method KeySigning(iface: Provider, disk: Disk, codec: Codec, jks: Bytes, password: Bytes, fileData: Bytes,
                    container: Path, lib: Handle)
    returns (r: Outcome<Signed>, pkCtx: seq<Handle>)
    modifies iface, disk
    ensures var b := KeyAndSign(iface.script, codec, old(disk.files), jks, password, fileData, container, lib);
      && r == b.outcome && pkCtx == b.pkCtx && iface.trace == old(iface.trace) + b.calls && disk.files == b.files
  {
    pkCtx := [];
    var unlocked := UnlockKey(iface, jks, password, lib);
    if unlocked.Stop? {
      return Raised(unlocked.error), pkCtx;
    }
    ghost var mid := iface.trace;
    pkCtx := [unlocked.value];
    r := AssembleSignature(iface, disk, codec, DraftErrors, lib, pkCtx[0], fileData, container, container);
    ghost var t := Assemble(iface.script, codec, DraftErrors, old(disk.files), lib, pkCtx[0], fileData, container, container);
    assert iface.trace == mid + t.calls && mid == old(iface.trace) + unlocked.calls;
    JoinCalls(old(iface.trace), unlocked.calls, t.calls);
  }

  /** Initialize the library, set its services and create the context. */
  method ConfigureLibrary(iface: Provider) returns (r: Step<Handle>)
    modifies iface
    ensures r == Configure(iface.script) && iface.trace == old(iface.trace) + r.calls
  {
    var reply := iface.InitializeLibrary();
    if reply.Fails? {
      return Stop(LibraryError(reply.code), SetupCalls[..1]);
    }
    reply := iface.CmpSettings();
    if reply.Fails? {
      return Stop(LibraryError(reply.code), SetupCalls[..2]);
    }
    reply := iface.OcspSettings();
    if reply.Fails? {
      return Stop(LibraryError(reply.code), SetupCalls[..3]);
    }
    reply := iface.TspSettings();
    if reply.Fails? {
      return Stop(LibraryError(reply.code), SetupCalls[..4]);
    }
    var created := iface.CreateContext();
    if created.Fails? {
      return Stop(LibraryError(created.code), SetupCalls);
    }
    r := Go(created.value, SetupCalls);
  }

  /**
   * The `while True` loop over the key store's aliases: ask for the alias at `idx`; stop on an
   * error or an empty list, otherwise take the first alias and stop; `idx` grows in `finally`.
   */
  method ChooseAlias(iface: Provider, jks: Bytes) returns (chosen: Option<string>)
    modifies iface
    ensures chosen == FirstAlias(iface.script)
    ensures iface.trace == old(iface.trace) + [Call.EnumJKSPrivateKeys(jks, 0)]
  {
    var idx: nat := 0;
    chosen := None;
    var stop := false;
    while !stop
      invariant !stop ==> idx == 0 && chosen == None && iface.trace == old(iface.trace)
      invariant stop ==> chosen == FirstAlias(iface.script) && iface.trace == old(iface.trace) + [Call.EnumJKSPrivateKeys(jks, 0)]
      decreases if stop then 0 else 1
    {
      var aliases := iface.EnumAliases(jks, idx);
      if aliases.Fails? || aliases.value == [] {
        stop := true;
      } else {
        chosen := Some(aliases.value[0]);
        stop := true;
      }
      idx := idx + 1;
    }
  }

  /** Choose the alias, extract its key and load it into the context. */
  method UnlockKey(iface: Provider, jks: Bytes, password: Bytes, lib: Handle) returns (r: Step<Handle>)
    modifies iface
    ensures r == Unlock(iface.script, jks, password, lib) && iface.trace == old(iface.trace) + r.calls
  {
    var chosen := ChooseAlias(iface, jks);
    var calls := [Call.EnumJKSPrivateKeys(jks, 0)];
    if !Usable(chosen) {
      return Stop(ValueError(NoAliasMessage), calls);
    }
    var blobs := iface.JksPrivateKey(jks, chosen.value);
    calls := calls + [Call.GetJKSPrivateKey(jks, chosen.value)];
    if blobs.Fails? {
      return Stop(LibraryError(blobs.code), calls);
    }
    if blobs.value == [] {
      return Stop(IndexError, calls);
    }
    var pkBlob := blobs.value[0];
    var read := iface.ReadPrivateKey(lib, pkBlob, password);
    calls := calls + [Call.CtxReadPrivateKeyBinary(lib, pkBlob, password)];
    if read.Fails? {
      return Stop(LibraryError(read.code), calls);
    }
    r := Go(read.value, calls);
  }
}
