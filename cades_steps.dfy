/**
 * The steps both versions of `sign_file_cades_x_long` share, from fetching the key's own
 * certificate to reading the written container back: algorithm selection, hashing, signer
 * creation, the validation-data fallback and container assembly. Each step is given twice:
 * as a function saying what it does (the calls it makes and how it ends) and as the method
 * that does it against a `Provider`, proved to agree with the function.
 */
module CadesSteps {
  import opened Common
  import opened Paths
  import opened Provider

  /** The key password as passed in: text, or bytes already. */
  datatype Password = Text(text: string) | Raw(bytes: Bytes)

  /** The formatting helpers the code calls and this model leaves abstract. */
  datatype Codec = Codec(utf8: string -> Bytes, b64decode: string -> Outcome<Bytes>)

  /** `key_password.encode("utf-8")` when it is text, the bytes unchanged otherwise. */
  function PasswordBytes(p: Password, codec: Codec): Bytes {
    match p
    case Text(t) => codec.utf8(t)
    case Raw(b) => b
  }

  /** The texts of the errors each version raises. */
  datatype Messages = Messages(certificate: string, parse: string, keyType: string, digest: string)

  /**
   * The signature and hash algorithm for the certificate's public-key type; None for any
   * other type (the caller raises ValueError).
   */
  function SelectAlgorithms(k: KeyType): (r: Option<(SignAlgorithm, HashAlgorithm)>)
    ensures r.Some? <==> !k.OtherKey?
    ensures r.Some? ==> (r.value.1 == Sha256 <==> !k.Dstu4145Key?)
    ensures r.Some? ==> (r.value.0 == Dstu4145WithDstu7564 <==> r.value.1 == Dstu7564_256)
    ensures k.EcdsaKey? ==> r == Some((EcdsaWithSha, Sha256))
    ensures k.RsaKey? ==> r == Some((RsaWithSha, Sha256))
    ensures k.Dstu4145Key? ==> r == Some((Dstu4145WithDstu7564, Dstu7564_256))
  {
    match k
    case EcdsaKey => Some((EcdsaWithSha, Sha256))
    case RsaKey => Some((RsaWithSha, Sha256))
    case Dstu4145Key => Some((Dstu4145WithDstu7564, Dstu7564_256))
    case OtherKey(_) => None
  }

  /** Distinct supported key types get distinct signature algorithms. */
  lemma SelectAlgorithmsInjective(k1: KeyType, k2: KeyType)
    requires SelectAlgorithms(k1).Some? && SelectAlgorithms(k2).Some?
    requires SelectAlgorithms(k1).value.0 == SelectAlgorithms(k2).value.0
    ensures k1 == k2
  {
  }

  /**
   * The signer put into the container: the byte output of the validation-data call when it
   * is non-empty, else the decoded text output when that is non-empty, else the raw signer.
   */
  function FinalSigner(v: ValidationData, raw: Bytes, codec: Codec): Outcome<Bytes> {
    if v.asBytes != [] && v.asBytes[0] != [] then Ok(v.asBytes[0])
    else if v.asText != [] && v.asText[0] != "" then codec.b64decode(v.asText[0])
    else Ok(raw)
  }

  /** The raw signer is used exactly when neither output of the validation-data call holds anything. */
  lemma RawSignerOnlyAsLastResort(v: ValidationData, raw: Bytes, codec: Codec)
    ensures (v.asBytes != [] && v.asBytes[0] != []) ==> FinalSigner(v, raw, codec) == Ok(v.asBytes[0])
    ensures (v.asBytes == [] || v.asBytes[0] == []) && (v.asText == [] || v.asText[0] == "")
            ==> FinalSigner(v, raw, codec) == Ok(raw)
    ensures (v.asBytes == [] || v.asBytes[0] == []) && v.asText != [] && v.asText[0] != ""
            ==> FinalSigner(v, raw, codec) == codec.b64decode(v.asText[0])
  {
  }

  /** Where the detached container is written: `target + ".p7s"`. */
  function ContainerPath(target: Path): (r: Path)
    ensures Parent(r) == Parent(target) && Name(r) == Name(target) + SignatureExtension
  {
    AddExtension(target, SignatureExtension)
  }

  /** What one protocol step produces: the exception that stops the protocol, or a value. */
  datatype Step<+T> = Stop(error: Exception, calls: seq<Call>) | Go(value: T, calls: seq<Call>)

  /** The certificate and the algorithms chosen from it. */
  datatype Certified = Certified(cert: Bytes, sign: SignAlgorithm, hash: HashAlgorithm)

  /** Fetch the key's own certificate, parse it and choose the algorithms. */
  function Certify(s: Script, m: Messages, pk: Handle): (r: Step<Certified>)
    ensures r.calls == [Call.CtxGetOwnCertificate(pk)]
         || (s.ownCertificate.Fills? && s.ownCertificate.value != []
             && r.calls == [Call.CtxGetOwnCertificate(pk), Call.ParseCertificateEx(s.ownCertificate.value[0])])
    ensures r.Go? ==> s.ownCertificate.Fills? && s.ownCertificate.value != []
                      && r.value.cert == s.ownCertificate.value[0] != []
                      && r.calls == [Call.CtxGetOwnCertificate(pk), Call.ParseCertificateEx(r.value.cert)]
    ensures r.Go? ==> s.parseCertificate.Fills? && s.parseCertificate.value.Some?
                      && SelectAlgorithms(s.parseCertificate.value.value) == Some((r.value.sign, r.value.hash))
  {
    var c1 := [Call.CtxGetOwnCertificate(pk)];
    match s.ownCertificate
    case Fails(code) => Stop(LibraryError(code), c1)
    case Fills(certs) =>
      if certs == [] || certs[0] == [] then Stop(RuntimeError(m.certificate), c1)
      else
        var c2 := c1 + [Call.ParseCertificateEx(certs[0])];
        match s.parseCertificate
        case Fails(code) => Stop(LibraryError(code), c2)
        case Fills(keyType) =>
          if keyType.None? then Stop(RuntimeError(m.parse), c2)
          else
            match SelectAlgorithms(keyType.value)
            case None => Stop(ValueError(m.keyType), c2)
            case Some(algs) => Go(Certified(certs[0], algs.0, algs.1), c2)
  }

  /** Hash the document's bytes with the chosen algorithm. */
  function Digest(s: Script, m: Messages, lib: Handle, hash: HashAlgorithm, document: Bytes): (r: Step<Bytes>)
    ensures r.calls == [Call.CtxHashData(lib, hash, document)]
    ensures r.Go? <==> s.hashData.Fills? && s.hashData.value != [] && s.hashData.value[0] != []
  {
    var c := [Call.CtxHashData(lib, hash, document)];
    match s.hashData
    case Fails(code) => Stop(LibraryError(code), c)
    case Fills(out) =>
      if out == [] || out[0] == [] then Stop(RuntimeError(m.digest), c) else Go(out[0], c)
  }

  /** Create the CAdES-X Long signer, add validation data and pick the final signer. */
  function Signer(s: Script, codec: Codec, pk: Handle, sign: SignAlgorithm, digest: Bytes, cert: Bytes): (r: Step<Bytes>)
    ensures r.calls == [Call.CtxCreateSignerEx(pk, sign, digest)]
         || (s.createSigner.Fills? && s.createSigner.value != []
             && r.calls == [Call.CtxCreateSignerEx(pk, sign, digest),
                            Call.AppendValidationDataToSignerEx(s.createSigner.value[0], cert)])
    ensures r.Go? ==> s.createSigner.Fills? && s.createSigner.value != [] && s.validationData.Fills?
                      && Ok(r.value) == FinalSigner(s.validationData.value, s.createSigner.value[0], codec)
  {
    var c1 := [Call.CtxCreateSignerEx(pk, sign, digest)];
    match s.createSigner
    case Fails(code) => Stop(LibraryError(code), c1)
    case Fills(signer) =>
      if signer == [] then Stop(IndexError, c1)
      else
        var c2 := c1 + [Call.AppendValidationDataToSignerEx(signer[0], cert)];
        match s.validationData
        case Fails(code) => Stop(LibraryError(code), c2)
        case Fills(v) =>
          match FinalSigner(v, signer[0], codec)
          case Raised(e) => Stop(e, c2)
          case Ok(f) => Go(f, c2)
  }

  /** The effect of assembling the container: how it ended, the calls, the files afterwards. */
  datatype Written = Written(error: Option<Exception>, calls: seq<Call>, files: map<Path, Bytes>)

  /** Create the empty container at `path`, then append the signer to it in place. */
  function WriteContainer(s: Script, lib: Handle, sign: SignAlgorithm, signer: Bytes, cert: Bytes,
                          path: Path, files: map<Path, Bytes>): (r: Written)
    ensures 1 <= |r.calls| <= 2 && r.calls[0] == Call.CtxCreateEmptySignFile(lib, sign, cert, path)
    ensures |r.calls| == 2 <==> s.createEmptySignFile.Fills?
    ensures |r.calls| == 2 ==> r.calls[1] == Call.CtxAppendSignerFile(lib, sign, signer, cert, path)
    ensures s.createEmptySignFile.Fails? ==> r.files == files
    ensures s.createEmptySignFile.Fills? ==> path in r.files && r.files == files[path := r.files[path]]
    ensures r.error.None? <==> s.createEmptySignFile.Fills? && s.appendSignerFile.Fills?
    ensures r.error.None? ==> r.files[path] == s.appendSignerFile.value
  {
    var c1 := [Call.CtxCreateEmptySignFile(lib, sign, cert, path)];
    match s.createEmptySignFile
    case Fails(code) => Written(Some(LibraryError(code)), c1, files)
    case Fills(shell) =>
      var c2 := c1 + [Call.CtxAppendSignerFile(lib, sign, signer, cert, path)];
      match s.appendSignerFile
      case Fails(code) => Written(Some(LibraryError(code)), c2, files[path := shell])
      case Fills(container) => Written(None, c2, files[path := container])
  }

  /** The signature bytes read back and the path returned with them. */
  datatype Signed = Signed(data: Bytes, path: Path)

  /** How the steps after the key is loaded end: outcome, calls and files afterwards. */
  datatype Tail = Tail(outcome: Outcome<Signed>, calls: seq<Call>, files: map<Path, Bytes>)

  /** Read back the container at `readBack` and return it with that path. */
  function ReadBack(files: map<Path, Bytes>, readBack: Path): (r: Outcome<Signed>)
    ensures r.Ok? <==> readBack in files
    ensures r.Ok? ==> r.value == Signed(files[readBack], readBack)
    ensures r.Raised? ==> r.error == FileNotFound(readBack)
  {
    match ReadFile(files, readBack)
    case Ok(data) => Ok(Signed(data, readBack))
    case Raised(e) => Raised(e)
  }

  /**
   * How the steps touch the files: at most `container` changes; once the signer has been
   * appended, the container holds what the append produced and the result is the read-back;
   * only a run that appended the signer can succeed.
   */
  predicate FileEffect(s: Script, files: map<Path, Bytes>, container: Path, readBack: Path, t: Tail) {
    && (t.files == files || (container in t.files && t.files == files[container := t.files[container]]))
    && (Appended(t.calls) && s.appendSignerFile.Fills? ==>
          t.files == files[container := s.appendSignerFile.value] && t.outcome == ReadBack(t.files, readBack))
    && (t.outcome.Ok? ==> Appended(t.calls) && s.appendSignerFile.Fills?)
  }

  /** A call of the steps that follow the certificate carries the chosen algorithms, signer and path. */
  predicate Carries(s: Script, codec: Codec, ca: Certified, container: Path, c: Call) {
    match c
    case CtxHashData(_, hash, _) => hash == ca.hash
    case CtxCreateSignerEx(_, sign, _) => sign == ca.sign
    case CtxCreateEmptySignFile(_, _, _, path) => path == container
    case CtxAppendSignerFile(_, _, signer, _, path) =>
      && path == container
      && s.createSigner.Fills? && s.createSigner.value != [] && s.validationData.Fills?
      && FinalSigner(s.validationData.value, s.createSigner.value[0], codec) == Ok(signer)
    case _ => true
  }

  /** The parsed certificate names a supported key type. */
  predicate KnownKeyType(s: Script) {
    s.parseCertificate.Fills? && s.parseCertificate.value.Some? && SelectAlgorithms(s.parseCertificate.value.value).Some?
  }

  /**
   * What each call of the shared steps carries: the hash and signature algorithms the key type
   * selects, the signer the validation-data fallback chose, and the container path.
   */
  predicate Agrees(s: Script, codec: Codec, container: Path, c: Call) {
    match c
    case CtxHashData(_, hash, _) =>
      KnownKeyType(s) && hash == SelectAlgorithms(s.parseCertificate.value.value).value.1
    case CtxCreateSignerEx(_, sign, _) =>
      KnownKeyType(s) && sign == SelectAlgorithms(s.parseCertificate.value.value).value.0
    case CtxCreateEmptySignFile(_, _, _, path) => path == container
    case CtxAppendSignerFile(_, _, signer, _, path) =>
      && path == container
      && s.createSigner.Fills? && s.createSigner.value != [] && s.validationData.Fills?
      && FinalSigner(s.validationData.value, s.createSigner.value[0], codec) == Ok(signer)
    case _ => true
  }

  /** Once the algorithms come from the parsed key type, carrying them is agreeing with it. */
  lemma CarriedAgrees(s: Script, codec: Codec, ca: Certified, container: Path, head: seq<Call>, rest: seq<Call>)
    requires s.parseCertificate.Fills? && s.parseCertificate.value.Some?
    requires SelectAlgorithms(s.parseCertificate.value.value) == Some((ca.sign, ca.hash))
    requires forall c :: c in head ==> c.CtxGetOwnCertificate? || c.ParseCertificateEx?
    requires forall c :: c in rest ==> Carries(s, codec, ca, container, c)
    ensures forall c :: c in head + rest ==> Agrees(s, codec, container, c)
  {
    forall c | c in head + rest ensures Agrees(s, codec, container, c) {
      if c in head {
      } else {
        assert c in rest;
      }
    }
  }

  /** Write the container, then read it back from `readBack`. */
  function Finish(s: Script, lib: Handle, sign: SignAlgorithm, signer: Bytes, cert: Bytes, container: Path,
                  readBack: Path, files: map<Path, Bytes>): Tail
  {
    var w := WriteContainer(s, lib, sign, signer, cert, container, files);
    if w.error.Some? then Tail(Raised(w.error.value), w.calls, w.files)
    else Tail(ReadBack(w.files, readBack), w.calls, w.files)
  }

  /** Writing the container creates it and appends the signer, both at `container`, and touches no other file. */
  lemma FinishEffect(s: Script, lib: Handle, sign: SignAlgorithm, signer: Bytes, cert: Bytes, container: Path,
                     readBack: Path, files: map<Path, Bytes>)
    ensures var t := Finish(s, lib, sign, signer, cert, container, readBack, files);
      && InOrder(t.calls) && StagesWithin(t.calls, 15, 16)
      && (forall c :: c in t.calls ==> c.path == container && (c.CtxAppendSignerFile? ==> c.signer == signer))
      && FileEffect(s, files, container, readBack, t)
  {
    var w := WriteContainer(s, lib, sign, signer, cert, container, files);
    assert |w.calls| == 2 ==> w.calls == [w.calls[0], w.calls[1]];
    assert Appended(w.calls) ==> |w.calls| == 2;
  }

  /** Create the signer, then write and read back the container. */
  function SignAndFinish(s: Script, codec: Codec, files: map<Path, Bytes>, lib: Handle, pk: Handle, ca: Certified,
                         digest: Bytes, container: Path, readBack: Path): Tail
  {
    match Signer(s, codec, pk, ca.sign, digest, ca.cert)
    case Stop(e, c3) => Tail(Raised(e), c3, files)
    case Go(signer, c3) =>
      var rest := Finish(s, lib, ca.sign, signer, ca.cert, container, readBack, files);
      Tail(rest.outcome, c3 + rest.calls, rest.files)
  }

  /** The signer's calls come first; every call carries the chosen algorithm, the final signer and the container. */
  lemma SignAndFinishEffect(s: Script, codec: Codec, files: map<Path, Bytes>, lib: Handle, pk: Handle, ca: Certified,
                            digest: Bytes, container: Path, readBack: Path)
    ensures var t := SignAndFinish(s, codec, files, lib, pk, ca, digest, container, readBack);
      && InOrder(t.calls) && StagesWithin(t.calls, 13, 16)
      && (forall c :: c in t.calls ==> Carries(s, codec, ca, container, c))
      && FileEffect(s, files, container, readBack, t)
  {
    var step := Signer(s, codec, pk, ca.sign, digest, ca.cert);
    var c3 := step.calls;
    ShortInOrder(c3, 13, 14);
    forall c | c in c3 ensures Carries(s, codec, ca, container, c) && !c.CtxAppendSignerFile? {
      if c != c3[0] {
        assert c == c3[1];
      }
    }
    if step.Go? {
      var rest := Finish(s, lib, ca.sign, step.value, ca.cert, container, readBack, files);
      FinishEffect(s, lib, ca.sign, step.value, ca.cert, container, readBack, files);
      InOrderJoin(c3, rest.calls, 13, 14, 16);
      forall c | c in c3 + rest.calls ensures Carries(s, codec, ca, container, c) {
        if c !in c3 {
          assert c in rest.calls;
        }
      }
      assert Appended(c3 + rest.calls) ==> Appended(rest.calls);
    }
  }

  /** Hash the document, then sign and finish. */
  function HashAndSign(s: Script, codec: Codec, m: Messages, files: map<Path, Bytes>, lib: Handle, pk: Handle,
                       document: Bytes, ca: Certified, container: Path, readBack: Path): Tail
  {
    match Digest(s, m, lib, ca.hash, document)
    case Stop(e, c2) => Tail(Raised(e), c2, files)
    case Go(digest, c2) =>
      var rest := SignAndFinish(s, codec, files, lib, pk, ca, digest, container, readBack);
      Tail(rest.outcome, c2 + rest.calls, rest.files)
  }

  /** Hashing comes before signing and uses the chosen hash algorithm. */
  lemma HashAndSignEffect(s: Script, codec: Codec, m: Messages, files: map<Path, Bytes>, lib: Handle, pk: Handle,
                          document: Bytes, ca: Certified, container: Path, readBack: Path)
    ensures var t := HashAndSign(s, codec, m, files, lib, pk, document, ca, container, readBack);
      && InOrder(t.calls) && StagesWithin(t.calls, 12, 16)
      && (forall c :: c in t.calls ==> Carries(s, codec, ca, container, c))
      && FileEffect(s, files, container, readBack, t)
  {
    var step := Digest(s, m, lib, ca.hash, document);
    var c2 := step.calls;
    assert InOrder(c2) && StagesWithin(c2, 12, 12) && !Appended(c2);
    if step.Go? {
      var rest := SignAndFinish(s, codec, files, lib, pk, ca, step.value, container, readBack);
      SignAndFinishEffect(s, codec, files, lib, pk, ca, step.value, container, readBack);
      InOrderJoin(c2, rest.calls, 12, 12, 16);
      forall c | c in c2 + rest.calls ensures Carries(s, codec, ca, container, c) {
        if c !in rest.calls {
          assert c == c2[0];
        }
      }
      assert Appended(c2 + rest.calls) ==> Appended(rest.calls);
    }
  }

  /**
   * Everything from fetching the certificate to reading the container back: the container is
   * written at `container` and read back from `readBack`.
   */
  function Assemble(s: Script, codec: Codec, m: Messages, files: map<Path, Bytes>, lib: Handle, pk: Handle,
                    document: Bytes, container: Path, readBack: Path): Tail
  {
    match Certify(s, m, pk)
    case Stop(e, c1) => Tail(Raised(e), c1, files)
    case Go(ca, c1) =>
      var rest := HashAndSign(s, codec, m, files, lib, pk, document, ca, container, readBack);
      Tail(rest.outcome, c1 + rest.calls, rest.files)
  }

  /**
   * The calls follow the protocol order, carry the algorithms the key type selects and the
   * signer the fallback chose, and touch no file but the container.
   */
  lemma AssembleEffect(s: Script, codec: Codec, m: Messages, files: map<Path, Bytes>, lib: Handle, pk: Handle,
                       document: Bytes, container: Path, readBack: Path)
    ensures var t := Assemble(s, codec, m, files, lib, pk, document, container, readBack);
      && InOrder(t.calls) && StagesWithin(t.calls, 10, 16)
      && (forall c :: c in t.calls ==> Agrees(s, codec, container, c))
      && FileEffect(s, files, container, readBack, t)
  {
    var step := Certify(s, m, pk);
    var c1 := step.calls;
    ShortInOrder(c1, 10, 11);
    forall c | c in c1 ensures Agrees(s, codec, container, c) && !c.CtxAppendSignerFile? {
      if c != c1[0] {
        assert c == c1[1];
      }
    }
    if step.Go? {
      var ca := step.value;
      var rest := HashAndSign(s, codec, m, files, lib, pk, document, ca, container, readBack);
      HashAndSignEffect(s, codec, m, files, lib, pk, document, ca, container, readBack);
      InOrderJoin(c1, rest.calls, 10, 11, 16);
      CarriedAgrees(s, codec, ca, container, c1, rest.calls);
      assert Appended(c1 + rest.calls) ==> Appended(rest.calls);
    }
  }

  /** The calls of the shared steps lie between the certificate fetch and the append. */
  lemma AssembleStages(s: Script, codec: Codec, m: Messages, files: map<Path, Bytes>, lib: Handle, pk: Handle,
                       document: Bytes, container: Path, readBack: Path)
    ensures StagesWithin(Assemble(s, codec, m, files, lib, pk, document, container, readBack).calls, 10, 16)
  {
    AssembleEffect(s, codec, m, files, lib, pk, document, container, readBack);
  }

  /** The shared steps never look at the replies of the cleanup calls. */
  lemma AssembleIgnoresCleanup(s: Script, s': Script, codec: Codec, m: Messages, files: map<Path, Bytes>, lib: Handle,
                               pk: Handle, document: Bytes, container: Path, readBack: Path)
    requires s' == s.(freePrivateKey := s'.freePrivateKey, free := s'.free, finalize := s'.finalize)
    ensures Assemble(s', codec, m, files, lib, pk, document, container, readBack)
         == Assemble(s, codec, m, files, lib, pk, document, container, readBack)
  {
    var ce := Certify(s, m, pk);
    assert Certify(s', m, pk) == ce;
    if ce.Go? {
      var ca := ce.value;
      var d := Digest(s, m, lib, ca.hash, document);
      assert Digest(s', m, lib, ca.hash, document) == d;
      if d.Go? {
        var g := Signer(s, codec, pk, ca.sign, d.value, ca.cert);
        assert Signer(s', codec, pk, ca.sign, d.value, ca.cert) == g;
        if g.Go? {
          assert WriteContainer(s', lib, ca.sign, g.value, ca.cert, container, files)
              == WriteContainer(s, lib, ca.sign, g.value, ca.cert, container, files);
        }
      }
    }
  }

  // ---------------------------------------------------------------------------------------
  // The same steps against the provider

  method CertifyKey(iface: Provider, m: Messages, pk: Handle) returns (r: Step<Certified>)
    modifies iface
    ensures r == Certify(iface.script, m, pk)
    ensures iface.trace == old(iface.trace) + r.calls
  {
    var certReply := iface.OwnCertificate(pk);
    if certReply.Fails? {
      return Stop(LibraryError(certReply.code), [Call.CtxGetOwnCertificate(pk)]);
    }
    var certBytesOut := certReply.value;
    if certBytesOut == [] || certBytesOut[0] == [] {
      return Stop(RuntimeError(m.certificate), [Call.CtxGetOwnCertificate(pk)]);
    }
    var cert := certBytesOut[0];
    var calls := [Call.CtxGetOwnCertificate(pk), Call.ParseCertificateEx(cert)];
    var parsed := iface.ParseCertificate(cert);
    if parsed.Fails? {
      return Stop(LibraryError(parsed.code), calls);
    }
    var keyType := parsed.value;
    if keyType.None? {
      return Stop(RuntimeError(m.parse), calls);
    }
    var algs := SelectAlgorithms(keyType.value);
    if algs.None? {
      return Stop(ValueError(m.keyType), calls);
    }
    r := Go(Certified(cert, algs.value.0, algs.value.1), calls);
  }

  method HashDocument(iface: Provider, m: Messages, lib: Handle, hash: HashAlgorithm, document: Bytes)
    returns (r: Step<Bytes>)
    modifies iface
    ensures r == Digest(iface.script, m, lib, hash, document)
    ensures iface.trace == old(iface.trace) + r.calls
  {
    var calls := [Call.CtxHashData(lib, hash, document)];
    var digestOut := iface.HashData(lib, hash, document);
    if digestOut.Fails? {
      return Stop(LibraryError(digestOut.code), calls);
    }
    if digestOut.value == [] || digestOut.value[0] == [] {
      return Stop(RuntimeError(m.digest), calls);
    }
    r := Go(digestOut.value[0], calls);
  }

  method CreateSigner(iface: Provider, codec: Codec, pk: Handle, sign: SignAlgorithm, digest: Bytes, cert: Bytes)
    returns (r: Step<Bytes>)
    modifies iface
    ensures r == Signer(iface.script, codec, pk, sign, digest, cert)
    ensures iface.trace == old(iface.trace) + r.calls
  {
    var signerReply := iface.CreateSigner(pk, sign, digest);
    if signerReply.Fails? {
      return Stop(LibraryError(signerReply.code), [Call.CtxCreateSignerEx(pk, sign, digest)]);
    }
    var signer := signerReply.value;
    if signer == [] {
      return Stop(IndexError, [Call.CtxCreateSignerEx(pk, sign, digest)]);
    }
    var calls := [Call.CtxCreateSignerEx(pk, sign, digest), Call.AppendValidationDataToSignerEx(signer[0], cert)];
    var upSigner := iface.AppendValidationData(signer[0], cert);
    if upSigner.Fails? {
      return Stop(LibraryError(upSigner.code), calls);
    }
    var finalSigner := FinalSigner(upSigner.value, signer[0], codec);
    if finalSigner.Raised? {
      return Stop(finalSigner.error, calls);
    }
    r := Go(finalSigner.value, calls);
  }

  method AssembleContainer(iface: Provider, disk: Disk, lib: Handle, sign: SignAlgorithm, signer: Bytes,
                           cert: Bytes, path: Path)
    returns (error: Option<Exception>)
    modifies iface, disk
    ensures var w := WriteContainer(iface.script, lib, sign, signer, cert, path, old(disk.files));
      error == w.error && iface.trace == old(iface.trace) + w.calls && disk.files == w.files
  {
    var empty := iface.CreateEmptySignFile(disk, lib, sign, cert, path);
    if empty.Fails? {
      return Some(LibraryError(empty.code));
    }
    var appended := iface.AppendSignerFile(disk, lib, sign, signer, cert, path);
    if appended.Fails? {
      return Some(LibraryError(appended.code));
    }
    error := None;
  }

  /** Write the container and read it back, against the provider and the disk. */
  method WriteAndReadBack(iface: Provider, disk: Disk, lib: Handle, sign: SignAlgorithm, signer: Bytes,
                          cert: Bytes, container: Path, readBack: Path)
    returns (r: Outcome<Signed>)
    modifies iface, disk
    ensures var t := Finish(iface.script, lib, sign, signer, cert, container, readBack, old(disk.files));
      r == t.outcome && iface.trace == old(iface.trace) + t.calls && disk.files == t.files
  {
    var error := AssembleContainer(iface, disk, lib, sign, signer, cert, container);
    if error.Some? {
      return Raised(error.value);
    }
    r := ReadBack(disk.files, readBack);
  }

  /** Create the signer, then write and read back the container. */
  method SignAndWrite(iface: Provider, disk: Disk, codec: Codec, lib: Handle, pk: Handle, ca: Certified,
                      digest: Bytes, container: Path, readBack: Path)
    returns (r: Outcome<Signed>)
    modifies iface, disk
    ensures var t := SignAndFinish(iface.script, codec, old(disk.files), lib, pk, ca, digest, container, readBack);
      r == t.outcome && iface.trace == old(iface.trace) + t.calls && disk.files == t.files
  {
    var signer := CreateSigner(iface, codec, pk, ca.sign, digest, ca.cert);
    if signer.Stop? {
      return Raised(signer.error);
    }
    r := WriteAndReadBack(iface, disk, lib, ca.sign, signer.value, ca.cert, container, readBack);
  }

  /** Hash the document, then sign and write. */
  method HashAndWrite(iface: Provider, disk: Disk, codec: Codec, m: Messages, lib: Handle, pk: Handle,
                      document: Bytes, ca: Certified, container: Path, readBack: Path)
    returns (r: Outcome<Signed>)
    modifies iface, disk
    ensures var t := HashAndSign(iface.script, codec, m, old(disk.files), lib, pk, document, ca, container, readBack);
      r == t.outcome && iface.trace == old(iface.trace) + t.calls && disk.files == t.files
  {
    var digest := HashDocument(iface, m, lib, ca.hash, document);
    if digest.Stop? {
      return Raised(digest.error);
    }
    r := SignAndWrite(iface, disk, codec, lib, pk, ca, digest.value, container, readBack);
  }

  /** The shared steps, run against the provider. */
  method AssembleSignature(iface: Provider, disk: Disk, codec: Codec, m: Messages, lib: Handle, pk: Handle,
                           document: Bytes, container: Path, readBack: Path)
    returns (r: Outcome<Signed>)
    modifies iface, disk
    ensures var t := Assemble(iface.script, codec, m, old(disk.files), lib, pk, document, container, readBack);
      r == t.outcome && iface.trace == old(iface.trace) + t.calls && disk.files == t.files
  {
    var certified := CertifyKey(iface, m, pk);
    if certified.Stop? {
      return Raised(certified.error);
    }
    r := HashAndWrite(iface, disk, codec, m, lib, pk, document, certified.value, container, readBack);
  }
}
