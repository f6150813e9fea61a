/**
 * The EUSignCP interface as the signer sees it. Every native call is uninterpreted: the
 * provider is built from a `Script` holding, for each call, either the error it raises or
 * what it fills into its output list. The provider records every call it receives in `trace`,
 * so the order of calls and the cleanup calls are observable. Files on disk live in a `Disk`.
 */
module Provider {
  import opened Common
  import opened Paths

  /** A native context or private-key handle. */
  type Handle = nat

  /** The `dwPublicKeyType` field of a parsed certificate. */
  datatype KeyType = EcdsaKey | RsaKey | Dstu4145Key | OtherKey(code: int)

  datatype SignAlgorithm = EcdsaWithSha | RsaWithSha | Dstu4145WithDstu7564

  datatype HashAlgorithm = Sha256 | Dstu7564_256

  /** The effect of one native call: the error it raises, or what it fills in. */
  datatype Reply<+T> = Fills(value: T) | Fails(code: int)

  /** The two output lists of AppendValidationDataToSignerEx: base64 text and raw bytes. */
  datatype ValidationData = ValidationData(asText: seq<string>, asBytes: seq<Bytes>)

  /** How the native library answers each call. */
  datatype Script = Script(
    ctxCreate: Reply<Handle>,
    readPrivateKey: Reply<Handle>,
    ownCertificate: Reply<seq<Bytes>>,
    parseCertificate: Reply<Option<KeyType>>,
    hashData: Reply<seq<Bytes>>,
    createSigner: Reply<seq<Bytes>>,
    validationData: Reply<ValidationData>,
    createEmptySignFile: Reply<Bytes>,
    appendSignerFile: Reply<Bytes>,
    freePrivateKey: Reply<()>,
    free: Reply<()>,
    load: Reply<()>,
    getInterface: Reply<()>,
    initialize: Reply<()>,
    cmpSettings: Reply<()>,
    ocspSettings: Reply<()>,
    tspSettings: Reply<()>,
    jksAliases: nat -> Reply<seq<string>>,
    jksPrivateKey: Reply<seq<Bytes>>,
    finalize: Reply<()>)

  /** One call received by the library, with the arguments that matter. */
  datatype Call =
    | EULoad
    | EUGetInterface
    | Initialize
    | SetCMPSettings
    | SetOCSPSettings
    | SetTSPSettings
    | CtxCreate
    | EnumJKSPrivateKeys(jks: Bytes, index: nat)
    | GetJKSPrivateKey(jks: Bytes, alias: string)
    | CtxReadPrivateKeyBinary(ctx: Handle, key: Bytes, password: Bytes)
    | CtxGetOwnCertificate(pk: Handle)
    | ParseCertificateEx(cert: Bytes)
    | CtxHashData(ctx: Handle, hash: HashAlgorithm, data: Bytes)
    | CtxCreateSignerEx(pk: Handle, sign: SignAlgorithm, digest: Bytes)
    | AppendValidationDataToSignerEx(signer: Bytes, cert: Bytes)
    | CtxCreateEmptySignFile(ctx: Handle, sign: SignAlgorithm, cert: Bytes, path: Path)
    | CtxAppendSignerFile(ctx: Handle, sign: SignAlgorithm, signer: Bytes, cert: Bytes, path: Path)
    | CtxFreePrivateKey(pk: Handle)
    | CtxFree(ctx: Handle)
    | Finalize
    | EUUnload

  /** The position of each kind of call in the fixed order of the signing protocol. */
  function Stage(c: Call): nat {
    match c
    case EULoad => 0
    case EUGetInterface => 1
    case Initialize => 2
    case SetCMPSettings => 3
    case SetOCSPSettings => 4
    case SetTSPSettings => 5
    case CtxCreate => 6
    case EnumJKSPrivateKeys(_, _) => 7
    case GetJKSPrivateKey(_, _) => 8
    case CtxReadPrivateKeyBinary(_, _, _) => 9
    case CtxGetOwnCertificate(_) => 10
    case ParseCertificateEx(_) => 11
    case CtxHashData(_, _, _) => 12
    case CtxCreateSignerEx(_, _, _) => 13
    case AppendValidationDataToSignerEx(_, _) => 14
    case CtxCreateEmptySignFile(_, _, _, _) => 15
    case CtxAppendSignerFile(_, _, _, _, _) => 16
    case CtxFreePrivateKey(_) => 17
    case CtxFree(_) => 18
    case Finalize => 19
    case EUUnload => 20
  }

  /** Calls follow the protocol order, each kind at most once. */
  predicate InOrder(calls: seq<Call>) {
    forall i, j :: 0 <= i < j < |calls| ==> Stage(calls[i]) < Stage(calls[j])
  }

  /** The signer was appended to a container file. */
  predicate Appended(calls: seq<Call>) {
    exists c :: c in calls && c.CtxAppendSignerFile?
  }

  /** Every call lies between stage `lo` and stage `hi`. */
  predicate StagesWithin(calls: seq<Call>, lo: nat, hi: nat) {
    forall c :: c in calls ==> lo <= Stage(c) <= hi
  }

  /** One or two calls, the second later than the first, within `lo..hi`, are an ordered run. */
  lemma ShortInOrder(calls: seq<Call>, lo: nat, hi: nat)
    requires 1 <= |calls| <= 2 && lo <= Stage(calls[0]) && Stage(calls[|calls| - 1]) <= hi
    requires |calls| == 2 ==> Stage(calls[0]) < Stage(calls[1])
    ensures InOrder(calls) && StagesWithin(calls, lo, hi)
  {
    forall c | c in calls ensures lo <= Stage(c) <= hi {
      if c != calls[0] {
        assert c == calls[1];
      }
    }
  }

  /** Regrouping three runs of calls. */
  lemma JoinCalls(a: seq<Call>, b: seq<Call>, c: seq<Call>)
    ensures a + (b + c) == a + b + c
  {
  }

  /** The signer was appended in a joined run exactly when it was appended in one of its parts. */
  lemma AppendedJoin(a: seq<Call>, b: seq<Call>)
    ensures Appended(a + b) <==> Appended(a) || Appended(b)
  {
    if Appended(a + b) {
      var c :| c in a + b && c.CtxAppendSignerFile?;
      assert c in a || c in b;
    }
    if Appended(a) {
      var c :| c in a && c.CtxAppendSignerFile?;
      assert c in a + b;
    }
    if Appended(b) {
      var c :| c in b && c.CtxAppendSignerFile?;
      assert c in a + b;
    }
  }

  /** Calls staged wholly before or wholly after the append do not append. */
  lemma NotAppended(calls: seq<Call>, lo: nat, hi: nat)
    requires StagesWithin(calls, lo, hi) && (hi < 16 || 16 < lo)
    ensures !Appended(calls)
  {
    forall c | c in calls ensures !c.CtxAppendSignerFile? {
      assert lo <= Stage(c) <= hi;
    }
  }

  /** Two ordered runs of calls, the second wholly later than the first, make one ordered run. */
  lemma InOrderJoin(a: seq<Call>, b: seq<Call>, lo: nat, mid: nat, hi: nat)
    requires lo <= mid < hi
    requires InOrder(a) && StagesWithin(a, lo, mid)
    requires InOrder(b) && StagesWithin(b, mid + 1, hi)
    ensures InOrder(a + b) && StagesWithin(a + b, lo, hi)
  {
    var ab := a + b;
    assert forall c :: c in ab ==> c in a || c in b;
    forall i, j | 0 <= i < j < |ab| ensures Stage(ab[i]) < Stage(ab[j]) {
      if j < |a| {
        assert ab[i] == a[i] && ab[j] == a[j];
      } else if |a| <= i {
        assert ab[i] == b[i - |a|] && ab[j] == b[j - |a|];
      } else {
        assert ab[i] == a[i] && a[i] in a;
        assert ab[j] == b[j - |a|] && b[j - |a|] in b;
      }
    }
  }

  /** The files on disk, by path. */
  class Disk {
    var files: map<Path, Bytes>

    constructor (files: map<Path, Bytes>)
      ensures this.files == files
    {
      this.files := files;
    }
  }

  /** `open(path, "rb").read()`. */
  function ReadFile(files: map<Path, Bytes>, path: Path): (r: Outcome<Bytes>)
    ensures r.Ok? <==> path in files
    ensures r.Ok? ==> r.value == files[path]
    ensures r.Raised? ==> r.error == FileNotFound(path)
  {
    if path in files then Ok(files[path]) else Raised(FileNotFound(path))
  }

  /** The native interface object (`iface`). */
  class Provider {
    const script: Script
    var trace: seq<Call>

    constructor (script: Script)
      ensures this.script == script && trace == []
    {
      this.script := script;
      trace := [];
    }

    method Record(c: Call)
      modifies this
      ensures trace == old(trace) + [c]
    {
      trace := trace + [c];
    }

    method EULoadLibrary() returns (r: Reply<()>)
      modifies this
      ensures trace == old(trace) + [Call.EULoad] && r == script.load
    {
      Record(Call.EULoad);
      r := script.load;
    }

    method GetInterface() returns (r: Reply<()>)
      modifies this
      ensures trace == old(trace) + [Call.EUGetInterface] && r == script.getInterface
    {
      Record(Call.EUGetInterface);
      r := script.getInterface;
    }

    method InitializeLibrary() returns (r: Reply<()>)
      modifies this
      ensures trace == old(trace) + [Call.Initialize] && r == script.initialize
    {
      Record(Call.Initialize);
      r := script.initialize;
    }

    method CmpSettings() returns (r: Reply<()>)
      modifies this
      ensures trace == old(trace) + [Call.SetCMPSettings] && r == script.cmpSettings
    {
      Record(Call.SetCMPSettings);
      r := script.cmpSettings;
    }

    method OcspSettings() returns (r: Reply<()>)
      modifies this
      ensures trace == old(trace) + [Call.SetOCSPSettings] && r == script.ocspSettings
    {
      Record(Call.SetOCSPSettings);
      r := script.ocspSettings;
    }

    method TspSettings() returns (r: Reply<()>)
      modifies this
      ensures trace == old(trace) + [Call.SetTSPSettings] && r == script.tspSettings
    {
      Record(Call.SetTSPSettings);
      r := script.tspSettings;
    }

    method CreateContext() returns (r: Reply<Handle>)
      modifies this
      ensures trace == old(trace) + [Call.CtxCreate] && r == script.ctxCreate
    {
      Record(Call.CtxCreate);
      r := script.ctxCreate;
    }

    method EnumAliases(jks: Bytes, index: nat) returns (r: Reply<seq<string>>)
      modifies this
      ensures trace == old(trace) + [Call.EnumJKSPrivateKeys(jks, index)] && r == script.jksAliases(index)
    {
      Record(Call.EnumJKSPrivateKeys(jks, index));
      r := script.jksAliases(index);
    }

    method JksPrivateKey(jks: Bytes, alias: string) returns (r: Reply<seq<Bytes>>)
      modifies this
      ensures trace == old(trace) + [Call.GetJKSPrivateKey(jks, alias)] && r == script.jksPrivateKey
    {
      Record(Call.GetJKSPrivateKey(jks, alias));
      r := script.jksPrivateKey;
    }

    method ReadPrivateKey(ctx: Handle, key: Bytes, password: Bytes) returns (r: Reply<Handle>)
      modifies this
      ensures trace == old(trace) + [Call.CtxReadPrivateKeyBinary(ctx, key, password)]
      ensures r == script.readPrivateKey
    {
      Record(Call.CtxReadPrivateKeyBinary(ctx, key, password));
      r := script.readPrivateKey;
    }

    method OwnCertificate(pk: Handle) returns (r: Reply<seq<Bytes>>)
      modifies this
      ensures trace == old(trace) + [Call.CtxGetOwnCertificate(pk)] && r == script.ownCertificate
    {
      Record(Call.CtxGetOwnCertificate(pk));
      r := script.ownCertificate;
    }

    method ParseCertificate(cert: Bytes) returns (r: Reply<Option<KeyType>>)
      modifies this
      ensures trace == old(trace) + [Call.ParseCertificateEx(cert)] && r == script.parseCertificate
    {
      Record(Call.ParseCertificateEx(cert));
      r := script.parseCertificate;
    }

    method HashData(ctx: Handle, hash: HashAlgorithm, data: Bytes) returns (r: Reply<seq<Bytes>>)
      modifies this
      ensures trace == old(trace) + [Call.CtxHashData(ctx, hash, data)] && r == script.hashData
    {
      Record(Call.CtxHashData(ctx, hash, data));
      r := script.hashData;
    }

    method CreateSigner(pk: Handle, sign: SignAlgorithm, digest: Bytes) returns (r: Reply<seq<Bytes>>)
      modifies this
      ensures trace == old(trace) + [Call.CtxCreateSignerEx(pk, sign, digest)] && r == script.createSigner
    {
      Record(Call.CtxCreateSignerEx(pk, sign, digest));
      r := script.createSigner;
    }

    method AppendValidationData(signer: Bytes, cert: Bytes) returns (r: Reply<ValidationData>)
      modifies this
      ensures trace == old(trace) + [Call.AppendValidationDataToSignerEx(signer, cert)]
      ensures r == script.validationData
    {
      Record(Call.AppendValidationDataToSignerEx(signer, cert));
      r := script.validationData;
    }

    /** Writes the empty detached container at `path` when it succeeds. */
    method CreateEmptySignFile(disk: Disk, ctx: Handle, sign: SignAlgorithm, cert: Bytes, path: Path)
      returns (r: Reply<Bytes>)
      modifies this, disk
      ensures trace == old(trace) + [Call.CtxCreateEmptySignFile(ctx, sign, cert, path)]
      ensures r == script.createEmptySignFile
      ensures disk.files == if r.Fills? then old(disk.files)[path := r.value] else old(disk.files)
    {
      Record(Call.CtxCreateEmptySignFile(ctx, sign, cert, path));
      r := script.createEmptySignFile;
      if r.Fills? {
        disk.files := disk.files[path := r.value];
      }
    }

    /** Rewrites the container at `path` with the signer appended when it succeeds. */
    method AppendSignerFile(disk: Disk, ctx: Handle, sign: SignAlgorithm, signer: Bytes, cert: Bytes, path: Path)
      returns (r: Reply<Bytes>)
      modifies this, disk
      ensures trace == old(trace) + [Call.CtxAppendSignerFile(ctx, sign, signer, cert, path)]
      ensures r == script.appendSignerFile
      ensures disk.files == if r.Fills? then old(disk.files)[path := r.value] else old(disk.files)
    {
      Record(Call.CtxAppendSignerFile(ctx, sign, signer, cert, path));
      r := script.appendSignerFile;
      if r.Fills? {
        disk.files := disk.files[path := r.value];
      }
    }

    method FreePrivateKey(pk: Handle) returns (r: Reply<()>)
      modifies this
      ensures trace == old(trace) + [Call.CtxFreePrivateKey(pk)] && r == script.freePrivateKey
    {
      Record(Call.CtxFreePrivateKey(pk));
      r := script.freePrivateKey;
    }

    method FreeContext(ctx: Handle) returns (r: Reply<()>)
      modifies this
      ensures trace == old(trace) + [Call.CtxFree(ctx)] && r == script.free
    {
      Record(Call.CtxFree(ctx));
      r := script.free;
    }

    method FinalizeLibrary() returns (r: Reply<()>)
      modifies this
      ensures trace == old(trace) + [Call.Finalize] && r == script.finalize
    {
      Record(Call.Finalize);
      r := script.finalize;
    }

    method Unload()
      modifies this
      ensures trace == old(trace) + [Call.EUUnload]
    {
      Record(Call.EUUnload);
    }
  }
}
