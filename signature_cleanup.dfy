/**
 * `remove_signed_files`: in every sub-directory of a root folder, unlink the regular files whose
 * lower-cased suffix is `.p7s`. Files at the root and anything deeper are left alone.
 */
module SignatureCleanup {
  import opened Common
  import opened Paths
  import opened FileTree

  /** `item.is_file() and item.suffix.lower() == ".p7s"`. */
  predicate IsSignatureFile(e: Entry) {
    e.node.File? && IsSignatureName(e.name)
  }

  /** A directory's entries once its signature files are unlinked, in listing order. */
  function WithoutSignatures(entries: seq<Entry>): (r: seq<Entry>)
    ensures |r| <= |entries|
  {
    if entries == [] then []
    else (if IsSignatureFile(entries[0]) then [] else [entries[0]]) + WithoutSignatures(entries[1..])
  }

  /** Exactly the entries that are not signature files remain. */
  lemma {:induction false} WithoutSignaturesKeeps(entries: seq<Entry>)
    ensures forall e :: e in WithoutSignatures(entries) <==> e in entries && !IsSignatureFile(e)
  {
    if entries != [] {
      WithoutSignaturesKeeps(entries[1..]);
      assert forall e :: e in entries <==> e == entries[0] || e in entries[1..];
    }
  }

  /** One root entry after the cleanup: a sub-directory loses its signature files. */
  function StripEntry(e: Entry): Entry {
    if e.node.Folder? then Entry(e.name, Folder(WithoutSignatures(e.node.entries))) else e
  }

  /**
   * The root's entries after the cleanup: the same entries under the same names; files at the
   * root unchanged; each sub-directory holding exactly its entries that are not signature files.
   */
  function Stripped(entries: seq<Entry>): (r: seq<Entry>)
    ensures |r| == |entries|
    ensures forall i :: 0 <= i < |entries| ==> r[i].name == entries[i].name && r[i].node.Folder? == entries[i].node.Folder?
    ensures forall i :: 0 <= i < |entries| && entries[i].node.File? ==> r[i] == entries[i]
    ensures forall i :: 0 <= i < |entries| && entries[i].node.Folder? ==>
              forall f :: f in r[i].node.entries <==> f in entries[i].node.entries && !IsSignatureFile(f)
  {
    forall i | 0 <= i < |entries| && entries[i].node.Folder? {
      WithoutSignaturesKeeps(entries[i].node.entries);
    }
    seq(|entries|, i requires 0 <= i < |entries| => StripEntry(entries[i]))
  }

  lemma {:induction false} WithoutSignaturesIdempotent(entries: seq<Entry>)
    ensures WithoutSignatures(WithoutSignatures(entries)) == WithoutSignatures(entries)
  {
    if entries != [] {
      WithoutSignaturesIdempotent(entries[1..]);
      if !IsSignatureFile(entries[0]) {
        var kept := WithoutSignatures(entries);
        assert kept == [entries[0]] + WithoutSignatures(entries[1..]);
        assert kept[0] == entries[0] && kept[1..] == WithoutSignatures(entries[1..]);
        assert !IsSignatureFile(kept[0]);
        assert WithoutSignatures(kept) == [kept[0]] + WithoutSignatures(kept[1..]);
        assert WithoutSignatures(kept) == [entries[0]] + WithoutSignatures(entries[1..]);
      } else {
        assert WithoutSignatures(entries) == [] + WithoutSignatures(entries[1..]);
        assert [] + WithoutSignatures(entries[1..]) == WithoutSignatures(entries[1..]);
      }
    }
  }

  /** Running the cleanup a second time changes nothing. */
  lemma StrippedIdempotent(entries: seq<Entry>)
    ensures Stripped(Stripped(entries)) == Stripped(entries)
  {
    forall i | 0 <= i < |entries| ensures Stripped(Stripped(entries))[i] == Stripped(entries)[i] {
      if entries[i].node.Folder? {
        WithoutSignaturesIdempotent(entries[i].node.entries);
      }
    }
  }

  /** The container `name + ".p7s"` the signer writes next to a document is removed by the cleanup. */
  lemma ContainerIsRemoved(name: string, data: Bytes)
    requires name != ""
    ensures IsSignatureFile(Entry(name + SignatureExtension, File(data)))
  {
    ContainerNameIsSignature(Path([name]));
    assert Name(AddExtension(Path([name]), SignatureExtension)) == name + SignatureExtension;
  }

  /**
   * The suffix is compared lower-cased: a file `name.ext` is a signature file exactly when its
   * extension is `p7s` in any mix of cases, so an upper-case `.P7S` container is removed as well.
   */
  lemma SignatureFileAnyCase(name: string, ext: string, data: Bytes)
    requires name != "" && ext != "" && '.' !in ext
    ensures IsSignatureFile(Entry(name + "." + ext, File(data))) <==> Lower(ext) == "p7s"
  {
    SuffixOfExtended(name, ext);
    var lowered, tail := Lower("." + ext), Lower(ext);
    assert forall k :: 1 <= k < |lowered| ==> lowered[k] == tail[k - 1];
    assert lowered[0] == '.';
    assert lowered == "." + tail;
    assert SignatureExtension == "." + "p7s";
    assert lowered[1..] == tail;
  }

  /** The folder being cleaned: the entries of the root directory, updated in place. */
  class Volume {
    var entries: seq<Entry>

    constructor(entries: seq<Entry>)
      ensures this.entries == entries
    {
      this.entries := entries;
    }
  }

  /** `remove_signed_files`: visit the sub-directories in listing order, unlinking their signature files. */
  method RemoveSignedFiles(volume: Volume)
    modifies volume
    ensures volume.entries == Stripped(old(volume.entries))
  {
    var i := 0;
    while i < |volume.entries|
      invariant 0 <= i <= |volume.entries| == |old(volume.entries)|
      invariant forall j :: 0 <= j < i ==> volume.entries[j] == StripEntry(old(volume.entries)[j])
      invariant forall j :: i <= j < |volume.entries| ==> volume.entries[j] == old(volume.entries)[j]
    {
      var item := volume.entries[i];
      if item.node.Folder? {
        var kept := WithoutSignatures(item.node.entries);
        volume.entries := volume.entries[i := Entry(item.name, Folder(kept))];
      }
      i := i + 1;
    }
    assert volume.entries == Stripped(old(volume.entries));
  }
}
