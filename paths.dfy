/**
 * The part of pathlib / os.path the signer relies on: a path is the sequence of its
 * components, the empty sequence standing for the empty (falsy) path string.
 */
module Paths {

  datatype Path = Path(parts: seq<string>)

  /** The truth value of the path string in a Python `if`: only "" is false. */
  predicate IsSet(p: Path) {
    p.parts != []
  }

  /** `Path(p).name` and `os.path.basename(p)`: the last component, "" when there is none. */
  function Name(p: Path): string {
    if p.parts == [] then "" else p.parts[|p.parts| - 1]
  }

  /** `Path(p).parent` and `os.path.dirname(p)`. */
  function Parent(p: Path): Path {
    if p.parts == [] then p else Path(p.parts[..|p.parts| - 1])
  }

  /** `dir / name` (what `iterdir` yields for an entry called `name`). */
  function Child(dir: Path, name: string): (r: Path)
    ensures Name(r) == name && Parent(r) == dir
    ensures |r.parts| == |dir.parts| + 1
  {
    assert Path(dir.parts + [name]).parts[..|dir.parts|] == dir.parts;
    Path(dir.parts + [name])
  }

  /** `os.path.join(dir, rel)` for a relative `rel`. */
  function Join(dir: Path, rel: Path): (r: Path)
    ensures |r.parts| == |dir.parts| + |rel.parts|
    ensures r.parts[..|dir.parts|] == dir.parts && r.parts[|dir.parts|..] == rel.parts
  {
    Path(dir.parts + rel.parts)
  }

  /** `os.path.relpath(p, base)` for a path lying under `base`. */
  function RelPath(p: Path, base: Path): (r: Path)
    requires base.parts <= p.parts
    ensures Join(base, r) == p
  {
    Path(p.parts[|base.parts|..])
  }

  /**
   * String concatenation `p + ext` on the path string: the text is glued onto the last
   * component, so the result lies in the same directory under a longer name.
   */
  function AddExtension(p: Path, ext: string): (r: Path)
    ensures Parent(r) == Parent(p) && Name(r) == Name(p) + ext
    ensures |r.parts| == if p.parts == [] then 1 else |p.parts|
  {
    if p.parts == [] then Path([ext]) else Path(Parent(p).parts + [Name(p) + ext])
  }

  /** `f"{path.parent.name}/{path.name}"`: the key the ledger and the tasks use for a file. */
  function LedgerKey(p: Path): string {
    Name(Parent(p)) + "/" + Name(p)
  }

  /** A directory entry name: not empty and free of the separator. */
  predicate ValidName(n: string) {
    n != "" && '/' !in n
  }

  /** `s.rfind(c)`: the index of the last occurrence of `c`, or -1. */
  function RFind(s: string, c: char): (i: int)
    ensures -1 <= i < |s|
    ensures 0 <= i ==> s[i] == c
    ensures forall k :: i < k < |s| ==> s[k] != c
  {
    if s == [] then -1
    else if s[|s| - 1] == c then |s| - 1
    else RFind(s[..|s| - 1], c)
  }

  /**
   * `PurePath(name).suffix`: from the last dot to the end, provided that dot is neither the
   * first nor the last character; otherwise "".
   */
  function Suffix(name: string): (r: string)
    ensures r == "" || (2 <= |r| < |name| && r[0] == '.' && r == name[|name| - |r|..])
    ensures forall k :: 1 <= k < |r| ==> r[k] != '.'
  {
    var i := RFind(name, '.');
    if 0 < i < |name| - 1 then name[i..] else ""
  }

  /** `str.lower()` restricted to ASCII letters. */
  function LowerChar(c: char): char {
    if 'A' <= c <= 'Z' then (c as int + 32) as char else c
  }

  function Lower(s: string): (r: string)
    ensures |r| == |s|
    ensures forall k :: 0 <= k < |r| ==> !('A' <= r[k] <= 'Z')
    ensures forall k :: 0 <= k < |r| ==> r[k] == LowerChar(s[k])
  {
    seq(|s|, k requires 0 <= k < |s| => LowerChar(s[k]))
  }

  /** The extension of every detached signature container. */
  const SignatureExtension: string := ".p7s"

  /** A file name whose lower-cased suffix is `.p7s`. */
  predicate IsSignatureName(name: string) {
    Lower(Suffix(name)) == SignatureExtension
  }

  /** Two paths sharing a ledger key share their file name and their parent's name. */
  lemma LedgerKeyInjective(p: Path, q: Path)
    requires '/' !in Name(Parent(p)) && '/' !in Name(Parent(q))
    requires LedgerKey(p) == LedgerKey(q)
    ensures Name(p) == Name(q) && Name(Parent(p)) == Name(Parent(q))
  {
    SplitAtFirstSlash(Name(Parent(p)), Name(p), Name(Parent(q)), Name(q));
  }

  lemma SplitAtFirstSlash(a: string, b: string, c: string, d: string)
    requires '/' !in a && '/' !in c
    requires a + "/" + b == c + "/" + d
    ensures a == c && b == d
  {
    var s := a + "/" + b;
    var t := c + "/" + d;
    assert forall k :: 0 <= k < |a| ==> s[k] == a[k] && s[k] != '/';
    assert forall k :: 0 <= k < |c| ==> t[k] == c[k] && t[k] != '/';
    assert s[|a|] == '/' && t[|c|] == '/';
    assert |a| == |c|;
    assert a == s[..|a|] == c;
    assert b == s[|a| + 1..] == d;
  }

  /** Gluing `.` + `ext` (no dot in `ext`) onto a non-empty stem makes it the suffix. */
  lemma SuffixOfExtended(stem: string, ext: string)
    requires stem != "" && ext != "" && '.' !in ext
    ensures Suffix(stem + "." + ext) == "." + ext
  {
    var s := stem + "." + ext;
    var i := RFind(s, '.');
    assert s[|stem|] == '.';
    if i != |stem| {
      assert false;
    }
    assert s[i..] == "." + ext;
  }

  /** The name of `target + ".p7s"` is a signature name whenever the target has a name. */
  lemma ContainerNameIsSignature(p: Path)
    requires Name(p) != ""
    ensures IsSignatureName(Name(AddExtension(p, SignatureExtension)))
  {
    assert Name(p) + SignatureExtension == Name(p) + "." + "p7s";
    SuffixOfExtended(Name(p), "p7s");
    var r := Lower(SignatureExtension);
    assert r[0] == '.' && r[1] == 'p' && r[2] == '7' && r[3] == 's';
    assert r == SignatureExtension;
  }

  /** An allowed extension with an upper-case letter is never the lower-cased suffix of any name. */
  lemma UpperCaseExtensionNeverMatches(ext: string, name: string, k: nat)
    requires k < |ext| && 'A' <= ext[k] <= 'Z'
    ensures Lower(Suffix(name)) != ext
  {
    var r := Lower(Suffix(name));
    if r == ext {
      assert false;
    }
  }
}
