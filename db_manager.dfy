/**
 * The ledger of files to sign: a table of rows keyed by `parent_folder/file_name`, each marked
 * signed or not. Rows are added for files that have none, marked signed one by one or in bulk,
 * and listed by status.
 */
module DbManager {
  import opened Common
  import opened Paths

  /** A row of the `files` table: its name, its key (`RelativePath`) and its `IsSigned` flag. */
  datatype Row = Row(name: string, relativePath: string, isSigned: bool)

  /**
   * `.filter_by(RelativePath=key).first()`: the position of the first row with that key. Keys
   * match exactly and rows are taken in insertion order; the column's case-insensitive collation
   * and the unordered `.first()` are not modelled.
   */
  function FirstWith(rows: seq<Row>, key: string): (r: Option<nat>)
    ensures r.None? <==> forall i :: 0 <= i < |rows| ==> rows[i].relativePath != key
    ensures r.Some? ==> && r.value < |rows| && rows[r.value].relativePath == key
                        && forall j :: 0 <= j < r.value ==> rows[j].relativePath != key
  {
    if rows == [] then None
    else if rows[0].relativePath == key then Some(0)
    else
      match FirstWith(rows[1..], key)
      case None => None
      case Some(i) => Some(i + 1)
  }

  predicate Present(rows: seq<Row>, key: string) {
    FirstWith(rows, key).Some?
  }

  /** The paths, in order, whose key has no row in `rows`. */
  function Absent(rows: seq<Row>, paths: seq<Path>): (r: seq<Path>)
    ensures |r| <= |paths|
  {
    if paths == [] then []
    else
      var last := paths[|paths| - 1];
      Absent(rows, paths[..|paths| - 1]) + (if Present(rows, LedgerKey(last)) then [] else [last])
  }

  /** Exactly the paths without a row are absent. */
  lemma {:induction false} AbsentMembers(rows: seq<Row>, paths: seq<Path>)
    ensures forall p :: p in Absent(rows, paths) <==> p in paths && !Present(rows, LedgerKey(p))
  {
    if paths != [] {
      AbsentMembers(rows, paths[..|paths| - 1]);
      assert forall p :: p in paths <==> p in paths[..|paths| - 1] || p == paths[|paths| - 1];
    }
  }

  /** The keys of some paths, in order. */
  function Keys(paths: seq<Path>): (r: seq<string>)
    ensures |r| == |paths| && forall i :: 0 <= i < |paths| ==> r[i] == LedgerKey(paths[i])
  {
    seq(|paths|, i requires 0 <= i < |paths| => LedgerKey(paths[i]))
  }

  /** The new, unsigned rows for some paths, in order. */
  function NewRows(paths: seq<Path>): (r: seq<Row>)
    ensures |r| == |paths|
    ensures forall i :: 0 <= i < |paths| ==> r[i] == Row(Name(paths[i]), LedgerKey(paths[i]), false)
  {
    seq(|paths|, i requires 0 <= i < |paths| => Row(Name(paths[i]), LedgerKey(paths[i]), false))
  }

  /** `mark_file_as_signed` on the table: the first row with the key becomes signed. */
  function MarkFirst(rows: seq<Row>, key: string): (r: seq<Row>)
    ensures |r| == |rows|
    ensures forall i :: 0 <= i < |rows| ==> r[i].name == rows[i].name && r[i].relativePath == rows[i].relativePath
    ensures forall i :: 0 <= i < |rows| && FirstWith(rows, key) != Some(i) ==> r[i] == rows[i]
    ensures Present(rows, key) ==> r[FirstWith(rows, key).value].isSigned
  {
    match FirstWith(rows, key)
    case None => rows
    case Some(i) => rows[i := rows[i].(isSigned := true)]
  }

  /** Marking the keys one after the other. */
  function MarkAll(rows: seq<Row>, keys: seq<string>): seq<Row> {
    if keys == [] then rows else MarkFirst(MarkAll(rows, keys[..|keys| - 1]), keys[|keys| - 1])
  }

  /** How many of the keys, repeats included, have a row. */
  function CountPresent(rows: seq<Row>, keys: seq<string>): nat {
    if keys == [] then 0
    else CountPresent(rows, keys[..|keys| - 1]) + (if Present(rows, keys[|keys| - 1]) then 1 else 0)
  }

  /** The rows with the given status, in table order. */
  function WithStatus(rows: seq<Row>, signed: bool): (r: seq<Row>)
    ensures forall x :: x in r <==> x in rows && x.isSigned == signed
  {
    if rows == [] then []
    else
      assert forall x :: x in rows <==> x == rows[0] || x in rows[1..];
      (if rows[0].isSigned == signed then [rows[0]] else []) + WithStatus(rows[1..], signed)
  }

  // ---------------------------------------------------------------------------------------
  // What the ledger guarantees

  /** Marking changes no key, so it changes which keys have rows for no key. */
  lemma MarkKeepsKeys(rows: seq<Row>, key: string, other: string)
    ensures Present(MarkFirst(rows, key), other) <==> Present(rows, other)
    ensures FirstWith(MarkFirst(rows, key), other) == FirstWith(rows, other)
  {
  }

  /** Marking a key twice is marking it once. */
  lemma MarkIdempotent(rows: seq<Row>, key: string)
    ensures MarkFirst(MarkFirst(rows, key), key) == MarkFirst(rows, key)
  {
    MarkKeepsKeys(rows, key, key);
  }

  /** Bulk marking leaves, for every key, whether it has a row and which row is its first, unchanged. */
  lemma {:induction false} MarkAllKeepsKeys(rows: seq<Row>, keys: seq<string>, other: string)
    ensures Present(MarkAll(rows, keys), other) <==> Present(rows, other)
    ensures FirstWith(MarkAll(rows, keys), other) == FirstWith(rows, other)
  {
    if keys != [] {
      MarkAllKeepsKeys(rows, keys[..|keys| - 1], other);
      MarkKeepsKeys(MarkAll(rows, keys[..|keys| - 1]), keys[|keys| - 1], other);
    }
  }

  /**
   * Bulk marking keeps the table's shape: the same number of rows with the same names and keys;
   * a signed row stays signed; a row that is not the first row of a listed key is unchanged.
   */
  lemma {:induction false} MarkAllShape(rows: seq<Row>, keys: seq<string>)
    ensures var r := MarkAll(rows, keys);
      && |r| == |rows|
      && (forall i :: 0 <= i < |rows| ==> r[i].name == rows[i].name && r[i].relativePath == rows[i].relativePath)
      && (forall i :: 0 <= i < |rows| && rows[i].isSigned ==> r[i].isSigned)
      && (forall i :: 0 <= i < |rows| && (forall k :: k in keys ==> FirstWith(rows, k) != Some(i)) ==> r[i] == rows[i])
  {
    if keys != [] {
      var init, last := keys[..|keys| - 1], keys[|keys| - 1];
      MarkAllShape(rows, init);
      MarkAllKeepsKeys(rows, init, last);
      assert forall k :: k in init ==> k in keys;
    }
  }

  /** Bulk marking signs the first row of every listed key that has one. */
  lemma {:induction false} MarkAllSigns(rows: seq<Row>, keys: seq<string>, k: string)
    requires k in keys && Present(rows, k)
    ensures FirstWith(rows, k).value < |MarkAll(rows, keys)|
    ensures MarkAll(rows, keys)[FirstWith(rows, k).value].isSigned
  {
    var init, last := keys[..|keys| - 1], keys[|keys| - 1];
    var marked := MarkAll(rows, init);
    var i := FirstWith(rows, k).value;
    assert MarkAll(rows, keys) == MarkFirst(marked, last);
    MarkAllKeepsKeys(rows, init, k);
    assert FirstWith(marked, k) == Some(i);
    if k != last {
      assert k in init by {
        assert keys == init + [last];
      }
      MarkAllSigns(rows, init, k);
      assert marked[i].isSigned;
    }
  }

  /** A key listed twice is counted twice. */
  lemma RepeatedKeyCountedTwice(rows: seq<Row>, key: string)
    requires Present(rows, key)
    ensures CountPresent(rows, [key, key]) == 2
  {
    assert [key, key][..1] == [key];
    assert [key][..0] == [];
    assert CountPresent(rows, [key]) == 1;
  }

  /** Adding the rows for the absent paths leaves every path with a row. */
  lemma AddedPathsPresent(rows: seq<Row>, paths: seq<Path>)
    ensures forall p :: p in paths ==> Present(rows + NewRows(Absent(rows, paths)), LedgerKey(p))
  {
    var added := NewRows(Absent(rows, paths));
    AbsentMembers(rows, paths);
    forall p | p in paths ensures Present(rows + added, LedgerKey(p)) {
      if !Present(rows, LedgerKey(p)) {
        var absent := Absent(rows, paths);
        assert p in absent;
        var i :| 0 <= i < |absent| && absent[i] == p;
        assert (rows + added)[|rows| + i].relativePath == LedgerKey(p);
      } else {
        var i := FirstWith(rows, LedgerKey(p)).value;
        assert (rows + added)[i] == rows[i];
      }
    }
  }

  /** A second call with the same paths finds them all and adds nothing. */
  lemma AddTwiceAddsNothing(rows: seq<Row>, paths: seq<Path>)
    ensures Absent(rows + NewRows(Absent(rows, paths)), paths) == []
  {
    AddedPathsPresent(rows, paths);
    AbsentWhenAllPresent(rows + NewRows(Absent(rows, paths)), paths);
  }

  lemma {:induction false} AbsentWhenAllPresent(rows: seq<Row>, paths: seq<Path>)
    requires forall p :: p in paths ==> Present(rows, LedgerKey(p))
    ensures Absent(rows, paths) == []
  {
    if paths != [] {
      assert forall p :: p in paths[..|paths| - 1] ==> p in paths;
      AbsentWhenAllPresent(rows, paths[..|paths| - 1]);
      assert paths[|paths| - 1] in paths;
    }
  }

  /** Every row is either signed or unsigned, never both: the two listings split the table. */
  lemma {:induction false} StatusesPartition(rows: seq<Row>)
    ensures multiset(WithStatus(rows, true)) + multiset(WithStatus(rows, false)) == multiset(rows)
  {
    if rows != [] {
      StatusesPartition(rows[1..]);
      assert rows == [rows[0]] + rows[1..];
    }
  }

  lemma AbsentStep(rows: seq<Row>, paths: seq<Path>, i: nat)
    requires i < |paths|
    ensures Absent(rows, paths[..i + 1])
            == Absent(rows, paths[..i]) + (if Present(rows, LedgerKey(paths[i])) then [] else [paths[i]])
  {
    assert paths[..i + 1][..i] == paths[..i];
  }

  lemma MarkStep(rows: seq<Row>, keys: seq<string>, i: nat, before: seq<Row>, after: seq<Row>, found: bool,
                 count: nat, next: nat)
    requires i < |keys|
    requires before == MarkAll(rows, keys[..i]) && count == CountPresent(rows, keys[..i])
    requires after == MarkFirst(before, keys[i]) && (found <==> Present(before, keys[i]))
    requires next == if found then count + 1 else count
    ensures after == MarkAll(rows, keys[..i + 1]) && next == CountPresent(rows, keys[..i + 1])
  {
    assert keys[..i + 1][..i] == keys[..i];
    MarkAllKeepsKeys(rows, keys[..i], keys[i]);
  }

  lemma RecordsStep(absent: seq<Path>, p: Path)
    ensures Keys(absent + [p]) == Keys(absent) + [LedgerKey(p)]
    ensures NewRows(absent + [p]) == NewRows(absent) + [Row(Name(p), LedgerKey(p), false)]
  {
  }

  // ---------------------------------------------------------------------------------------
  // The manager

  class DatabaseManager {
    /** The rows committed to the table, in insertion order. */
    var rows: seq<Row>

    /** Connect to a table holding `existing`; the engine and session set-up are not modelled. */
    constructor(existing: seq<Row>)
      ensures rows == existing
    {
      rows := existing;
    }

    /**
     * `add_files_for_signing`: look up each path's key in the committed table (the session does
     * not flush pending rows, so a repeated path is looked up against the table as it was).
     * Checking: report the absent keys and add nothing. Otherwise add an unsigned row per
     * absent path and return how many were added.
     */
    method AddFilesForSigning(filePaths: seq<Path>, isChecking: bool) returns (r: Outcome<nat>)
      modifies this
      ensures var absent := Absent(old(rows), filePaths);
        && (isChecking ==> rows == old(rows)
                           && r == (if absent == [] then Ok(0) else Raised(MissingRecords(Keys(absent)))))
        && (!isChecking ==> rows == old(rows) + NewRows(absent) && r == Ok(|absent|))
    {
      var missingRecords, pending, addedCount := LookUpPaths(filePaths, isChecking);
      if |missingRecords| > 0 {
        return Raised(MissingRecords(missingRecords));
      }
      // commit
      rows := rows + pending;
      r := Ok(addedCount);
    }

    /** The loop of `add_files_for_signing`: the keys it reports missing and the rows it stages. */
    method LookUpPaths(filePaths: seq<Path>, isChecking: bool)
      returns (missingRecords: seq<string>, pending: seq<Row>, addedCount: nat)
      ensures var absent := Absent(rows, filePaths);
        && (isChecking ==> missingRecords == Keys(absent) && pending == [] && addedCount == 0)
        && (!isChecking ==> missingRecords == [] && pending == NewRows(absent) && addedCount == |absent|)
    {
      addedCount := 0;
      missingRecords := [];
      pending := [];
      ghost var absent: seq<Path> := [];
      var i := 0;
      while i < |filePaths|
        invariant 0 <= i <= |filePaths|
        invariant absent == Absent(rows, filePaths[..i])
        invariant missingRecords == (if isChecking then Keys(absent) else [])
        invariant pending == (if isChecking then [] else NewRows(absent))
        invariant addedCount == (if isChecking then 0 else |absent|)
      {
        var path := filePaths[i];
        var formattedPath := LedgerKey(path);
        AbsentStep(rows, filePaths, i);
        RecordsStep(absent, path);
        if FirstWith(rows, formattedPath).None? {
          absent := absent + [path];
          if isChecking {
            missingRecords := missingRecords + [formattedPath];
          } else {
            pending := pending + [Row(Name(path), formattedPath, false)];
            addedCount := addedCount + 1;
          }
        }
        i := i + 1;
      }
      assert filePaths[..i] == filePaths;
    }

    /** `mark_file_as_signed`: mark the first row with the key; true exactly when there is one. */
    method MarkFileAsSigned(filePath: string) returns (found: bool)
      modifies this
      ensures found <==> Present(old(rows), filePath)
      ensures rows == MarkFirst(old(rows), filePath)
    {
      var record := FirstWith(rows, filePath);
      if record.Some? {
        rows := rows[record.value := rows[record.value].(isSigned := true)];
        return true;
      }
      return false;
    }

    /** `mark_multiple_files_as_signed`: mark each key in turn and count those found. */
    method MarkMultipleFilesAsSigned(filePaths: seq<string>) returns (updatedCount: nat)
      modifies this
      ensures updatedCount == CountPresent(old(rows), filePaths)
      ensures rows == MarkAll(old(rows), filePaths)
    {
      updatedCount := 0;
      ghost var start := rows;
      var i := 0;
      while i < |filePaths|
        invariant 0 <= i <= |filePaths|
        invariant rows == MarkAll(start, filePaths[..i])
        invariant updatedCount == CountPresent(start, filePaths[..i])
      {
        ghost var before := rows;
        ghost var count := updatedCount;
        var marked := MarkFileAsSigned(filePaths[i]);
        if marked {
          updatedCount := updatedCount + 1;
        }
        MarkStep(start, filePaths, i, before, rows, marked, count, updatedCount);
        i := i + 1;
      }
      assert filePaths[..i] == filePaths;
    }

    /** `get_unsigned_files`. */
    method GetUnsignedFiles() returns (files: seq<Row>)
      ensures forall x :: x in files <==> x in rows && !x.isSigned
      ensures files == WithStatus(rows, false)
    {
      files := WithStatus(rows, false);
    }

    /** `get_signed_files`. */
    method GetSignedFiles() returns (files: seq<Row>)
      ensures forall x :: x in files <==> x in rows && x.isSigned
      ensures files == WithStatus(rows, true)
    {
      files := WithStatus(rows, true);
    }

    /** `get_all_files`: every row, in table order. */
    method GetAllFiles() returns (files: seq<Row>)
      ensures files == rows
      ensures multiset(files) == multiset(WithStatus(rows, true)) + multiset(WithStatus(rows, false))
    {
      StatusesPartition(rows);
      files := rows;
    }
  }
}
