/**
 * A directory as the batch code sees it through `Path.iterdir()`: a sequence of entries in
 * listing order, each a regular file or a sub-directory with its own entries.
 */
module FileTree {
  import opened Common
  import opened Paths

  datatype Node = File(data: Bytes) | Folder(entries: seq<Entry>)

  datatype Entry = Entry(name: string, node: Node)

  /** `[item for item in dir.iterdir() if item.is_dir()]`: the sub-directories, in listing order. */
  function Subfolders(entries: seq<Entry>): (r: seq<Entry>)
    ensures |r| <= |entries|
    ensures forall e :: e in r <==> e in entries && e.node.Folder?
  {
    if entries == [] then []
    else (if entries[0].node.Folder? then [entries[0]] else []) + Subfolders(entries[1..])
  }
}
