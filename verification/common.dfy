/** Types shared by both downloader versions: optional values, the Java
    exceptions the core can raise, and the log of effects on the outside
    world (fetches, merges, deletions) that stands in for network and file I/O. */
module Common {

  /** A Java reference that may be null. */
  datatype Option<+T> = None | Some(value: T)

  /** The unchecked Java exceptions the modelled code can throw. */
  datatype Fault =
    | NoSuchElement           // Deque.remove() on an empty deque
    | IndexOutOfBounds        // List.get(i) with i outside the list
    | StringIndexOutOfBounds  // String.substring with a negative begin index

  /** A value, or the exception that ended the computation. */
  datatype Result<+T> = Ok(value: T) | Err(fault: Fault)

  /** Directory the parts are downloaded into (DOWNLOADS_PATH). */
  const DownloadsPath: string := "downloads"

  /** An effect on the outside world, in the order the core performs it.
      `Fetch` is a call of downloadByURL together with the boolean it
      returned; `Merge` is a call of SplitAndMerge.mergeFile, whose file
      argument is null when no name was polled; `Delete` is a call of
      deleteDownloadFile. */
  datatype Event =
    | Fetch(url: string, dest: string, ok: bool)
    | Merge(dir: string, file: Option<string>)
    | Delete(path: string)

  /** The deletions of `DownloadsPath + "/" + p` for every `p` of `names`, in order. */
  function DeleteAll(names: seq<string>): (r: seq<Event>)
    ensures |r| == |names|
    ensures forall i :: 0 <= i < |names| ==> r[i] == Delete(DownloadsPath + "/" + names[i])
  {
    if names == [] then []
    else [Delete(DownloadsPath + "/" + names[0])] + DeleteAll(names[1..])
  }

  /** Regrouping a three-way concatenation. */
  lemma Assoc<T>(a: seq<T>, b: seq<T>, c: seq<T>)
    ensures (a + b) + c == a + (b + c)
  {
  }
}
