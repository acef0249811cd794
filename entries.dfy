/**
 * The values the crawler passes around: a directory entry as the listing
 * port reports it, the record the file writer emits for it, the items of the
 * two work queues, and what one listing call can answer.
 * Also the partition of a listing into directory tasks and file tasks,
 * which both the root seeding and the worker perform.
 */
module Entries {

  /** One octet. Names are carried already encoded; their encoding is not modelled. */
  type byte = b: int | 0 <= b < 256

  /** A path string queued for listing, and the opaque identity a listing returns. */
  type Path = string
  type PathId = string

  /** The File record: name, size, modification time, parent path, directory flag. */
  datatype Entry = Entry(name: seq<byte>, size: int, mtime: int, path: Path, isDir: bool)

  /** The four fields File.to_json serialises; one output line per record. */
  datatype Record = Record(name: seq<byte>, size: int, mtime: int, path: Path)

  function ToRecord(e: Entry): Record
  {
    Record(e.name, e.size, e.mtime, e.path)
  }

  /** Two entries give the same output line exactly when they agree on the four serialised
    * fields; the directory flag is not written. */
  lemma RecordKeepsFourFields(e: Entry, f: Entry)
    ensures ToRecord(e) == ToRecord(f)
        <==> e.name == f.name && e.size == f.size && e.mtime == f.mtime && e.path == f.path
    ensures ToRecord(e.(isDir := !e.isDir)) == ToRecord(e)
  {
  }

  /** A queue item: a real item, or the `None` the crawler enqueues to stop a consumer. */
  datatype Task<T> = Item(value: T) | StopSignal

  /** What one call of `list_dir(path)` on a listing port produces. */
  datatype Listing =
    | Listed(pathId: PathId, entries: seq<Entry>)
    | Timeout
    | TooManyConnections

  /** How a directory entry becomes the path of its own listing task
    * (`os.path.join(f.path, f.name, "")` at the root, `urljoin(f.path, f.name)` in a worker). */
  type Join = (Path, seq<byte>) -> Path

  predicate NoStops<T>(q: seq<Task<T>>)
  {
    forall i :: 0 <= i < |q| ==> q[i].Item?
  }

  /** Every item of the file queue is a real, non-directory entry. */
  predicate AllFiles(q: seq<Task<Entry>>)
  {
    forall i :: 0 <= i < |q| ==> q[i].Item? && !q[i].value.isDir
  }

  /** The directory-queue items one entry contributes. */
  function DirTask(e: Entry, join: Join): seq<Task<Path>>
  {
    if e.isDir then [Item(join(e.path, e.name))] else []
  }

  /** The file-queue items one entry contributes. */
  function FileTask(e: Entry): seq<Task<Entry>>
  {
    if e.isDir then [] else [Item(e)]
  }

  /** What `for f in listing: if f.is_dir: in_q.put(...)` puts, in order. */
  function DirTasks(l: seq<Entry>, join: Join): (r: seq<Task<Path>>)
    ensures NoStops(r) && |r| <= |l|
  {
    if l == [] then [] else DirTask(l[0], join) + DirTasks(l[1..], join)
  }

  /** What `... else: files_q.put(f)` puts, in order. */
  function FileTasks(l: seq<Entry>): (r: seq<Task<Entry>>)
    ensures AllFiles(r) && |r| <= |l|
  {
    if l == [] then [] else FileTask(l[0]) + FileTasks(l[1..])
  }

  /** Each entry goes to exactly one of the two queues. */
  lemma {:induction false} PartitionSizes(l: seq<Entry>, join: Join)
    ensures |DirTasks(l, join)| + |FileTasks(l)| == |l|
  {
    if l != [] {
      PartitionSizes(l[1..], join);
    }
  }

  /** The partition keeps order: splitting a listing splits both queues' contributions. */
  lemma PartitionAppend(a: seq<Entry>, b: seq<Entry>, join: Join)
    ensures DirTasks(a + b, join) == DirTasks(a, join) + DirTasks(b, join)
    ensures FileTasks(a + b) == FileTasks(a) + FileTasks(b)
  {
    DirTasksAppend(a, b, join);
    FileTasksAppend(a, b);
  }

  lemma {:induction false} DirTasksAppend(a: seq<Entry>, b: seq<Entry>, join: Join)
    ensures DirTasks(a + b, join) == DirTasks(a, join) + DirTasks(b, join)
  {
    if a == [] {
      assert a + b == b;
    } else {
      assert (a + b)[0] == a[0] && (a + b)[1..] == a[1..] + b;
      DirTasksAppend(a[1..], b, join);
    }
  }

  lemma {:induction false} FileTasksAppend(a: seq<Entry>, b: seq<Entry>)
    ensures FileTasks(a + b) == FileTasks(a) + FileTasks(b)
  {
    if a == [] {
      assert a + b == b;
    } else {
      assert (a + b)[0] == a[0] && (a + b)[1..] == a[1..] + b;
      FileTasksAppend(a[1..], b);
    }
  }

  /** A file entry of the listing reaches the file queue, and nothing else does. */
  lemma {:induction false} FileTasksExact(l: seq<Entry>, e: Entry)
    ensures Item(e) in FileTasks(l) <==> e in l && !e.isDir
  {
    if l != [] {
      FileTasksExact(l[1..], e);
      assert l == [l[0]] + l[1..];
      assert e in l <==> e == l[0] || e in l[1..];
    }
  }

  /** A directory entry of the listing reaches the directory queue under its joined path,
    * and every directory task comes from a directory entry. */
  lemma {:induction false} DirTasksExact(l: seq<Entry>, join: Join, p: Path)
    ensures Item(p) in DirTasks(l, join) <==> exists e :: e in l && e.isDir && p == join(e.path, e.name)
  {
    if l != [] {
      var first := l[0];
      var tail := l[1..];
      DirTasksExact(tail, join, p);
      assert l == [first] + tail;
      if Item(p) in DirTasks(l, join) && Item(p) !in DirTasks(tail, join) {
        assert first in l && first.isDir && p == join(first.path, first.name);
      }
      if exists e :: e in l && e.isDir && p == join(e.path, e.name) {
        var e :| e in l && e.isDir && p == join(e.path, e.name);
        if e != first {
          assert e in tail;
        }
      }
    }
  }
}
