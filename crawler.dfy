/**
 * `RemoteDirectoryCrawler` as an object whose fields the crawl updates in place:
 * the visited set and status the constructor creates, the two queues and their
 * unfinished-task counters, the single worker's loop-local state, and the
 * lines of the out file. Each method is proved against the CrawlSpec function
 * that describes its effect.
 */
module Crawler {
  import opened Wrappers
  import opened Entries
  import opened CrawlSpec
  import opened CrawlProperties

  class RemoteDirectoryCrawler {
    /** `os.path.join(f.path, f.name, "")`, used when seeding from the root. */
    const pathJoin: Join
    /** `urljoin(f.path, f.name)`, used by the worker. */
    const urlJoin: Join

    /** `crawled_paths`, an exact set here. */
    var visited: set<PathId>
    /** `status_code` */
    var status: string

    /** `in_q` and `files_q`, with `Queue.unfinished_tasks` for each. */
    var inQ: seq<Task<Path>>
    var filesQ: seq<Task<Entry>>
    var inUnfinished: int
    var filesUnfinished: int

    /** The worker's `timeout_retries`, whether its loop still runs, whether its port is open. */
    var retries: nat
    var alive: bool
    var portOpen: bool

    /** The lines the file writer has written to the out file. */
    var outFile: seq<Record>

    constructor (pathJoin: Join, urlJoin: Join)
      ensures this.pathJoin == pathJoin && this.urlJoin == urlJoin
      ensures visited == {} && status == Success
      ensures inQ == [] && filesQ == [] && inUnfinished == 0 && filesUnfinished == 0
      ensures !alive && !portOpen && outFile == []
    {
      this.pathJoin := pathJoin;
      this.urlJoin := urlJoin;
      visited := {};
      status := Success;
      inQ, filesQ := [], [];
      inUnfinished, filesUnfinished := 0, 0;
      retries, alive, portOpen := InitialRetries, false, false;
      outFile := [];
    }

    function Snapshot(): Machine
      reads this
    {
      Machine(inQ, filesQ, visited, status, inUnfinished, filesUnfinished, retries, alive, portOpen)
    }

    // ---- Queue operations -----------------------------------------------------------

    /** `in_q.put(t)` */
    method PutDir(t: Task<Path>)
      modifies this`inQ, this`inUnfinished
      ensures inQ == old(inQ) + [t] && inUnfinished == old(inUnfinished) + 1
    {
      inQ := inQ + [t];
      inUnfinished := inUnfinished + 1;
    }

    /** `files_q.put(t)` */
    method PutFile(t: Task<Entry>)
      modifies this`filesQ, this`filesUnfinished
      ensures filesQ == old(filesQ) + [t] && filesUnfinished == old(filesUnfinished) + 1
    {
      filesQ := filesQ + [t];
      filesUnfinished := filesUnfinished + 1;
    }

    /** `in_q.get(...)`; `None` when it raises Empty (nothing will arrive). */
    method GetDir() returns (t: Option<Task<Path>>)
      modifies this`inQ
      ensures t.None? <==> old(inQ) == []
      ensures t.Some? ==> t.value == old(inQ)[0] && inQ == old(inQ)[1..]
      ensures t.None? ==> inQ == old(inQ)
    {
      if inQ == [] {
        t := None;
      } else {
        t := Some(inQ[0]);
        inQ := inQ[1..];
      }
    }

    /** `files_q.get(...)`; `None` when it raises Empty. */
    method GetFile() returns (t: Option<Task<Entry>>)
      modifies this`filesQ
      ensures t.None? <==> old(filesQ) == []
      ensures t.Some? ==> t.value == old(filesQ)[0] && filesQ == old(filesQ)[1..]
      ensures t.None? ==> filesQ == old(filesQ)
    {
      if filesQ == [] {
        t := None;
      } else {
        t := Some(filesQ[0]);
        filesQ := filesQ[1..];
      }
    }

    /** `in_q.task_done()` */
    method DirTaskDone()
      modifies this`inUnfinished
      ensures inUnfinished == old(inUnfinished) - 1
    {
      inUnfinished := inUnfinished - 1;
    }

    /** `files_q.task_done()` */
    method FileTaskDone()
      modifies this`filesUnfinished
      ensures filesUnfinished == old(filesUnfinished) - 1
    {
      filesUnfinished := filesUnfinished - 1;
    }

    // ---- Distributing a listing over the two queues ------------------------------

    /** `for f in listing: if f.is_dir: in_q.put(join(f.path, f.name)) else: files_q.put(f)` */
    method PutListing(entries: seq<Entry>, join: Join)
      modifies this`inQ, this`inUnfinished, this`filesQ, this`filesUnfinished
      ensures inQ == old(inQ) + DirTasks(entries, join)
      ensures inUnfinished == old(inUnfinished) + |DirTasks(entries, join)|
      ensures filesQ == old(filesQ) + FileTasks(entries)
      ensures filesUnfinished == old(filesUnfinished) + |FileTasks(entries)|
    {
      for i := 0 to |entries|
        invariant inQ == old(inQ) + DirTasks(entries[..i], join)
        invariant inUnfinished == old(inUnfinished) + |DirTasks(entries[..i], join)|
        invariant filesQ == old(filesQ) + FileTasks(entries[..i])
        invariant filesUnfinished == old(filesUnfinished) + |FileTasks(entries[..i])|
      {
        var f := entries[i];
        assert entries[..i + 1] == entries[..i] + [f];
        DirTasksAppend(entries[..i], [f], join);
        FileTasksAppend(entries[..i], [f]);
        if f.isDir {
          PutDir(Item(join(f.path, f.name)));
        } else {
          PutFile(Item(f));
        }
      }
      assert entries[..|entries|] == entries;
    }

    /** Fresh queues seeded from the root listing. */
    method SeedQueues(entries: seq<Entry>)
      modifies this`inQ, this`inUnfinished, this`filesQ, this`filesUnfinished
      ensures inQ == DirTasks(entries, pathJoin) && filesQ == FileTasks(entries)
      ensures inUnfinished == |inQ| && filesUnfinished == |filesQ|
    {
      inQ, filesQ := [], [];
      inUnfinished, filesUnfinished := 0, 0;
      PutListing(entries, pathJoin);
    }

    // ---- The worker ------------------------------------------------------------------

    /** The abort's inner loop: `get_nowait()` and `task_done()` until Empty. */
    method DrainDirs()
      modifies this`inQ, this`inUnfinished
      ensures inQ == [] && inUnfinished == old(inUnfinished) - |old(inQ)|
    {
      while true
        invariant inUnfinished - |inQ| == old(inUnfinished) - |old(inQ)|
        decreases |inQ|
      {
        var t := GetDir();
        if t.None? {
          break;
        }
        DirTaskDone();
      }
    }

    /** A successful `list_dir`: a non-empty listing of a new identity is marked visited
      * and distributed over the queues; any other is dropped. */
    method TakeListing(pid: PathId, entries: seq<Entry>)
      modifies this`visited, this`inQ, this`inUnfinished, this`filesQ, this`filesUnfinished
      ensures Snapshot() == ListPath(old(Snapshot()), "", Listed(pid, entries), urlJoin)
    {
      if |entries| > 0 && pid !in visited {
        visited := visited + {pid};
        PutListing(entries, urlJoin);
      }
    }

    /** `except TooManyConnectionsError`: close the port, resubmit the path, leave the loop. */
    method Refused(path: Path)
      modifies this`portOpen, this`inQ, this`inUnfinished, this`alive
      ensures Snapshot() == ListPath(old(Snapshot()), path, TooManyConnections, urlJoin)
    {
      portOpen := false;
      PutDir(Item(path));
      alive := false;
    }

    /** `except TimeoutError`: retry while budget remains, otherwise abort the whole crawl. */
    method TimedOut(path: Path)
      modifies this`retries, this`status, this`portOpen, this`inQ, this`inUnfinished, this`alive
      ensures Snapshot() == ListPath(old(Snapshot()), path, Timeout, urlJoin)
    {
      if retries > 0 {
        retries := retries - 1;
        PutDir(Item(path));
      } else {
        status := ListingTimeout;
        portOpen := false;
        DrainDirs();
        alive := false;
      }
    }

    /** One pass of the worker's `while directory:` loop; `answer` is what the port's
      * `list_dir(path)` returns if this pass lists a path. Nothing happens once the loop
      * has ended. */
    method ProcessListing(answer: Listing)
      modifies this
      ensures Snapshot() == Step(old(Snapshot()), answer, urlJoin)
      ensures outFile == old(outFile)
    {
      if !alive {
        return;
      }
      var got := GetDir();
      if got.None? {
        portOpen := false;
        alive := false;
        return;
      }
      if got.value.StopSignal? {
        alive := false;
        return;
      }
      var path := got.value.value;
      ghost var taken := Snapshot();
      match answer {
        case Listed(pid, entries) => TakeListing(pid, entries);
        case TooManyConnections => Refused(path);
        case Timeout => TimedOut(path);
      }
      assert Snapshot() == ListPath(taken, path, answer, urlJoin);
      DirTaskDone();  // the `finally:` clause
    }

    /** One `in_q.put(None)` per worker, and the worker taking it if nothing else is queued. */
    method StopWorkers()
      modifies this`inQ, this`inUnfinished, this`alive
      ensures Snapshot() == StopWorker(old(Snapshot()))
    {
      var idle := alive && inQ == [];
      PutDir(StopSignal);
      if idle {
        var t := GetDir();
        alive := false;
      }
    }

    // ---- The file writer -------------------------------------------------------------

    /** `_log_to_file`: truncate the out file, then write one line per entry taken from the
      * file queue until the stop signal or an empty wait; returns the number written. */
    method LogToFile() returns (count: nat)
      modifies this`filesQ, this`filesUnfinished, this`outFile
      ensures outFile == SinkRecords(old(filesQ)) && count == |outFile|
      ensures filesQ == SinkRest(old(filesQ))
      ensures filesUnfinished == old(filesUnfinished) - count
    {
      var counter := 0;
      outFile := [];
      while true
        invariant outFile + SinkRecords(filesQ) == SinkRecords(old(filesQ))
        invariant SinkRest(filesQ) == SinkRest(old(filesQ))
        invariant counter == |outFile|
        invariant filesUnfinished == old(filesUnfinished) - counter
        decreases |filesQ|
      {
        var got := GetFile();
        if got.None? || got.value.StopSignal? {
          break;
        }
        outFile := outFile + [ToRecord(got.value.value)];
        counter := counter + 1;
        FileTaskDone();
      }
      count := counter;
    }

    // ---- The crawl -------------------------------------------------------------------

    /** `crawl_directory`: `root` is the port's answer for the root path and `answers` the
      * answers to the worker's listing calls, in order. The visited set and the status
      * survive from earlier crawls on the same object, as they live in the object. */
    method CrawlDirectory(root: Listing, answers: seq<Listing>) returns (r: CrawlOutcome)
      modifies this
      ensures r == Crawl(old(visited), old(status), root, answers, pathJoin, urlJoin)
      ensures root.Listed? && |root.entries| > 0 ==>
        var m := CrawlState(old(visited), old(status), root.pathId, root.entries,
                            answers, pathJoin, urlJoin);
        visited == m.visited && status == m.status
      ensures root.Listed? && |root.entries| > 0 && r.Finished? ==>
        outFile == r.output && filesQ == []
      ensures !(root.Listed? && |root.entries| > 0) ==>
        Snapshot() == old(Snapshot()) && outFile == old(outFile)
      ensures r.Hangs? ==> outFile == r.output
      ensures r.Raised? || r.OutOfAnswers? ==> outFile == old(outFile)
    {
      match root {
        case Timeout =>
          return Finished(CrawlResult(0, InitialTimeout), []);
        case TooManyConnections =>
          return Raised;
        case Listed(pid, entries) =>
          if |entries| == 0 {
            return Finished(CrawlResult(0, EmptyRoot), []);
          }
          visited := visited + {pid};
          SeedQueues(entries);
          retries, alive, portOpen := InitialRetries, true, true;
          ghost var m0 := Snapshot();
          assert m0 == Seeded(old(visited) + {pid}, old(status), entries, pathJoin);
          var i := 0;
          while i < |answers| && alive && inUnfinished > 0
            invariant 0 <= i <= |answers|
            invariant Work(Snapshot(), answers[i..], urlJoin) == Work(m0, answers, urlJoin)
            invariant old(visited) <= visited && outFile == old(outFile)
            decreases |answers| - i
          {
            assert answers[i..][0] == answers[i] && answers[i..][1..] == answers[i + 1..];
            ProcessListing(answers[i]);
            i := i + 1;
          }
          assert Work(Snapshot(), answers[i..], urlJoin) == Snapshot();
          ghost var worked := Snapshot();
          if inUnfinished > 0 && alive {
            return OutOfAnswers;
          }
          if inUnfinished > 0 {
            // the writer drains the file queue and stops at its idle wait
            var count := LogToFile();
            return Hangs(outFile);
          }
          StopWorkers();
          assert Snapshot() == CrawlState(old(visited), old(status), pid, entries, answers, pathJoin, urlJoin);
          PutFile(StopSignal);
          ghost var queued := filesQ;
          assert queued == filesQ[..|filesQ| - 1] + [StopSignal] + [];
          SinkReadsUpToStop(filesQ[..|filesQ| - 1], []);
          var count := LogToFile();
          r := Finished(CrawlResult(count, status), outFile);
      }
    }
  }
}
