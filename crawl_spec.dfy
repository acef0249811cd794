/**
 * The crawl of `RemoteDirectoryCrawler` as a sequential machine with one
 * worker. A Machine value is everything the crawl shares (the directory
 * queue, the file queue, the visited set, the status field, the two queues'
 * unfinished-task counters) together with the single worker's own state (its
 * timeout budget, whether its loop is still running, whether its listing
 * port is open). Each listing call is answered by an oracle: a Listing value
 * passed in by the caller.
 */
module CrawlSpec {
  import opened Entries

  const Success: string := "success"
  const EmptyRoot: string := "empty"
  const InitialTimeout: string := "Timeout during initial request"
  const ListingTimeout: string := "Timeout during website listing"

  /** The worker's starting timeout budget: 20 retries, so the 21st timeout aborts. */
  const InitialRetries: nat := 20

  datatype Machine = Machine(
    inQ: seq<Task<Path>>,
    filesQ: seq<Task<Entry>>,
    visited: set<PathId>,
    status: string,
    inUnfinished: int,
    filesUnfinished: int,
    retries: nat,
    alive: bool,
    portOpen: bool)

  /** Every queued item counts as unfinished (a Queue invariant: task_done never underflows). */
  predicate Valid(m: Machine)
  {
    m.inUnfinished >= |m.inQ| && m.filesUnfinished >= |m.filesQ|
  }

  /** Between worker steps, nothing is in flight: the unfinished counts equal the queue lengths. */
  predicate Balanced(m: Machine)
  {
    m.inUnfinished == |m.inQ| && m.filesUnfinished == |m.filesQ|
  }

  // ---- Queue operations on the directory queue -------------------------------------

  /** `in_q.put(t)` */
  function PutDir(m: Machine, t: Task<Path>): Machine
  {
    m.(inQ := m.inQ + [t], inUnfinished := m.inUnfinished + 1)
  }

  /** `in_q.task_done()` */
  function DirTaskDone(m: Machine): Machine
  {
    m.(inUnfinished := m.inUnfinished - 1)
  }

  // ---- One iteration of the worker loop ----------------------------------------------

  /** A listing that is non-empty and new: mark it visited, queue its directories and files. */
  function Expand(m: Machine, pid: PathId, entries: seq<Entry>, join: Join): (r: Machine)
    ensures Valid(m) ==> Valid(r)
    ensures Balanced(m) && NoStops(m.inQ) ==> Balanced(r) && NoStops(r.inQ)
    ensures AllFiles(m.filesQ) ==> AllFiles(r.filesQ)
    ensures |r.inQ| + |r.filesQ| == |m.inQ| + |m.filesQ| + |entries|
    ensures pid in r.visited && r.status == m.status && r.alive == m.alive
  {
    PartitionSizes(entries, join);
    var dirs := DirTasks(entries, join);
    var files := FileTasks(entries);
    m.(visited := m.visited + {pid},
       inQ := m.inQ + dirs, inUnfinished := m.inUnfinished + |dirs|,
       filesQ := m.filesQ + files, filesUnfinished := m.filesUnfinished + |files|)
  }

  /** Timeout budget exhausted: set the status, close the port, drain the directory queue
    * acknowledging each drained item, and leave the loop. */
  function Abort(m: Machine): (r: Machine)
    ensures Valid(m) ==> Valid(r)
    ensures Balanced(m) ==> Balanced(r) && r.inUnfinished == 0
    ensures r.filesQ == m.filesQ && r.visited == m.visited && !r.alive
  {
    m.(status := ListingTimeout, portOpen := false,
       inQ := [], inUnfinished := m.inUnfinished - |m.inQ|, alive := false)
  }

  /** Listing of a dequeued `path`, up to (not including) the `finally: task_done`. */
  function ListPath(m: Machine, path: Path, answer: Listing, join: Join): (r: Machine)
    ensures Valid(m) ==> Valid(r)
    ensures m.visited <= r.visited && m.filesQ <= r.filesQ && r.retries <= m.retries
    ensures r.status == m.status || r.status == ListingTimeout
    ensures m.alive ==> (!r.alive <==> answer.TooManyConnections? || (answer.Timeout? && m.retries == 0))
    ensures r.visited != m.visited ==> answer.Listed? && r.visited == m.visited + {answer.pathId}
  {
    match answer
    case Listed(pid, entries) =>
      if |entries| > 0 && pid !in m.visited then Expand(m, pid, entries, join) else m
    case TooManyConnections =>
      PutDir(m.(portOpen := false), Item(path)).(alive := false)
    case Timeout =>
      if m.retries > 0 then PutDir(m.(retries := m.retries - 1), Item(path))
      else Abort(m)
  }

  /** One pass of the `while directory:` loop: get, then list and acknowledge.
    * `answer` is what the port returns if this pass lists a path. */
  function Step(m: Machine, answer: Listing, join: Join): (r: Machine)
    ensures Valid(m) ==> Valid(r)
    ensures Balanced(m) && NoStops(m.inQ) ==> Balanced(r) && NoStops(r.inQ)
    ensures m.visited <= r.visited && r.retries <= m.retries
    ensures m.filesQ <= r.filesQ && (AllFiles(m.filesQ) ==> AllFiles(r.filesQ))
    ensures r.filesUnfinished - |r.filesQ| == m.filesUnfinished - |m.filesQ|
    ensures r.status == m.status || r.status == ListingTimeout
    ensures !m.alive ==> r == m
  {
    if !m.alive then m
    else if m.inQ == [] then
      // in_q.get(timeout=...) raised Empty: close the port and leave the loop
      m.(portOpen := false, alive := false)
    else
      match m.inQ[0]
      case StopSignal =>
        // `if path is None: break`; the stop signal is not acknowledged
        m.(inQ := m.inQ[1..], alive := false)
      case Item(path) =>
        DirTaskDone(ListPath(m.(inQ := m.inQ[1..]), path, answer, join))
  }

  /** This step lists a path and expands the answer: a non-empty listing of a new identity. */
  predicate Expands(m: Machine, answer: Listing)
  {
    m.alive && m.inQ != [] && m.inQ[0].Item? && answer.Listed?
    && |answer.entries| > 0 && answer.pathId !in m.visited
  }

  /** The path identity that this step marks visited, if any. */
  function Expanded(m: Machine, answer: Listing): seq<PathId>
  {
    if Expands(m, answer) then [answer.pathId] else []
  }

  /** The listing that this step expands, if any. */
  function ExpandedListing(m: Machine, answer: Listing): seq<Listing>
  {
    if Expands(m, answer) then [answer] else []
  }

  /** The worker runs while the crawl's `in_q.join()` is still waiting, one oracle answer per pass. */
  predicate Busy(m: Machine)
  {
    m.alive && m.inUnfinished > 0
  }

  function Work(m: Machine, answers: seq<Listing>, join: Join): (r: Machine)
    ensures Valid(m) ==> Valid(r)
    ensures Balanced(m) && NoStops(m.inQ) ==> Balanced(r) && NoStops(r.inQ)
    ensures m.visited <= r.visited
    ensures m.filesQ <= r.filesQ && (AllFiles(m.filesQ) ==> AllFiles(r.filesQ))
    ensures r.status == m.status || r.status == ListingTimeout
    ensures r.retries <= m.retries
    decreases |answers|
  {
    if !Busy(m) || answers == [] then m
    else Work(Step(m, answers[0], join), answers[1..], join)
  }

  /** The path identities of the listings the worker expands, in order. */
  function Expansions(m: Machine, answers: seq<Listing>, join: Join): seq<PathId>
    decreases |answers|
  {
    if !Busy(m) || answers == [] then []
    else Expanded(m, answers[0]) + Expansions(Step(m, answers[0], join), answers[1..], join)
  }

  /** The listings the worker expands, in order; each is a non-empty listing. */
  function ExpandedListings(m: Machine, answers: seq<Listing>, join: Join): (r: seq<Listing>)
    ensures forall i :: 0 <= i < |r| ==> r[i].Listed? && |r[i].entries| > 0
    ensures |r| <= |answers|
    decreases |answers|
  {
    if !Busy(m) || answers == [] then []
    else ExpandedListing(m, answers[0]) + ExpandedListings(Step(m, answers[0], join), answers[1..], join)
  }

  /** The file-queue items that a sequence of listings contributes, listing by listing. */
  function FilesOf(ls: seq<Listing>): (r: seq<Task<Entry>>)
    ensures AllFiles(r)
  {
    if ls == [] then []
    else (if ls[0].Listed? then FileTasks(ls[0].entries) else []) + FilesOf(ls[1..])
  }

  /** The crawl puts one stop signal on the directory queue; a running worker, finding
    * the queue otherwise empty, takes it and leaves its loop. */
  function StopWorker(m: Machine): (r: Machine)
    ensures r.filesQ == m.filesQ && r.status == m.status && r.visited == m.visited
    ensures m.inQ == [] ==> !r.alive
  {
    if m.alive && m.inQ == [] then m.(inUnfinished := m.inUnfinished + 1, alive := false)
    else PutDir(m, StopSignal)
  }

  // ---- The file writer ------------------------------------------------------------

  /** The records the writer emits from the file queue `q`: every entry up to the first
    * stop signal, or all of them if the queue runs dry first. */
  function SinkRecords(q: seq<Task<Entry>>): (r: seq<Record>)
    ensures |r| <= |q|
  {
    if q == [] then []
    else match q[0]
      case StopSignal => []
      case Item(e) => [ToRecord(e)] + SinkRecords(q[1..])
  }

  /** What the writer leaves on the file queue. */
  function SinkRest(q: seq<Task<Entry>>): (r: seq<Task<Entry>>)
    ensures |r| + |SinkRecords(q)| <= |q|
  {
    if q == [] then []
    else match q[0]
      case StopSignal => q[1..]
      case Item(_) => SinkRest(q[1..])
  }

  // ---- The crawl ------------------------------------------------------------------

  datatype CrawlResult = CrawlResult(fileCount: nat, status: string)

  /** How one `crawl_directory` call ends in the model:
    * - Finished: it returns `result`, having written `output` to the out file;
    * - Raised: the root listing raised something other than TimeoutError, which the
    *   outer `except Exception` turns into file_count 0 and a description (not modelled);
    * - Hangs: the only worker has left its loop while directory work is still
    *   unfinished, so `in_q.join()` never returns; the writer, already running, has
    *   written `output`, every entry on the file queue, and left after its idle wait;
    * - OutOfAnswers: the oracle's answers ran out before the crawl resolved. */
  datatype CrawlOutcome =
    | Finished(result: CrawlResult, output: seq<Record>)
    | Raised
    | Hangs(output: seq<Record>)
    | OutOfAnswers

  /** The queues after seeding from the root listing, with the worker just started. */
  function Seeded(visited: set<PathId>, status: string, entries: seq<Entry>, pathJoin: Join): (m: Machine)
    ensures Valid(m) && Balanced(m) && NoStops(m.inQ) && AllFiles(m.filesQ)
    ensures |m.inQ| + |m.filesQ| == |entries|
  {
    PartitionSizes(entries, pathJoin);
    var dirs := DirTasks(entries, pathJoin);
    var files := FileTasks(entries);
    Machine(dirs, files, visited, status, |dirs|, |files|, InitialRetries, true, true)
  }

  /** `crawl_directory`, given the object's visited set and status, the root listing's
    * answer and the answers to the workers' listing calls, in order. */
  function Crawl(visited: set<PathId>, status: string, root: Listing, answers: seq<Listing>,
                 pathJoin: Join, urlJoin: Join): (r: CrawlOutcome)
    ensures r.Raised? <==> root.TooManyConnections?
    ensures r.Finished? ==> r.result.fileCount == |r.output|
    ensures r.Finished? ==> r.result.status in {status, InitialTimeout, EmptyRoot, ListingTimeout}
    ensures r.Hangs? || r.OutOfAnswers? ==> root.Listed? && |root.entries| > 0
  {
    match root
    case Timeout => Finished(CrawlResult(0, InitialTimeout), [])
    case TooManyConnections => Raised
    case Listed(pid, entries) =>
      if |entries| == 0 then Finished(CrawlResult(0, EmptyRoot), [])
      else
        Finish(Work(Seeded(visited + {pid}, status, entries, pathJoin), answers, urlJoin))
  }

  /** What follows the worker's run: `in_q.join()` returns only once nothing is unfinished;
    * then the worker is stopped, the writer drains the file queue up to its stop signal,
    * and the crawl returns the writer's count with the shared status. */
  function Finish(m: Machine): (r: CrawlOutcome)
    ensures r.Finished? <==> m.inUnfinished <= 0
    ensures r.Hangs? <==> m.inUnfinished > 0 && !m.alive
    ensures r.Finished? ==> r.result == CrawlResult(|r.output|, m.status)
    ensures r.Hangs? ==> |r.output| <= |m.filesQ|
  {
    if m.inUnfinished > 0 then (if m.alive then OutOfAnswers else Hangs(SinkRecords(m.filesQ)))
    else
      var stopped := StopWorker(m);
      var out := SinkRecords(stopped.filesQ + [StopSignal]);
      Finished(CrawlResult(|out|, stopped.status), out)
  }

  /** The shared state a crawl with a non-empty root listing leaves behind once the worker
    * has run and the stop signal is queued: the visited set and status the object keeps. */
  function CrawlState(visited: set<PathId>, status: string, pid: PathId, entries: seq<Entry>,
                      answers: seq<Listing>, pathJoin: Join, urlJoin: Join): (m: Machine)
    ensures visited + {pid} <= m.visited
    ensures m.status == status || m.status == ListingTimeout
    ensures Valid(m) && AllFiles(m.filesQ) && FileTasks(entries) <= m.filesQ
  {
    StopWorker(Work(Seeded(visited + {pid}, status, entries, pathJoin), answers, urlJoin))
  }
}
