/**
 * What the crawl machine of CrawlSpec guarantees: the effect of each branch of
 * the worker loop, the bookkeeping of the directory queue's unfinished-task
 * counter, the timeout budget, at-most-once expansion of a path identity, the
 * file writer's count, and the ends of a whole crawl.
 */
module CrawlProperties {
  import opened Entries
  import opened CrawlSpec

  /** The worker is running and the head of the directory queue is the path `p`. */
  predicate Pending(m: Machine, p: Path)
  {
    m.alive && m.inQ != [] && m.inQ[0] == Item(p)
  }

  // ---- The branches of one worker pass --------------------------------------------

  /** A non-empty listing of an unvisited path identity: the identity becomes visited and
    * each entry goes to the queue its directory flag selects, in listing order. */
  lemma ListedNewStep(m: Machine, p: Path, pid: PathId, entries: seq<Entry>, join: Join)
    requires Pending(m, p) && |entries| > 0 && pid !in m.visited
    ensures var r := Step(m, Listed(pid, entries), join);
      && r.visited == m.visited + {pid}
      && r.inQ == m.inQ[1..] + DirTasks(entries, join)
      && r.filesQ == m.filesQ + FileTasks(entries)
      && r.inUnfinished == m.inUnfinished - 1 + |DirTasks(entries, join)|
      && r.alive && r.retries == m.retries && r.status == m.status
  {
  }

  /** An empty listing, or one whose identity is already visited, is dropped: only the
    * dequeued path leaves the directory queue, and it is acknowledged. */
  lemma ListedDiscardStep(m: Machine, p: Path, pid: PathId, entries: seq<Entry>, join: Join)
    requires Pending(m, p) && (|entries| == 0 || pid in m.visited)
    ensures Step(m, Listed(pid, entries), join)
         == m.(inQ := m.inQ[1..], inUnfinished := m.inUnfinished - 1)
  {
  }

  /** Too many connections: the same path goes back to the end of the directory queue,
    * the port is closed and the worker leaves its loop; nothing else changes. */
  lemma RefusedStep(m: Machine, p: Path, join: Join)
    requires Pending(m, p)
    ensures var r := Step(m, TooManyConnections, join);
      && r.inQ == m.inQ[1..] + [Item(p)] && r.inUnfinished == m.inUnfinished
      && !r.alive && !r.portOpen
      && r.visited == m.visited && r.filesQ == m.filesQ && r.status == m.status
      && r.retries == m.retries
  {
  }

  /** A timeout with budget left: the budget drops by exactly one and the path is requeued. */
  lemma TimeoutRetryStep(m: Machine, p: Path, join: Join)
    requires Pending(m, p) && m.retries > 0
    ensures var r := Step(m, Timeout, join);
      && r.retries == m.retries - 1
      && r.inQ == m.inQ[1..] + [Item(p)] && r.inUnfinished == m.inUnfinished
      && r.alive && r.visited == m.visited && r.filesQ == m.filesQ && r.status == m.status
  {
  }

  /** A timeout with no budget left aborts the crawl: the status is set, the whole directory
    * queue is drained with each drained item acknowledged, and the worker stops. */
  lemma TimeoutAbortStep(m: Machine, p: Path, join: Join)
    requires Pending(m, p) && m.retries == 0
    ensures var r := Step(m, Timeout, join);
      && r.status == ListingTimeout
      && r.inQ == [] && r.inUnfinished == m.inUnfinished - |m.inQ|
      && !r.alive && !r.portOpen
      && r.visited == m.visited && r.filesQ == m.filesQ
  {
  }

  /** A stop signal ends the worker without an acknowledgement; an empty queue (the get's
    * wait elapsing) ends it after closing the port. Neither consults the port. */
  lemma WorkerExits(m: Machine, answer: Listing, join: Join)
    requires m.alive && (m.inQ == [] || m.inQ[0] == StopSignal)
    ensures var r := Step(m, answer, join);
      && !r.alive
      && (m.inQ == [] ==> r == m.(alive := false, portOpen := false))
      && (m.inQ != [] ==> r == m.(inQ := m.inQ[1..], alive := false))
  {
  }

  // ---- Task accounting ------------------------------------------------------------

  /** Once `in_q.join()` can return (nothing unfinished), the directory queue is empty. */
  lemma JoinMeansDrained(m: Machine)
    requires Valid(m) && m.inUnfinished <= 0
    ensures m.inQ == [] && m.inUnfinished == 0
  {
  }

  /** Running the worker over two batches of answers is running it over their concatenation. */
  lemma {:induction false} WorkAppend(m: Machine, a: seq<Listing>, b: seq<Listing>, join: Join)
    ensures Work(m, a + b, join) == Work(Work(m, a, join), b, join)
    decreases |a|
  {
    if a == [] {
      assert a + b == b;
    } else if Busy(m) {
      assert (a + b)[0] == a[0] && (a + b)[1..] == a[1..] + b;
      WorkAppend(Step(m, a[0], join), a[1..], b, join);
    } else if b != [] {
      assert a + b != [];
    }
  }

  /** A worker that has stopped stays stopped, whatever the oracle answers. */
  lemma {:induction false} StoppedStaysStopped(m: Machine, answers: seq<Listing>, join: Join)
    requires !m.alive
    ensures Work(m, answers, join) == m
  {
  }

  // ---- The timeout budget ---------------------------------------------------------

  function Timeouts(k: nat): (r: seq<Listing>)
    ensures |r| == k && forall i :: 0 <= i < k ==> r[i] == Timeout
  {
    seq(k, _ => Timeout)
  }

  /** Up to `retries` consecutive timeouts are absorbed: the worker keeps going with its
    * budget reduced by one per timeout, and nothing but the queue's order changes. */
  lemma {:induction false} TimeoutsWithinBudget(m: Machine, k: nat, join: Join)
    requires m.alive && Valid(m) && m.inQ != [] && NoStops(m.inQ) && k <= m.retries
    decreases k
    ensures var r := Work(m, Timeouts(k), join);
      && r.alive && r.retries == m.retries - k
      && |r.inQ| == |m.inQ| && multiset(r.inQ) == multiset(m.inQ) && NoStops(r.inQ) && r.inUnfinished == m.inUnfinished
      && r.visited == m.visited && r.filesQ == m.filesQ && r.status == m.status
  {
    if k > 0 {
      var p := m.inQ[0].value;
      TimeoutRetryStep(m, p, join);
      var m' := Step(m, Timeout, join);
      assert Timeouts(k)[0] == Timeout && Timeouts(k)[1..] == Timeouts(k - 1);
      assert m'.inQ == m.inQ[1..] + [Item(p)];
      assert m.inQ == [Item(p)] + m.inQ[1..];
      assert multiset(m'.inQ) == multiset(m.inQ);
      TimeoutsWithinBudget(m', k - 1, join);
    }
  }

  /** One timeout more than the budget aborts the crawl. */
  lemma TimeoutBudgetExhausted(m: Machine, join: Join)
    requires m.alive && Valid(m) && m.inQ != [] && NoStops(m.inQ)
    ensures var r := Work(m, Timeouts(m.retries + 1), join);
      && !r.alive && !r.portOpen && r.status == ListingTimeout
      && r.inQ == [] && r.inUnfinished == m.inUnfinished - |m.inQ|
      && r.visited == m.visited && r.filesQ == m.filesQ
  {
    var n := m.retries;
    assert Timeouts(n + 1) == Timeouts(n) + [Timeout];
    WorkAppend(m, Timeouts(n), [Timeout], join);
    TimeoutsWithinBudget(m, n, join);
    var r := Work(m, Timeouts(n), join);
    TimeoutAbortStep(r, r.inQ[0].value, join);
  }

  /** From a fresh worker, twenty timeouts are retried and the twenty-first aborts. */
  lemma TwentyFirstTimeoutAborts(m: Machine, join: Join)
    requires m.alive && Valid(m) && m.inQ != [] && NoStops(m.inQ) && m.retries == InitialRetries
    ensures Work(m, Timeouts(20), join).alive
    ensures Work(m, Timeouts(20), join).status == m.status
    ensures Work(m, Timeouts(21), join).status == ListingTimeout
    ensures !Work(m, Timeouts(21), join).alive
  {
    TimeoutsWithinBudget(m, 20, join);
    TimeoutBudgetExhausted(m, join);
  }

  // ---- At most one expansion per path identity ------------------------------------

  /** One pass adds to the visited set exactly the identity it expands, a new one. */
  lemma StepVisits(m: Machine, answer: Listing, join: Join)
    ensures |Expanded(m, answer)| <= 1
    ensures NoneIn(Expanded(m, answer), m.visited)
    ensures GrowsBy(Step(m, answer, join).visited, m.visited, Expanded(m, answer))
  {
  }

  predicate Distinct(s: seq<PathId>)
  {
    forall i, j :: 0 <= i < j < |s| ==> s[i] != s[j]
  }

  predicate NoneIn(s: seq<PathId>, v: set<PathId>)
  {
    forall i :: 0 <= i < |s| ==> s[i] !in v
  }

  /** `after` is `before` together with the elements of `s`. */
  ghost predicate GrowsBy(after: set<PathId>, before: set<PathId>, s: seq<PathId>)
  {
    forall y :: y in after <==> y in before || y in s
  }

  /** Identities that are distinct and new, prepended with at most one more new identity,
    * stay distinct and new. */
  lemma PrependNewIdentity(x: seq<PathId>, rest: seq<PathId>,
                           before: set<PathId>, between: set<PathId>, after: set<PathId>)
    requires |x| <= 1 && NoneIn(x, before) && GrowsBy(between, before, x)
    requires Distinct(rest) && NoneIn(rest, between) && GrowsBy(after, between, rest)
    ensures Distinct(x + rest) && NoneIn(x + rest, before) && GrowsBy(after, before, x + rest)
  {
    var e := x + rest;
    forall i | 0 <= i < |e| ensures e[i] !in before {
      if i < |x| {
        assert e[i] == x[i];
      } else {
        assert e[i] == rest[i - |x|];
      }
    }
    forall i, j | 0 <= i < j < |e| ensures e[i] != e[j] {
      if i < |x| {
        assert e[j] == rest[j - |x|];
      } else {
        assert e[i] == rest[i - |x|] && e[j] == rest[j - |x|];
      }
    }
  }

  /** The worker expands each path identity at most once, never one that was already
    * visited, and the visited set grows by exactly the identities it expands. */
  lemma {:induction false} ExpandsEachIdentityOnce(m: Machine, answers: seq<Listing>, join: Join)
    ensures Distinct(Expansions(m, answers, join))
    ensures NoneIn(Expansions(m, answers, join), m.visited)
    ensures GrowsBy(Work(m, answers, join).visited, m.visited, Expansions(m, answers, join))
    decreases |answers|
  {
    if Busy(m) && answers != [] {
      var m' := Step(m, answers[0], join);
      var x := Expanded(m, answers[0]);
      var rest := Expansions(m', answers[1..], join);
      ExpandsEachIdentityOnce(m', answers[1..], join);
      StepVisits(m, answers[0], join);
      assert Expansions(m, answers, join) == x + rest;
      assert Work(m, answers, join) == Work(m', answers[1..], join);
      PrependNewIdentity(x, rest, m.visited, m'.visited, Work(m', answers[1..], join).visited);
    } else {
      assert Expansions(m, answers, join) == [];
    }
  }

  /** `ls` are listings of the identities `ids`, position by position. */
  predicate ListingsOf(ls: seq<Listing>, ids: seq<PathId>)
  {
    |ls| == |ids| && forall i :: 0 <= i < |ids| ==> ls[i].Listed? && ls[i].pathId == ids[i]
  }

  lemma ListingsOfAppend(a: seq<Listing>, ids: seq<PathId>, b: seq<Listing>, jds: seq<PathId>)
    requires ListingsOf(a, ids) && ListingsOf(b, jds)
    ensures ListingsOf(a + b, ids + jds)
  {
    forall i | 0 <= i < |ids + jds| ensures (a + b)[i].Listed? && (a + b)[i].pathId == (ids + jds)[i] {
      if i < |ids| {
        assert (a + b)[i] == a[i] && (ids + jds)[i] == ids[i];
      } else {
        assert (a + b)[i] == b[i - |ids|] && (ids + jds)[i] == jds[i - |ids|];
      }
    }
  }

  /** One pass queues exactly the files of the listing it expands. */
  lemma StepQueuesExpandedFiles(m: Machine, answer: Listing, join: Join)
    ensures Step(m, answer, join).filesQ == m.filesQ + FilesOf(ExpandedListing(m, answer))
    ensures ListingsOf(ExpandedListing(m, answer), Expanded(m, answer))
  {
    if Expands(m, answer) {
      assert FilesOf([answer]) == FileTasks(answer.entries) + FilesOf([]);
    }
  }

  /** Over a whole run, the file queue grows by exactly the files of the expanded listings,
    * listing by listing. */
  lemma {:induction false} WorkQueuesExpandedFiles(m: Machine, answers: seq<Listing>, join: Join)
    ensures Work(m, answers, join).filesQ == m.filesQ + FilesOf(ExpandedListings(m, answers, join))
    decreases |answers|
  {
    if Busy(m) && answers != [] {
      var m' := Step(m, answers[0], join);
      var xl := ExpandedListing(m, answers[0]);
      var restl := ExpandedListings(m', answers[1..], join);
      WorkQueuesExpandedFiles(m', answers[1..], join);
      StepQueuesExpandedFiles(m, answers[0], join);
      assert ExpandedListings(m, answers, join) == xl + restl;
      assert Work(m, answers, join) == Work(m', answers[1..], join);
      FilesOfAppend(xl, restl);
    } else {
      assert FilesOf([]) == [];
    }
  }

  /** The i-th expanded listing is the listing of the i-th expanded identity. */
  lemma {:induction false} ExpandedListingsMatch(m: Machine, answers: seq<Listing>, join: Join)
    ensures ListingsOf(ExpandedListings(m, answers, join), Expansions(m, answers, join))
    decreases |answers|
  {
    if Busy(m) && answers != [] {
      var m' := Step(m, answers[0], join);
      ExpandedListingsMatch(m', answers[1..], join);
      StepQueuesExpandedFiles(m, answers[0], join);
      ListingsOfAppend(ExpandedListing(m, answers[0]), Expanded(m, answers[0]),
                       ExpandedListings(m', answers[1..], join), Expansions(m', answers[1..], join));
    }
  }

  lemma {:induction false} FilesOfAppend(a: seq<Listing>, b: seq<Listing>)
    ensures FilesOf(a + b) == FilesOf(a) + FilesOf(b)
  {
    if a == [] {
      assert a + b == b;
    } else {
      assert (a + b)[0] == a[0] && (a + b)[1..] == a[1..] + b;
      FilesOfAppend(a[1..], b);
    }
  }

  // ---- The file writer ------------------------------------------------------------

  /** Fed a queue of entries followed by the stop signal, the writer emits one record per
    * entry, in queue order, and consumes exactly up to the stop signal. */
  lemma {:induction false} SinkReadsUpToStop(a: seq<Task<Entry>>, b: seq<Task<Entry>>)
    requires NoStops(a)
    ensures |SinkRecords(a + [StopSignal] + b)| == |a|
    ensures forall i :: 0 <= i < |a| ==> SinkRecords(a + [StopSignal] + b)[i] == ToRecord(a[i].value)
    ensures SinkRest(a + [StopSignal] + b) == b
  {
    if a == [] {
      assert a + [StopSignal] + b == [StopSignal] + b;
    } else {
      var q := a + [StopSignal] + b;
      assert q[0] == a[0] && q[1..] == a[1..] + [StopSignal] + b;
      SinkReadsUpToStop(a[1..], b);
    }
  }

  /** Fed a queue of entries with no stop signal, the writer emits one record per entry, in
    * queue order, and then stops at its idle wait with the queue empty. */
  lemma {:induction false} SinkReadsAll(a: seq<Task<Entry>>)
    requires NoStops(a)
    ensures |SinkRecords(a)| == |a|
    ensures forall i :: 0 <= i < |a| ==> SinkRecords(a)[i] == ToRecord(a[i].value)
    ensures SinkRest(a) == []
  {
    if a != [] {
      SinkReadsAll(a[1..]);
    }
  }

  // ---- Whole crawls ---------------------------------------------------------------

  /** Once `in_q.join()` returns, the crawl finishes: the writer writes one record per
    * queued file entry, in queue order, and the reported count is the number written. */
  lemma FinishWritesEveryQueuedFile(m: Machine)
    requires Valid(m) && m.inUnfinished <= 0 && AllFiles(m.filesQ)
    ensures var c := Finish(m);
      && c.Finished?
      && c.result == CrawlResult(|m.filesQ|, m.status)
      && |c.output| == |m.filesQ|
      && forall i :: 0 <= i < |m.filesQ| ==> c.output[i] == ToRecord(m.filesQ[i].value)
  {
    var stopped := StopWorker(m);
    SinkReadsUpToStop(stopped.filesQ, []);
    assert stopped.filesQ + [StopSignal] == stopped.filesQ + [StopSignal] + [];
  }

  /** Whenever a crawl with a non-empty root finishes, its file count is the number of file
    * entries queued during the crawl: the root's files first, then the files of every
    * expanded listing in the order they were listed, each listing of a distinct identity
    * not visited before. Each of them is written once, in queue order. */
  lemma CrawlCountsEveryQueuedFile(visited: set<PathId>, status: string, pid: PathId,
                                   entries: seq<Entry>, answers: seq<Listing>,
                                   pathJoin: Join, urlJoin: Join)
    requires |entries| > 0
    ensures var s := Seeded(visited + {pid}, status, entries, pathJoin);
      var m := Work(s, answers, urlJoin);
      var c := Crawl(visited, status, Listed(pid, entries), answers, pathJoin, urlJoin);
      c.Finished? ==>
        && m.filesQ == FileTasks(entries) + FilesOf(ExpandedListings(s, answers, urlJoin))
        && ListingsOf(ExpandedListings(s, answers, urlJoin), Expansions(s, answers, urlJoin))
        && Distinct(Expansions(s, answers, urlJoin))
        && NoneIn(Expansions(s, answers, urlJoin), visited + {pid})
        && c.result == CrawlResult(|m.filesQ|, m.status)
        && forall i :: 0 <= i < |m.filesQ| ==> c.output[i] == ToRecord(m.filesQ[i].value)
  {
    var s := Seeded(visited + {pid}, status, entries, pathJoin);
    var m := Work(s, answers, urlJoin);
    WorkQueuesExpandedFiles(s, answers, urlJoin);
    ExpandedListingsMatch(s, answers, urlJoin);
    ExpandsEachIdentityOnce(s, answers, urlJoin);
    if m.inUnfinished <= 0 {
      FinishWritesEveryQueuedFile(m);
    }
  }

  /** The root listing's short-circuits: a timeout, an empty listing, another error. */
  lemma RootShortCircuits(visited: set<PathId>, status: string, pid: PathId,
                          answers: seq<Listing>, pathJoin: Join, urlJoin: Join)
    ensures Crawl(visited, status, Timeout, answers, pathJoin, urlJoin)
         == Finished(CrawlResult(0, InitialTimeout), [])
    ensures Crawl(visited, status, Listed(pid, []), answers, pathJoin, urlJoin)
         == Finished(CrawlResult(0, EmptyRoot), [])
    ensures Crawl(visited, status, TooManyConnections, answers, pathJoin, urlJoin) == Raised
  {
  }

  lemma {:induction false} FileTasksOfFiles(l: seq<Entry>)
    requires forall i :: 0 <= i < |l| ==> !l[i].isDir
    ensures |FileTasks(l)| == |l|
    ensures forall i :: 0 <= i < |l| ==> FileTasks(l)[i] == Item(l[i])
  {
    if l != [] {
      FileTasksOfFiles(l[1..]);
    }
  }

  /** A root holding only files: every root entry is written, in order, and the crawl
    * reports that many files with the status it started with. */
  lemma RootOfFilesOnly(visited: set<PathId>, status: string, pid: PathId, entries: seq<Entry>,
                        answers: seq<Listing>, pathJoin: Join, urlJoin: Join)
    requires |entries| > 0 && forall i :: 0 <= i < |entries| ==> !entries[i].isDir
    ensures var c := Crawl(visited, status, Listed(pid, entries), answers, pathJoin, urlJoin);
      && c.Finished? && c.result == CrawlResult(|entries|, status)
      && |c.output| == |entries|
      && forall i :: 0 <= i < |entries| ==> c.output[i] == ToRecord(entries[i])
  {
    FileTasksOfFiles(entries);
    PartitionSizes(entries, pathJoin);
    var m := Seeded(visited + {pid}, status, entries, pathJoin);
    assert Work(m, answers, urlJoin) == m;
    FinishWritesEveryQueuedFile(m);
  }

  /** Twenty-one timeouts in a row, with at least one directory queued from the root, end
    * the crawl with the website-listing timeout, after writing exactly the root's files. */
  lemma CrawlAbortsAfterBudget(visited: set<PathId>, status: string, pid: PathId,
                               entries: seq<Entry>, rest: seq<Listing>,
                               pathJoin: Join, urlJoin: Join)
    requires DirTasks(entries, pathJoin) != []
    ensures var c := Crawl(visited, status, Listed(pid, entries), Timeouts(21) + rest, pathJoin, urlJoin);
      && c.Finished?
      && c.result == CrawlResult(|FileTasks(entries)|, ListingTimeout)
      && forall i :: 0 <= i < |FileTasks(entries)| ==> c.output[i] == ToRecord(FileTasks(entries)[i].value)
  {
    var m := Seeded(visited + {pid}, status, entries, pathJoin);
    var answers := Timeouts(21) + rest;
    TwentyFirstTimeoutAborts(m, urlJoin);
    TimeoutBudgetExhausted(m, urlJoin);
    WorkAppend(m, Timeouts(21), rest, urlJoin);
    var r := Work(m, Timeouts(21), urlJoin);
    StoppedStaysStopped(r, rest, urlJoin);
    assert Work(m, answers, urlJoin) == r;
    assert r.inUnfinished == 0 && r.filesQ == FileTasks(entries) && r.status == ListingTimeout;
    FinishWritesEveryQueuedFile(r);
    assert Crawl(visited, status, Listed(pid, entries), answers, pathJoin, urlJoin) == Finish(r);
  }

  /** With its single worker, a refused connection at any point of a run, while directory
    * work is still unfinished, stops the worker for good with that work left. */
  lemma RefusalStopsTheOnlyWorker(s: Machine, pre: seq<Listing>, rest: seq<Listing>, join: Join)
    requires Balanced(s) && NoStops(s.inQ) && Busy(Work(s, pre, join))
    ensures var m := Work(s, pre, join);
      var r := Work(s, pre + [TooManyConnections] + rest, join);
      && !r.alive && r.inUnfinished == m.inUnfinished > 0
      && r.filesQ == m.filesQ && r.visited == m.visited && r.status == m.status
  {
    var m := Work(s, pre, join);
    assert pre + [TooManyConnections] + rest == pre + ([TooManyConnections] + rest);
    WorkAppend(s, pre, [TooManyConnections] + rest, join);
    RefusedStep(m, m.inQ[0].value, join);
    var m' := Step(m, TooManyConnections, join);
    assert ([TooManyConnections] + rest)[0] == TooManyConnections;
    assert ([TooManyConnections] + rest)[1..] == rest;
    StoppedStaysStopped(m', rest, join);
  }

  /** So a crawl whose worker is refused while directory work remains never returns. The
    * writer, already running, has written every file entry queued so far, in order. */
  lemma {:induction false} RefusalWithOneWorkerHangs(visited: set<PathId>, status: string, pid: PathId,
                                  entries: seq<Entry>, pre: seq<Listing>, rest: seq<Listing>,
                                  pathJoin: Join, urlJoin: Join)
    requires |entries| > 0
    requires Busy(Work(Seeded(visited + {pid}, status, entries, pathJoin), pre, urlJoin))
    ensures var m := Work(Seeded(visited + {pid}, status, entries, pathJoin), pre, urlJoin);
      var c := Crawl(visited, status, Listed(pid, entries), pre + [TooManyConnections] + rest,
                     pathJoin, urlJoin);
      && c.Hangs?
      && |c.output| == |m.filesQ|
      && forall i :: 0 <= i < |m.filesQ| ==> c.output[i] == ToRecord(m.filesQ[i].value)
  {
    var s := Seeded(visited + {pid}, status, entries, pathJoin);
    var m := Work(s, pre, urlJoin);
    RefusalStopsTheOnlyWorker(s, pre, rest, urlJoin);
    var r := Work(s, pre + [TooManyConnections] + rest, urlJoin);
    assert Crawl(visited, status, Listed(pid, entries), pre + [TooManyConnections] + rest,
                 pathJoin, urlJoin) == Finish(r);
    assert AllFiles(r.filesQ);
    SinkReadsAll(r.filesQ);
  }

  /** The case the crawler's own comment describes, right after seeding: the first listing
    * call is refused while the root queued at least one directory. */
  lemma FirstRefusalHangs(visited: set<PathId>, status: string, pid: PathId,
                          entries: seq<Entry>, rest: seq<Listing>, pathJoin: Join, urlJoin: Join)
    requires DirTasks(entries, pathJoin) != []
    ensures Crawl(visited, status, Listed(pid, entries), [TooManyConnections] + rest,
                  pathJoin, urlJoin).Hangs?
  {
    var s := Seeded(visited + {pid}, status, entries, pathJoin);
    PartitionSizes(entries, pathJoin);
    assert Work(s, [], urlJoin) == s;
    RefusalWithOneWorkerHangs(visited, status, pid, entries, [], rest, pathJoin, urlJoin);
    assert [] + [TooManyConnections] + rest == [TooManyConnections] + rest;
  }

  // ---- A concrete crawl -----------------------------------------------------------

  const NameA: seq<byte> := [0x61]         // "a"
  const NameF1: seq<byte> := [0x66, 0x31]  // "f1"
  const NameF2: seq<byte> := [0x66, 0x32]  // "f2"

  /** Root `/` holds directory `a/` and file `f1` (size 10, mtime 1000); `a/` holds file
    * `f2` (size 20, mtime 2000). With no injected failures the crawl reports two files and
    * "success", and writes the records of `f1` and `f2` with their fields intact. */
  lemma TwoLevelCrawl(pathJoin: Join, urlJoin: Join, rest: seq<Listing>)
    ensures Crawl({}, Success,
                  Listed("/", [Entry(NameA, 0, 0, "/", true), Entry(NameF1, 10, 1000, "/", false)]),
                  [Listed("/a/", [Entry(NameF2, 20, 2000, "/a/", false)])] + rest,
                  pathJoin, urlJoin)
         == Finished(CrawlResult(2, Success),
                     [Record(NameF1, 10, 1000, "/"), Record(NameF2, 20, 2000, "/a/")])
  {
    var a := Entry(NameA, 0, 0, "/", true);
    var f1 := Entry(NameF1, 10, 1000, "/", false);
    var f2 := Entry(NameF2, 20, 2000, "/a/", false);
    var root := [a, f1];
    var answers := [Listed("/a/", [f2])] + rest;
    assert root[1..] == [f1] && [f1][1..] == [];
    assert DirTasks(root, pathJoin) == [Item(pathJoin("/", NameA))];
    assert FileTasks(root) == [Item(f1)];
    assert [f2][1..] == [];
    assert DirTasks([f2], urlJoin) == [] && FileTasks([f2]) == [Item(f2)];
    var m0 := Seeded({"/"}, Success, root, pathJoin);
    ListedNewStep(m0, pathJoin("/", NameA), "/a/", [f2], urlJoin);
    var m1 := Step(m0, answers[0], urlJoin);
    assert m1.inUnfinished == 0 && m1.filesQ == [Item(f1), Item(f2)] && m1.status == Success;
    assert Work(m0, answers, urlJoin) == m1;
    var none: set<PathId> := {};
    assert none + {"/"} == {"/"};
    assert Crawl({}, Success, Listed("/", root), answers, pathJoin, urlJoin) == Finish(m1);
    FinishWritesEveryQueuedFile(m1);
    var out := Finish(m1).output;
    assert out[0] == Record(NameF1, 10, 1000, "/") && out[1] == Record(NameF2, 20, 2000, "/a/");
    assert out == [Record(NameF1, 10, 1000, "/"), Record(NameF2, 20, 2000, "/a/")];
  }
}
