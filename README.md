# A verified model of the od-database directory crawler

This project models the core of `crawl_server/crawler.py`, the crawler that walks a
remote directory tree (FTP or an HTTP directory index) and writes every file entry it
finds to an out file. It covers:

- **The entry fingerprint** (`File.__bytes__`). This is a pure encoder. The name's bytes
  come first, then a flag byte (`D` for a directory, `F` for a file), then `abs(size)` in
  6 little-endian bytes, then `abs(mtime)` in 6 little-endian bytes. The model adds a
  matching decoder. A magnitude of 2^48 or more makes `int.to_bytes(6)` raise
  OverflowError; the model returns `None` for it.
- **The crawl**, as a sequential machine with one worker
  (`RemoteDirectoryCrawler.crawl_directory`, `_process_listings` and `_log_to_file`).
  The state is:
  - the directory queue `in_q` and the file queue `files_q`;
  - each queue's unfinished-task counter, which is what `task_done` and `join` act on;
  - the visited set `crawled_paths`;
  - the shared `status_code`;
  - the worker's `timeout_retries`, whether its loop still runs, and whether its
    listing port is open;
  - the lines written to the out file.

  Each call to a listing port is answered by an oracle: a `Listing` value that is one of
  `Listed(pathId, entries)`, `Timeout` or `TooManyConnections`.

Modules, one per file:

- `Entries` holds the entry, the output record, the queue items and the oracle's answer.
  It also holds the split of a listing into directory tasks and file tasks.
- `Fingerprint` is the encoder and decoder.
- `CrawlSpec` is the machine as pure functions: one worker pass (`Step`), the worker's
  run while `in_q.join()` waits (`Work`), the stop signal, the file writer, and the whole
  crawl (`Crawl`).
- `CrawlProperties` holds lemmas about `CrawlSpec`.
- `Crawler` holds the class `RemoteDirectoryCrawler`. Its fields are updated in place by
  methods that mirror the source's loops. Each worker and writer method is proved to
  leave the object in the state its `CrawlSpec` function gives. `CrawlDirectory` returns
  `CrawlSpec.Crawl` and leaves the visited set and status of `CrawlSpec.CrawlState`; when
  the crawl finishes, the out file holds exactly the returned lines.

The worker runs one pass per oracle answer for as long as the directory queue has
unfinished work. After that the crawl puts one stop signal into `in_q`, then one into
`files_q`, then runs the file writer. By then no producer is active, so the writer sees
the same items in the same order as the threaded program's writer would.

`CrawlOutcome` says how a crawl ends:

- `Finished` carries the returned `CrawlResult` and the lines written.
- `Raised` is an exception that reached the outer `except Exception`.
- `Hangs` means `in_q.join()` can never return, because the only worker has left its
  loop while directory work is still unfinished. It carries the lines the writer thread,
  started before the join (crawl_server/crawler.py:118-119), has written by then: every
  entry on the file queue, after which its idle wait ends it.
- `OutOfAnswers` means the oracle ran out of answers first.

Two behaviours to note:

- The timeout budget starts at 20 (crawl_server/crawler.py:140). So a worker retries 20
  timeouts, and its 21st aborts the crawl.
- The class constant `MAX_TIMEOUT_RETRIES = 3` (crawl_server/crawler.py:80) is never
  read, so the model has no counterpart for it.

The visited set and the status are created in `__init__`, not in `crawl_directory`. So
`CrawlDirectory` starts from the object's current values. A second crawl on the same
object sees the identities the first one visited, and it keeps a timeout status the first
one set.

## Model

| member | source | states |
|---|---|---|
| `Entries.RecordKeepsFourFields` | crawl_server/crawler.py:32-38 | two entries give the same output line exactly when they agree on name, size, mtime and path; the directory flag is not written |
| `Entries.DirTasks` | crawl_server/crawler.py:105-107 | the directory queue receives only real path items, at most one per entry |
| `Entries.FileTasks` | crawl_server/crawler.py:105-109 | the file queue receives only non-directory entries, at most one per entry |
| `Entries.PartitionSizes` | crawl_server/crawler.py:105-109 | every entry of a listing goes to exactly one of the two queues |
| `Entries.PartitionAppend` | crawl_server/crawler.py:158-162 | the split keeps listing order: splitting a concatenation concatenates the splits |
| `Entries.FileTasksExact` | crawl_server/crawler.py:108-109 | an entry reaches the file queue if and only if it is in the listing and is not a directory |
| `Entries.DirTasksExact` | crawl_server/crawler.py:159-160 | a path reaches the directory queue if and only if it is the join of a directory entry's path and name |
| `Fingerprint.LittleEndian` | crawl_server/crawler.py:28-29 | `to_bytes(n, "little")` yields exactly n bytes for a value below 256^n |
| `Fingerprint.FromLittleEndian` | crawl_server/crawler.py:28-29 | the value read back from n little-endian bytes is below 256^n |
| `Fingerprint.FromLittleEndianInverts` | crawl_server/crawler.py:28-29 | reading back the little-endian bytes of a value gives that value |
| `Fingerprint.LittleEndianInverts` | crawl_server/crawler.py:28-29 | every byte string is the little-endian encoding of the value it denotes |
| `Fingerprint.Encode` | crawl_server/crawler.py:24-30 | a fingerprint exists exactly when both magnitudes are below 2^48; it is then the name bytes plus 13 bytes, with `D` right after the name for a directory and `F` for a file |
| `Fingerprint.Decode` | crawl_server/crawler.py:24-30 | a decodable string is its name plus 13 bytes, and both decoded magnitudes are below 2^48 |
| `Fingerprint.DecodeEncode` | crawl_server/crawler.py:24-30 | decoding a fingerprint gives the name, the directory flag, abs(size) and abs(mtime) |
| `Fingerprint.EncodeDecode` | crawl_server/crawler.py:24-30 | a decodable string is the fingerprint of every entry whose name, flag and magnitudes it decodes to |
| `Fingerprint.SignIsNotEncoded` | crawl_server/crawler.py:28-29 | negating size and mtime leaves the fingerprint unchanged, so the sign is lost |
| `CrawlSpec.Expand` | crawl_server/crawler.py:155-162 | expanding a listing marks its identity visited and sends each entry to exactly one queue, keeping every queued item counted, the counts balanced and the file queue free of directories |
| `CrawlSpec.Abort` | crawl_server/crawler.py:177-190 | the abort drains the directory queue and acknowledges each drained item, so a balanced queue ends with no unfinished task; files and visited are left alone and the worker stops |
| `CrawlSpec.ListPath` | crawl_server/crawler.py:153-190 | listing a dequeued path keeps every queued item counted, only grows visited (by the listed identity) and the file queue, sets no status but the listing timeout, and ends the worker exactly on a refusal or on a timeout with no budget left |
| `CrawlSpec.Step` | crawl_server/crawler.py:142-192 | one worker pass keeps every queued item counted as unfinished; it keeps the unfinished count equal to the queue length when no stop signal is queued; it never shrinks the visited set, never removes from the file queue, never raises the budget, sets no status but the listing timeout, and does nothing once the loop has ended |
| `CrawlSpec.Work` | crawl_server/crawler.py:121 | the same invariants hold over any run of the worker while `in_q.join()` waits |
| `CrawlSpec.StopWorker` | crawl_server/crawler.py:126-129 | the stop signal changes neither the file queue, the visited set nor the status, and it ends a worker that is waiting on an empty queue |
| `CrawlSpec.ExpandedListings` | crawl_server/crawler.py:155 | every listing the worker expands is a non-empty listing, at most one per answer |
| `CrawlSpec.SinkRecords` | crawl_server/crawler.py:200-213 | the writer writes at most one line per queued item |
| `CrawlSpec.SinkRest` | crawl_server/crawler.py:200-213 | the items the writer leaves and the lines it writes together come to at most the queue's length |
| `CrawlSpec.Crawl` | crawl_server/crawler.py:88-135 | a crawl raises to the outer handler exactly when the root listing is refused; a finished crawl's count is the number of lines written and its status is the object's, an initial timeout, "empty" or the listing timeout; it can hang or run out of answers only after a non-empty root |
| `CrawlSpec.Finish` | crawl_server/crawler.py:118-133 | the crawl gets past `in_q.join()` exactly when no directory task is unfinished, and then returns the number of lines written with the shared status; it hangs exactly when the worker has left with work unfinished, with at most one written line per queued file |
| `CrawlSpec.CrawlState` | crawl_server/crawler.py:92-130 | after a crawl with a non-empty root, visited holds the earlier identities and the root's, the status is the earlier one or the listing timeout, and the file queue starts with the root's files and holds only files |
| `CrawlSpec.Seeded` | crawl_server/crawler.py:103-109 | after seeding, the queues hold every root entry exactly once, each unfinished count equals its queue's length, and the file queue holds only files |
| `CrawlProperties.ListedNewStep` | crawl_server/crawler.py:154-162 | a non-empty listing of an unvisited identity adds that identity to visited; its directories are appended to the directory queue and its files to the file queue, in order; budget and status are unchanged |
| `CrawlProperties.ListedDiscardStep` | crawl_server/crawler.py:155 | an empty listing, or one already visited, changes nothing but removing and acknowledging the dequeued path |
| `CrawlProperties.RefusedStep` | crawl_server/crawler.py:164-171 | too many connections: the same path goes back to the end of the directory queue, the port closes, and the worker stops; visited, file queue, status and budget are unchanged |
| `CrawlProperties.TimeoutRetryStep` | crawl_server/crawler.py:172-176 | a timeout with budget left lowers the budget by exactly one and requeues the same path |
| `CrawlProperties.TimeoutAbortStep` | crawl_server/crawler.py:177-190 | a timeout with no budget left sets the website-listing timeout status, drains the directory queue and acknowledges every drained item, closes the port and stops the worker |
| `CrawlProperties.WorkerExits` | crawl_server/crawler.py:144-151 | the worker stops on a stop signal without acknowledging it, and on an empty queue after closing its port |
| `CrawlProperties.JoinMeansDrained` | crawl_server/crawler.py:121 | when no directory task is unfinished, the directory queue is empty |
| `CrawlProperties.WorkAppend` | crawl_server/crawler.py:142-192 | running the worker on two batches of answers equals running it on their concatenation |
| `CrawlProperties.StoppedStaysStopped` | crawl_server/crawler.py:142 | a worker whose loop has ended changes nothing more |
| `CrawlProperties.TimeoutsWithinBudget` | crawl_server/crawler.py:172-176 | up to `retries` consecutive timeouts keep the worker running, lower the budget by one each, keep the same queued paths (as a multiset) and leave visited, files and status alone |
| `CrawlProperties.TimeoutBudgetExhausted` | crawl_server/crawler.py:172-190 | the timeout after the budget is spent aborts: the status is set, the queue is drained and acknowledged, and the worker stops |
| `CrawlProperties.TwentyFirstTimeoutAborts` | crawl_server/crawler.py:140 | from the starting budget of 20, twenty timeouts are retried and the twenty-first aborts |
| `CrawlProperties.StepVisits` | crawl_server/crawler.py:155-156 | one pass adds to visited at most one identity, which was not visited before |
| `CrawlProperties.ExpandsEachIdentityOnce` | crawl_server/crawler.py:155-156 | over a whole run, each identity is expanded at most once and never one already visited; visited grows by exactly the expanded identities |
| `CrawlProperties.StepQueuesExpandedFiles` | crawl_server/crawler.py:155-162 | one pass adds to the file queue exactly the files of the listing it expands, and that listing is the one of the identity it marks visited |
| `CrawlProperties.WorkQueuesExpandedFiles` | crawl_server/crawler.py:155-162 | over a whole run, the file queue grows by exactly the files of the expanded listings, in the order they were listed |
| `CrawlProperties.ExpandedListingsMatch` | crawl_server/crawler.py:155-156 | the i-th expanded listing is the listing of the i-th identity marked visited |
| `CrawlProperties.SinkReadsUpToStop` | crawl_server/crawler.py:200-213 | the writer emits one record per entry before the stop signal, in queue order, and consumes the queue exactly up to the stop signal |
| `CrawlProperties.SinkReadsAll` | crawl_server/crawler.py:200-213 | fed entries with no stop signal, the writer emits one record per entry, in order, and stops at its idle wait with the queue empty |
| `CrawlProperties.FinishWritesEveryQueuedFile` | crawl_server/crawler.py:121-133 | once the join returns, the crawl reports as many files as were queued, with the shared status, and writes each one in order |
| `CrawlProperties.CrawlCountsEveryQueuedFile` | crawl_server/crawler.py:133 | a finished crawl's count is the number of file entries queued during it: the root's files first, then the files of every expanded listing in listing order, each listing of a distinct identity not visited before; every one is written in that order |
| `CrawlProperties.RootShortCircuits` | crawl_server/crawler.py:93-101 | a root timeout gives (0, "Timeout during initial request"), an empty root gives (0, "empty"), both with nothing written; any other root error reaches the outer handler |
| `CrawlProperties.RootOfFilesOnly` | crawl_server/crawler.py:105-133 | a root holding only files gives a count equal to the number of root entries and writes them in order, whatever any worker would answer |
| `CrawlProperties.CrawlAbortsAfterBudget` | crawl_server/crawler.py:177-190 | twenty-one timeouts right after seeding end the crawl with "Timeout during website listing" after writing exactly the root's files |
| `CrawlProperties.RefusalStopsTheOnlyWorker` | crawl_server/crawler.py:164-171 | a refusal at any point of a run, while directory work is unfinished, stops the only worker for good with that work still unfinished |
| `CrawlProperties.RefusalWithOneWorkerHangs` | crawl_server/crawler.py:164-171 | with one worker, a refused connection at any point while directory work remains means the crawl never returns, and the writer has written every file entry queued so far, in order |
| `CrawlProperties.FirstRefusalHangs` | crawl_server/crawler.py:164-171 | in particular, a refusal of the first listing after a root that queued a directory hangs the crawl |
| `CrawlProperties.TwoLevelCrawl` | crawl_server/crawler.py:88-133 | root `/` with `a/` and `f1`, where `a/` holds `f2`, crawls to (2, "success") and writes the records of f1 and f2 with their fields |
| `Crawler.RemoteDirectoryCrawler.constructor` | crawl_server/crawler.py:82-86 | a new crawler has an empty visited set, the status "success" and no queued work |
| `Crawler.RemoteDirectoryCrawler.PutDir` | crawl_server/crawler.py:160 | `in_q.put` appends the item and counts it as unfinished |
| `Crawler.RemoteDirectoryCrawler.PutFile` | crawl_server/crawler.py:162 | `files_q.put` appends the item and counts it as unfinished |
| `Crawler.RemoteDirectoryCrawler.GetDir` | crawl_server/crawler.py:143-148 | `in_q.get` removes and returns the head item, and reports Empty exactly when the queue is empty, leaving it unchanged |
| `Crawler.RemoteDirectoryCrawler.GetFile` | crawl_server/crawler.py:202-206 | `files_q.get` removes and returns the head item, and reports Empty exactly when the queue is empty, leaving it unchanged |
| `Crawler.RemoteDirectoryCrawler.DirTaskDone` | crawl_server/crawler.py:191-192 | `in_q.task_done` lowers the directory queue's unfinished count by one |
| `Crawler.RemoteDirectoryCrawler.FileTaskDone` | crawl_server/crawler.py:213 | `files_q.task_done` lowers the file queue's unfinished count by one |
| `Crawler.RemoteDirectoryCrawler.PutListing` | crawl_server/crawler.py:158-162 | the loop over a listing appends exactly its directory tasks and its file tasks, with each counter raised by the number added |
| `Crawler.RemoteDirectoryCrawler.SeedQueues` | crawl_server/crawler.py:103-109 | fresh queues hold exactly the root's directory tasks and file tasks, with each unfinished count equal to its length |
| `Crawler.RemoteDirectoryCrawler.DrainDirs` | crawl_server/crawler.py:183-188 | the drain loop empties the directory queue and acknowledges every item it takes |
| `Crawler.RemoteDirectoryCrawler.TakeListing` | crawl_server/crawler.py:154-162 | a successful listing updates the object exactly as `CrawlSpec.ListPath` says for a listed answer |
| `Crawler.RemoteDirectoryCrawler.Refused` | crawl_server/crawler.py:164-171 | a refusal updates the object exactly as `CrawlSpec.ListPath` says for too many connections |
| `Crawler.RemoteDirectoryCrawler.TimedOut` | crawl_server/crawler.py:172-190 | a timeout updates the object exactly as `CrawlSpec.ListPath` says for a timeout: a retry while budget remains, otherwise the abort |
| `Crawler.RemoteDirectoryCrawler.ProcessListing` | crawl_server/crawler.py:142-192 | one pass of the worker loop updates the object exactly as `CrawlSpec.Step` says, and leaves the out file alone |
| `Crawler.RemoteDirectoryCrawler.StopWorkers` | crawl_server/crawler.py:126-129 | putting the stop signal does exactly what `CrawlSpec.StopWorker` says |
| `Crawler.RemoteDirectoryCrawler.LogToFile` | crawl_server/crawler.py:195-216 | the writer truncates the out file and writes one line per entry up to the stop signal or the empty wait; its count is the number of lines written, and it acknowledges each written entry |
| `Crawler.RemoteDirectoryCrawler.CrawlDirectory` | crawl_server/crawler.py:88-133 | the crawl's outcome is `CrawlSpec.Crawl` of the object's visited set and status, the root answer and the worker's answers; after a non-empty root the object's visited set and status are those of `CrawlSpec.CrawlState`, so the next crawl starts from them; a finished crawl leaves exactly its returned lines in the out file and an empty file queue, and a hung one the lines its writer wrote; a root timeout, refusal or empty root changes nothing |

## Left out

- Crawler.RemoteDirectoryCrawler.CrawlDirectory: when the oracle's answers run out before
  the crawl resolves (`OutOfAnswers`), the out file is left as it was. This outcome exists
  only because the oracle is finite; the running writer's partial output at that moment
  is not modelled.

- Threads, `Thread.join`, and the blocking `Queue.get(timeout=2000)`. The model runs one
  worker and one writer in sequence. `max_threads` is taken to be 1. A `max_threads` of
  0, which starts no worker, is not modelled.
- The wait in `get(timeout=2000)`. A get raises Empty exactly when the queue is empty.
- `files_q.join()` before the writer's stop signal. The writer runs after its stop signal
  is queued. This gives the same records and count, because no producer is active by
  then.
- The probabilistic `ScalableBloomFilter`. The visited set is exact, so false positives
  (skipped directories) are not modelled.
- `urlparse`, `urljoin` and `os.path.join`. They are library path functions, given here
  as the `pathJoin` (root seeding, `os.path.join(f.path, f.name, "")`) and `urlJoin`
  (worker, `urljoin(f.path, f.name)`) parameters of the crawler. The root path passed to
  the root listing is not modelled: the root's answer is given directly.
- `File.to_json` and `ujson.dumps`. They are library serialisation, so an output line is
  the abstract `Record` of the four serialised fields.
- Opening and writing the out file, and all `logger` calls. These are I/O; the out file is
  the sequence `outFile`.
- `RemoteDirectoryFactory` and the FTP/HTTP engines. They are foreign code, so listing
  calls are answered by the oracle. A scheme with no engine is not modelled: then
  `get_directory` returns None and the crawl fails in the generic handler. Closing a port
  is recorded only as the worker's `portOpen` flag.
- The text of the exception description at crawl_server/crawler.py:134-135. It depends on
  `str(e)` and `type(e)`, so it is only the `Raised` outcome.
- A listing error other than TimeoutError or TooManyConnectionsError. Inside a worker one
  would end that thread. The oracle does not produce one.
- Name encoding (`str.encode`). Names are held as already-encoded byte sequences.
- Termination with the exact leaf count for any finite, acyclic tree. The oracle gives
  answers, not a tree, so the model proves it only for the two-level scenario
  (`TwoLevelCrawl`) and for roots holding only files (`RootOfFilesOnly`).
