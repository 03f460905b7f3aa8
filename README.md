# vossibility-collector: the GitHub synchronization job

This project models `syncCmd`, the job in vossibility-collector that copies a
repository's issues and pull requests from GitHub into Elastic Search.

For each repository the job works in four steps:

- It lists the issues page by page, oldest first and 100 per page. It starts
  from the page its start index selects and follows each response's NextPage
  until that is 0.
- It sends plain issues straight to an index queue. It sends pull requests to
  a fetch queue.
- Fetching workers turn each pull request into an enriched pull-request item.
  When fetching the pull request fails, they pass the issue on as it is.
- Indexing workers marshal each item, build a blob and store it.

The first page is computed with the PerPage option (`from/PerPage + 1`), but
every request asks for pages of 100 items. The two agree only when PerPage is
100, the default. With a PerPage of at most 50 and a start index of at least
PerPage, listing starts past the start index and the items in between are
never listed (`Paging.FirstPageSkipsPastFrom`).

A listing error ends the paging early. It is only logged: whatever was
already queued is still fetched and indexed.

The model is sequential. The paging loop fills both queues. Closing the fetch
queue then lets the fetching workers run to completion, one after the other.
Closing the index queue does the same for the indexing workers. Each item
meets the same fate as in the concurrent program; only the interleaving is
fixed.

Modules:

- `External`: the records of go-github, storage and blob, and the external
  calls as oracles. Each oracle is a total function given by the caller:
  listing, pullRequestFromIssue, json.Marshal, NewBlobFromPayload and Store.
- `Options`: syncOptions, the state filter and the default values.
- `Paging`: the start index and first-page arithmetic, and the paging loop as
  a recursive specification (`ListFrom`). `Follows` characterises that loop
  request by request.
- `Routing`: which queue each listed issue goes to, and what the fetching
  workers make of pull requests.
- `Indexing`: what an indexing worker does with each item, as a log of
  outcomes.
- `Sync`: channels as `Queue` values and the `SyncCmd` class.
  - Its fields are the two queues, the two WaitGroup counters and a ghost
    `Trace` of what the job has done.
  - The paging, fetching and indexing loops are imperative methods proved
    against the specification functions above.

## Model

| member | source | states |
|---|---|---|
| `Paging.GoDiv` | src/cmd/vossibility-collector/github/sync.go:198 | Go's division truncates toward zero: the remainder has the dividend's sign and is smaller than the divisor in magnitude |
| `Paging.EffectiveFrom` | src/cmd/vossibility-collector/github/sync.go:153-156 | a non-zero From option is the start index; From 0 falls back to the repository's configured start index |
| `Paging.FirstPage` | src/cmd/vossibility-collector/github/sync.go:198 | the first page is from/PerPage+1: for a non-negative start and positive page size it is the page of PerPage items holding position `from`; a start in (-PerPage, 0) still gives page 1 |
| `Paging.FirstPageHoldsFrom` | src/cmd/vossibility-collector/github/sync.go:198-205 | with PerPage 100, the page size the requests use, listing starts on the page of 100 items holding position `from` |
| `Paging.FirstPageSkipsPastFrom` | src/cmd/vossibility-collector/github/sync.go:198-205 | with a PerPage of at most 50 and a start index of at least PerPage, the first page requested begins, in pages of 100, after position `from`, so the items in between are never listed |
| `Paging.Request` | src/cmd/vossibility-collector/github/sync.go:199-207 | the listing call for one page: the repository's user and name, ascending by creation date, the state filter's string, the page, 100 per page |
| `Options.StateFilter.Value` | src/cmd/vossibility-collector/github/sync.go:19-28 | the strings "all", "closed" and "open" that the state filters send |
| `Paging.ListFrom` | src/cmd/vossibility-collector/github/sync.go:198-229 | the paging loop issues no request exactly when the first page is 0, starts at the first page, and has retrieved one page per request except a failing last one |
| `Paging.ListFromIndependent` | src/cmd/vossibility-collector/github/sync.go:198-228 | what the paging loop does depends only on the oracle's answers, not on the termination bound used to define it |
| `Paging.ListingFollows` | src/cmd/vossibility-collector/github/sync.go:198-229 | each request asks for a non-zero page; the first asks for the first page; each later one asks for the previous response's NextPage; paging stops exactly at NextPage 0 or right after an error, which is reported |
| `Paging.ListingRequestShape` | src/cmd/vossibility-collector/github/sync.go:199-207 | every request asks for the repository's own user and name, ascending by creation, with the state filter's value and 100 items per page whatever PerPage says |
| `Routing.IsPullRequest` | src/cmd/vossibility-collector/github/sync.go:217 | an issue is a pull request exactly when it carries PullRequestLinks |
| `Routing.DirectItems` | src/cmd/vossibility-collector/github/sync.go:216-222 | what the routing loop sends to the index queue, the plain issues wrapped and in order, is no longer than the listing |
| `Routing.PullRequests` | src/cmd/vossibility-collector/github/sync.go:216-222 | what the routing loop sends to the fetch queue, the pull requests in order, is no longer than the listing |
| `Routing.RouteClassifies` | src/cmd/vossibility-collector/github/sync.go:216-222 | the index queue receives only plain issues, wrapped as githubIssue; the fetch queue receives only pull requests |
| `Routing.RoutePartition` | src/cmd/vossibility-collector/github/sync.go:216-222 | routing is a partition: every listed issue goes to exactly one queue, none dropped or duplicated |
| `Routing.RouteAppend` | src/cmd/vossibility-collector/github/sync.go:198-228 | routing pages one after another gives both queues the same contents as routing all their issues at once |
| `Routing.Enrich` | src/cmd/vossibility-collector/github/sync.go:238-243 | the item a fetching worker sends for a pull request keeps its originating issue: on success it is the pull-request item carrying the record pullRequestFromIssue returned, on failure githubIssue of the issue itself |
| `Routing.EnrichAll` | src/cmd/vossibility-collector/github/sync.go:236-244 | the fetching workers send exactly as many items as they dequeue |
| `Routing.EnrichAllEach` | src/cmd/vossibility-collector/github/sync.go:236-244 | each dequeued pull request yields exactly one item, at its own position |
| `Routing.EnrichAllOrigins` | src/cmd/vossibility-collector/github/sync.go:236-244 | the items sent on are made from exactly the dequeued pull requests, in order |
| `Routing.DeliverAllEach` | src/cmd/vossibility-collector/github/sync.go:216-244 | the reference delivery of a listing gives each listed issue one item at its own position |
| `Routing.DeliverShape` | src/cmd/vossibility-collector/github/sync.go:216-244 | a plain issue reaches the indexer as itself; a pull request arrives enriched exactly when its fetch succeeded, then carrying the fetched record, and as the plain issue otherwise |
| `Routing.Conservation` | src/cmd/vossibility-collector/github/sync.go:216-244 | the plain issues followed by the fetching workers' output are, as a multiset, each listed issue delivered once |
| `Routing.DeliveredOrigins` | src/cmd/vossibility-collector/github/sync.go:216-244 | each delivered item comes from the listed issue at the same position |
| `Indexing.IndexOne` | src/cmd/vossibility-collector/github/sync.go:255-270 | an item reaches Store exactly when marshalling and blob construction both succeed, with the blob they built. Otherwise the first failure's error is recorded; a marshal failure is recorded as such. A Store error is recorded and nothing more |
| `Indexing.IndexAll` | src/cmd/vossibility-collector/github/sync.go:251-271 | the indexing log has one record per dequeued item |
| `Indexing.IndexAllEach` | src/cmd/vossibility-collector/github/sync.go:251-271 | the record at each position is that item and the outcome of marshal, then blob construction, then Store |
| `Indexing.IndexAllAccounts` | src/cmd/vossibility-collector/github/sync.go:255-270 | every item is logged once, in order, whatever Store answers. Each item gets at most one Store call. Every item gets one when all marshal and build a blob. Some item is skipped when one fails to. The item at each position reaches Store exactly when it marshals and builds a blob |
| `Sync.RepositoryTrace` | src/cmd/vossibility-collector/github/sync.go:140-178 | what one repository adds to the job's trace. With at least one worker of each kind there is one index record per listed issue; with no indexing worker there are none |
| `Sync.Queue.Send` | src/cmd/vossibility-collector/github/sync.go:218-220 | a send on an open channel appends the value after those already buffered and keeps the capacity |
| `Sync.Queue.Close` | src/cmd/vossibility-collector/github/sync.go:162 | closing an open channel keeps its buffered values |
| `Sync.Queue.Receive` | src/cmd/vossibility-collector/github/sync.go:236 | a receive takes the oldest buffered value and leaves the rest in order |
| `Sync.MakeQueue` | src/cmd/vossibility-collector/github/sync.go:124-125 | `make` gives an open, empty channel of the given capacity |
| `Sync.RunTraceNext` | src/cmd/vossibility-collector/github/sync.go:140-178 | running the job on one more repository extends the earlier repositories' trace by that repository's, so a run's trace is built one repository at a time |
| `Sync.RepositoryConservation` | src/cmd/vossibility-collector/github/sync.go:157-171 | with at least one worker of each kind, the indexers dequeue every listed issue exactly once, enriched or not. This holds even after a listing error. No listed issue causes more than one Store call |
| `Sync.PagedNext` | src/cmd/vossibility-collector/github/sync.go:199-227 | one loop step: a listing error ends the listing with that error at once; a page moves the loop on to the page the response names |
| `Sync.PagedDone` | src/cmd/vossibility-collector/github/sync.go:198 | the loop reaches page 0 only when the whole listing was retrieved without error |
| `Sync.RoutePage` | src/cmd/vossibility-collector/github/sync.go:216-222 | the routing loop over a page appends its pull requests to the fetch queue and its wrapped plain issues to the index queue |
| `Sync.PageThrough` | src/cmd/vossibility-collector/github/sync.go:197-229 | the paging loop issues exactly the listing's requests and returns its error, if any. The queues grow by the routed issues of every page retrieved. It pauses once per page when SleepPerPage > 0. `count` is kept equal to the number of issues retrieved |
| `Sync.FetchLoop` | src/cmd/vossibility-collector/github/sync.go:236-244 | a fetching worker empties the closed fetch queue and sends one item per pull request, in order, to the index queue |
| `Sync.IndexLoop` | src/cmd/vossibility-collector/github/sync.go:251-271 | an indexing worker empties the closed index queue and logs one outcome per item, in order |
| `Sync.IndexItem` | src/cmd/vossibility-collector/github/sync.go:255-270 | one item of indexingProc's loop reaches Store exactly when marshalling and blob construction succeed; a marshal failure is recorded as such; a Store call is recorded as stored exactly when Store returns no error. The outcome is the one `Indexing.IndexOne` specifies |
| `Sync.SyncCmd.WithOptions` | src/cmd/vossibility-collector/github/sync.go:119-127 | a new job keeps its collaborators and options, has fresh open queues of capacities NumFetchProcs and NumIndexProcs, and no worker |
| `Sync.SyncCmd.Default` | src/cmd/vossibility-collector/github/sync.go:111-113 | the default job has From 1, 20 fetchers, 5 indexers, PerPage 100, no sleep, the open-issues filter and snapshot storage |
| `Sync.SyncCmd.Run` | src/cmd/vossibility-collector/github/sync.go:139-179 | running the job on a list of repositories adds each repository's trace in order, and leaves the job idle with fresh queues |
| `Sync.SyncCmd.RunRepository` | src/cmd/vossibility-collector/github/sync.go:140-178 | one repository adds its listing requests, pauses, one run per worker and the indexers' log. The indexers see the plain issues followed by the fetchers' output. Fresh queues are made afterwards |
| `Sync.SyncCmd.SpawnWorkers` | src/cmd/vossibility-collector/github/sync.go:141-149 | the two `!=` loops add exactly NumIndexProcs and NumFetchProcs to the wait groups |
| `Sync.SyncCmd.Drain` | src/cmd/vossibility-collector/github/sync.go:161-171 | the fetch queue is closed before waiting for the fetchers, and the index queue only after they are done. Every outstanding worker has finished when it returns. Both queues end closed with their capacities, and empty when they had workers |
| `Sync.SyncCmd.FetchRepositoryItems` | src/cmd/vossibility-collector/github/sync.go:196-230 | the job's queues grow by the routed issues of the repository's listing from the first page of `from`; the listing error is returned and the requests and pauses are recorded |
| `Sync.SyncCmd.WaitFetch` | src/cmd/vossibility-collector/github/sync.go:165 | the outstanding fetching workers all finish; the first one drains the closed fetch queue into the index queue |
| `Sync.SyncCmd.FetchingProc` | src/cmd/vossibility-collector/github/sync.go:235-246 | a fetching worker drains the fetch queue, enriching each pull request, then calls Done |
| `Sync.SyncCmd.WaitIndex` | src/cmd/vossibility-collector/github/sync.go:170 | the outstanding indexing workers all finish; the first one drains the closed index queue |
| `Sync.SyncCmd.IndexingProc` | src/cmd/vossibility-collector/github/sync.go:250-273 | an indexing worker drains the index queue, logging each item's outcome, then calls Done |

## Left out

- Concurrency: goroutines, their interleaving and channel blocking are not
  modelled.
  - Workers run to completion in turn when the job waits for them, so the
    order in which items reach the store is an order that unbounded channels
    allow. Bounded channels can rule it out: with one fetching worker, the
    source may index a pull request before a plain issue listed after it.
  - Channel capacities are recorded but sends never block.
- Sync.SyncCmd.Run: with zero fetching or indexing workers, the source
  blocks forever on the first send into an unbuffered channel that nobody
  reads. The model instead leaves such items in the queue and produces no
  output for them.
- Sync.SyncCmd.Run: negative NumFetchProcs or NumIndexProcs, and a PerPage of
  0, are excluded by its requires. In the source, `make` panics on a negative
  capacity, the `!=` spawning loop never stops, and division by 0 panics.
- Paging.GoDiv: Go's `int` is 64 bits wide and the model's integers are
  unbounded, so the one overflowing case, the minimum int divided by -1
  (which Go returns as the minimum int), is not modelled.
- Paging.FirstPage: the `+ 1` wraps to the minimum int in Go when
  From/PerPage is the maximum int (From the maximum int, PerPage 1). The
  model computes over unbounded integers and gives the next integer instead.
- Sync.SyncCmd.Default: the source holds the options by pointer and the
  default job points at the package variable DefaultSyncOptions, so later
  writes to that variable would reach every default job. The model copies the
  options into the job. Nothing in github/sync.go writes through the pointer.
- Sync.SyncCmd.Run: it requires every repository's listing to end, that is
  to reach NextPage 0 or an error. A listing that never ends keeps the source
  paging forever.
- The oracles are total pure functions, so a repeated call gets the same
  answer. GitHub's changing data, rate limiting and retries are not
  modelled.
- pullRequestFromIssue lives in another file and is not part of this model.
  The model keeps only its success or failure and the fetched record. How it
  merges the issue's labels into the pull request is out of scope.
- json.Marshal, blob.NewBlobFromPayload and BlobStore.Store are oracles.
  - The payload's contents and the blob's transformations are not modelled.
  - An item's ID is its issue number; the source renders it as a string.
- Logging is not modelled: log.Infof with the running count, the error logs
  and the warnings after each wait. The count itself is kept by the paging
  loop as a loop invariant.
- The length of each pause (SleepPerPage seconds) is not modelled. The trace
  counts only how many pauses there were.
- The ghost `Trace` is the model's account of the job's effects, and
  `Indexing.IndexStep` stands for the effect of each Store call. The
  documents in Elastic Search are not modelled.
