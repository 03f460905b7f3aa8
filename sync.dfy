/**
 * The synchronization job (syncCmd in github/sync.go), run sequentially.
 *
 * The source runs the paging loop, NumFetchProcs fetching goroutines and
 * NumIndexProcs indexing goroutines at once, connected by two channels. Here
 * each repository's run happens in the order the channel protocol allows:
 * the paging loop fills both queues, closing the fetch queue lets the
 * fetching workers run to completion one after the other (the first drains
 * it, the others find it closed and empty), and closing the index queue then
 * does the same for the indexing workers. Each item meets the same fate as in
 * the concurrent program; only the interleaving is fixed.
 */
module Sync {
  import opened Wrappers
  import opened External
  import opened Options
  import opened Paging
  import opened Routing
  import opened Indexing

  /**
   * A Go channel: its capacity, the values sent and not yet received, and
   * whether it was closed. Sends never block here, so the capacity is only
   * recorded.
   */
  datatype Queue<T> = Queue(capacity: nat, buffer: seq<T>, closed: bool)
  {
    /** Sending on a closed channel panics in Go, so it is not allowed. */
    function Send(x: T): (q: Queue<T>)
      requires !closed
      ensures q.buffer == buffer + [x] && q.capacity == capacity && !q.closed
    {
      this.(buffer := buffer + [x])
    }

    /** Closing a closed channel panics in Go, so it is not allowed. */
    function Close(): (q: Queue<T>)
      requires !closed
      ensures q.closed && q.buffer == buffer && q.capacity == capacity
    {
      this.(closed := true)
    }

    /** Takes the oldest buffered value. */
    function Receive(): (r: (T, Queue<T>))
      requires buffer != []
      ensures [r.0] + r.1.buffer == buffer && r.1.capacity == capacity && r.1.closed == closed
    {
      (buffer[0], this.(buffer := buffer[1..]))
    }
  }

  /** A fresh channel, as made by `make(chan T, capacity)`. */
  function MakeQueue<T>(capacity: nat): (q: Queue<T>)
    ensures q.capacity == capacity && q.buffer == [] && !q.closed
  {
    Queue(capacity, [], false)
  }

  /**
   * What a job has done, as seen from outside: the listing requests it issued,
   * the pauses it took between pages, the fetching and indexing workers that
   * ran to completion, and one record per item an indexing worker dequeued.
   */
  datatype Trace = Trace(
    requests: seq<ListRequest>,
    pauses: nat,
    fetchers: nat,
    indexers: nat,
    records: seq<IndexRecord>)
  {
    function Then(t: Trace): Trace {
      Trace(requests + t.requests, pauses + t.pauses, fetchers + t.fetchers, indexers + t.indexers, records + t.records)
    }
  }

  const NoTrace: Trace := Trace([], 0, 0, 0, [])

  lemma ThenNothing(t: Trace)
    ensures t.Then(NoTrace) == t
  {
    assert t.requests + [] == t.requests && t.records + [] == t.records;
  }

  /** Traces compose associatively, so a run's trace can be extended one repository at a time. */
  lemma ThenAssociative(a: Trace, b: Trace, c: Trace)
    ensures a.Then(b).Then(c) == a.Then(b.Then(c))
  {
    assert (a.requests + b.requests) + c.requests == a.requests + (b.requests + c.requests);
    assert (a.records + b.records) + c.records == a.records + (b.records + c.records);
  }

  /** The listing of repository `r` ends, from the first page its start index selects. */
  ghost predicate CanList(c: Client, opt: SyncOptions, r: Repository)
    requires opt.perPage != 0
  {
    ListingStops(c.listByRepo, r, opt.state, FirstPage(EffectiveFrom(opt, r), opt.perPage))
  }

  ghost function RepositoryListing(c: Client, opt: SyncOptions, r: Repository): Listing
    requires opt.perPage != 0 && CanList(c, opt, r)
  {
    ListingOf(c.listByRepo, r, opt.state, FirstPage(EffectiveFrom(opt, r), opt.perPage))
  }

  /** What the fetching workers send on to the index queue for the fetch queue's contents: nothing if there are none. */
  function FetchOutput(workers: int, c: Client, r: Repository, prs: seq<Issue>): seq<IndexedItem> {
    if workers > 0 then EnrichAll(c, r, prs) else []
  }

  /** What the indexing workers log for the index queue's contents: nothing if there are none. */
  function IndexOutput(workers: int, codec: Codec, bs: BlobStore, storage: Storage, r: Repository, items: seq<IndexedItem>): seq<IndexRecord> {
    if workers > 0 then IndexAll(codec, bs, storage, r, items) else []
  }

  /**
   * What running the job on one repository adds to its trace. The indexing
   * workers find the plain issues in the index queue, followed by what the
   * fetching workers made of the pull requests.
   */
  ghost function RepositoryTrace(c: Client, codec: Codec, bs: BlobStore, opt: SyncOptions, r: Repository): (t: Trace)
    requires Runnable(opt) && CanList(c, opt, r)
    ensures opt.numFetchProcs > 0 && opt.numIndexProcs > 0 ==>
              |t.records| == |Flatten(RepositoryListing(c, opt, r).pages)|
    ensures opt.numIndexProcs == 0 ==> t.records == []
  {
    var l := RepositoryListing(c, opt, r);
    var issues := Flatten(l.pages);
    RoutePartition(issues);
    Trace(
      l.requests,
      if opt.sleepPerPage > 0 then |l.pages| else 0,
      opt.numFetchProcs,
      opt.numIndexProcs,
      IndexOutput(opt.numIndexProcs, codec, bs, opt.storage, r,
                  DirectItems(issues) + FetchOutput(opt.numFetchProcs, c, r, PullRequests(issues))))
  }

  /** What running the job on the first `k` repositories, in order, adds to its trace. */
  ghost function RunTrace(c: Client, codec: Codec, bs: BlobStore, opt: SyncOptions, repos: seq<Repository>, k: nat): Trace
    requires Runnable(opt) && k <= |repos| && forall r <- repos :: CanList(c, opt, r)
  {
    if k == 0 then NoTrace
    else RunTrace(c, codec, bs, opt, repos, k - 1).Then(RepositoryTrace(c, codec, bs, opt, repos[k - 1]))
  }

  /** Running the job on one more repository extends the trace of the earlier ones by that repository's trace. */
  lemma RunTraceNext(t: Trace, c: Client, codec: Codec, bs: BlobStore, opt: SyncOptions, repos: seq<Repository>, k: nat)
    requires Runnable(opt) && k < |repos| && forall r <- repos :: CanList(c, opt, r)
    ensures t.Then(RunTrace(c, codec, bs, opt, repos, k)).Then(RepositoryTrace(c, codec, bs, opt, repos[k]))
         == t.Then(RunTrace(c, codec, bs, opt, repos, k + 1))
  {
    ThenAssociative(t, RunTrace(c, codec, bs, opt, repos, k), RepositoryTrace(c, codec, bs, opt, repos[k]));
  }

  /**
   * Conservation for one repository with at least one worker of each kind:
   * the indexing workers dequeue every listed issue exactly once, a plain
   * issue as itself and a pull request enriched or as its fallback issue,
   * whether or not listing failed part-way; and no listed issue causes more
   * than one Store call.
   */
  lemma RepositoryConservation(c: Client, codec: Codec, bs: BlobStore, opt: SyncOptions, r: Repository)
    requires Runnable(opt) && CanList(c, opt, r)
    requires opt.numFetchProcs > 0 && opt.numIndexProcs > 0
    ensures var issues := Flatten(RepositoryListing(c, opt, r).pages);
      var records := RepositoryTrace(c, codec, bs, opt, r).records;
      multiset(Items(records)) == multiset(DeliverAll(c, r, issues)) &&
      multiset(Origins(Items(records))) == multiset(issues) &&
      |StoreCalls(records)| <= |issues|
  {
    var issues := Flatten(RepositoryListing(c, opt, r).pages);
    var items := DirectItems(issues) + EnrichAll(c, r, PullRequests(issues));
    IndexAllAccounts(codec, bs, opt.storage, r, items);
    Conservation(c, r, issues);
    RoutePartition(issues);
    OriginsAppend(DirectItems(issues), EnrichAll(c, r, PullRequests(issues)));
    EnrichAllOrigins(c, r, PullRequests(issues));
  }

  /**
   * The paging loop's position in listing `l` after `k` retrieved pages: the
   * page to request next (0 once the listing is over), the issues retrieved
   * so far and the requests issued so far.
   */
  ghost predicate Paged(l: Listing, k: int, page: int, listed: seq<Issue>, sent: seq<ListRequest>) {
    0 <= k <= |l.pages| <= |l.requests| &&
    page == (if k < |l.requests| then l.requests[k].page else 0) &&
    listed == Flatten(l.pages[..k]) &&
    sent == l.requests[..k]
  }

  /**
   * One request of the paging loop: it is the next request of the listing;
   * its failure ends the listing with that error, and a page moves the loop
   * on to the page the response names.
   */
  lemma PagedNext(list: ListRequest -> ListResponse, r: Repository, state: StateFilter, first: int,
                  l: Listing, k: int, page: int, listed: seq<Issue>, sent: seq<ListRequest>)
    requires Follows(list, r, state, first, l) && Paged(l, k, page, listed, sent) && page != 0
    ensures match Answer(list, Request(r, state, page))
      case ListFailed(e) =>
        l.failure == Some(e) && sent + [Request(r, state, page)] == l.requests && listed == Flatten(l.pages)
      case Listed(issues, next) =>
        Paged(l, k + 1, next, listed + issues, sent + [Request(r, state, page)]) &&
        |l.requests| - (k + 1) < |l.requests| - k
  {
    assert Request(r, state, page) == l.requests[k];
    assert l.requests[..k + 1] == sent + [l.requests[k]];
    if k < |l.pages| {
      assert l.pages[..k + 1] == l.pages[..k] + [l.pages[k]];
      FlattenAppend(l.pages[..k], l.pages[k]);
    } else {
      assert l.requests[..k + 1] == l.requests && l.pages[..k] == l.pages;
    }
  }

  /** The paging loop stops at page 0 only when the whole listing was retrieved without error. */
  lemma PagedDone(list: ListRequest -> ListResponse, r: Repository, state: StateFilter, first: int,
                  l: Listing, k: int, listed: seq<Issue>, sent: seq<ListRequest>)
    requires Follows(list, r, state, first, l) && Paged(l, k, 0, listed, sent)
    ensures l.failure == None && sent == l.requests && listed == Flatten(l.pages)
  {
    assert l.requests[..k] == l.requests && l.pages[..k] == l.pages;
  }

  /**
   * The routing loop over one page: a plain issue (no PullRequestLinks) is
   * sent to the index queue wrapped as githubIssue, any other issue to the
   * fetch queue unchanged.
   */
  method RoutePage(issues: seq<Issue>, toFetch: Queue<Issue>, toIndex: Queue<IndexedItem>)
    returns (fetchQ: Queue<Issue>, indexQ: Queue<IndexedItem>)
    requires !toFetch.closed && !toIndex.closed
    ensures fetchQ == toFetch.(buffer := toFetch.buffer + PullRequests(issues))
    ensures indexQ == toIndex.(buffer := toIndex.buffer + DirectItems(issues))
  {
    fetchQ, indexQ := toFetch, toIndex;
    for j := 0 to |issues|
      invariant fetchQ == toFetch.(buffer := toFetch.buffer + PullRequests(issues[..j]))
      invariant indexQ == toIndex.(buffer := toIndex.buffer + DirectItems(issues[..j]))
    {
      var i := issues[j];
      assert issues[..j + 1] == issues[..j] + [i];
      RouteNext(toFetch.buffer, toIndex.buffer, issues[..j], i);
      if i.pullRequestLinks == None {
        indexQ := indexQ.Send(GitHubIssue(i));
      } else {
        fetchQ := fetchQ.Send(i);
      }
    }
    assert issues[..|issues|] == issues;
  }

  /**
   * The paging loop of fetchRepositoryItems, on the two queues' values: lists
   * the repository from `first`, following NextPage until it is 0, and
   * routes every listed issue to one queue. A listing error ends the loop at
   * once and is returned; what earlier pages queued stays queued. `sent` and
   * `pauses` are the requests issued and the pauses taken after each page.
   */
  method PageThrough(client: Client, r: Repository, first: int, sleepPerPage: int, stateFilter: StateFilter,
                     toFetch: Queue<Issue>, toIndex: Queue<IndexedItem>, ghost l: Listing)
    returns (err: Option<Error>, fetchQ: Queue<Issue>, indexQ: Queue<IndexedItem>, ghost sent: seq<ListRequest>, ghost pauses: nat)
    requires Follows(client.listByRepo, r, stateFilter, first, l)
    requires !toFetch.closed && !toIndex.closed
    ensures err == l.failure
    ensures fetchQ == toFetch.(buffer := toFetch.buffer + PullRequests(Flatten(l.pages)))
    ensures indexQ == toIndex.(buffer := toIndex.buffer + DirectItems(Flatten(l.pages)))
    ensures sent == l.requests
    ensures pauses == if sleepPerPage > 0 then |l.pages| else 0
  {
    ghost var list := client.listByRepo;
    // `k` counts the pages retrieved so far.
    ghost var k := 0;
    ghost var listed: seq<Issue> := [];
    sent, pauses := [], 0;

    err := None;
    var count := 0;
    fetchQ, indexQ := toFetch, toIndex;
    var page := first;
    while page != 0
      invariant Paged(l, k, page, listed, sent) && count == |listed|
      invariant fetchQ == toFetch.(buffer := fetchQ.buffer) && fetchQ.buffer == toFetch.buffer + PullRequests(listed)
      invariant indexQ == toIndex.(buffer := indexQ.buffer) && indexQ.buffer == toIndex.buffer + DirectItems(listed)
      invariant pauses == if sleepPerPage > 0 then |sent| else 0
      invariant err == None
      decreases |l.requests| - k
    {
      var req := Request(r, stateFilter, page);
      var resp := client.listByRepo(req);
      assert resp == Answer(list, req);
      PagedNext(list, r, stateFilter, first, l, k, page, listed, sent);
      sent := sent + [req];
      if resp.ListFailed? {
        err := Some(resp.err);
        break;
      }
      var issues := resp.issues;
      count := count + |issues|;
      RouteOnto(toFetch.buffer, toIndex.buffer, listed, issues);
      fetchQ, indexQ := RoutePage(issues, fetchQ, indexQ);
      listed := listed + issues;
      k := k + 1;

      page := resp.nextPage;
      if sleepPerPage > 0 {
        pauses := pauses + 1;
      }
    }
    if err == None {
      PagedDone(list, r, stateFilter, first, l, k, listed, sent);
    }
  }

  /**
   * The loop of fetchingProc, on the two queues' values: until the fetch
   * queue is closed and empty, takes a pull request and sends exactly one
   * item to the index queue: the enriched pull request, or the issue itself
   * when the fetch fails.
   */
  method FetchLoop(client: Client, r: Repository, toFetch: Queue<Issue>, toIndex: Queue<IndexedItem>)
    returns (fetchQ: Queue<Issue>, indexQ: Queue<IndexedItem>)
    requires toFetch.closed && !toIndex.closed
    ensures fetchQ == toFetch.(buffer := [])
    ensures indexQ == toIndex.(buffer := toIndex.buffer + EnrichAll(client, r, toFetch.buffer))
  {
    fetchQ, indexQ := toFetch, toIndex;
    ghost var drained: seq<Issue> := [];
    while fetchQ.buffer != []
      invariant fetchQ == toFetch.(buffer := fetchQ.buffer)
      invariant drained + fetchQ.buffer == toFetch.buffer
      invariant indexQ == toIndex.(buffer := toIndex.buffer + EnrichAll(client, r, drained))
      decreases |fetchQ.buffer|
    {
      var (i, rest) := fetchQ.Receive();
      assert fetchQ.buffer == [i] + rest.buffer;
      fetchQ := rest;
      // The enriched pull request, or the issue itself when the fetch fails.
      indexQ := indexQ.Send(Enrich(client, r, i));
      EnrichAllNext(client, r, drained, i);
      drained := drained + [i];
    }
    assert drained == toFetch.buffer;
  }

  /**
   * The loop of indexingProc, on the index queue's value: until the queue is
   * closed and empty, takes an item, marshals it, builds a blob and stores
   * it. A marshal or blob failure skips the item; a store failure is logged
   * and the loop goes on. `log` records what happened to each item.
   */
  method IndexLoop(codec: Codec, bs: BlobStore, storage: Storage, r: Repository, toIndex: Queue<IndexedItem>)
    returns (indexQ: Queue<IndexedItem>, ghost log: seq<IndexRecord>)
    requires toIndex.closed
    ensures indexQ == toIndex.(buffer := [])
    ensures log == IndexAll(codec, bs, storage, r, toIndex.buffer)
  {
    indexQ := toIndex;
    log := [];
    ghost var drained: seq<IndexedItem> := [];
    while indexQ.buffer != []
      invariant indexQ == toIndex.(buffer := indexQ.buffer)
      invariant drained + indexQ.buffer == toIndex.buffer
      invariant log == IndexAll(codec, bs, storage, r, drained)
      decreases |indexQ.buffer|
    {
      var (i, rest) := indexQ.Receive();
      assert indexQ.buffer == [i] + rest.buffer;
      indexQ := rest;
      var step := IndexItem(codec, bs, storage, r, i);
      log := log + [IndexRecord(i, step)];
      IndexAllNext(codec, bs, storage, r, drained, i);
      drained := drained + [i];
    }
    assert drained == toIndex.buffer;
  }

  /**
   * The body of indexingProc's loop for one item: marshal it, build a blob,
   * store the blob. A marshal or blob failure skips the rest (`continue`); a
   * store failure is only logged. `step` is what happened.
   */
  method IndexItem(codec: Codec, bs: BlobStore, storage: Storage, r: Repository, i: IndexedItem) returns (step: IndexStep)
    ensures step.CalledStore() <==> Encodes(codec, i)
    ensures codec.marshal(i).Failure? <==> step.MarshalFailed?
    ensures step.CalledStore() ==> (step.Stored? <==> bs.store(storage, r, step.blob).None?)
    ensures step == IndexOne(codec, bs, storage, r, i)
  {
    var payload := codec.marshal(i);
    if payload.Failure? {
      return MarshalFailed(payload.error);
    }
    var b := codec.newBlobFromPayload(i.Type(), i.ID(), payload.value);
    if b.Failure? {
      return BlobFailed(b.error);
    }
    var storeErr := bs.store(storage, r, b.value);
    if storeErr.Some? {
      return StoreFailed(b.value, storeErr.value);
    }
    return Stored(b.value);
  }

  /** A synchronization job. */
  class SyncCmd {
    const client: Client
    const blobStore: BlobStore
    /** The package-level encoders the job calls (json.Marshal, blob.NewBlobFromPayload). */
    const codec: Codec
    const options: SyncOptions
    var toFetch: Queue<Issue>
    var toIndex: Queue<IndexedItem>
    /** The two sync.WaitGroup counters. */
    var wgFetch: nat
    var wgIndex: nat
    ghost var trace: Trace

    /** Between repositories: fresh open queues of the configured capacities and no outstanding worker. */
    ghost predicate Idle()
      reads this
    {
      options.numFetchProcs >= 0 && options.numIndexProcs >= 0 &&
      toFetch == MakeQueue(options.numFetchProcs) && toIndex == MakeQueue(options.numIndexProcs) &&
      wgFetch == 0 && wgIndex == 0
    }

    /** NewSyncCommandWithOptions: `make` panics on a negative capacity. */
    constructor WithOptions(client: Client, blobStore: BlobStore, codec: Codec, opt: SyncOptions)
      requires opt.numFetchProcs >= 0 && opt.numIndexProcs >= 0
      ensures this.client == client && this.blobStore == blobStore && this.codec == codec && options == opt
      ensures Idle() && trace == NoTrace
    {
      this.client := client;
      this.blobStore := blobStore;
      this.codec := codec;
      options := opt;
      toFetch := MakeQueue(opt.numFetchProcs);
      toIndex := MakeQueue(opt.numIndexProcs);
      wgFetch, wgIndex := 0, 0;
      trace := NoTrace;
    }

    /** NewSyncCommand: a job with the default options. */
    constructor Default(client: Client, blobStore: BlobStore, codec: Codec)
      ensures this.client == client && this.blobStore == blobStore && this.codec == codec
      ensures options == DefaultSyncOptions
      ensures options.from == 1 && options.numFetchProcs == 20 && options.numIndexProcs == 5 && options.perPage == 100
      ensures options.sleepPerPage == 0 && options.state == StateOpened && options.storage == StoreSnapshot
      ensures Idle() && Runnable(options) && toFetch.capacity == 20 && toIndex.capacity == 5 && trace == NoTrace
    {
      this.client := client;
      this.blobStore := blobStore;
      this.codec := codec;
      options := DefaultSyncOptions;
      toFetch := MakeQueue(DefaultSyncOptions.numFetchProcs);
      toIndex := MakeQueue(DefaultSyncOptions.numIndexProcs);
      wgFetch, wgIndex := 0, 0;
      trace := NoTrace;
    }

    /**
     * Runs the job on each repository in turn. Errors never propagate: a
     * listing error ends that repository's paging early and is only logged.
     */
    method Run(repos: seq<Repository>)
      requires Idle() && options.perPage != 0
      requires forall r <- repos :: CanList(client, options, r)
      modifies this
      ensures Idle()
      ensures trace == old(trace).Then(RunTrace(client, codec, blobStore, options, repos, |repos|))
    {
      ThenNothing(trace);
      for k := 0 to |repos|
        invariant Idle()
        invariant trace == old(trace).Then(RunTrace(client, codec, blobStore, options, repos, k))
      {
        RunRepository(repos[k]);
        RunTraceNext(old(trace), client, codec, blobStore, options, repos, k);
      }
    }

    /** One iteration of Run's loop over the repositories. */
    method RunRepository(r: Repository)
      requires Idle() && options.perPage != 0 && CanList(client, options, r)
      modifies this
      ensures Idle()
      ensures trace == old(trace).Then(RepositoryTrace(client, codec, blobStore, options, r))
    {
      SpawnWorkers();

      // The `From` option overrides the repository's own start index.
      var from := options.from;
      if from == 0 {
        from := r.startIndex;
      }
      var err := FetchRepositoryItems(r, from, options.sleepPerPage, options.state);
      // A listing error is only logged: everything already queued is drained below.
      ghost var issues := Flatten(RepositoryListing(client, options, r).pages);
      assert toFetch.buffer == PullRequests(issues) && toIndex.buffer == DirectItems(issues);
      Drain(r);

      // Closed channels cannot be reused: the next repository gets fresh ones.
      toFetch := MakeQueue(options.numFetchProcs);
      toIndex := MakeQueue(options.numIndexProcs);
    }

    /**
     * The end of Run's loop body: closing the fetch queue lets the fetching
     * workers finish, and once they have all called Done, closing the index
     * queue lets the indexing workers finish.
     */
    method Drain(r: Repository)
      requires !toFetch.closed && !toIndex.closed
      modifies this
      ensures wgFetch == 0 && wgIndex == 0
      ensures toFetch == old(toFetch).(closed := true, buffer := if old(wgFetch) > 0 then [] else old(toFetch.buffer))
      ensures toIndex == old(toIndex).(closed := true,
                                       buffer := if old(wgIndex) > 0 then []
                                                 else old(toIndex.buffer) + FetchOutput(old(wgFetch), client, r, old(toFetch.buffer)))
      ensures trace == old(trace).(fetchers := old(trace.fetchers) + old(wgFetch),
                                   indexers := old(trace.indexers) + old(wgIndex),
                                   records := old(trace.records) +
                                     IndexOutput(old(wgIndex), codec, blobStore, options.storage, r,
                                                 old(toIndex.buffer) + FetchOutput(old(wgFetch), client, r, old(toFetch.buffer))))
    {
      toFetch := toFetch.Close();
      WaitFetch(r);
      toIndex := toIndex.Close();
      WaitIndex(r);
    }

    /**
     * The two spawning loops of Run: one wgIndex.Add(1) per indexing worker,
     * then one wgFetch.Add(1) per fetching worker. The workers themselves run
     * when the job waits for them. The loops stop on `!=`, which a negative
     * count would never reach; `Idle` rules that out.
     */
    method SpawnWorkers()
      requires Idle()
      modifies this
      ensures wgIndex == options.numIndexProcs && wgFetch == options.numFetchProcs
      ensures toFetch == old(toFetch) && toIndex == old(toIndex) && trace == old(trace)
    {
      var i := 0;
      while i != options.numIndexProcs
        invariant 0 <= i <= options.numIndexProcs && wgIndex == i
        invariant toFetch == old(toFetch) && toIndex == old(toIndex) && wgFetch == 0 && trace == old(trace)
      {
        wgIndex := wgIndex + 1;
        i := i + 1;
      }
      i := 0;
      while i != options.numFetchProcs
        invariant 0 <= i <= options.numFetchProcs && wgFetch == i
        invariant toFetch == old(toFetch) && toIndex == old(toIndex) && wgIndex == options.numIndexProcs
        invariant trace == old(trace)
      {
        wgFetch := wgFetch + 1;
        i := i + 1;
      }
    }

    /**
     * fetchRepositoryItems: lists the repository page by page from the first
     * page `from` selects, following NextPage until it is 0, and routes every
     * listed issue to one queue. A listing error ends the loop at once and is
     * returned; what earlier pages queued stays queued.
     */
    method FetchRepositoryItems(r: Repository, from: int, sleepPerPage: int, stateFilter: StateFilter) returns (err: Option<Error>)
      requires options.perPage != 0
      requires ListingStops(client.listByRepo, r, stateFilter, FirstPage(from, options.perPage))
      requires !toFetch.closed && !toIndex.closed
      modifies this
      ensures var l := ListingOf(client.listByRepo, r, stateFilter, FirstPage(from, options.perPage));
        var issues := Flatten(l.pages);
        err == l.failure &&
        toFetch == old(toFetch).(buffer := old(toFetch.buffer) + PullRequests(issues)) &&
        toIndex == old(toIndex).(buffer := old(toIndex.buffer) + DirectItems(issues)) &&
        wgFetch == old(wgFetch) && wgIndex == old(wgIndex) &&
        trace == old(trace).(requests := old(trace.requests) + l.requests,
                             pauses := old(trace.pauses) + if sleepPerPage > 0 then |l.pages| else 0)
    {
      ghost var first := FirstPage(from, options.perPage);
      ghost var n: nat :| StopsWithin(client.listByRepo, r, stateFilter, first, n);
      ListingOfIs(client.listByRepo, r, stateFilter, first, n);
      ListingFollows(client.listByRepo, r, stateFilter, first, n);
      var fetchQ, indexQ;
      ghost var sent, pauses;
      err, fetchQ, indexQ, sent, pauses := PageThrough(client, r, FirstPage(from, options.perPage), sleepPerPage, stateFilter,
                                                       toFetch, toIndex, ListingOf(client.listByRepo, r, stateFilter, first));
      toFetch, toIndex := fetchQ, indexQ;
      trace := trace.(requests := trace.requests + sent, pauses := trace.pauses + pauses);
    }

    /**
     * wgFetch.Wait(): the fetching workers that have not called Done run to
     * completion, one after the other.
     */
    method WaitFetch(r: Repository)
      requires toFetch.closed && !toIndex.closed
      modifies this
      ensures wgFetch == 0 && wgIndex == old(wgIndex)
      ensures toFetch == old(toFetch).(buffer := if old(wgFetch) > 0 then [] else old(toFetch.buffer))
      ensures toIndex == old(toIndex).(buffer := old(toIndex.buffer) + FetchOutput(old(wgFetch), client, r, old(toFetch.buffer)))
      ensures trace == old(trace).(fetchers := old(trace.fetchers) + old(wgFetch))
    {
      while wgFetch > 0
        invariant toFetch.closed && !toIndex.closed && wgIndex == old(wgIndex) && wgFetch <= old(wgFetch)
        invariant toFetch == old(toFetch).(buffer := if wgFetch < old(wgFetch) then [] else old(toFetch.buffer))
        invariant toIndex == old(toIndex).(buffer := old(toIndex.buffer) +
                                             if wgFetch < old(wgFetch) then EnrichAll(client, r, old(toFetch.buffer)) else [])
        invariant trace == old(trace).(fetchers := old(trace.fetchers) + (old(wgFetch) - wgFetch))
      {
        assert EnrichAll(client, r, []) == [];
        FetchingProc(r);
      }
    }

    /**
     * fetchingProc: until the fetch queue is closed and empty, takes a pull
     * request and sends exactly one item to the index queue: the enriched
     * pull request, or the issue itself when the fetch fails. Then Done.
     */
    method FetchingProc(r: Repository)
      requires toFetch.closed && !toIndex.closed && wgFetch > 0
      modifies this
      ensures toFetch == old(toFetch).(buffer := [])
      ensures toIndex == old(toIndex).(buffer := old(toIndex.buffer) + EnrichAll(client, r, old(toFetch.buffer)))
      ensures wgFetch == old(wgFetch) - 1 && wgIndex == old(wgIndex)
      ensures trace == old(trace).(fetchers := old(trace.fetchers) + 1)
    {
      // `range` receives until the channel is closed and drained.
      toFetch, toIndex := FetchLoop(client, r, toFetch, toIndex);
      wgFetch := wgFetch - 1;
      trace := trace.(fetchers := trace.fetchers + 1);
    }

    /**
     * wgIndex.Wait(): the indexing workers that have not called Done run to
     * completion, one after the other.
     */
    method WaitIndex(r: Repository)
      requires toIndex.closed
      modifies this
      ensures wgIndex == 0 && wgFetch == old(wgFetch) && toFetch == old(toFetch)
      ensures toIndex == old(toIndex).(buffer := if old(wgIndex) > 0 then [] else old(toIndex.buffer))
      ensures trace == old(trace).(indexers := old(trace.indexers) + old(wgIndex),
                                   records := old(trace.records) + IndexOutput(old(wgIndex), codec, blobStore, options.storage, r, old(toIndex.buffer)))
    {
      while wgIndex > 0
        invariant toIndex.closed && wgFetch == old(wgFetch) && toFetch == old(toFetch) && wgIndex <= old(wgIndex)
        invariant toIndex == old(toIndex).(buffer := if wgIndex < old(wgIndex) then [] else old(toIndex.buffer))
        invariant trace == old(trace).(indexers := old(trace.indexers) + (old(wgIndex) - wgIndex),
                                       records := old(trace.records) +
                                         if wgIndex < old(wgIndex) then IndexAll(codec, blobStore, options.storage, r, old(toIndex.buffer)) else [])
      {
        assert IndexAll(codec, blobStore, options.storage, r, []) == [];
        IndexingProc(r);
      }
    }

    /**
     * indexingProc: until the index queue is closed and empty, takes an item,
     * marshals it, builds a blob and stores it. A marshal or blob failure
     * skips the item; a store failure is logged and the loop goes on. Then Done.
     */
    method IndexingProc(r: Repository)
      requires toIndex.closed && wgIndex > 0
      modifies this
      ensures toIndex == old(toIndex).(buffer := [])
      ensures toFetch == old(toFetch) && wgFetch == old(wgFetch) && wgIndex == old(wgIndex) - 1
      ensures trace == old(trace).(indexers := old(trace.indexers) + 1,
                                   records := old(trace.records) + IndexAll(codec, blobStore, options.storage, r, old(toIndex.buffer)))
    {
      ghost var log;
      toIndex, log := IndexLoop(codec, blobStore, options.storage, r, toIndex);
      trace := trace.(records := trace.records + log);
      wgIndex := wgIndex - 1;
      trace := trace.(indexers := trace.indexers + 1);
    }
  }
}
