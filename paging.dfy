/**
 * Start-index choice, first-page arithmetic and the paging loop's
 * specification (fetchRepositoryItems, github/sync.go).
 */
module Paging {
  import opened Wrappers
  import opened External
  import opened Options

  /** The page size every listing request asks for, whatever the options say. */
  const RequestPerPage: int := 100

  function Abs(x: int): int {
    if x < 0 then -x else x
  }

  /**
   * Go's integer division, which truncates toward zero (Dafny's `/` is
   * Euclidean). The remainder has the sign of the dividend and is smaller
   * than the divisor in magnitude.
   */
  function GoDiv(a: int, b: int): (q: int)
    requires b != 0
    ensures a >= 0 ==> 0 <= a - q * b < Abs(b)
    ensures a < 0 ==> -Abs(b) < a - q * b <= 0
  {
    if a >= 0 && b > 0 then a / b
    else if a >= 0 then -(a / -b)
    else if b > 0 then -(-a / b)
    else -a / -b
  }

  /** The start index: a non-zero `From` option overrides the repository's own. */
  function EffectiveFrom(opt: SyncOptions, r: Repository): (from: int)
    ensures opt.from != 0 ==> from == opt.from
    ensures opt.from == 0 ==> from == r.startIndex
  {
    if opt.from == 0 then r.startIndex else opt.from
  }

  /**
   * The first page requested, `from/perPage + 1`, computed with the PerPage
   * option. For a non-negative start index and positive page size it is the
   * page of `perPage` items that holds the (zero-based) position `from`; a
   * negative start index above `-perPage` still gives page 1 because Go
   * truncates. The requests themselves ask for pages of 100 items, so the
   * page found holds position `from` only when PerPage is 100.
   */
  function FirstPage(from: int, perPage: int): (page: int)
    requires perPage != 0
    ensures from >= 0 && perPage > 0 ==> page >= 1 && (page - 1) * perPage <= from < page * perPage
    ensures -perPage < from < 0 ==> page == 1
  {
    GoDiv(from, perPage) + 1
  }

  /**
   * With PerPage 100, the page size every request uses, listing starts on
   * the page that holds position `from`: nothing from `from` on is skipped.
   */
  lemma FirstPageHoldsFrom(from: int)
    requires from >= 0
    ensures (FirstPage(from, RequestPerPage) - 1) * RequestPerPage <= from < FirstPage(from, RequestPerPage) * RequestPerPage
  {
  }

  /**
   * With a PerPage option of at most 50, any start index from PerPage on
   * selects a page that begins, in pages of 100, past `from`: the items at
   * positions `from` up to that page's first one are never listed. With
   * PerPage 50 and From 250, listing starts at page 6, position 500.
   */
  lemma FirstPageSkipsPastFrom(from: int, perPage: int)
    requires 0 < perPage && 2 * perPage <= RequestPerPage && perPage <= from
    ensures (FirstPage(from, perPage) - 1) * RequestPerPage > from
  {
  }

  /** The arguments of the listing call for one page: ascending by creation, 100 per page. */
  function Request(r: Repository, state: StateFilter, page: int): ListRequest {
    ListRequest(r.user, r.repo, "asc", "created", state.Value(), page, RequestPerPage)
  }

  /**
   * The oracle's response to one listing request. It only applies `list`;
   * it exists as a named term that the quantifiers of `Follows` can use as
   * a trigger.
   */
  function Answer(list: ListRequest -> ListResponse, req: ListRequest): ListResponse {
    list(req)
  }

  /** Following NextPage from `page` reaches page 0 or an error within `n` requests. */
  predicate StopsWithin(list: ListRequest -> ListResponse, r: Repository, state: StateFilter, page: int, n: nat)
    decreases n
  {
    page == 0 ||
    (n > 0 &&
     match Answer(list, Request(r, state, page))
     case ListFailed(_) => true
     case Listed(_, next) => StopsWithin(list, r, state, next, n - 1))
  }

  /** The oracle's pages, followed from `page`, end. */
  ghost predicate ListingStops(list: ListRequest -> ListResponse, r: Repository, state: StateFilter, page: int) {
    exists n: nat :: StopsWithin(list, r, state, page, n)
  }

  /**
   * What the paging loop does for one repository: the requests it issues, the
   * pages it retrieves, and the listing error that ends it early, if any.
   */
  datatype Listing = Listing(requests: seq<ListRequest>, pages: seq<seq<Issue>>, failure: Option<Error>)
  {
    /** The page the request after the `k`-th asks for, or 0 if there is none. */
    function NextAfter(k: int): int {
      if 0 <= k && k + 1 < |requests| then requests[k + 1].page else 0
    }
  }

  /** The paging loop, followed from `page` with `n` as the termination measure. */
  function ListFrom(list: ListRequest -> ListResponse, r: Repository, state: StateFilter, page: int, n: nat): (l: Listing)
    requires StopsWithin(list, r, state, page, n)
    ensures l.requests == [] <==> page == 0
    ensures l.requests != [] ==> l.requests[0].page == page
    ensures |l.requests| == |l.pages| + (if l.failure.Some? then 1 else 0)
    decreases n
  {
    if page == 0 then Listing([], [], None)
    else
      var req := Request(r, state, page);
      match Answer(list, req)
      case ListFailed(e) => Listing([req], [], Some(e))
      case Listed(issues, next) =>
        var rest := ListFrom(list, r, state, next, n - 1);
        Listing([req] + rest.requests, [issues] + rest.pages, rest.failure)
  }

  /** The listing does not depend on which termination bound is used to define it. */
  lemma {:induction false} ListFromIndependent(
    list: ListRequest -> ListResponse, r: Repository, state: StateFilter, page: int, n1: nat, n2: nat)
    requires StopsWithin(list, r, state, page, n1) && StopsWithin(list, r, state, page, n2)
    ensures ListFrom(list, r, state, page, n1) == ListFrom(list, r, state, page, n2)
    decreases n1
  {
    if page != 0 {
      match Answer(list, Request(r, state, page))
      case ListFailed(_) =>
      case Listed(_, next) =>
        ListFromIndependent(list, r, state, next, n1 - 1, n2 - 1);
    }
  }

  /** The listing of a repository whose pages end. */
  ghost function ListingOf(list: ListRequest -> ListResponse, r: Repository, state: StateFilter, page: int): Listing
    requires ListingStops(list, r, state, page)
  {
    var n: nat :| StopsWithin(list, r, state, page, n);
    ListFrom(list, r, state, page, n)
  }

  /** The listing of a repository is the one any termination bound defines. */
  lemma ListingOfIs(list: ListRequest -> ListResponse, r: Repository, state: StateFilter, page: int, n: nat)
    requires StopsWithin(list, r, state, page, n)
    ensures ListingStops(list, r, state, page)
    ensures ListingOf(list, r, state, page) == ListFrom(list, r, state, page, n)
  {
    forall m: nat | StopsWithin(list, r, state, page, m)
      ensures ListFrom(list, r, state, page, m) == ListFrom(list, r, state, page, n)
    {
      ListFromIndependent(list, r, state, page, m, n);
    }
  }

  /**
   * `l` is what the paging loop does from `first`: every request asks for a
   * non-zero page of the repository through `Request`, the first asks for
   * `first`, each retrieved page is the oracle's answer to its request, each
   * later request asks for the page the previous response named, and the
   * loop stops exactly at a NextPage of 0 (or at `first` 0) or right after
   * an error, which it reports.
   */
  ghost predicate Follows(list: ListRequest -> ListResponse, r: Repository, state: StateFilter, first: int, l: Listing) {
    (l.requests == [] <==> first == 0) &&
    (l.requests != [] ==> l.requests[0].page == first) &&
    |l.requests| == |l.pages| + (if l.failure.Some? then 1 else 0) &&
    (forall k :: 0 <= k < |l.requests| ==>
       l.requests[k].page != 0 && l.requests[k] == Request(r, state, l.requests[k].page)) &&
    (forall k {:trigger Answer(list, l.requests[k])} :: 0 <= k < |l.pages| ==>
       Answer(list, l.requests[k]) == Listed(l.pages[k], l.NextAfter(k))) &&
    (l.failure.Some? ==> Answer(list, l.requests[|l.pages|]) == ListFailed(l.failure.value))
  }

  /**
   * A listing that follows NextPage from `next`, preceded by a request for a
   * non-zero page whose answer names `next`, follows NextPage from that page.
   */
  lemma FollowsCons(list: ListRequest -> ListResponse, r: Repository, state: StateFilter,
                    req: ListRequest, issues: seq<Issue>, next: int, rest: Listing)
    requires req.page != 0 && req == Request(r, state, req.page)
    requires Answer(list, req) == Listed(issues, next)
    requires Follows(list, r, state, next, rest)
    ensures Follows(list, r, state, req.page, Listing([req] + rest.requests, [issues] + rest.pages, rest.failure))
  {
    var l := Listing([req] + rest.requests, [issues] + rest.pages, rest.failure);
    forall k | 0 <= k < |l.requests|
      ensures l.requests[k].page != 0 && l.requests[k] == Request(r, state, l.requests[k].page)
    {
      if k > 0 {
        assert l.requests[k] == rest.requests[k - 1];
      }
    }
    forall k | 0 <= k < |l.pages|
      ensures Answer(list, l.requests[k]) == Listed(l.pages[k], l.NextAfter(k))
    {
      if k > 0 {
        assert l.requests[k] == rest.requests[k - 1] && l.pages[k] == rest.pages[k - 1];
        assert l.NextAfter(k) == rest.NextAfter(k - 1);
      } else if 1 < |l.requests| {
        assert l.requests[1] == rest.requests[0];
      }
    }
    if l.failure.Some? {
      assert l.requests[|l.pages|] == rest.requests[|rest.pages|];
    }
  }

  /** The recursive definition of the paging loop follows NextPage as described by `Follows`. */
  lemma {:induction false} ListingFollows(
    list: ListRequest -> ListResponse, r: Repository, state: StateFilter, page: int, n: nat)
    requires StopsWithin(list, r, state, page, n)
    ensures Follows(list, r, state, page, ListFrom(list, r, state, page, n))
    decreases n
  {
    if page != 0 {
      var req := Request(r, state, page);
      match Answer(list, req)
      case ListFailed(_) =>
      case Listed(issues, next) =>
        ListingFollows(list, r, state, next, n - 1);
        FollowsCons(list, r, state, req, issues, next, ListFrom(list, r, state, next, n - 1));
    }
  }

  /**
   * Every request of the loop asks for a non-zero page of 100 items of the
   * repository, with the configured state filter, oldest first.
   */
  lemma ListingRequestShape(
    list: ListRequest -> ListResponse, r: Repository, state: StateFilter, page: int, n: nat)
    requires StopsWithin(list, r, state, page, n)
    ensures forall req <- ListFrom(list, r, state, page, n).requests ::
              req.perPage == RequestPerPage && req.page != 0 && req.state == state.Value() &&
              req.user == r.user && req.repo == r.repo && req.direction == "asc" && req.sort == "created"
  {
    ListingFollows(list, r, state, page, n);
  }

  /** All the issues of a sequence of pages, in order. */
  function Flatten(pages: seq<seq<Issue>>): (issues: seq<Issue>)
  {
    if pages == [] then [] else pages[0] + Flatten(pages[1..])
  }

  lemma {:induction false} FlattenAppend(pages: seq<seq<Issue>>, page: seq<Issue>)
    ensures Flatten(pages + [page]) == Flatten(pages) + page
  {
    if pages != [] {
      assert (pages + [page])[1..] == pages[1..] + [page];
      FlattenAppend(pages[1..], page);
    }
  }
}
