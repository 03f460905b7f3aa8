/**
 * Where each listed issue goes (fetchRepositoryItems' routing) and what the
 * fetching workers make of pull requests (fetchingProc), as functions of the
 * listed issues.
 */
module Routing {
  import opened Wrappers
  import opened External

  /** An issue is a pull request exactly when it carries PullRequestLinks. */
  predicate IsPullRequest(i: Issue) {
    i.pullRequestLinks.Some?
  }

  /** What the paging loop sends to the index queue: the plain issues, wrapped, in order. */
  function DirectItems(issues: seq<Issue>): (items: seq<IndexedItem>)
    ensures |items| <= |issues|
  {
    if issues == [] then []
    else (if IsPullRequest(issues[0]) then [] else [GitHubIssue(issues[0])]) + DirectItems(issues[1..])
  }

  /** What the paging loop sends to the fetch queue: the pull requests, unchanged, in order. */
  function PullRequests(issues: seq<Issue>): (prs: seq<Issue>)
    ensures |prs| <= |issues|
  {
    if issues == [] then []
    else (if IsPullRequest(issues[0]) then [issues[0]] else []) + PullRequests(issues[1..])
  }

  /** The issues the items were made from. */
  function Origins(items: seq<IndexedItem>): (issues: seq<Issue>)
    ensures |issues| == |items|
  {
    if items == [] then [] else [items[0].issue] + Origins(items[1..])
  }

  /** The index queue only receives plain issues, wrapped; the fetch queue only pull requests. */
  lemma {:induction false} RouteClassifies(issues: seq<Issue>)
    ensures forall it <- DirectItems(issues) :: it.GitHubIssue? && !IsPullRequest(it.issue)
    ensures forall i <- PullRequests(issues) :: IsPullRequest(i)
  {
    if issues != [] {
      RouteClassifies(issues[1..]);
    }
  }

  lemma {:induction false} OriginsAppend(a: seq<IndexedItem>, b: seq<IndexedItem>)
    ensures Origins(a + b) == Origins(a) + Origins(b)
  {
    if a == [] {
      assert a + b == b;
    } else {
      assert (a + b)[1..] == a[1..] + b;
      OriginsAppend(a[1..], b);
    }
  }

  /** Routing one more page extends both queues by that page's share. */
  lemma RouteAppend(a: seq<Issue>, b: seq<Issue>)
    ensures DirectItems(a + b) == DirectItems(a) + DirectItems(b)
    ensures PullRequests(a + b) == PullRequests(a) + PullRequests(b)
  {
    DirectItemsAppend(a, b);
    PullRequestsAppend(a, b);
  }

  lemma {:induction false} DirectItemsAppend(a: seq<Issue>, b: seq<Issue>)
    ensures DirectItems(a + b) == DirectItems(a) + DirectItems(b)
  {
    if a == [] {
      assert a + b == b;
    } else {
      var head := if IsPullRequest(a[0]) then [] else [GitHubIssue(a[0])];
      assert (a + b)[0] == a[0] && (a + b)[1..] == a[1..] + b;
      DirectItemsAppend(a[1..], b);
      calc {
        DirectItems(a + b);
        head + DirectItems(a[1..] + b);
        head + (DirectItems(a[1..]) + DirectItems(b));
        (head + DirectItems(a[1..])) + DirectItems(b);
        DirectItems(a) + DirectItems(b);
      }
    }
  }

  lemma {:induction false} PullRequestsAppend(a: seq<Issue>, b: seq<Issue>)
    ensures PullRequests(a + b) == PullRequests(a) + PullRequests(b)
  {
    if a == [] {
      assert a + b == b;
    } else {
      var head := if IsPullRequest(a[0]) then [a[0]] else [];
      assert (a + b)[0] == a[0] && (a + b)[1..] == a[1..] + b;
      PullRequestsAppend(a[1..], b);
      calc {
        PullRequests(a + b);
        head + PullRequests(a[1..] + b);
        head + (PullRequests(a[1..]) + PullRequests(b));
        (head + PullRequests(a[1..])) + PullRequests(b);
        PullRequests(a) + PullRequests(b);
      }
    }
  }

  /** Routing one more page onto queues already holding the routed earlier pages. */
  lemma RouteOnto(fetched: seq<Issue>, indexed: seq<IndexedItem>, a: seq<Issue>, b: seq<Issue>)
    ensures (fetched + PullRequests(a)) + PullRequests(b) == fetched + PullRequests(a + b)
    ensures (indexed + DirectItems(a)) + DirectItems(b) == indexed + DirectItems(a + b)
  {
    RouteAppend(a, b);
    AppendAssociative(fetched, PullRequests(a), PullRequests(b));
    AppendAssociative(indexed, DirectItems(a), DirectItems(b));
  }

  /** Routing one more issue onto queues already holding the routed earlier issues. */
  lemma RouteNext(fetched: seq<Issue>, indexed: seq<IndexedItem>, done: seq<Issue>, i: Issue)
    ensures fetched + PullRequests(done + [i]) == fetched + PullRequests(done) + (if IsPullRequest(i) then [i] else [])
    ensures indexed + DirectItems(done + [i]) == indexed + DirectItems(done) + (if IsPullRequest(i) then [] else [GitHubIssue(i)])
  {
    assert [i][1..] == [];
    assert PullRequests([i]) == (if IsPullRequest(i) then [i] else []) + PullRequests([]);
    assert DirectItems([i]) == (if IsPullRequest(i) then [] else [GitHubIssue(i)]) + DirectItems([]);
    RouteOnto(fetched, indexed, done, [i]);
  }

  lemma AppendAssociative<X>(a: seq<X>, b: seq<X>, c: seq<X>)
    ensures (a + b) + c == a + (b + c)
  {
  }

  /** One step of a two-way split: the head goes to one side, the rest was already split. */
  lemma MultisetSplitStep<X>(s: seq<X>, o: seq<X>, p: seq<X>, o': seq<X>, p': seq<X>)
    requires s != [] && multiset(o) + multiset(p) == multiset(s[1..])
    requires (o' == o && p' == [s[0]] + p) || (o' == [s[0]] + o && p' == p)
    ensures multiset(o') + multiset(p') == multiset(s)
  {
    assert s == [s[0]] + s[1..];
  }

  /**
   * Routing is a partition: every listed issue goes to exactly one queue,
   * nothing is dropped or duplicated, and plain issues are sent as themselves.
   */
  lemma {:induction false} RoutePartition(issues: seq<Issue>)
    ensures |DirectItems(issues)| + |PullRequests(issues)| == |issues|
    ensures multiset(Origins(DirectItems(issues))) + multiset(PullRequests(issues)) == multiset(issues)
  {
    if issues != [] {
      var i, rest := issues[0], issues[1..];
      RoutePartition(rest);
      var o, p := Origins(DirectItems(rest)), PullRequests(rest);
      if IsPullRequest(i) {
        assert DirectItems(issues) == DirectItems(rest);
        assert PullRequests(issues) == [i] + p;
      } else {
        assert DirectItems(issues) == [GitHubIssue(i)] + DirectItems(rest);
        assert Origins(DirectItems(issues)) == [i] + o;
        assert PullRequests(issues) == p;
      }
      MultisetSplitStep(issues, o, p, Origins(DirectItems(issues)), PullRequests(issues));
    }
  }

  /**
   * One fetching worker's answer for a dequeued pull request: the enriched
   * pull-request item when pullRequestFromIssue succeeds, the issue itself
   * otherwise. Either way exactly one item goes on to the index queue.
   */
  function Enrich(c: Client, r: Repository, i: Issue): (item: IndexedItem)
    ensures item.issue == i
    ensures c.pullRequestFromIssue(r, i).Success? ==> item == GitHubPullRequest(i, c.pullRequestFromIssue(r, i).value)
    ensures c.pullRequestFromIssue(r, i).Failure? ==> item == GitHubIssue(i)
  {
    match c.pullRequestFromIssue(r, i)
    case Success(pr) => GitHubPullRequest(i, pr)
    case Failure(_) => GitHubIssue(i)
  }

  /** What the fetching workers send to the index queue for the fetch queue's contents, in order. */
  function EnrichAll(c: Client, r: Repository, prs: seq<Issue>): (items: seq<IndexedItem>)
    ensures |items| == |prs|
  {
    if prs == [] then [] else [Enrich(c, r, prs[0])] + EnrichAll(c, r, prs[1..])
  }

  /** Each pull request in the fetch queue yields exactly one item, at the same position. */
  lemma {:induction false} EnrichAllEach(c: Client, r: Repository, prs: seq<Issue>)
    ensures forall k :: 0 <= k < |prs| ==> EnrichAll(c, r, prs)[k] == Enrich(c, r, prs[k])
  {
    if prs != [] {
      EnrichAllEach(c, r, prs[1..]);
      forall k | 0 <= k < |prs|
        ensures EnrichAll(c, r, prs)[k] == Enrich(c, r, prs[k])
      {
        if k > 0 {
          assert prs[k] == prs[1..][k - 1];
        }
      }
    }
  }

  lemma {:induction false} EnrichAllAppend(c: Client, r: Repository, a: seq<Issue>, b: seq<Issue>)
    ensures EnrichAll(c, r, a + b) == EnrichAll(c, r, a) + EnrichAll(c, r, b)
  {
    if a == [] {
      assert a + b == b;
    } else {
      assert (a + b)[1..] == a[1..] + b;
      EnrichAllAppend(c, r, a[1..], b);
    }
  }

  /** Fetching one more pull request appends its item to what the fetching workers sent. */
  lemma EnrichAllNext(c: Client, r: Repository, done: seq<Issue>, i: Issue)
    ensures EnrichAll(c, r, done + [i]) == EnrichAll(c, r, done) + [Enrich(c, r, i)]
  {
    EnrichAllAppend(c, r, done, [i]);
    assert [i][1..] == [];
  }

  /** Enrichment keeps each pull request's originating issue. */
  lemma {:induction false} EnrichAllOrigins(c: Client, r: Repository, prs: seq<Issue>)
    ensures Origins(EnrichAll(c, r, prs)) == prs
  {
    if prs != [] {
      EnrichAllOrigins(c, r, prs[1..]);
    }
  }

  /** The item a listed issue should reach the indexer as: itself, or its pull-request enrichment. */
  function Deliver(c: Client, r: Repository, i: Issue): IndexedItem {
    if IsPullRequest(i) then Enrich(c, r, i) else GitHubIssue(i)
  }

  function DeliverAll(c: Client, r: Repository, issues: seq<Issue>): (items: seq<IndexedItem>)
    ensures |items| == |issues|
  {
    if issues == [] then [] else [Deliver(c, r, issues[0])] + DeliverAll(c, r, issues[1..])
  }

  /** Each listed issue is delivered once, at its own position. */
  lemma {:induction false} DeliverAllEach(c: Client, r: Repository, issues: seq<Issue>)
    ensures forall k :: 0 <= k < |issues| ==> DeliverAll(c, r, issues)[k] == Deliver(c, r, issues[k])
  {
    if issues != [] {
      DeliverAllEach(c, r, issues[1..]);
      forall k | 0 <= k < |issues|
        ensures DeliverAll(c, r, issues)[k] == Deliver(c, r, issues[k])
      {
        if k > 0 {
          assert issues[k] == issues[1..][k - 1];
        }
      }
    }
  }

  /**
   * The shape of a delivered item: a plain issue arrives as itself; a pull
   * request arrives enriched exactly when its fetch succeeded, and as the
   * unenriched issue otherwise. It always originates from the listed issue.
   */
  lemma DeliverShape(c: Client, r: Repository, i: Issue)
    ensures Deliver(c, r, i).issue == i
    ensures !IsPullRequest(i) ==> Deliver(c, r, i) == GitHubIssue(i)
    ensures IsPullRequest(i) ==>
              (Deliver(c, r, i).GitHubPullRequest? <==> c.pullRequestFromIssue(r, i).Success?)
    ensures IsPullRequest(i) && c.pullRequestFromIssue(r, i).Success? ==>
              Deliver(c, r, i) == GitHubPullRequest(i, c.pullRequestFromIssue(r, i).value)
  {
  }

  /**
   * Conservation: the direct items followed by the enriched pull requests are
   * exactly the listed issues, each delivered once (the order differs, since
   * pull requests take the detour through the fetch queue).
   */
  lemma {:induction false} Conservation(c: Client, r: Repository, issues: seq<Issue>)
    ensures multiset(DirectItems(issues) + EnrichAll(c, r, PullRequests(issues))) == multiset(DeliverAll(c, r, issues))
  {
    if issues != [] {
      var i, rest := issues[0], issues[1..];
      Conservation(c, r, rest);
      var direct, fetched := DirectItems(rest), EnrichAll(c, r, PullRequests(rest));
      var item := Deliver(c, r, i);
      if IsPullRequest(i) {
        assert DirectItems(issues) == direct;
        assert PullRequests(issues) == [i] + PullRequests(rest);
        assert EnrichAll(c, r, PullRequests(issues)) == [item] + fetched;
      } else {
        assert DirectItems(issues) == [item] + direct;
        assert PullRequests(issues) == PullRequests(rest);
      }
      MultisetMergeStep(item, direct, fetched, DirectItems(issues), EnrichAll(c, r, PullRequests(issues)), DeliverAll(c, r, rest));
    }
  }

  /** One step of a merge: the head joins one of two parts whose union was already known. */
  lemma MultisetMergeStep<X>(x: X, a: seq<X>, b: seq<X>, a': seq<X>, b': seq<X>, all: seq<X>)
    requires multiset(a + b) == multiset(all)
    requires (a' == a && b' == [x] + b) || (a' == [x] + a && b' == b)
    ensures multiset(a' + b') == multiset([x] + all)
  {
  }

  /** Every delivered item originates from the listed issue at the same position. */
  lemma {:induction false} DeliveredOrigins(c: Client, r: Repository, issues: seq<Issue>)
    ensures Origins(DeliverAll(c, r, issues)) == issues
  {
    if issues != [] {
      DeliveredOrigins(c, r, issues[1..]);
    }
  }
}
