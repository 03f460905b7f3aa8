/**
 * The collaborators of the synchronization job that live outside github/sync.go:
 * the go-github records, the storage and blob packages, and the calls the job
 * makes into them. Each external call is an oracle: a total function supplied
 * by the caller, so that the model says what the job does with every possible
 * answer.
 */
module External {
  import opened Wrappers

  /** An error value; the job only logs errors, so their text is all it carries. */
  type Error = string

  /** A serialized document (the output of json.Marshal). */
  type Payload = seq<bv8>

  /** go-github's links block, present only on issues that are pull requests. */
  datatype PullRequestLinks = PullRequestLinks(url: string)

  /** The issue-shaped record returned by the listing call, for issues and pull requests alike. */
  datatype Issue = Issue(number: int, labels: seq<string>, pullRequestLinks: Option<PullRequestLinks>)

  /** The richer pull-request record fetched for an issue that is a pull request. */
  datatype PullRequest = PullRequest(number: int, additions: int, deletions: int, merged: bool)

  /** The document kind under which an item is stored. */
  datatype ItemType = IssueType | PullRequestType

  /**
   * githubIndexedItem: either a plain issue (githubIssue) or a pull request
   * enriched from its originating issue. Both variants keep the issue they
   * come from, which is how the model tracks each listed item to the store.
   */
  datatype IndexedItem =
    | GitHubIssue(issue: Issue)
    | GitHubPullRequest(issue: Issue, pullRequest: PullRequest)
  {
    function Type(): ItemType {
      if GitHubIssue? then IssueType else PullRequestType
    }

    /** The item's identity: its issue number (the source renders it as a string). */
    function ID(): int {
      issue.number
    }
  }

  /** storage.Repository: owner, name and the configured resume index. */
  datatype Repository = Repository(user: string, repo: string, startIndex: int)

  /** storage.Storage: the destination mode a document is written under. */
  datatype Storage = StoreSnapshot | StoreLive

  /** blob.Blob, as built by NewBlobFromPayload. */
  datatype Blob = Blob(itemType: ItemType, id: int, payload: Payload)

  /** The arguments of one Issues.ListByRepo call. */
  datatype ListRequest = ListRequest(
    user: string,
    repo: string,
    direction: string,
    sort: string,
    state: string,
    page: int,
    perPage: int)

  /** The answer to one Issues.ListByRepo call: a page and the response's NextPage, or an error. */
  datatype ListResponse =
    | Listed(issues: seq<Issue>, nextPage: int)
    | ListFailed(err: Error)

  /** The GitHub client: the listing call, and pullRequestFromIssue. */
  datatype Client = Client(
    listByRepo: ListRequest -> ListResponse,
    pullRequestFromIssue: (Repository, Issue) -> Result<PullRequest, Error>)

  /** json.Marshal and blob.NewBlobFromPayload. */
  datatype Codec = Codec(
    marshal: IndexedItem -> Result<Payload, Error>,
    newBlobFromPayload: (ItemType, int, Payload) -> Result<Blob, Error>)

  /** storage.BlobStore: Store answers None on success and the error otherwise. */
  datatype BlobStore = BlobStore(store: (Storage, Repository, Blob) -> Option<Error>)
}
