/** The options of a synchronization job and their process-wide defaults. */
module Options {
  import opened External

  /** GitHubStateFilter: which issues the listing call returns. */
  datatype StateFilter = StateAll | StateClosed | StateOpened
  {
    /** The string sent to the GitHub API. */
    function Value(): string {
      match this
      case StateAll => "all"
      case StateClosed => "closed"
      case StateOpened => "open"
    }
  }

  /** syncOptions. */
  datatype SyncOptions = SyncOptions(
    from: int,
    numFetchProcs: int,
    numIndexProcs: int,
    perPage: int,
    sleepPerPage: int,
    state: StateFilter,
    storage: Storage)

  const DefaultFrom: int := 1
  const DefaultNumFetchProcs: int := 20
  const DefaultNumIndexProcs: int := 5
  const DefaultPerPage: int := 100
  const DefaultSleepPerPage: int := 0
  const DefaultStorage: Storage := StoreSnapshot
  const DefaultFilterMode: StateFilter := StateOpened

  const DefaultSyncOptions: SyncOptions := SyncOptions(
    from := DefaultFrom,
    numFetchProcs := DefaultNumFetchProcs,
    numIndexProcs := DefaultNumIndexProcs,
    perPage := DefaultPerPage,
    sleepPerPage := DefaultSleepPerPage,
    state := StateOpened,
    storage := DefaultStorage)

  /** What a job needs of its options for Run to terminate without a panic. */
  predicate Runnable(opt: SyncOptions) {
    opt.numFetchProcs >= 0 && opt.numIndexProcs >= 0 && opt.perPage != 0
  }
}
