/**
 * What an indexing worker does with each item it dequeues (indexingProc):
 * marshal it, build a blob, store the blob. A marshal or blob failure skips
 * the item; a store failure is only logged.
 */
module Indexing {
  import opened Wrappers
  import opened External

  /** The fate of one dequeued item. */
  datatype IndexStep =
    | MarshalFailed(err: Error)
    | BlobFailed(err: Error)
    | StoreFailed(blob: Blob, err: Error)
    | Stored(blob: Blob)
  {
    /** Whether the item reached a Store call. */
    predicate CalledStore() {
      StoreFailed? || Stored?
    }
  }

  /** One entry of the indexing log: an item and what became of it. */
  datatype IndexRecord = IndexRecord(item: IndexedItem, step: IndexStep)

  /**
   * The work done for one dequeued item, in the source's order of calls. An
   * item reaches Store exactly when marshalling and blob construction both
   * succeed, and then with the blob they built; otherwise the first failure
   * is what is recorded. A Store error is recorded and nothing more.
   */
  function IndexOne(codec: Codec, bs: BlobStore, storage: Storage, r: Repository, item: IndexedItem): (step: IndexStep)
    ensures step.CalledStore() <==> Encodes(codec, item)
    ensures codec.marshal(item).Failure? <==> step.MarshalFailed?
    ensures !Encodes(codec, item) ==> step.err == BlobOf(codec, item).error
    ensures Encodes(codec, item) ==> step.blob == BlobOf(codec, item).value
    ensures step.CalledStore() ==> (step.Stored? <==> bs.store(storage, r, step.blob).None?)
    ensures step.StoreFailed? ==> bs.store(storage, r, step.blob) == Some(step.err)
  {
    match codec.marshal(item)
    case Failure(e) => MarshalFailed(e)
    case Success(payload) =>
      match codec.newBlobFromPayload(item.Type(), item.ID(), payload)
      case Failure(e) => BlobFailed(e)
      case Success(b) =>
        match bs.store(storage, r, b)
        case Some(e) => StoreFailed(b, e)
        case None => Stored(b)
  }

  /** The log the indexing workers produce for a sequence of dequeued items: one record each, in order. */
  function IndexAll(codec: Codec, bs: BlobStore, storage: Storage, r: Repository, items: seq<IndexedItem>): (log: seq<IndexRecord>)
    ensures |log| == |items|
  {
    if items == [] then [] else [IndexRecord(items[0], IndexOne(codec, bs, storage, r, items[0]))] + IndexAll(codec, bs, storage, r, items[1..])
  }

  /** Each dequeued item gets exactly one record, at its own position, saying what happened to it. */
  lemma {:induction false} IndexAllEach(codec: Codec, bs: BlobStore, storage: Storage, r: Repository, items: seq<IndexedItem>)
    ensures forall k :: 0 <= k < |items| ==>
              IndexAll(codec, bs, storage, r, items)[k] == IndexRecord(items[k], IndexOne(codec, bs, storage, r, items[k]))
  {
    if items != [] {
      IndexAllEach(codec, bs, storage, r, items[1..]);
      forall k | 0 <= k < |items|
        ensures IndexAll(codec, bs, storage, r, items)[k] == IndexRecord(items[k], IndexOne(codec, bs, storage, r, items[k]))
      {
        if k > 0 {
          assert items[k] == items[1..][k - 1];
        }
      }
    }
  }

  lemma {:induction false} IndexAllAppend(codec: Codec, bs: BlobStore, storage: Storage, r: Repository, a: seq<IndexedItem>, b: seq<IndexedItem>)
    ensures IndexAll(codec, bs, storage, r, a + b) == IndexAll(codec, bs, storage, r, a) + IndexAll(codec, bs, storage, r, b)
  {
    if a == [] {
      assert a + b == b;
    } else {
      assert (a + b)[1..] == a[1..] + b;
      IndexAllAppend(codec, bs, storage, r, a[1..], b);
    }
  }

  /** Indexing one more item appends that item's record to the log. */
  lemma IndexAllNext(codec: Codec, bs: BlobStore, storage: Storage, r: Repository, done: seq<IndexedItem>, i: IndexedItem)
    ensures IndexAll(codec, bs, storage, r, done + [i])
         == IndexAll(codec, bs, storage, r, done) + [IndexRecord(i, IndexOne(codec, bs, storage, r, i))]
  {
    IndexAllAppend(codec, bs, storage, r, done, [i]);
    assert [i][1..] == [];
  }

  /** The items a log is about, in order. */
  function Items(log: seq<IndexRecord>): (items: seq<IndexedItem>)
    ensures |items| == |log|
  {
    if log == [] then [] else [log[0].item] + Items(log[1..])
  }

  /** The blobs handed to Store, in order. */
  function StoreCalls(log: seq<IndexRecord>): (blobs: seq<Blob>)
    ensures |blobs| <= |log|
  {
    if log == [] then []
    else (if log[0].step.CalledStore() then [log[0].step.blob] else []) + StoreCalls(log[1..])
  }

  /**
   * Indexing a sequence of items logs each item exactly once and in order,
   * whatever the store answers; each item gets at most one Store call, and
   * an item is skipped before Store only when marshalling or blob
   * construction fails.
   */
  lemma IndexAllAccounts(codec: Codec, bs: BlobStore, storage: Storage, r: Repository, items: seq<IndexedItem>)
    ensures Items(IndexAll(codec, bs, storage, r, items)) == items
    ensures |StoreCalls(IndexAll(codec, bs, storage, r, items))| <= |items|
    ensures (forall it <- items :: Encodes(codec, it)) ==> |StoreCalls(IndexAll(codec, bs, storage, r, items))| == |items|
    ensures (exists it <- items :: !Encodes(codec, it)) ==> |StoreCalls(IndexAll(codec, bs, storage, r, items))| < |items|
    ensures forall k :: 0 <= k < |items| ==>
              (IndexAll(codec, bs, storage, r, items)[k].step.CalledStore() <==> Encodes(codec, items[k]))
  {
    IndexAllStoreCounts(codec, bs, storage, r, items);
    IndexAllStoresEncodable(codec, bs, storage, r, items);
  }

  /** The counting half of IndexAllAccounts, by induction on the items. */
  lemma {:induction false} IndexAllStoreCounts(codec: Codec, bs: BlobStore, storage: Storage, r: Repository, items: seq<IndexedItem>)
    ensures Items(IndexAll(codec, bs, storage, r, items)) == items
    ensures (forall it <- items :: Encodes(codec, it)) ==> |StoreCalls(IndexAll(codec, bs, storage, r, items))| == |items|
    ensures (exists it <- items :: !Encodes(codec, it)) ==> |StoreCalls(IndexAll(codec, bs, storage, r, items))| < |items|
  {
    if items != [] {
      var it, rest := items[0], items[1..];
      IndexAllStoreCounts(codec, bs, storage, r, rest);
      var step := IndexOne(codec, bs, storage, r, it);
      assert step.CalledStore() <==> Encodes(codec, it);
      assert IndexAll(codec, bs, storage, r, items)[1..] == IndexAll(codec, bs, storage, r, rest);
      assert forall x <- rest :: x in items;
      if exists x <- items :: !Encodes(codec, x) {
        if Encodes(codec, it) {
          var x :| x in items && !Encodes(codec, x);
          assert x in rest by {
            assert items == [it] + rest;
          }
        }
      }
    }
  }

  /** The item at each position reaches Store exactly when it marshals and builds a blob. */
  lemma IndexAllStoresEncodable(codec: Codec, bs: BlobStore, storage: Storage, r: Repository, items: seq<IndexedItem>)
    ensures forall k :: 0 <= k < |items| ==>
              (IndexAll(codec, bs, storage, r, items)[k].step.CalledStore() <==> Encodes(codec, items[k]))
  {
    IndexAllEach(codec, bs, storage, r, items);
  }

  /** The blob built for an item: marshal it, then NewBlobFromPayload; the first failure wins. */
  function BlobOf(codec: Codec, item: IndexedItem): Result<Blob, Error> {
    match codec.marshal(item)
    case Failure(e) => Failure(e)
    case Success(payload) => codec.newBlobFromPayload(item.Type(), item.ID(), payload)
  }

  /** Marshalling and blob construction both succeed for the item. */
  predicate Encodes(codec: Codec, item: IndexedItem) {
    BlobOf(codec, item).Success?
  }
}
