/**
 * Loading documents into an Azure AI Search index: optional index
 * recreation, filtering out documents without a vector, uploading in
 * batches of 200, and the final upload of the whole batch once more.
 */
module AzureAiSearch {

  import opened Wrappers

  /** A vector-store document; `attributes` is the dictionary that gets JSON-encoded. */
  datatype Document<Attrs> = Document(id: string, vector: Option<seq<real>>, text: string, attributes: Attrs)

  /** One uploaded record: the document's fields with its attributes already encoded. */
  datatype SearchRecord = SearchRecord(id: string, vector: seq<real>, text: string, attributes: string)

  /** The calls made on the index client and the search client, in order. */
  datatype Call = DeleteIndex(name: string) | CreateOrUpdateIndex(name: string) | Upload(records: seq<SearchRecord>)

  const BatchSize: nat := 200

  /** The records uploaded: documents with a vector, in input order. */
  function Records<A>(documents: seq<Document<A>>, encode: A -> string): (r: seq<SearchRecord>)
    ensures |r| <= |documents|
  {
    if documents == [] then []
    else
      var init := Records(documents[..|documents| - 1], encode);
      var d := documents[|documents| - 1];
      if d.vector.Some? then init + [SearchRecord(d.id, d.vector.value, d.text, encode(d.attributes))] else init
  }

  /** A document is uploaded exactly when it has a vector, and then with its fields and encoded attributes. */
  lemma {:induction false} RecordsFromDocuments<A>(documents: seq<Document<A>>, encode: A -> string)
    ensures forall r :: r in Records(documents, encode) <==>
      exists d :: d in documents && d.vector.Some? && r == SearchRecord(d.id, d.vector.value, d.text, encode(d.attributes))
  {
    if documents != [] {
      var init := documents[..|documents| - 1];
      RecordsFromDocuments(init, encode);
      assert documents == init + [documents[|documents| - 1]];
    }
  }

  /** `len(batch) // batch_size + (1 if len(batch) % batch_size != 0 else 0)`. */
  function NumBatches(n: nat): nat {
    n / BatchSize + (if n % BatchSize != 0 then 1 else 0)
  }

  /** The number of batches is the ceiling of n / 200: enough to cover n, and none of them empty. */
  lemma NumBatchesIsCeiling(n: nat)
    ensures NumBatches(n) * BatchSize >= n
    ensures n > 0 ==> (NumBatches(n) - 1) * BatchSize < n
    ensures n == 0 <==> NumBatches(n) == 0
  {
  }

  function Min(a: int, b: int): int {
    if a < b then a else b
  }

  /** Batch `i`: the records at indices `[i*200, min((i+1)*200, n))`. */
  function BatchAt(records: seq<SearchRecord>, i: nat): seq<SearchRecord>
    requires i < NumBatches(|records|)
  {
    NumBatchesIsCeiling(|records|);
    records[i * BatchSize..Min((i + 1) * BatchSize, |records|)]
  }

  /** Every batch is non-empty and holds at most 200 records. */
  lemma BatchBounds(records: seq<SearchRecord>, i: nat)
    requires i < NumBatches(|records|)
    ensures 0 < |BatchAt(records, i)| <= BatchSize
  {
    NumBatchesIsCeiling(|records|);
  }

  /** Record `k` lies in batch `k / 200`, at position `k % 200`. */
  lemma RecordInItsBatch(records: seq<SearchRecord>, k: nat)
    requires k < |records|
    ensures k / BatchSize < NumBatches(|records|)
    ensures k % BatchSize < |BatchAt(records, k / BatchSize)|
    ensures BatchAt(records, k / BatchSize)[k % BatchSize] == records[k]
  {
    NumBatchesIsCeiling(|records|);
  }

  function Flatten(batches: seq<seq<SearchRecord>>): seq<SearchRecord> {
    if batches == [] then [] else Flatten(batches[..|batches| - 1]) + batches[|batches| - 1]
  }

  function Batches(records: seq<SearchRecord>, m: nat): (r: seq<seq<SearchRecord>>)
    requires m <= NumBatches(|records|)
    ensures |r| == m && forall i :: 0 <= i < m ==> r[i] == BatchAt(records, i)
  {
    if m == 0 then [] else Batches(records, m - 1) + [BatchAt(records, m - 1)]
  }

  /** The batches, in order, put back together are the records: disjoint, and covering all of them in order. */
  lemma {:induction false} BatchesCover(records: seq<SearchRecord>, m: nat)
    requires m <= NumBatches(|records|)
    ensures Flatten(Batches(records, m)) == records[..Min(m * BatchSize, |records|)]
  {
    NumBatchesIsCeiling(|records|);
    if m > 0 {
      BatchesCover(records, m - 1);
      var bs := Batches(records, m);
      assert bs[..m - 1] == Batches(records, m - 1);
      assert records[..Min(m * BatchSize, |records|)]
        == records[..Min((m - 1) * BatchSize, |records|)] + BatchAt(records, m - 1);
    }
  }

  lemma AllBatchesCover(records: seq<SearchRecord>)
    ensures Flatten(Batches(records, NumBatches(|records|))) == records
  {
    NumBatchesIsCeiling(|records|);
    BatchesCover(records, NumBatches(|records|));
    assert records[..|records|] == records;
  }

  function IndexCalls(overwrite: bool, name: string, exists_: bool): seq<Call> {
    if !overwrite then []
    else (if exists_ then [DeleteIndex(name)] else []) + [CreateOrUpdateIndex(name)]
  }

  function UploadCalls(records: seq<SearchRecord>): (r: seq<Call>)
    ensures |r| == NumBatches(|records|) + (if |records| > 0 then 1 else 0)
  {
    seq(NumBatches(|records|), i requires 0 <= i < NumBatches(|records|) => Upload(BatchAt(records, i)))
    + (if |records| > 0 then [Upload(records)] else [])
  }

  /**
   * The upload calls are one per batch and then one with every record, so
   * each record is sent twice; with no record there is no call at all.
   */
  lemma UploadCallsShape(records: seq<SearchRecord>)
    ensures records == [] ==> UploadCalls(records) == []
    ensures records != [] ==> UploadCalls(records)[|UploadCalls(records)| - 1] == Upload(records)
    ensures forall i :: 0 <= i < NumBatches(|records|) ==> UploadCalls(records)[i] == Upload(BatchAt(records, i))
  {
  }

  class SearchStore {
    const collectionName: string
    /** The index names the service holds. */
    var indexNames: set<string>
    /** The calls issued so far. */
    var calls: seq<Call>

    constructor (collectionName: string, indexNames: set<string>)
      ensures this.collectionName == collectionName && this.indexNames == indexNames && calls == []
    {
      this.collectionName := collectionName;
      this.indexNames := indexNames;
      calls := [];
    }

    /** `load_documents`. */
    method LoadDocuments<A>(documents: seq<Document<A>>, overwrite: bool, encode: A -> string)
      modifies this
      ensures calls == old(calls) + IndexCalls(overwrite, collectionName, collectionName in old(indexNames))
                                  + UploadCalls(Records(documents, encode))
      ensures indexNames == if overwrite then old(indexNames) + {collectionName} else old(indexNames)
    {
      if overwrite {
        if collectionName in indexNames {
          calls := calls + [DeleteIndex(collectionName)];
          indexNames := indexNames - {collectionName};
        }
        calls := calls + [CreateOrUpdateIndex(collectionName)];
        indexNames := indexNames + {collectionName};
      }
      var batch := BuildBatch(documents, encode);
      UploadInBatches(batch);
    }

    /** The batching loop and the trailing upload of the whole batch. */
    method UploadInBatches(batch: seq<SearchRecord>)
      modifies this
      ensures calls == old(calls) + UploadCalls(batch) && indexNames == old(indexNames)
    {
      var numBatches := |batch| / BatchSize + (if |batch| % BatchSize != 0 then 1 else 0);
      NumBatchesIsCeiling(|batch|);
      var i := 0;
      while i < numBatches
        invariant 0 <= i <= numBatches
        invariant calls == old(calls) + UploadCalls(batch)[..i] && indexNames == old(indexNames)
      {
        var startIndex := i * BatchSize;
        var endIndex := Min((i + 1) * BatchSize, |batch|);
        calls := calls + [Upload(batch[startIndex..endIndex])];
        assert UploadCalls(batch)[..i + 1] == UploadCalls(batch)[..i] + [Upload(BatchAt(batch, i))];
        i := i + 1;
      }
      if |batch| > 0 {
        calls := calls + [Upload(batch)];
      }
      assert UploadCalls(batch) == UploadCalls(batch)[..numBatches] + (if |batch| > 0 then [Upload(batch)] else []);
    }
  }

  /** The list comprehension building the records to upload. */
  method BuildBatch<A>(documents: seq<Document<A>>, encode: A -> string) returns (batch: seq<SearchRecord>)
    ensures batch == Records(documents, encode)
  {
    batch := [];
    var d := 0;
    while d < |documents|
      invariant 0 <= d <= |documents|
      invariant batch == Records(documents[..d], encode)
    {
      assert documents[..d + 1][..d] == documents[..d];
      var doc := documents[d];
      if doc.vector.Some? {
        batch := batch + [SearchRecord(doc.id, doc.vector.value, doc.text, encode(doc.attributes))];
      }
      d := d + 1;
    }
    assert documents[..d] == documents;
  }

  /** Without `overwrite` the index is left alone; with it, an existing index is deleted before it is recreated. */
  lemma IndexCallsOrder(name: string, exists_: bool)
    ensures IndexCalls(false, name, exists_) == []
    ensures IndexCalls(true, name, true) == [DeleteIndex(name), CreateOrUpdateIndex(name)]
    ensures IndexCalls(true, name, false) == [CreateOrUpdateIndex(name)]
  {
  }
}
