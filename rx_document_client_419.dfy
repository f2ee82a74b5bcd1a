/**
 * The call sites the 4.19 instrumentation module weaves into
 * `RxDocumentClientImpl`, through its own copy of the attribute helpers.
 */
module RxDocumentClient419 {
  import opened Wrappers
  import opened JavaLang
  import opened Utils
  import opened Signals
  import opened Interceptor

  function ReadAllDocuments(collectionLink: Option<string>, partitionKey: Option<PartitionKey>): (r: Result<Instrumented, Failure>)
    ensures r.Err? <==> LinkFails(collectionLink)
    ensures r.Ok? ==> r.value.params == Some(Descriptor(Some(LinkId(collectionLink.value)), "readAllDocuments"))
    ensures r.Ok? ==> r.value.wiring == SubscribeCancelTerminateError
  {
    LinkSite("RxDocumentClientImpl/readAllDocuments", collectionLink, "readAllDocuments",
      [Operation("readAllDocuments"), Put("CollectionLink", collectionLink), PutPartitionKey(partitionKey)],
      true, SubscribeCancelTerminateError)
  }

  function DeleteAllDocumentsByPartitionKey(collectionLink: Option<string>, partitionKey: Option<PartitionKey>): (r: Result<Instrumented, Failure>)
    ensures r.Err? <==> LinkFails(collectionLink)
    ensures r.Ok? ==> r.value.params == Some(Descriptor(Some(LinkId(collectionLink.value)), "deleteAllDocumentsByPartitionKey"))
    ensures r.Ok? ==> r.value.wiring == SubscribeTerminateCancelError
  {
    LinkSite("RxDocumentClientImpl/deleteAllDocumentsByPartitionKey", collectionLink, "deleteAllDocumentsByPartitionKey",
      [Operation("deleteAllDocumentsByPartitionKey"), Put("CollectionLink", collectionLink), PutPartitionKey(partitionKey)],
      true, SubscribeTerminateCancelError)
  }

  /** `readAllDocuments` attaches its own operation name, its link and the partition key, if any. */
  lemma ReadAllDocumentsAttributes(collectionLink: string, partitionKey: Option<PartitionKey>)
    requires !LinkFails(Some(collectionLink))
    ensures var m := map["Operation" := "readAllDocuments", "CollectionLink" := collectionLink];
      Attached(ReadAllDocuments(Some(collectionLink), partitionKey).value) ==
        Some(if partitionKey.Some? then m["PartitionKey" := partitionKey.value.text] else m)
  {
    var w0 := Operation("readAllDocuments");
    var w1 := Put("CollectionLink", Some(collectionLink));
    var w2 := PutPartitionKey(partitionKey);
    assert ReadAllDocuments(Some(collectionLink), partitionKey).value.writes == [w0, w1] + [w2];
    assert [w0, w1] == [w0] + [w1];
    assert [w0] == [] + [w0];
    FilledPut([], "Operation", Some("readAllDocuments"));
    FilledPut([w0], "CollectionLink", Some(collectionLink));
    FilledPartitionKey([w0, w1], partitionKey);
  }

  /** `deleteAllDocumentsByPartitionKey` attaches the operation `deleteAllDocumentsByPartitionKey`, its link and the partition key, if any. */
  lemma DeleteAllDocumentsByPartitionKeyAttributes(collectionLink: string, partitionKey: Option<PartitionKey>)
    requires !LinkFails(Some(collectionLink))
    ensures var m := map["Operation" := "deleteAllDocumentsByPartitionKey", "CollectionLink" := collectionLink];
      Attached(DeleteAllDocumentsByPartitionKey(Some(collectionLink), partitionKey).value) ==
        Some(if partitionKey.Some? then m["PartitionKey" := partitionKey.value.text] else m)
  {
    var w0 := Operation("deleteAllDocumentsByPartitionKey");
    var w1 := Put("CollectionLink", Some(collectionLink));
    var w2 := PutPartitionKey(partitionKey);
    assert DeleteAllDocumentsByPartitionKey(Some(collectionLink), partitionKey).value.writes == [w0, w1] + [w2];
    assert [w0, w1] == [w0] + [w1];
    assert [w0] == [] + [w0];
    FilledPut([], "Operation", Some("deleteAllDocumentsByPartitionKey"));
    FilledPut([w0], "CollectionLink", Some(collectionLink));
    FilledPartitionKey([w0, w1], partitionKey);
  }
}
