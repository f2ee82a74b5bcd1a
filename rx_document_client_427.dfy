/**
 * The call sites the 4.27 instrumentation module weaves into
 * `RxDocumentClientImpl`: every one records its operation as
 * `CreateCollection`.
 */
module RxDocumentClient427 {
  import opened Wrappers
  import opened JavaLang
  import opened Utils
  import opened Signals
  import opened Interceptor

  function ReadAllDocuments(collectionLink: Option<string>, partitionKey: Option<PartitionKey>): (r: Result<Instrumented, Failure>)
    ensures r.Err? <==> LinkFails(collectionLink)
    ensures r.Ok? ==> r.value.params == Some(Descriptor(Some(LinkId(collectionLink.value)), "readAllDocuments"))
    ensures r.Ok? ==> r.value.wiring == SubscribeCancelTerminateError
  {
    LinkSite("RxDocumentClientImpl/readAllDocuments", collectionLink, "readAllDocuments",
      [Operation("CreateCollection"), Put("CollectionLink", collectionLink), PutPartitionKey(partitionKey)],
      true, SubscribeCancelTerminateError)
  }

  function DeleteAllDocumentsByPartitionKey(collectionLink: Option<string>, partitionKey: Option<PartitionKey>): (r: Result<Instrumented, Failure>)
    ensures r.Err? <==> LinkFails(collectionLink)
    ensures r.Ok? ==> r.value.params == Some(Descriptor(Some(LinkId(collectionLink.value)), "deleteAllDocumentsByPartitionKey"))
    ensures r.Ok? ==> r.value.wiring == SubscribeTerminateCancelError
  {
    LinkSite("RxDocumentClientImpl/deleteAllDocumentsByPartitionKey", collectionLink, "deleteAllDocumentsByPartitionKey",
      [Operation("CreateCollection"), Put("CollectionLink", collectionLink), PutPartitionKey(partitionKey)],
      true, SubscribeTerminateCancelError)
  }

  function DeleteDocument(documentLink: Option<string>): (r: Result<Instrumented, Failure>)
    ensures r.Err? <==> LinkFails(documentLink)
    ensures r.Ok? ==> r.value.params == Some(Descriptor(Some(LinkId(documentLink.value)), "deleteDocument"))
    ensures r.Ok? ==> r.value.wiring == SubscribeTerminateCancelError
  {
    LinkSite("RxDocumentClientImpl/deleteDocument", documentLink, "deleteDocument",
      [Operation("CreateCollection"), Put("DocumentLink", documentLink)], true, SubscribeTerminateCancelError)
  }

  /** `readAllDocuments` attaches the operation `CreateCollection`, its link and the partition key, if any. */
  lemma ReadAllDocumentsAttributes(collectionLink: string, partitionKey: Option<PartitionKey>)
    requires !LinkFails(Some(collectionLink))
    ensures var m := map["Operation" := "CreateCollection", "CollectionLink" := collectionLink];
      Attached(ReadAllDocuments(Some(collectionLink), partitionKey).value) ==
        Some(if partitionKey.Some? then m["PartitionKey" := partitionKey.value.text] else m)
  {
    var w0 := Operation("CreateCollection");
    var w1 := Put("CollectionLink", Some(collectionLink));
    var w2 := PutPartitionKey(partitionKey);
    assert ReadAllDocuments(Some(collectionLink), partitionKey).value.writes == [w0, w1] + [w2];
    assert [w0, w1] == [w0] + [w1];
    assert [w0] == [] + [w0];
    FilledPut([], "Operation", Some("CreateCollection"));
    FilledPut([w0], "CollectionLink", Some(collectionLink));
    FilledPartitionKey([w0, w1], partitionKey);
  }

  /** `deleteAllDocumentsByPartitionKey` attaches the operation `CreateCollection`, its link and the partition key, if any. */
  lemma DeleteAllDocumentsByPartitionKeyAttributes(collectionLink: string, partitionKey: Option<PartitionKey>)
    requires !LinkFails(Some(collectionLink))
    ensures var m := map["Operation" := "CreateCollection", "CollectionLink" := collectionLink];
      Attached(DeleteAllDocumentsByPartitionKey(Some(collectionLink), partitionKey).value) ==
        Some(if partitionKey.Some? then m["PartitionKey" := partitionKey.value.text] else m)
  {
    var w0 := Operation("CreateCollection");
    var w1 := Put("CollectionLink", Some(collectionLink));
    var w2 := PutPartitionKey(partitionKey);
    assert DeleteAllDocumentsByPartitionKey(Some(collectionLink), partitionKey).value.writes == [w0, w1] + [w2];
    assert [w0, w1] == [w0] + [w1];
    assert [w0] == [] + [w0];
    FilledPut([], "Operation", Some("CreateCollection"));
    FilledPut([w0], "CollectionLink", Some(collectionLink));
    FilledPartitionKey([w0, w1], partitionKey);
  }

  /** `deleteDocument` attaches the operation `CreateCollection` and its link. */
  lemma DeleteDocumentAttributes(documentLink: string)
    requires !LinkFails(Some(documentLink))
    ensures Attached(DeleteDocument(Some(documentLink)).value) ==
      Some(map["Operation" := "CreateCollection", "DocumentLink" := documentLink])
  {
    var w0 := Operation("CreateCollection");
    var w1 := Put("DocumentLink", Some(documentLink));
    assert DeleteDocument(Some(documentLink)).value.writes == [w0] + [w1];
    assert [w0] == [] + [w0];
    FilledPut([], "Operation", Some("CreateCollection"));
    FilledPut([w0], "DocumentLink", Some(documentLink));
  }
}
