/**
 * The call sites the 4.28 instrumentation module weaves into
 * `RxDocumentClientImpl`.
 */
module RxDocumentClient428 {
  import opened Wrappers
  import opened JavaLang
  import opened Utils
  import opened Signals
  import opened Interceptor

  /** Records the fully qualified name of the result class under `CollectionType`. */
  function ReadAllDocuments(collectionLink: Option<string>, partitionKey: Option<PartitionKey>, classOfT: Option<JavaClass>): (r: Result<Instrumented, Failure>)
    ensures r.Err? <==> classOfT.None? || LinkFails(collectionLink)
    ensures r.Ok? ==> r.value.params == Some(Descriptor(Some(LinkId(collectionLink.value)), "readAllDocuments"))
    ensures r.Ok? ==> r.value.wiring == SubscribeCancelTerminateError
  {
    var c :- Deref(classOfT);
    LinkSite("RxDocumentClientImpl/readAllDocuments", collectionLink, "readAllDocuments",
      [Operation("readAllDocuments"), Put("CollectionLink", collectionLink), PutPartitionKey(partitionKey),
       Put("CollectionType", Some(c.name))],
      true, SubscribeCancelTerminateError)
  }

  /** Records its operation as `CreateCollection`. */
  function DeleteAllDocumentsByPartitionKey(collectionLink: Option<string>, partitionKey: Option<PartitionKey>): (r: Result<Instrumented, Failure>)
    ensures r.Err? <==> LinkFails(collectionLink)
    ensures r.Ok? ==> r.value.params == Some(Descriptor(Some(LinkId(collectionLink.value)), "deleteAllDocumentsByPartitionKey"))
    ensures r.Ok? ==> r.value.wiring == SubscribeTerminateCancelError
  {
    LinkSite("RxDocumentClientImpl/deleteAllDocumentsByPartitionKey", collectionLink, "deleteAllDocumentsByPartitionKey",
      [Operation("CreateCollection"), Put("CollectionLink", collectionLink), PutPartitionKey(partitionKey)],
      true, SubscribeTerminateCancelError)
  }

  /** Records its operation as `CreateCollection`. */
  function DeleteDocument(documentLink: Option<string>): (r: Result<Instrumented, Failure>)
    ensures r.Err? <==> LinkFails(documentLink)
    ensures r.Ok? ==> r.value.params == Some(Descriptor(Some(LinkId(documentLink.value)), "deleteDocument"))
    ensures r.Ok? ==> r.value.wiring == SubscribeTerminateCancelError
  {
    LinkSite("RxDocumentClientImpl/deleteDocument", documentLink, "deleteDocument",
      [Operation("CreateCollection"), Put("DocumentLink", documentLink)], true, SubscribeTerminateCancelError)
  }

  /**
   * `readAllDocuments` attaches its operation, its link, the partition key
   * when there is one, and the result class's name; nothing else.
   */
  lemma ReadAllDocumentsAttributes(collectionLink: string, partitionKey: Option<PartitionKey>, classOfT: JavaClass)
    requires !LinkFails(Some(collectionLink))
    ensures var m := map["Operation" := "readAllDocuments", "CollectionLink" := collectionLink];
      Attached(ReadAllDocuments(Some(collectionLink), partitionKey, Some(classOfT)).value) ==
        Some((if partitionKey.Some? then m["PartitionKey" := partitionKey.value.text] else m)["CollectionType" := classOfT.name])
  {
    var w0 := Operation("readAllDocuments");
    var w1 := Put("CollectionLink", Some(collectionLink));
    var w2 := PutPartitionKey(partitionKey);
    var w3 := Put("CollectionType", Some(classOfT.name));
    assert ReadAllDocuments(Some(collectionLink), partitionKey, Some(classOfT)).value.writes == [w0, w1, w2] + [w3];
    assert [w0, w1, w2] == [w0, w1] + [w2];
    assert [w0, w1] == [w0] + [w1];
    assert [w0] == [] + [w0];
    FilledPut([], "Operation", Some("readAllDocuments"));
    FilledPut([w0], "CollectionLink", Some(collectionLink));
    FilledPartitionKey([w0, w1], partitionKey);
    FilledPut([w0, w1, w2], "CollectionType", Some(classOfT.name));
  }

  /** `deleteDocument` attaches the operation `CreateCollection` and its link. */
  lemma DeleteDocumentAttributes(documentLink: string)
    requires !LinkFails(Some(documentLink))
    ensures Attached(DeleteDocument(Some(documentLink)).value) ==
      Some(map["Operation" := "CreateCollection", "DocumentLink" := documentLink])
  {
    var w0 := Operation("CreateCollection");
    var w1 := Put("DocumentLink", Some(documentLink));
    assert DeleteDocument(Some(documentLink)).value.writes == [w0] + [w1];
    assert [w0] == [] + [w0];
    FilledPut([], "Operation", Some("CreateCollection"));
    FilledPut([w0], "DocumentLink", Some(documentLink));
  }

  /** `deleteAllDocumentsByPartitionKey` attaches the operation `CreateCollection`, its link and the partition key, if any. */
  lemma DeleteAllDocumentsByPartitionKeyAttributes(collectionLink: string, partitionKey: Option<PartitionKey>)
    requires !LinkFails(Some(collectionLink))
    ensures var m := map["Operation" := "CreateCollection", "CollectionLink" := collectionLink];
      Attached(DeleteAllDocumentsByPartitionKey(Some(collectionLink), partitionKey).value) ==
        Some(if partitionKey.Some? then m["PartitionKey" := partitionKey.value.text] else m)
  {
    var w0 := Operation("CreateCollection");
    var w1 := Put("CollectionLink", Some(collectionLink));
    var w2 := PutPartitionKey(partitionKey);
    assert DeleteAllDocumentsByPartitionKey(Some(collectionLink), partitionKey).value.writes == [w0, w1] + [w2];
    assert [w0, w1] == [w0] + [w1];
    assert [w0] == [] + [w0];
    FilledPut([], "Operation", Some("CreateCollection"));
    FilledPut([w0], "CollectionLink", Some(collectionLink));
    FilledPartitionKey([w0, w1], partitionKey);
  }
}
