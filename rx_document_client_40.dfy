/**
 * The call sites the 4.0 instrumentation module weaves into
 * `RxDocumentClientImpl`. These sites record few attributes, and register the
 * terminate hook before the cancel hook.
 */
module RxDocumentClient40 {
  import opened Wrappers
  import opened JavaLang
  import opened Utils
  import opened Signals
  import opened Interceptor

  function CreateCollection(databaseLink: Option<string>, collection: Option<DocumentCollection>): (r: Result<Instrumented, Failure>)
    ensures r.Err? <==> collection.None?
    ensures r.Ok? ==> r.value.params == Some(Descriptor(collection.value.id, "createCollection"))
    ensures r.Ok? ==> r.value.attached && r.value.wiring == SubscribeTerminateCancelError
  {
    var c :- Deref(collection);
    Ok(Site("RxDocumentClientImpl/createCollection", c.id, "createCollection",
      [Put("DatabaseLink", databaseLink)], true, SubscribeTerminateCancelError))
  }

  function CreateDatabase(database: Option<Database>): (r: Result<Instrumented, Failure>)
    ensures r.Err? <==> database.None?
    ensures r.Ok? ==> r.value.params == Some(Descriptor(database.value.id, "createDatabase"))
    ensures r.Ok? ==> Attached(r.value) == None
  {
    var d :- Deref(database);
    Ok(Site("RxDocumentClientImpl/createDatabase", d.id, "createDatabase", [], false, SubscribeTerminateCancelError))
  }

  function DeleteCollection(collectionLink: Option<string>): (r: Result<Instrumented, Failure>)
    ensures r.Err? <==> LinkFails(collectionLink)
    ensures r.Ok? ==> r.value.params == Some(Descriptor(Some(LinkId(collectionLink.value)), "deleteCollection"))
  {
    LinkSite("RxDocumentClientImpl/deleteCollection", collectionLink, "deleteCollection",
      [Put("ConnectionLink", collectionLink)], true, SubscribeTerminateCancelError)
  }

  function DeleteDatabase(databaseLink: Option<string>): (r: Result<Instrumented, Failure>)
    ensures r.Err? <==> LinkFails(databaseLink)
    ensures r.Ok? ==> r.value.params == Some(Descriptor(Some(LinkId(databaseLink.value)), "deleteDatabase"))
    ensures r.Ok? ==> Attached(r.value) == None
  {
    LinkSite("RxDocumentClientImpl/deleteDatabase", databaseLink, "deleteDatabase", [], false, SubscribeTerminateCancelError)
  }

  function ExecuteStoredProcedure(storedProcedureLink: Option<string>): (r: Result<Instrumented, Failure>)
    ensures r.Err? <==> LinkFails(storedProcedureLink)
    ensures r.Ok? ==> r.value.params == Some(Descriptor(Some(LinkId(storedProcedureLink.value)), "executeStoredProcedure"))
    ensures r.Ok? ==> Attached(r.value) == None
  {
    LinkSite("RxDocumentClientImpl/executeStoredProcedure", storedProcedureLink, "executeStoredProcedure", [],
      false, SubscribeTerminateCancelError)
  }

  /** The private `createQuery` behind every query: parses the text of the `SqlQuerySpec`. */
  function CreateQuery(sqlQuery: Option<SqlQuerySpec>, parse: ParseSql): (r: Result<Instrumented, Failure>)
    ensures r.Err? <==> sqlQuery.None? || parse(sqlQuery.value.queryText).Err?
    ensures r.Ok? ==> r.value.params == QueryDescriptor(parse(sqlQuery.value.queryText).value, sqlQuery.value.queryText)
    ensures r.Ok? ==> r.value.segmentName == QUERY_SEGMENT && r.value.wiring == SubscribeCancelCompleteError
    ensures r.Ok? ==> Attached(r.value) == None
  {
    var spec :- Deref(sqlQuery);
    var params :- QueryParams(parse, spec.queryText);
    Ok(Instrumented(QUERY_SEGMENT, params, [], false, SubscribeCancelCompleteError))
  }

  /** Records the fully qualified name of the item class. */
  function ReadMany(collectionLink: Option<string>, klass: Option<JavaClass>): (r: Result<Instrumented, Failure>)
    ensures r.Err? <==> klass.None? || LinkFails(collectionLink)
    ensures r.Ok? ==> r.value.params == Some(Descriptor(Some(LinkId(collectionLink.value)), "readMany"))
  {
    var k :- Deref(klass);
    LinkSite("RxDocumentClientImpl/readMany", collectionLink, "readMany",
      [Put("CollectionLink", collectionLink), Put("ItemType", Some(k.name))], true, SubscribeTerminateCancelError)
  }

  // ---------------------------------------------------------------------------
  // The attribute maps these sites attach
  // ---------------------------------------------------------------------------

  /** `createCollection` attaches the database link and nothing else: no operation, no collection fields. */
  lemma CreateCollectionAttributes(databaseLink: Option<string>, collection: DocumentCollection)
    ensures var r := CreateCollection(databaseLink, Some(collection));
      Attached(r.value) == Some(if databaseLink.Some? then map["DatabaseLink" := databaseLink.value] else map[])
  {
    var writes := CreateCollection(databaseLink, Some(collection)).value.writes;
    assert writes == [] + [Put("DatabaseLink", databaseLink)];
    FilledPut([], "DatabaseLink", databaseLink);
  }

  /** `deleteCollection` records its link under the key `ConnectionLink`. */
  lemma DeleteCollectionAttributes(collectionLink: string)
    requires !LinkFails(Some(collectionLink))
    ensures Attached(DeleteCollection(Some(collectionLink)).value) == Some(map["ConnectionLink" := collectionLink])
  {
    var writes := DeleteCollection(Some(collectionLink)).value.writes;
    assert writes == [] + [Put("ConnectionLink", Some(collectionLink))];
    FilledPut([], "ConnectionLink", Some(collectionLink));
  }

  /** `readMany` attaches the link and the fully qualified name of the item class, under `ItemType`. */
  lemma ReadManyAttributes(collectionLink: Option<string>, klass: JavaClass)
    requires !LinkFails(collectionLink)
    ensures Attached(ReadMany(collectionLink, Some(klass)).value) ==
      Some(map["CollectionLink" := collectionLink.value, "ItemType" := klass.name])
  {
    var writes := ReadMany(collectionLink, Some(klass)).value.writes;
    assert writes == [Put("CollectionLink", collectionLink)] + [Put("ItemType", Some(klass.name))];
    assert [Put("CollectionLink", collectionLink)] == [] + [Put("CollectionLink", collectionLink)];
    FilledPut([], "CollectionLink", collectionLink);
    FilledPut([Put("CollectionLink", collectionLink)], "ItemType", Some(klass.name));
  }
}
