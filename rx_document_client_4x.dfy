/**
 * The call sites the 4.x instrumentation module weaves into
 * `RxDocumentClientImpl`. Each site is the value the woven method builds
 * around the original call: the segment name, the datastore descriptor, the
 * attribute writes in source order, whether `setAttributes` is called, and the
 * order in which the hooks are registered. A site that throws while building
 * these returns the exception to the caller in place of the publisher.
 */
module RxDocumentClient4x {
  import opened Wrappers
  import opened JavaLang
  import opened Utils
  import opened Signals
  import opened Interceptor
  import opened NewRelicApi
  import opened SpanLifecycle
  import CosmosUtils

  /** A query site: reads the text of a non-null `SqlQuerySpec`, records it and parses it. */
  function QuerySite(writes: seq<AttributeWrite>, querySpec: Option<SqlQuerySpec>, parse: ParseSql, attached: bool): (r: Result<Instrumented, Failure>)
    ensures r.Err? <==> querySpec.None? || parse(querySpec.value.queryText).Err?
    ensures r.Ok? ==> r.value == Instrumented(QUERY_SEGMENT,
      QueryDescriptor(parse(querySpec.value.queryText).value, querySpec.value.queryText),
      writes + [Put("Query", querySpec.value.queryText)], attached, SubscribeCancelCompleteError)
  {
    var spec :- Deref(querySpec);
    var params :- QueryParams(parse, spec.queryText);
    Ok(Instrumented(QUERY_SEGMENT, params, writes + [Put("Query", spec.queryText)], attached, SubscribeCancelCompleteError))
  }

  // ---------------------------------------------------------------------------
  // Sites whose collection is an entity's own id
  // ---------------------------------------------------------------------------

  function CreateCollection(databaseLink: Option<string>, collection: Option<DocumentCollection>): (r: Result<Instrumented, Failure>)
    ensures r.Err? <==> collection.None?
    ensures r.Ok? ==> r.value.params == Some(Descriptor(collection.value.id, "createCollection"))
    ensures r.Ok? ==> r.value.attached && r.value.wiring == SubscribeCancelTerminateError
  {
    var c :- Deref(collection);
    Ok(Site("RxDocumentClientImpl/createCollection", c.id, "createCollection",
      [Operation("CreateCollection"), Put("DatabaseLink", databaseLink), PutDocumentCollection(collection)],
      true, SubscribeCancelTerminateError))
  }

  function CreateDatabase(database: Option<Database>): (r: Result<Instrumented, Failure>)
    ensures r.Err? <==> database.None?
    ensures r.Ok? ==> r.value.params == Some(Descriptor(database.value.id, "createDatabase"))
  {
    var d :- Deref(database);
    Ok(Site("RxDocumentClientImpl/createDatabase", d.id, "createDatabase",
      [Operation("CreateDatabase"), PutDatabase(database)], true, SubscribeCancelTerminateError))
  }

  /** Names its collection after the document's class, and its segment after `createDatabase`. */
  function CreateDocument(collectionLink: Option<string>, document: Option<JavaObject>): (r: Result<Instrumented, Failure>)
    ensures r.Err? <==> document.None?
    ensures r.Ok? ==> r.value.params == Some(Descriptor(Some(document.value.javaClass.simpleName), "createDocument"))
    ensures r.Ok? ==> r.value.segmentName == "RxDocumentClientImpl/createDatabase"
  {
    var name :- SimpleClassName(document);
    Ok(Site("RxDocumentClientImpl/createDatabase", Some(name), "createDocument",
      [Operation("CreateDocument"), Put("CollectionLink", collectionLink), Put("DocumentType", Some(name))],
      true, SubscribeCancelTerminateError))
  }

  function CreateStoredProcedure(collectionLink: Option<string>, storedProcedure: Option<StoredProcedure>): (r: Result<Instrumented, Failure>)
    ensures r.Err? <==> storedProcedure.None?
    ensures r.Ok? ==> r.value.params == Some(Descriptor(storedProcedure.value.id, "createStoredProcedure"))
  {
    var sp :- Deref(storedProcedure);
    Ok(Site("RxDocumentClientImpl/createStoredProcedure", sp.id, "createStoredProcedure",
      [Operation("CreateStoredProcedure"), Put("CollectionLink", collectionLink), PutStoredProcedure(storedProcedure)],
      true, SubscribeCancelTerminateError))
  }

  function ReplaceCollection(collection: Option<DocumentCollection>): (r: Result<Instrumented, Failure>)
    ensures r.Err? <==> collection.None?
    ensures r.Ok? ==> r.value.params == Some(Descriptor(collection.value.id, "replaceCollection"))
  {
    var c :- Deref(collection);
    Ok(Site("RxDocumentClientImpl/replaceCollection", c.id, "replaceCollection",
      [Operation("ReplaceCollection"), PutDocumentCollection(collection)], true, SubscribeCancelTerminateError))
  }

  function ReplaceDocument(document: Option<Document>): (r: Result<Instrumented, Failure>)
    ensures r.Err? <==> document.None?
    ensures r.Ok? ==> r.value.params == Some(Descriptor(document.value.id, "replaceDocument"))
  {
    var d :- Deref(document);
    Ok(Site("RxDocumentClientImpl/replaceDocument", d.id, "replaceDocument",
      [Operation("ReplaceDocument"), PutDocument(document)], true, SubscribeCancelTerminateError))
  }

  function ReplaceOffer(offer: Option<Offer>): (r: Result<Instrumented, Failure>)
    ensures r.Err? <==> offer.None?
    ensures r.Ok? ==> r.value.params == Some(Descriptor(offer.value.id, "replaceOffer"))
  {
    var o :- Deref(offer);
    Ok(Site("RxDocumentClientImpl/replaceOffer", o.id, "replaceOffer",
      [Operation("ReplaceOffer"), PutOffer(offer)], true, SubscribeCancelTerminateError))
  }

  function ReplaceStoredProcedure(storedProcedure: Option<StoredProcedure>): (r: Result<Instrumented, Failure>)
    ensures r.Err? <==> storedProcedure.None?
    ensures r.Ok? ==> r.value.params == Some(Descriptor(storedProcedure.value.id, "replaceStoredProcedure"))
  {
    var sp :- Deref(storedProcedure);
    Ok(Site("RxDocumentClientImpl/replaceStoredProcedure", sp.id, "replaceStoredProcedure",
      [Operation("ReplaceStoredProcedure"), PutStoredProcedure(storedProcedure)], true, SubscribeCancelTerminateError))
  }

  // ---------------------------------------------------------------------------
  // Sites whose collection is the id of a link
  // ---------------------------------------------------------------------------

  function CreateUser(databaseLink: Option<string>, user: Option<User>): (r: Result<Instrumented, Failure>)
    ensures r.Err? <==> LinkFails(databaseLink)
    ensures r.Ok? ==> r.value.params == Some(Descriptor(Some(LinkId(databaseLink.value)), "createUser"))
  {
    LinkSite("RxDocumentClientImpl/createUser", databaseLink, "createUser",
      [Operation("CreateUser"), Put("DatabaseLink", databaseLink), PutUser(user)], true, SubscribeCancelTerminateError)
  }

  /** Reports itself under the operation and segment of `deleteAllDocumentsByPartitionKey`. */
  function DeleteCollection(collectionLink: Option<string>): (r: Result<Instrumented, Failure>)
    ensures r.Err? <==> LinkFails(collectionLink)
    ensures r.Ok? ==> r.value.params == Some(Descriptor(Some(LinkId(collectionLink.value)), "deleteAllDocumentsByPartitionKey"))
    ensures r.Ok? ==> r.value.segmentName == "RxDocumentClientImpl/deleteAllDocumentsByPartitionKey"
  {
    LinkSite("RxDocumentClientImpl/deleteAllDocumentsByPartitionKey", collectionLink, "deleteAllDocumentsByPartitionKey",
      [Operation("DeleteCollection"), Put("CollectionLink", collectionLink)], true, SubscribeCancelTerminateError)
  }

  function DeleteDatabase(databaseLink: Option<string>): (r: Result<Instrumented, Failure>)
    ensures r.Err? <==> LinkFails(databaseLink)
    ensures r.Ok? ==> r.value.params == Some(Descriptor(Some(LinkId(databaseLink.value)), "deleteDatabase"))
  {
    LinkSite("RxDocumentClientImpl/deleteDatabase", databaseLink, "deleteDatabase",
      [Operation("DeleteDatabase"), Put("DatabaseLink", databaseLink)], true, SubscribeCancelTerminateError)
  }

  function DeleteDocument(documentLink: Option<string>): (r: Result<Instrumented, Failure>)
    ensures r.Err? <==> LinkFails(documentLink)
    ensures r.Ok? ==> r.value.params == Some(Descriptor(Some(LinkId(documentLink.value)), "deleteDocument"))
  {
    LinkSite("RxDocumentClientImpl/deleteDocument", documentLink, "deleteDocument",
      [Operation("DeleteDocument"), Put("DocumentLink", documentLink)], true, SubscribeCancelTerminateError)
  }

  function DeleteStoredProcedure(storedProcedureLink: Option<string>): (r: Result<Instrumented, Failure>)
    ensures r.Err? <==> LinkFails(storedProcedureLink)
    ensures r.Ok? ==> r.value.params == Some(Descriptor(Some(LinkId(storedProcedureLink.value)), "deleteStoredProcedure"))
  {
    LinkSite("RxDocumentClientImpl/deleteStoredProcedure", storedProcedureLink, "deleteStoredProcedure",
      [Operation("DeleteStoredProcedure"), Put("StoredProcedureLink", storedProcedureLink)], true, SubscribeCancelTerminateError)
  }

  function ExecuteStoredProcedure(storedProcedureLink: Option<string>): (r: Result<Instrumented, Failure>)
    ensures r.Err? <==> LinkFails(storedProcedureLink)
    ensures r.Ok? ==> r.value.params == Some(Descriptor(Some(LinkId(storedProcedureLink.value)), "executeStoredProcedure"))
  {
    LinkSite("RxDocumentClientImpl/executeStoredProcedure", storedProcedureLink, "executeStoredProcedure",
      [Operation("ExecuteStoredProcedure"), Put("StoredProcedureLink", storedProcedureLink)], true, SubscribeCancelTerminateError)
  }

  function ReadCollection(collectionLink: Option<string>): (r: Result<Instrumented, Failure>)
    ensures r.Err? <==> LinkFails(collectionLink)
    ensures r.Ok? ==> r.value.params == Some(Descriptor(Some(LinkId(collectionLink.value)), "readCollection"))
    ensures r.Ok? ==> r.value.wiring == SubscribeCancelTerminateError
  {
    LinkSite("RxDocumentClientImpl/readCollection", collectionLink, "readCollection",
      [Operation("ReadCollection"), Put("CollectionLink", collectionLink)], true, SubscribeCancelTerminateError)
  }

  /** A feed: its span ends on completion rather than on terminate. */
  function ReadCollections(databaseLink: Option<string>): (r: Result<Instrumented, Failure>)
    ensures r.Err? <==> LinkFails(databaseLink)
    ensures r.Ok? ==> r.value.params == Some(Descriptor(Some(LinkId(databaseLink.value)), "readCollections"))
    ensures r.Ok? ==> r.value.wiring == SubscribeCancelCompleteError
  {
    LinkSite("RxDocumentClientImpl/readCollections", databaseLink, "readCollections",
      [Operation("ReadCollections"), Put("DatabaseLink", databaseLink)], true, SubscribeCancelCompleteError)
  }

  function ReadDatabase(databaseLink: Option<string>): (r: Result<Instrumented, Failure>)
    ensures r.Err? <==> LinkFails(databaseLink)
    ensures r.Ok? ==> r.value.params == Some(Descriptor(Some(LinkId(databaseLink.value)), "readDatabase"))
  {
    LinkSite("RxDocumentClientImpl/readDatabase", databaseLink, "readDatabase",
      [Operation("ReadDatabase"), Put("DatabaseLink", databaseLink)], true, SubscribeCancelTerminateError)
  }

  /** Records only the operation; the link is used for the collection alone. */
  function ReadDocuments(collectionLink: Option<string>): (r: Result<Instrumented, Failure>)
    ensures r.Err? <==> LinkFails(collectionLink)
    ensures r.Ok? ==> r.value.params == Some(Descriptor(Some(LinkId(collectionLink.value)), "readDocuments"))
    ensures r.Ok? ==> r.value.writes == [Operation("ReadDocuments")]
  {
    LinkSite("RxDocumentClientImpl/readDocuments", collectionLink, "readDocuments",
      [Operation("ReadDocuments")], true, SubscribeCancelTerminateError)
  }

  /** Records its operation as `ReadMany`. */
  function ReadOffer(offerLink: Option<string>): (r: Result<Instrumented, Failure>)
    ensures r.Err? <==> LinkFails(offerLink)
    ensures r.Ok? ==> r.value.params == Some(Descriptor(Some(LinkId(offerLink.value)), "readOffer"))
  {
    LinkSite("RxDocumentClientImpl/readOffer", offerLink, "readOffer",
      [Operation("ReadMany"), Put("OfferLink", offerLink)], true, SubscribeCancelTerminateError)
  }

  /** Records its operation as `ReadMany`; its segment name holds a tab character. */
  function ReadStoredProcedure(storedProcedureLink: Option<string>): (r: Result<Instrumented, Failure>)
    ensures r.Err? <==> LinkFails(storedProcedureLink)
    ensures r.Ok? ==> r.value.params == Some(Descriptor(Some(LinkId(storedProcedureLink.value)), "readStoredProcedure"))
    ensures r.Ok? ==> '\t' in r.value.segmentName
  {
    LinkSite("RxDoc\tumentClientImpl/readStoredProcedure", storedProcedureLink, "readStoredProcedure",
      [Operation("ReadMany"), Put("StoredProcedureLink", storedProcedureLink)], true, SubscribeCancelTerminateError)
  }

  function ReadStoredProcedures(collectionLink: Option<string>): (r: Result<Instrumented, Failure>)
    ensures r.Err? <==> LinkFails(collectionLink)
    ensures r.Ok? ==> r.value.params == Some(Descriptor(Some(LinkId(collectionLink.value)), "readStoredProcedures"))
  {
    LinkSite("RxDocumentClientImpl/readStoredProcedures", collectionLink, "readStoredProcedures",
      [Operation("ReadStoredProcedures"), Put("CollectionsLink", collectionLink)], true, SubscribeCancelTerminateError)
  }

  function ReadUsers(databaseLink: Option<string>): (r: Result<Instrumented, Failure>)
    ensures r.Err? <==> LinkFails(databaseLink)
    ensures r.Ok? ==> r.value.params == Some(Descriptor(Some(LinkId(databaseLink.value)), "readUsers"))
    ensures r.Ok? ==> r.value.segmentName == "RxDocumentClientImpl/readStoredreadUsersProcedures"
  {
    LinkSite("RxDocumentClientImpl/readStoredreadUsersProcedures", databaseLink, "readUsers",
      [Operation("readUsers"), Put("DatabaseLink", databaseLink)], true, SubscribeCancelTerminateError)
  }

  /** Reads the document's class before the link, and never calls `setAttributes`. */
  function ReplaceDocumentByLink(documentLink: Option<string>, document: Option<JavaObject>): (r: Result<Instrumented, Failure>)
    ensures r.Err? <==> document.None? || LinkFails(documentLink)
    ensures r.Ok? ==> r.value.params == Some(Descriptor(Some(LinkId(documentLink.value)), "replaceDocument"))
    ensures r.Ok? ==> !r.value.attached && Attached(r.value) == None
  {
    var name :- SimpleClassName(document);
    LinkSite("RxDocumentClientImpl/replaceDocument", documentLink, "replaceDocument",
      [Operation("ReplaceDocument"), Put("DocumentLink", documentLink), Put("DocumentType", Some(name))],
      false, SubscribeCancelTerminateError)
  }

  function UpsertDocument(collectionLink: Option<string>, document: Option<JavaObject>): (r: Result<Instrumented, Failure>)
    ensures r.Err? <==> document.None? || LinkFails(collectionLink)
    ensures r.Ok? ==> r.value.params == Some(Descriptor(Some(LinkId(collectionLink.value)), "upsertDocument"))
  {
    var name :- SimpleClassName(document);
    LinkSite("RxDocumentClientImpl/upsertDocument", collectionLink, "upsertDocument",
      [Operation("UpsertDocument"), Put("CollectionLink", collectionLink), Put("DocumentType", Some(name))],
      true, SubscribeCancelTerminateError)
  }

  function UpsertStoredProcedure(collectionLink: Option<string>, storedProcedure: Option<StoredProcedure>): (r: Result<Instrumented, Failure>)
    ensures r.Err? <==> LinkFails(collectionLink)
    ensures r.Ok? ==> r.value.params == Some(Descriptor(Some(LinkId(collectionLink.value)), "upsertStoredProcedure"))
  {
    LinkSite("RxDocumentClientImpl/upsertStoredProcedure", collectionLink, "upsertStoredProcedure",
      [Operation("UpsertStoredProcedure"), Put("CollectionLink", collectionLink), PutStoredProcedure(storedProcedure)],
      true, SubscribeCancelTerminateError)
  }

  // ---------------------------------------------------------------------------
  // Sites that name no collection
  // ---------------------------------------------------------------------------

  /** Records its operation as `DeleteStoredProcedure`. */
  function DeleteUser(userLink: Option<string>): (r: Result<Instrumented, Failure>)
    ensures r.Ok? && r.value.params == Some(Descriptor(Some(""), "deleteUser"))
  {
    Ok(Site("RxDocumentClientImpl/deleteUser", Some(""), "deleteUser",
      [Operation("DeleteStoredProcedure"), Put("UserLink", userLink)], true, SubscribeCancelTerminateError))
  }

  function ReadDatabases(): (r: Result<Instrumented, Failure>)
    ensures r.Ok? && r.value.params == Some(Descriptor(Some(""), "readDatabases"))
  {
    Ok(Site("RxDocumentClientImpl/readDatabases", Some(""), "readDatabases",
      [Operation("ReadDatabases")], true, SubscribeCancelTerminateError))
  }

  /** Builds no attribute map at all. */
  function ReadOffers(): (r: Result<Instrumented, Failure>)
    ensures r.Ok? && r.value.params == Some(Descriptor(Some(""), "readOffers"))
    ensures r.Ok? && r.value.writes == [] && !r.value.attached && r.value.wiring == SubscribeCancelCompleteError
  {
    Ok(Site("RxDocumentClientImpl/readOffers", Some(""), "readOffers", [], false, SubscribeCancelCompleteError))
  }

  function ReadUser(userLink: Option<string>): (r: Result<Instrumented, Failure>)
    ensures r.Ok? && r.value.params == Some(Descriptor(Some(""), "readUser"))
  {
    Ok(Site("RxDocumentClientImpl/readUser", Some(""), "readUser",
      [Operation("readUser"), Put("UserLink", userLink)], true, SubscribeCancelTerminateError))
  }

  function ReplaceUser(user: Option<User>): (r: Result<Instrumented, Failure>)
    ensures r.Ok? && r.value.params == Some(Descriptor(Some(""), "replaceUser"))
  {
    Ok(Site("RxDocumentClientImpl/replaceUser", Some(""), "replaceUser",
      [Operation("ReplaceUser"), PutUser(user)], true, SubscribeCancelTerminateError))
  }

  /** Records its operation as `UpsertStoredProcedure`. */
  function UpsertUser(databaseLink: Option<string>, user: Option<User>): (r: Result<Instrumented, Failure>)
    ensures r.Ok? && r.value.params == Some(Descriptor(Some(""), "upsertUser"))
  {
    Ok(Site("RxDocumentClientImpl/upsertUser", Some(""), "upsertUser",
      [Operation("UpsertStoredProcedure"), Put("DatabaseLink", databaseLink), PutUser(user)], true, SubscribeCancelTerminateError))
  }

  // ---------------------------------------------------------------------------
  // Query sites
  // ---------------------------------------------------------------------------

  /** The `SqlQuerySpec` overload: the one query site that never calls `setAttributes`. */
  function QueryCollectionsSpec(databaseLink: Option<string>, querySpec: Option<SqlQuerySpec>, parse: ParseSql): (r: Result<Instrumented, Failure>)
    ensures r.Err? <==> querySpec.None? || parse(querySpec.value.queryText).Err?
    ensures r.Ok? ==> r.value.params == QueryDescriptor(parse(querySpec.value.queryText).value, querySpec.value.queryText)
    ensures r.Ok? ==> Attached(r.value) == None
  {
    QuerySite([Operation("QueryCollections"), Put("DatabaseLink", databaseLink)], querySpec, parse, false)
  }

  /** The `String` overload: the text is the query itself, so a null query is parsed rather than thrown on. */
  function QueryCollectionsText(databaseLink: Option<string>, query: Option<string>, parse: ParseSql): (r: Result<Instrumented, Failure>)
    ensures r.Err? <==> parse(query).Err?
    ensures r.Ok? ==> r.value.params == QueryDescriptor(parse(query).value, query)
    ensures r.Ok? ==> r.value.attached && r.value.wiring == SubscribeCancelCompleteError
  {
    QuerySite([Operation("QueryCollections"), Put("DatabaseLink", databaseLink)], Some(SqlQuerySpec(query)), parse, true)
  }

  function QueryConflicts(collectionLink: Option<string>, querySpec: Option<SqlQuerySpec>, parse: ParseSql): (r: Result<Instrumented, Failure>)
    ensures r.Err? <==> querySpec.None? || parse(querySpec.value.queryText).Err?
    ensures r.Ok? ==> r.value.params == QueryDescriptor(parse(querySpec.value.queryText).value, querySpec.value.queryText)
  {
    QuerySite([Operation("QueryConflicts"), Put("CollectionLink", collectionLink)], querySpec, parse, true)
  }

  function QueryDatabases(querySpec: Option<SqlQuerySpec>, parse: ParseSql): (r: Result<Instrumented, Failure>)
    ensures r.Err? <==> querySpec.None? || parse(querySpec.value.queryText).Err?
    ensures r.Ok? ==> r.value.params == QueryDescriptor(parse(querySpec.value.queryText).value, querySpec.value.queryText)
  {
    QuerySite([Operation("QueryDatabases")], querySpec, parse, true)
  }

  function QueryDocuments(collectionLink: Option<string>, querySpec: Option<SqlQuerySpec>, parse: ParseSql): (r: Result<Instrumented, Failure>)
    ensures r.Err? <==> querySpec.None? || parse(querySpec.value.queryText).Err?
    ensures r.Ok? ==> r.value.params == QueryDescriptor(parse(querySpec.value.queryText).value, querySpec.value.queryText)
  {
    QuerySite([Operation("QueryDocuments")], querySpec, parse, true)
  }

  function QueryOffers(querySpec: Option<SqlQuerySpec>, parse: ParseSql): (r: Result<Instrumented, Failure>)
    ensures r.Err? <==> querySpec.None? || parse(querySpec.value.queryText).Err?
    ensures r.Ok? ==> r.value.params == QueryDescriptor(parse(querySpec.value.queryText).value, querySpec.value.queryText)
  {
    QuerySite([Operation("QueryOffers")], querySpec, parse, true)
  }

  function QueryStoredProcedures(collectionLink: Option<string>, querySpec: Option<SqlQuerySpec>, parse: ParseSql): (r: Result<Instrumented, Failure>)
    ensures r.Err? <==> querySpec.None? || parse(querySpec.value.queryText).Err?
    ensures r.Ok? ==> r.value.params == QueryDescriptor(parse(querySpec.value.queryText).value, querySpec.value.queryText)
  {
    QuerySite([Operation("QueryStoredProcedures")], querySpec, parse, true)
  }

  function QueryUsers(databaseLink: Option<string>, querySpec: Option<SqlQuerySpec>, parse: ParseSql): (r: Result<Instrumented, Failure>)
    ensures r.Err? <==> querySpec.None? || parse(querySpec.value.queryText).Err?
    ensures r.Ok? ==> r.value.params == QueryDescriptor(parse(querySpec.value.queryText).value, querySpec.value.queryText)
  {
    QuerySite([Operation("QueryUsers")], querySpec, parse, true)
  }

  // ---------------------------------------------------------------------------
  // readMany
  // ---------------------------------------------------------------------------

  /** A `Pair<String, PartitionKey>` of the item key list. */
  datatype ItemKeyPair = ItemKeyPair(id: Option<string>, partitionKey: Option<PartitionKey>)

  /** `"PartitionKey-" + id`: Java renders a null id as `null`. */
  function PartitionKeyAttribute(id: Option<string>): string {
    "PartitionKey-" + (if id.None? then "null" else id.value)
  }

  /** The writes of the loop over the item key list; a null pair or a null partition key throws. */
  function PairWrites(pairs: seq<Option<ItemKeyPair>>): (r: Result<seq<AttributeWrite>, Failure>)
    ensures r.Err? <==> exists i :: 0 <= i < |pairs| && (pairs[i].None? || pairs[i].value.partitionKey.None?)
    ensures r.Ok? ==> |r.value| == |pairs|
    ensures r.Ok? ==> forall i :: 0 <= i < |pairs| ==>
      r.value[i] == Put(PartitionKeyAttribute(pairs[i].value.id), Some(pairs[i].value.partitionKey.value.text))
    decreases |pairs|
  {
    if pairs == [] then Ok([])
    else
      var pair :- Deref(pairs[0]);
      var pk :- Deref(pair.partitionKey);
      var rest :- PairWrites(pairs[1..]);
      Ok([Put(PartitionKeyAttribute(pair.id), Some(pk.text))] + rest)
  }

  function ReadMany(itemKeyList: Option<seq<Option<ItemKeyPair>>>, collectionLink: Option<string>, klass: Option<JavaClass>): (r: Result<Instrumented, Failure>)
    ensures r.Err? <==> itemKeyList.None? || PairWrites(itemKeyList.value).Err? || klass.None? || LinkFails(collectionLink)
    ensures r.Ok? ==> r.value.params == Some(Descriptor(Some(LinkId(collectionLink.value)), "readMany"))
    ensures r.Ok? ==>
      r.value.writes == [Operation("ReadMany"), Put("CollectionsLink", collectionLink)]
                        + PairWrites(itemKeyList.value).value + [Put("Class", Some(klass.value.simpleName))]
  {
    var pairs :- Deref(itemKeyList);
    var loop :- PairWrites(pairs);
    var k :- Deref(klass);
    LinkSite("RxDocumentClientImpl/readMany", collectionLink, "readMany",
      [Operation("ReadMany"), Put("CollectionsLink", collectionLink)] + loop + [Put("Class", Some(k.simpleName))],
      true, SubscribeCancelTerminateError)
  }

  /**
   * The reference reading of the loop: the partition key of the last pair whose
   * id renders as `id`, if any.
   */
  function LastPartitionKey(pairs: seq<Option<ItemKeyPair>>, id: string): Option<string>
    decreases |pairs|
  {
    if pairs == [] then None
    else
      var last := pairs[|pairs| - 1];
      if last.Some? && last.value.partitionKey.Some? && PartitionKeyAttribute(last.value.id) == "PartitionKey-" + id
      then Some(last.value.partitionKey.value.text)
      else LastPartitionKey(pairs[..|pairs| - 1], id)
  }

  /** The loop's writes leave, under each `PartitionKey-<id>`, the key of the last pair with that id. */
  lemma {:induction false} PairEntries(pairs: seq<Option<ItemKeyPair>>, id: string)
    requires PairWrites(pairs).Ok?
    ensures LastFor(AllEntries(PairWrites(pairs).value), "PartitionKey-" + id) == LastPartitionKey(pairs, id)
    decreases |pairs|
  {
    if pairs != [] {
      var n := |pairs|;
      var init := pairs[..n - 1];
      assert PairWrites(init).Ok? by {
        forall i | 0 <= i < |init|
          ensures init[i].Some? && init[i].value.partitionKey.Some?
        {
          assert init[i] == pairs[i];
        }
      }
      PairEntries(init, id);
      PairWritesSnoc(pairs);
      var wi := PairWrites(init).value;
      var pair := pairs[n - 1].value;
      var key := PartitionKeyAttribute(pair.id);
      var last := Put(key, Some(pair.partitionKey.value.text));
      AllEntriesAppend(wi, [last]);
      assert AllEntries([last]) == [(Some(key), Some(pair.partitionKey.value.text))] by {
        assert [last][1..] == [];
      }
      assert key[0] == 'P';
      LastForSingle(key, pair.partitionKey.value.text, "PartitionKey-" + id);
      LastForAppend(AllEntries(wi), AllEntries([last]), "PartitionKey-" + id);
    }
  }

  /** The loop's writes are those of all pairs but the last, then the last pair's write. */
  lemma PairWritesSnoc(pairs: seq<Option<ItemKeyPair>>)
    requires pairs != [] && PairWrites(pairs).Ok? && PairWrites(pairs[..|pairs| - 1]).Ok?
    ensures var pair := pairs[|pairs| - 1].value;
      PairWrites(pairs).value == PairWrites(pairs[..|pairs| - 1]).value
        + [Put(PartitionKeyAttribute(pair.id), Some(pair.partitionKey.value.text))]
  {
    var n := |pairs|;
    var w := PairWrites(pairs).value;
    var pair := pairs[n - 1].value;
    var wi := PairWrites(pairs[..n - 1]).value;
    var v := wi + [Put(PartitionKeyAttribute(pair.id), Some(pair.partitionKey.value.text))];
    assert |w| == |v|;
    forall i | 0 <= i < n
      ensures w[i] == v[i]
    {
      if i < n - 1 {
        assert pairs[..n - 1][i] == pairs[i];
      }
    }
  }

  /** `"PartitionKey-" + id` is never one of the fixed keys of the site. */
  lemma PartitionKeyIsNotFixed(id: string, k: string)
    requires k in {"Operation", "CollectionsLink", "Class"}
    ensures k != "PartitionKey-" + id
  {
    assert ("PartitionKey-" + id)[0] == 'P';
  }

  /** Around the loop, the site writes only keys that no pair can produce. */
  lemma ReadManyLastFor(pairs: seq<Option<ItemKeyPair>>, collectionLink: Option<string>, className: string, id: string)
    requires PairWrites(pairs).Ok?
    ensures var writes := [Operation("ReadMany"), Put("CollectionsLink", collectionLink)]
                          + PairWrites(pairs).value + [Put("Class", Some(className))];
      LastFor(AllEntries(writes), "PartitionKey-" + id) == LastPartitionKey(pairs, id)
  {
    var k := "PartitionKey-" + id;
    var loop := PairWrites(pairs).value;
    var head := [Operation("ReadMany"), Put("CollectionsLink", collectionLink)];
    var tail := [Put("Class", Some(className))];
    assert head + loop + tail == head + (loop + tail);
    AllEntriesAppend(head, loop + tail);
    AllEntriesAppend(loop, tail);
    PartitionKeyIsNotFixed(id, "Operation");
    PartitionKeyIsNotFixed(id, "CollectionsLink");
    PartitionKeyIsNotFixed(id, "Class");
    PutKeys("Operation", Some("ReadMany"));
    PutKeys("CollectionsLink", collectionLink);
    PutKeys("Class", Some(className));
    UnwrittenKey(head, k);
    UnwrittenKey(tail, k);
    PairEntries(pairs, id);
    LastForAppend(AllEntries(loop), AllEntries(tail), k);
    LastForAppend(AllEntries(head), AllEntries(loop + tail), k);
  }

  /**
   * The attribute map of `readMany` holds `PartitionKey-<id>` exactly for the
   * ids of the list, with the partition key of the LAST pair carrying that id:
   * a later duplicate overwrites an earlier one, and a null id is recorded
   * under `PartitionKey-null`.
   */
  lemma ReadManyPartitionKeys(itemKeyList: Option<seq<Option<ItemKeyPair>>>, collectionLink: Option<string>, klass: Option<JavaClass>, id: string)
    requires ReadMany(itemKeyList, collectionLink, klass).Ok?
    ensures var m := Filled(ReadMany(itemKeyList, collectionLink, klass).value.writes);
      ("PartitionKey-" + id in m <==> LastPartitionKey(itemKeyList.value, id).Some?) &&
      ("PartitionKey-" + id in m ==> m["PartitionKey-" + id] == LastPartitionKey(itemKeyList.value, id).value)
  {
    var writes := ReadMany(itemKeyList, collectionLink, klass).value.writes;
    assert writes == [Operation("ReadMany"), Put("CollectionsLink", collectionLink)]
                     + PairWrites(itemKeyList.value).value + [Put("Class", Some(klass.value.simpleName))];
    ReadManyLastFor(itemKeyList.value, collectionLink, klass.value.simpleName, id);
    FilledKey(writes, "PartitionKey-" + id);
  }

  /** Two pairs for the same id and one with a null id: the later duplicate wins, and the null id reads `null`. */
  lemma ReadManyDuplicateAndNullIds(first: PartitionKey, nullId: PartitionKey, second: PartitionKey, collectionLink: string, klass: JavaClass)
    requires !LinkFails(Some(collectionLink))
    ensures var r := ReadMany(Some([Some(ItemKeyPair(Some("a"), Some(first))), Some(ItemKeyPair(None, Some(nullId))),
                                    Some(ItemKeyPair(Some("a"), Some(second)))]), Some(collectionLink), Some(klass));
      r.Ok? && "PartitionKey-a" in Filled(r.value.writes) && Filled(r.value.writes)["PartitionKey-a"] == second.text
      && "PartitionKey-null" in Filled(r.value.writes) && Filled(r.value.writes)["PartitionKey-null"] == nullId.text
  {
    var pairs := [Some(ItemKeyPair(Some("a"), Some(first))), Some(ItemKeyPair(None, Some(nullId))), Some(ItemKeyPair(Some("a"), Some(second)))];
    assert PairWrites(pairs).Ok?;
    ReadManyPartitionKeys(Some(pairs), Some(collectionLink), Some(klass), "a");
    ReadManyPartitionKeys(Some(pairs), Some(collectionLink), Some(klass), "null");
    assert LastPartitionKey(pairs, "a") == Some(second.text);
    assert "PartitionKey-" + "a" == "PartitionKey-a";
    assert "PartitionKey-" + "null" == "PartitionKey-null";
    assert LastPartitionKey(pairs, "null") == Some(nullId.text) by {
      assert PartitionKeyAttribute(Some("a")) != "PartitionKey-" + "null" by {
        assert PartitionKeyAttribute(Some("a"))[13] == 'a';
      }
      assert pairs[..2][|pairs[..2]| - 1] == pairs[1];
    }
  }

  // ---------------------------------------------------------------------------
  // Operation labels that do not match their method
  // ---------------------------------------------------------------------------

  /** The first write is `Operation`, and nothing after it writes that key again. */
  lemma RecordsOperation(writes: seq<AttributeWrite>, name: string)
    requires |writes| > 0 && writes[0] == Operation(name)
    requires forall j :: 0 < j < |writes| ==> "Operation" !in KeysOf(writes[j])
    ensures "Operation" in Filled(writes) && Filled(writes)["Operation"] == name
  {
    FilledAt(writes, 0, "Operation", name);
  }

  /** `deleteUser` reports the operation `DeleteStoredProcedure`. */
  lemma DeleteUserRecordsDeleteStoredProcedure(userLink: Option<string>)
    ensures var m := Filled(DeleteUser(userLink).value.writes);
      "Operation" in m && m["Operation"] == "DeleteStoredProcedure"
  {
    PutKeys("UserLink", userLink);
    RecordsOperation(DeleteUser(userLink).value.writes, "DeleteStoredProcedure");
  }

  /** `readOffer` and `readStoredProcedure` report the operation `ReadMany`. */
  lemma ReadsRecordReadMany(offerLink: Option<string>, storedProcedureLink: Option<string>)
    requires !LinkFails(offerLink) && !LinkFails(storedProcedureLink)
    ensures var m := Filled(ReadOffer(offerLink).value.writes);
      "Operation" in m && m["Operation"] == "ReadMany"
    ensures var m := Filled(ReadStoredProcedure(storedProcedureLink).value.writes);
      "Operation" in m && m["Operation"] == "ReadMany"
  {
    PutKeys("OfferLink", offerLink);
    RecordsOperation(ReadOffer(offerLink).value.writes, "ReadMany");
    PutKeys("StoredProcedureLink", storedProcedureLink);
    RecordsOperation(ReadStoredProcedure(storedProcedureLink).value.writes, "ReadMany");
  }

  /** `upsertUser` reports the operation `UpsertStoredProcedure`, whatever the user. */
  lemma UpsertUserRecordsUpsertStoredProcedure(databaseLink: Option<string>, user: Option<User>)
    ensures var m := Filled(UpsertUser(databaseLink, user).value.writes);
      "Operation" in m && m["Operation"] == "UpsertStoredProcedure"
  {
    PutKeys("DatabaseLink", databaseLink);
    NotKeyOf(PutUser(user), "Operation");
    RecordsOperation(UpsertUser(databaseLink, user).value.writes, "UpsertStoredProcedure");
  }

  // ---------------------------------------------------------------------------
  // Whole calls: the site, its hooks, and what the agent is told
  // ---------------------------------------------------------------------------

  /**
   * `deleteDocument` subscribed and then failing: the terminate hook closes the
   * span with its descriptor and attributes, and the error consumer then
   * notices the error; its own `run` finds the segment already closed.
   */
  lemma DeleteDocumentFails(documentLink: string, transaction: Transaction, log: seq<Event>, e: Throwable)
    requires !LinkFails(Some(documentLink))
    ensures var site := DeleteDocument(Some(documentLink)).value;
      var s := Count(log, AnyStart);
      Replay(Hooks(site.wiring), [Subscribe, Error(e)], Config(Runnable(site, Some(transaction)), log)).log ==
        log + [Start(s, "RxDocumentClientImpl/deleteDocument", transaction),
               ReportExternal(s, Descriptor(Some(LinkId(documentLink)), "deleteDocument")),
               AddAttrs(s, Filled(site.writes)),
               End(s),
               NoticeError(e)]
  {
    var site := DeleteDocument(Some(documentLink)).value;
    var r := Runnable(site, Some(transaction));
    assert site.wiring == SubscribeCancelTerminateError && site.attached;
    assert Opens(r);
    assert r.params == Some(Descriptor(Some(LinkId(documentLink)), "deleteDocument"));
    assert r.attributes == Some(Filled(site.writes));
    ErrorClosesThenNotices(site.wiring, r, log, e);
  }

  /**
   * A query that fails after subscribing: the only hook that sees the error is
   * the error consumer, so the error is noticed BEFORE the segment is closed.
   */
  lemma QueryFails(collectionLink: Option<string>, query: string, statement: CosmosUtils.ParsedStatement,
                   transaction: Transaction, log: seq<Event>, e: Throwable)
    ensures var site := QueryDocuments(collectionLink, Some(SqlQuerySpec(Some(query))), q => Ok(Some(statement))).value;
      var s := Count(log, AnyStart);
      Replay(Hooks(site.wiring), [Subscribe, Error(e)], Config(Runnable(site, Some(transaction)), log)).log ==
        log + [Start(s, QUERY_SEGMENT, transaction),
               NoticeError(e),
               ReportExternal(s, DatastoreParameters("CosmosDB", Some(statement.model), Some(statement.operation), SlowQuery(Some(query)))),
               AddAttrs(s, Filled(site.writes)),
               End(s)]
  {
    var site := QueryDocuments(collectionLink, Some(SqlQuerySpec(Some(query))), q => Ok(Some(statement))).value;
    var r := Runnable(site, Some(transaction));
    assert site.wiring == SubscribeCancelCompleteError && site.attached;
    assert Opens(r);
    assert r.params == Some(DatastoreParameters("CosmosDB", Some(statement.model), Some(statement.operation), SlowQuery(Some(query))));
    assert r.attributes == Some(Filled(site.writes));
    ErrorNoticesThenCloses(r, log, e);
  }

  /**
   * The descriptor of a query once the parser statics are initialised: the
   * statement the database service's parser gives for the text, with the text
   * as the slow query; no descriptor when the parser recognises nothing.
   */
  lemma QueryWithParser(st: CosmosUtils.ParserState, service: Option<CosmosUtils.DatabaseService>,
                        collectionLink: Option<string>, querySpec: SqlQuerySpec, parser: CosmosUtils.StatementParser)
    requires st.initialized && st.parser == Some(parser)
    ensures var r := QueryDocuments(collectionLink, Some(querySpec), q => CosmosUtils.ParseSqlSpec(st, q, service).1);
      var statement := parser(querySpec.queryText);
      && r.Ok?
      && (r.value.params.Some? <==> statement.Some?)
      && (statement.Some? ==>
            r.value.params.value == DatastoreParameters("CosmosDB", Some(statement.value.model),
                                                        Some(statement.value.operation), SlowQuery(querySpec.queryText)))
  {
  }

  /**
   * Before the statics are initialised and with no database service, the
   * parser returns null: the query still gets a span, with no descriptor.
   */
  lemma QueryWithoutService(st: CosmosUtils.ParserState, collectionLink: Option<string>, querySpec: SqlQuerySpec)
    requires !st.initialized
    ensures var r := QueryDocuments(collectionLink, Some(querySpec), q => CosmosUtils.ParseSqlSpec(st, q, None).1);
      r.Ok? && r.value.params.None?
  {
  }

  /** A service whose parser is missing makes `parseSQL`, and so the query site, throw. */
  lemma QueryWithNullParser(st: CosmosUtils.ParserState, collectionLink: Option<string>, querySpec: SqlQuerySpec)
    requires !st.initialized
    ensures var service := Some(CosmosUtils.DatabaseService(None));
      QueryDocuments(collectionLink, Some(querySpec), q => CosmosUtils.ParseSqlSpec(st, q, service).1)
        == Err(NullPointerException)
  {
  }
}
