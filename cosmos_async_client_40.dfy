/**
 * The call site the 4.0 instrumentation module weaves into
 * `CosmosAsyncClient`.
 */
module CosmosAsyncClient40 {
  import opened Wrappers
  import opened JavaLang
  import opened Signals
  import opened Interceptor

  /** A `CosmosAsyncDatabase`, known by what its `getId()` returns. */
  datatype AsyncDatabase = AsyncDatabase(id: Option<string>)

  /** Reports itself as `createContainerIfNotExists`, under the container's segment name. */
  function CreateDatabaseIfNotExistsInternal(database: Option<AsyncDatabase>): (r: Result<Instrumented, Failure>)
    ensures r.Err? <==> database.None?
    ensures r.Ok? ==> r.value.params == Some(Descriptor(database.value.id, "createContainerIfNotExists"))
    ensures r.Ok? ==> r.value.segmentName == "CosmosAsyncContainer/createContainerIfNotExists"
    ensures r.Ok? ==> Attached(r.value) == None && r.value.wiring == SubscribeCancelTerminateTwiceError
  {
    var d :- Deref(database);
    Ok(Site("CosmosAsyncContainer/createContainerIfNotExists", d.id, "createContainerIfNotExists", [], false,
      SubscribeCancelTerminateTwiceError))
  }
}
