/**
 * The call sites the 4.0 instrumentation module weaves into
 * `CosmosAsyncDatabase`: both register the terminate hook twice.
 */
module CosmosAsyncDatabase40 {
  import opened Wrappers
  import opened JavaLang
  import opened Signals
  import opened Interceptor

  /** `CosmosContainerProperties`, known by its id. */
  datatype ContainerProperties = ContainerProperties(id: Option<string>)

  function CreateContainerIfNotExists(containerProperties: Option<ContainerProperties>): (r: Result<Instrumented, Failure>)
    ensures r.Err? <==> containerProperties.None?
    ensures r.Ok? ==> r.value.params == Some(Descriptor(containerProperties.value.id, "createContainerIfNotExists"))
    ensures r.Ok? ==> r.value.segmentName == "CosmosAsyncContainer/createContainerIfNotExists"
    ensures r.Ok? ==> Attached(r.value) == None && r.value.wiring == SubscribeCancelTerminateTwiceError
  {
    var p :- Deref(containerProperties);
    Ok(Site("CosmosAsyncContainer/createContainerIfNotExists", p.id, "createContainerIfNotExists", [], false,
      SubscribeCancelTerminateTwiceError))
  }

  function CreateContainerIfNotExistsInternal(containerProperties: Option<ContainerProperties>): (r: Result<Instrumented, Failure>)
    ensures r.Err? <==> containerProperties.None?
    ensures r.Ok? ==> r.value.params == Some(Descriptor(containerProperties.value.id, "createContainerIfNotExists"))
    ensures r.Ok? ==> r.value.segmentName == "CosmosAsyncContainer/createContainerIfNotExists"
    ensures r.Ok? ==> Attached(r.value) == None && r.value.wiring == SubscribeCancelTerminateTwiceError
  {
    var p :- Deref(containerProperties);
    Ok(Site("CosmosAsyncContainer/createContainerIfNotExists", p.id, "createContainerIfNotExists", [], false,
      SubscribeCancelTerminateTwiceError))
  }
}
