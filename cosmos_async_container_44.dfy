/**
 * The call site the 4.4 instrumentation module weaves into
 * `CosmosAsyncContainer`: `deleteItem` by item.
 */
module CosmosAsyncContainer44 {
  import opened Wrappers
  import opened JavaLang
  import opened Signals
  import opened Interceptor
  import CosmosUtils

  /** Ignores the item; names the collection after the container's link and records no attributes. */
  function DeleteItem(containerLink: Option<string>): (r: Result<Instrumented, Failure>)
    ensures r.Err? <==> LinkFails(containerLink)
    ensures r.Ok? ==> r.value.params == Some(Descriptor(Some(LinkId(containerLink.value)), "deleteItem"))
    ensures r.Ok? ==> r.value.segmentName == "CosmosAsyncContainer/deleteItem"
    ensures r.Ok? ==> Attached(r.value) == None && r.value.wiring == SubscribeTerminateCancelError
  {
    var id :- CosmosUtils.GetIdFromLink(containerLink);
    Ok(Site("CosmosAsyncContainer/deleteItem", Some(IdOrElse(Some(id), "")), "deleteItem", [], false, SubscribeTerminateCancelError))
  }
}
