/**
 * The call site the 4.x instrumentation module weaves into
 * `CosmosAsyncContainer`: `readItem`, hooked on subscribe and terminate only.
 */
module CosmosAsyncContainer4x {
  import opened Wrappers
  import opened JavaLang
  import opened Utils
  import opened Signals
  import opened Interceptor
  import CosmosAsyncContainer40

  /** Like the 4.0 site, but with no cancel hook and no error consumer. */
  function ReadItem(itemId: Option<string>, partitionKey: Option<PartitionKey>, itemType: Option<JavaClass>, containerId: Option<string>): (r: Result<Instrumented, Failure>)
    ensures r.Err? <==> itemType.None?
    ensures r.Ok? ==> r.value.params == Some(Descriptor(Some(CosmosAsyncContainer40.ItemCollection(containerId, itemType)), "readItem"))
    ensures r.Ok? ==> r.value.segmentName == "CosmosAsyncContainer/readItem"
    ensures r.Ok? ==> r.value.wiring == SubscribeTerminate && Hooks(r.value.wiring) == [OnSubscribe, OnTerminate]
  {
    var t :- Deref(itemType);
    Ok(Site("CosmosAsyncContainer/readItem", Some(CosmosAsyncContainer40.ItemCollection(containerId, itemType)), "readItem",
      [PutPartitionKey(partitionKey), Put("ItemID", itemId), Put("ItemType", Some(t.simpleName))], true, SubscribeTerminate))
  }

  /** Attaches the same map as the 4.0 site: partition key and item id when non-null, and the type's simple name. */
  lemma ReadItemAttributes(itemId: Option<string>, partitionKey: Option<PartitionKey>, itemType: JavaClass, containerId: Option<string>)
    ensures Attached(ReadItem(itemId, partitionKey, Some(itemType), containerId).value) ==
      Some(CosmosAsyncContainer40.ItemMap(itemId, partitionKey, itemType.simpleName))
  {
    CosmosAsyncContainer40.ItemWrites(itemId, partitionKey, itemType.simpleName);
  }
}
