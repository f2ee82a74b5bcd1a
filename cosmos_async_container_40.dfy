/**
 * The call sites the 4.0 instrumentation module weaves into
 * `CosmosAsyncContainer`. The container is known by what its `getId()` and
 * `getLink()` return at the call.
 */
module CosmosAsyncContainer40 {
  import opened Wrappers
  import opened JavaLang
  import opened Utils
  import opened Signals
  import opened Interceptor
  import CosmosUtils

  /** A container site, named `CosmosAsyncContainer/<operation>`, with the 4.0 hook order. */
  function ContainerSite(segmentName: string, operation: string, collection: string, writes: seq<AttributeWrite>, attached: bool): Instrumented {
    Site(segmentName, Some(collection), operation, writes, attached, SubscribeTerminateCancelError)
  }

  /** The collection of an item site: the container id, else the item's class name, else empty. */
  function ItemCollection(containerId: Option<string>, itemClass: Option<JavaClass>): (r: string)
    ensures containerId.Some? && containerId.value != "" ==> r == containerId.value
    ensures (containerId.None? || containerId.value == "") && itemClass.Some? ==> r == itemClass.value.simpleName
    ensures (containerId.None? || containerId.value == "") && itemClass.None? ==> r == ""
  {
    IdOrElse(containerId, if itemClass.Some? then itemClass.value.simpleName else "")
  }

  /** The class of a possibly null object, as `item != null ? item.getClass() : null` reads it. */
  function ClassOf(item: Option<JavaObject>): Option<JavaClass> {
    if item.Some? then Some(item.value.javaClass) else None
  }

  /** Never throws: a null item falls back to an empty collection name. */
  function CreateItem(containerId: Option<string>, item: Option<JavaObject>): (r: Result<Instrumented, Failure>)
    ensures r.Ok? && r.value.params == Some(Descriptor(Some(ItemCollection(containerId, ClassOf(item))), "createItem"))
    ensures r.Ok? && Attached(r.value) == None
    ensures r.Ok? ==> r.value.segmentName == "CosmosAsyncContainer/createItem" && r.value.wiring == SubscribeTerminateCancelError
  {
    Ok(ContainerSite("CosmosAsyncContainer/createItem", "createItem", ItemCollection(containerId, ClassOf(item)), [], false))
  }

  /** The empty-name fallback after `getIDFromLink` changes nothing: the name is the link's id either way. */
  function Delete(containerLink: Option<string>): (r: Result<Instrumented, Failure>)
    ensures r.Err? <==> LinkFails(containerLink)
    ensures r.Ok? ==> r.value.params == Some(Descriptor(Some(LinkId(containerLink.value)), "delete"))
    ensures r.Ok? ==> r.value.segmentName == "CosmosAsyncContainer/delete" && r.value.wiring == SubscribeTerminateCancelError
    ensures r.Ok? ==> Attached(r.value) == None
  {
    var id :- CosmosUtils.GetIdFromLink(containerLink);
    Ok(ContainerSite("CosmosAsyncContainer/delete", "delete", IdOrElse(Some(id), ""), [], false))
  }

  /** Adds the partition key twice, around the item id. */
  function DeleteItem(itemId: Option<string>, partitionKey: Option<PartitionKey>, containerLink: Option<string>): (r: Result<Instrumented, Failure>)
    ensures r.Err? <==> LinkFails(containerLink)
    ensures r.Ok? ==> r.value.params == Some(Descriptor(Some(LinkId(containerLink.value)), "deleteItem"))
    ensures r.Ok? ==> r.value.segmentName == "CosmosAsyncContainer/deleteItem" && r.value.wiring == SubscribeTerminateCancelError
  {
    var id :- CosmosUtils.GetIdFromLink(containerLink);
    Ok(ContainerSite("CosmosAsyncContainer/deleteItem", "deleteItem", IdOrElse(Some(id), ""),
      [PutPartitionKey(partitionKey), Put("ItemID", itemId), PutPartitionKey(partitionKey)], true))
  }

  function Read(containerLink: Option<string>): (r: Result<Instrumented, Failure>)
    ensures r.Err? <==> LinkFails(containerLink)
    ensures r.Ok? ==> r.value.params == Some(Descriptor(Some(LinkId(containerLink.value)), "read"))
    ensures r.Ok? ==> r.value.segmentName == "CosmosAsyncContainer/read" && r.value.wiring == SubscribeTerminateCancelError
    ensures r.Ok? ==> Attached(r.value) == None
  {
    var id :- CosmosUtils.GetIdFromLink(containerLink);
    Ok(ContainerSite("CosmosAsyncContainer/read", "read", IdOrElse(Some(id), ""), [], false))
  }

  /** Reads the item class's simple name for the attributes, so a null class throws before the fallback. */
  function ReadItem(itemId: Option<string>, partitionKey: Option<PartitionKey>, itemType: Option<JavaClass>, containerId: Option<string>): (r: Result<Instrumented, Failure>)
    ensures r.Err? <==> itemType.None?
    ensures r.Ok? ==> r.value.params == Some(Descriptor(Some(ItemCollection(containerId, itemType)), "readItem"))
    ensures r.Ok? ==> r.value.segmentName == "CosmosAsyncContainer/readItem" && r.value.wiring == SubscribeTerminateCancelError
  {
    var t :- Deref(itemType);
    Ok(ContainerSite("CosmosAsyncContainer/readItem", "readItem", ItemCollection(containerId, itemType),
      [PutPartitionKey(partitionKey), Put("ItemID", itemId), Put("ItemType", Some(t.simpleName))], true))
  }

  function Replace(containerLink: Option<string>): (r: Result<Instrumented, Failure>)
    ensures r.Err? <==> LinkFails(containerLink)
    ensures r.Ok? ==> r.value.params == Some(Descriptor(Some(LinkId(containerLink.value)), "replace"))
    ensures r.Ok? ==> r.value.segmentName == "CosmosAsyncContainer/replace" && r.value.wiring == SubscribeTerminateCancelError
    ensures r.Ok? ==> Attached(r.value) == None
  {
    var id :- CosmosUtils.GetIdFromLink(containerLink);
    Ok(ContainerSite("CosmosAsyncContainer/replace", "replace", IdOrElse(Some(id), ""), [], false))
  }

  function ReplaceItem(item: Option<JavaObject>, itemId: Option<string>, partitionKey: Option<PartitionKey>, containerId: Option<string>): (r: Result<Instrumented, Failure>)
    ensures r.Err? <==> item.None?
    ensures r.Ok? ==> r.value.params == Some(Descriptor(Some(ItemCollection(containerId, ClassOf(item))), "replaceItem"))
    ensures r.Ok? ==> r.value.segmentName == "CosmosAsyncContainer/replaceItem" && r.value.wiring == SubscribeTerminateCancelError
  {
    var name :- SimpleClassName(item);
    Ok(ContainerSite("CosmosAsyncContainer/replaceItem", "replaceItem", ItemCollection(containerId, ClassOf(item)),
      [PutPartitionKey(partitionKey), Put("ItemID", itemId), Put("ItemType", Some(name))], true))
  }

  function UpsertItem(item: Option<JavaObject>, containerId: Option<string>): (r: Result<Instrumented, Failure>)
    ensures r.Err? <==> item.None?
    ensures r.Ok? ==> r.value.params == Some(Descriptor(Some(ItemCollection(containerId, ClassOf(item))), "upsertItem"))
    ensures r.Ok? ==> r.value.segmentName == "CosmosAsyncContainer/upsertItem" && r.value.wiring == SubscribeTerminateCancelError
  {
    var name :- SimpleClassName(item);
    Ok(ContainerSite("CosmosAsyncContainer/upsertItem", "upsertItem", ItemCollection(containerId, ClassOf(item)), [Put("ItemType", Some(name))], true))
  }

  // ---------------------------------------------------------------------------
  // Properties of these sites
  // ---------------------------------------------------------------------------

  /** The map of `addPartitionKey`, `addAttribute("ItemID", ..)`, `addPartitionKey` with the same key. */
  lemma PartitionKeyTwice(itemId: Option<string>, partitionKey: Option<PartitionKey>)
    ensures var writes := [PutPartitionKey(partitionKey), Put("ItemID", itemId), PutPartitionKey(partitionKey)];
      var m := if itemId.Some? then map["ItemID" := itemId.value] else map[];
      Filled(writes) == Filled(writes[..2]) == if partitionKey.Some? then m["PartitionKey" := partitionKey.value.text] else m
  {
    var w0 := PutPartitionKey(partitionKey);
    var w1 := Put("ItemID", itemId);
    assert [w0, w1, w0] == [w0, w1] + [w0];
    assert [w0, w1, w0][..2] == [w0, w1] == [w0] + [w1];
    assert [w0] == [] + [w0];
    FilledPartitionKey([], partitionKey);
    FilledPut([w0], "ItemID", itemId);
    FilledPartitionKey([w0, w1], partitionKey);
  }

  /**
   * `deleteItem` adds the partition key a second time to no effect: the map is
   * that of one `addPartitionKey` and one `addAttribute`, holding exactly the
   * partition key and the item id, each when non-null.
   */
  lemma DeleteItemAttributes(itemId: Option<string>, partitionKey: Option<PartitionKey>, containerLink: Option<string>)
    requires !LinkFails(containerLink)
    ensures var writes := DeleteItem(itemId, partitionKey, containerLink).value.writes;
      Filled(writes) == Filled(writes[..2])
    ensures var m := if itemId.Some? then map["ItemID" := itemId.value] else map[];
      Attached(DeleteItem(itemId, partitionKey, containerLink).value) ==
        Some(if partitionKey.Some? then m["PartitionKey" := partitionKey.value.text] else m)
  {
    var site := DeleteItem(itemId, partitionKey, containerLink).value;
    assert site.writes == [PutPartitionKey(partitionKey), Put("ItemID", itemId), PutPartitionKey(partitionKey)];
    assert site.attached;
    PartitionKeyTwice(itemId, partitionKey);
  }

  /** The map of `addPartitionKey`, `addAttribute("ItemID", ..)`, `addAttribute("ItemType", ..)`. */
  function ItemMap(itemId: Option<string>, partitionKey: Option<PartitionKey>, typeName: string): Attributes {
    var m := if partitionKey.Some? then map["PartitionKey" := partitionKey.value.text] else map[];
    (if itemId.Some? then m["ItemID" := itemId.value] else m)["ItemType" := typeName]
  }

  /** The three item writes give exactly ItemMap: each key when its value is non-null, nothing else. */
  lemma ItemWrites(itemId: Option<string>, partitionKey: Option<PartitionKey>, typeName: string)
    ensures Filled([PutPartitionKey(partitionKey), Put("ItemID", itemId), Put("ItemType", Some(typeName))]) ==
      ItemMap(itemId, partitionKey, typeName)
  {
    var w0 := PutPartitionKey(partitionKey);
    var w1 := Put("ItemID", itemId);
    assert [w0, w1, Put("ItemType", Some(typeName))] == [w0, w1] + [Put("ItemType", Some(typeName))];
    assert [w0, w1] == [w0] + [w1];
    assert [w0] == [] + [w0];
    FilledPartitionKey([], partitionKey);
    FilledPut([w0], "ItemID", itemId);
    FilledPut([w0, w1], "ItemType", Some(typeName));
  }

  /** `readItem` attaches the partition key and item id when non-null, and the item type's simple name. */
  lemma ReadItemAttributes(itemId: Option<string>, partitionKey: Option<PartitionKey>, itemType: JavaClass, containerId: Option<string>)
    ensures Attached(ReadItem(itemId, partitionKey, Some(itemType), containerId).value) ==
      Some(ItemMap(itemId, partitionKey, itemType.simpleName))
  {
    ItemWrites(itemId, partitionKey, itemType.simpleName);
  }

  /** `replaceItem` attaches the partition key and item id when non-null, and the item's simple class name. */
  lemma ReplaceItemAttributes(item: JavaObject, itemId: Option<string>, partitionKey: Option<PartitionKey>, containerId: Option<string>)
    ensures Attached(ReplaceItem(Some(item), itemId, partitionKey, containerId).value) ==
      Some(ItemMap(itemId, partitionKey, item.javaClass.simpleName))
  {
    ItemWrites(itemId, partitionKey, item.javaClass.simpleName);
  }

  /** `upsertItem` attaches only the item's simple class name. */
  lemma UpsertItemAttributes(item: JavaObject, containerId: Option<string>)
    ensures Attached(UpsertItem(Some(item), containerId).value) == Some(map["ItemType" := item.javaClass.simpleName])
  {
    assert [Put("ItemType", Some(item.javaClass.simpleName))] == [] + [Put("ItemType", Some(item.javaClass.simpleName))];
    FilledPut([], "ItemType", Some(item.javaClass.simpleName));
  }

  /**
   * The `: ""` branch of the item sites' fallback is dead where the item was
   * already dereferenced: when `readItem`, `replaceItem` or `upsertItem`
   * returns, an empty container id gives the class's simple name. Only
   * `createItem`, which never touches its item before, can reach it.
   */
  lemma ItemFallbackNeverEmpty(itemId: Option<string>, partitionKey: Option<PartitionKey>, itemType: Option<JavaClass>,
                               item: Option<JavaObject>, containerId: Option<string>)
    requires containerId.None? || containerId.value == ""
    ensures ReadItem(itemId, partitionKey, itemType, containerId).Ok? ==>
      ReadItem(itemId, partitionKey, itemType, containerId).value.params == Some(Descriptor(Some(itemType.value.simpleName), "readItem"))
    ensures ReplaceItem(item, itemId, partitionKey, containerId).Ok? ==>
      ReplaceItem(item, itemId, partitionKey, containerId).value.params ==
        Some(Descriptor(Some(item.value.javaClass.simpleName), "replaceItem"))
    ensures UpsertItem(item, containerId).Ok? ==>
      UpsertItem(item, containerId).value.params == Some(Descriptor(Some(item.value.javaClass.simpleName), "upsertItem"))
    ensures item.None? ==> CreateItem(containerId, item).value.params == Some(Descriptor(Some(""), "createItem"))
  {
  }
}
