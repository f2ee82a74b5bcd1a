/**
 * Utils: the helpers that fill a call site's attribute map, and the query
 * converter. Every helper ends in `addAttribute`, which writes an entry only
 * when the map, the key and the value are non-null and the key is non-empty.
 */
module Utils {
  import opened Wrappers

  /** A custom-attribute map; a value is kept as the text the agent reports. */
  type Attributes = map<string, string>

  // The Cosmos client's entities, known by the getters the helpers call.

  /** A partition key, known by its `toString()`. */
  datatype PartitionKey = PartitionKey(text: string)

  datatype DocumentCollection = DocumentCollection(id: Option<string>, resourceId: Option<string>, documentsLink: Option<string>)

  datatype Database = Database(id: Option<string>, resourceId: Option<string>, collectionsLink: Option<string>)

  datatype StoredProcedure = StoredProcedure(id: Option<string>, resourceId: Option<string>, eTag: Option<string>)

  datatype User = User(id: Option<string>, resourceId: Option<string>, eTag: Option<string>)

  datatype Document = Document(id: Option<string>, resourceId: Option<string>, eTag: Option<string>)

  datatype Offer = Offer(id: Option<string>, resourceId: Option<string>, offerType: Option<string>, offerVersion: Option<string>)

  /** One `addAttribute(attributes, key, value)` call, by its key and value. */
  type Entry = (Option<string>, Option<string>)

  /** Whether `addAttribute` writes the entry: a non-null, non-empty key and a non-null value. */
  predicate Admissible(e: Entry) {
    e.0.Some? && e.0.value != "" && e.1.Some?
  }

  /** `addAttribute` on a non-null map. */
  function WithAttribute(m: Attributes, e: Entry): Attributes {
    if Admissible(e) then m[e.0.value := e.1.value] else m
  }

  /** Successive `addAttribute` calls, the first one first. */
  function PutAll(m: Attributes, entries: seq<Entry>): Attributes
    decreases |entries|
  {
    if entries == [] then m else PutAll(WithAttribute(m, entries[0]), entries[1..])
  }

  // The calls each helper makes, in source order; none for a null argument.

  function PartitionKeyEntries(pk: Option<PartitionKey>): seq<Entry> {
    match pk
    case None => []
    case Some(k) => [(Some("PartitionKey"), Some(k.text))]
  }

  function DocumentCollectionEntries(c: Option<DocumentCollection>): seq<Entry> {
    match c
    case None => []
    case Some(c) => [
      (Some("DocumentCollection-DocumentsLink"), c.documentsLink),
      (Some("DocumentCollection-Id"), c.id),
      (Some("DocumentCollection-ResouceId"), c.resourceId)]
  }

  function DatabaseEntries(d: Option<Database>): seq<Entry> {
    match d
    case None => []
    case Some(d) => [
      (Some("Database-CollectionsLink"), d.collectionsLink),
      (Some("Database-Id"), d.id),
      (Some("Database-ResourceId"), d.resourceId)]
  }

  function StoredProcedureEntries(sp: Option<StoredProcedure>): seq<Entry> {
    match sp
    case None => []
    case Some(sp) => [
      (Some("StoredProcedure-EntityTag"), sp.eTag),
      (Some("StoredProcedure-Id"), sp.id),
      (Some("StoredProcedure-ResourceId"), sp.resourceId)]
  }

  function UserEntries(u: Option<User>): seq<Entry> {
    match u
    case None => []
    case Some(u) => [
      (Some("User-Id"), u.id),
      (Some("User-EntityTag"), u.eTag),
      (Some("User-ResourceId"), u.resourceId)]
  }

  function DocumentEntries(d: Option<Document>): seq<Entry> {
    match d
    case None => []
    case Some(d) => [
      (Some("Document-Id"), d.id),
      (Some("Document-EntityTag"), d.eTag),
      (Some("Document-ResourceId"), d.resourceId)]
  }

  /** `addOffer` writes "Offer-Id" twice. */
  function OfferEntries(o: Option<Offer>): seq<Entry> {
    match o
    case None => []
    case Some(o) => [
      (Some("Offer-Id"), o.id),
      (Some("Offer-OfferType"), o.offerType),
      (Some("Offer-OfferVersion"), o.offerVersion),
      (Some("Offer-Id"), o.id),
      (Some("Offer-ResourceId"), o.resourceId)]
  }

  /** The converter's `toRawQueryString`: the raw query is passed through. */
  function ToRawQueryString(rawQuery: Option<string>): Option<string> {
    rawQuery
  }

  // ---------------------------------------------------------------------------
  // The reference definition of a sequence of writes: the last admissible
  // write of a key wins, and keys nobody writes keep their old entry.
  // ---------------------------------------------------------------------------

  /** The value of the last admissible entry for key k, if any. */
  function LastFor(entries: seq<Entry>, k: string): Option<string>
    decreases |entries|
  {
    if entries == [] then None
    else match LastFor(entries[1..], k)
      case Some(v) => Some(v)
      case None => if Admissible(entries[0]) && entries[0].0.value == k then entries[0].1 else None
  }

  /**
   * A sequence of `addAttribute` calls holds, for each key, the value of the
   * last admissible call for that key, and otherwise the old entry; in
   * particular it touches only the keys it writes.
   */
  lemma {:induction false} PutAllSpec(m: Attributes, entries: seq<Entry>)
    ensures forall k :: k in PutAll(m, entries) <==> (k in m || LastFor(entries, k).Some?)
    ensures forall k :: k in PutAll(m, entries) ==>
      PutAll(m, entries)[k] == (if LastFor(entries, k).Some? then LastFor(entries, k).value else m[k])
    decreases |entries|
  {
    if entries != [] {
      PutAllSpec(WithAttribute(m, entries[0]), entries[1..]);
    }
  }

  /** Two maps that agree on every key are equal. */
  lemma MapsEqual(a: Attributes, b: Attributes)
    requires forall k :: k in a <==> k in b
    requires forall k :: k in a ==> a[k] == b[k]
    ensures a == b
  {
  }

  /** Writes with the same last value per key give the same map. */
  lemma SameLastSamePut(m: Attributes, es1: seq<Entry>, es2: seq<Entry>)
    requires forall k :: LastFor(es1, k) == LastFor(es2, k)
    ensures PutAll(m, es1) == PutAll(m, es2)
  {
    PutAllSpec(m, es1);
    PutAllSpec(m, es2);
    MapsEqual(PutAll(m, es1), PutAll(m, es2));
  }

  /** Applying the same writes twice gives the same map as applying them once. */
  lemma PutAllIdempotent(m: Attributes, entries: seq<Entry>)
    ensures PutAll(PutAll(m, entries), entries) == PutAll(m, entries)
  {
    var once := PutAll(m, entries);
    PutAllSpec(m, entries);
    PutAllSpec(once, entries);
    MapsEqual(PutAll(once, entries), once);
  }

  /** `addAttribute` writes exactly the admissible entry and leaves every other key alone. */
  lemma WithAttributeSpec(m: Attributes, key: Option<string>, value: Option<string>)
    ensures Admissible((key, value)) ==>
      key.value in WithAttribute(m, (key, value)) && WithAttribute(m, (key, value))[key.value] == value.value
    ensures !Admissible((key, value)) ==> WithAttribute(m, (key, value)) == m
    ensures forall k :: (key.None? || k != key.value) ==>
      (k in WithAttribute(m, (key, value)) <==> k in m) &&
      (k in m ==> WithAttribute(m, (key, value))[k] == m[k])
  {
  }

  /** `addPartitionKey(null)` adds nothing; a key adds exactly one "PartitionKey" entry, its text. */
  lemma PartitionKeySpec(m: Attributes, pk: Option<PartitionKey>)
    ensures pk.None? ==> PutAll(m, PartitionKeyEntries(pk)) == m
    ensures pk.Some? ==> PutAll(m, PartitionKeyEntries(pk)) == m["PartitionKey" := pk.value.text]
  {
    if pk.Some? {
      assert PartitionKeyEntries(pk)[1..] == [];
    }
  }

  /** The keys an entity helper may write. */
  function EntityKeys(entries: seq<Entry>): set<string> {
    set i | 0 <= i < |entries| && entries[i].0.Some? :: entries[i].0.value
  }

  lemma {:induction false} LastForInKeys(entries: seq<Entry>, k: string)
    ensures LastFor(entries, k).Some? ==> k in EntityKeys(entries)
    ensures LastFor(entries, k).Some? <==> exists i :: 0 <= i < |entries| && Admissible(entries[i]) && entries[i].0.value == k
    decreases |entries|
  {
    if entries != [] {
      LastForInKeys(entries[1..], k);
      if LastFor(entries[1..], k).Some? {
        var i :| 0 <= i < |entries[1..]| && Admissible(entries[1..][i]) && entries[1..][i].0.value == k;
        assert entries[i + 1] == entries[1..][i];
      }
      if exists i :: 0 <= i < |entries| && Admissible(entries[i]) && entries[i].0.value == k {
        var i :| 0 <= i < |entries| && Admissible(entries[i]) && entries[i].0.value == k;
        if i > 0 {
          assert entries[1..][i - 1] == entries[i];
        }
      }
    }
  }

  /**
   * An entity helper on a null entity leaves the map unchanged; otherwise the
   * map gains exactly those of its named keys whose values are non-null, and
   * every other key is untouched.
   */
  lemma EntityHelperSpec(m: Attributes, entries: seq<Entry>)
    ensures entries == [] ==> PutAll(m, entries) == m
    ensures forall k :: k !in EntityKeys(entries) ==>
      (k in PutAll(m, entries) <==> k in m) && (k in m ==> PutAll(m, entries)[k] == m[k])
    ensures forall k :: k in PutAll(m, entries) <==>
      (k in m || exists i :: 0 <= i < |entries| && Admissible(entries[i]) && entries[i].0.value == k)
  {
    PutAllSpec(m, entries);
    forall k
      ensures LastFor(entries, k).Some? ==> k in EntityKeys(entries)
      ensures LastFor(entries, k).Some? <==> exists i :: 0 <= i < |entries| && Admissible(entries[i]) && entries[i].0.value == k
    {
      LastForInKeys(entries, k);
    }
  }

  /** The helpers' keys: three fixed names each (four for an offer), all non-empty. */
  lemma HelperKeys(c: DocumentCollection, d: Database, sp: StoredProcedure, u: User, doc: Document, o: Offer)
    ensures EntityKeys(DocumentCollectionEntries(Some(c))) ==
      {"DocumentCollection-DocumentsLink", "DocumentCollection-Id", "DocumentCollection-ResouceId"}
    ensures EntityKeys(DatabaseEntries(Some(d))) == {"Database-CollectionsLink", "Database-Id", "Database-ResourceId"}
    ensures EntityKeys(StoredProcedureEntries(Some(sp))) ==
      {"StoredProcedure-EntityTag", "StoredProcedure-Id", "StoredProcedure-ResourceId"}
    ensures EntityKeys(UserEntries(Some(u))) == {"User-Id", "User-EntityTag", "User-ResourceId"}
    ensures EntityKeys(DocumentEntries(Some(doc))) == {"Document-Id", "Document-EntityTag", "Document-ResourceId"}
    ensures EntityKeys(OfferEntries(Some(o))) == {"Offer-Id", "Offer-OfferType", "Offer-OfferVersion", "Offer-ResourceId"}
  {
    var es := OfferEntries(Some(o));
    assert es[0].0.value == "Offer-Id" && es[1].0.value == "Offer-OfferType";
    assert es[2].0.value == "Offer-OfferVersion" && es[4].0.value == "Offer-ResourceId";
    var es1 := DocumentCollectionEntries(Some(c));
    assert es1[0].0.value == "DocumentCollection-DocumentsLink" && es1[1].0.value == "DocumentCollection-Id" && es1[2].0.value == "DocumentCollection-ResouceId";
    var es2 := DatabaseEntries(Some(d));
    assert es2[0].0.value == "Database-CollectionsLink" && es2[1].0.value == "Database-Id" && es2[2].0.value == "Database-ResourceId";
    var es3 := StoredProcedureEntries(Some(sp));
    assert es3[0].0.value == "StoredProcedure-EntityTag" && es3[1].0.value == "StoredProcedure-Id" && es3[2].0.value == "StoredProcedure-ResourceId";
    var es4 := UserEntries(Some(u));
    assert es4[0].0.value == "User-Id" && es4[1].0.value == "User-EntityTag" && es4[2].0.value == "User-ResourceId";
    var es5 := DocumentEntries(Some(doc));
    assert es5[0].0.value == "Document-Id" && es5[1].0.value == "Document-EntityTag" && es5[2].0.value == "Document-ResourceId";
  }

  /**
   * `addOffer` writes "Offer-Id" twice with the same value: the map is the
   * one a single write gives, so it holds one such entry.
   */
  lemma OfferIdWrittenOnce(m: Attributes, o: Offer)
    ensures PutAll(m, OfferEntries(Some(o))) == PutAll(m, [
      (Some("Offer-Id"), o.id),
      (Some("Offer-OfferType"), o.offerType),
      (Some("Offer-OfferVersion"), o.offerVersion),
      (Some("Offer-ResourceId"), o.resourceId)])
    ensures o.id.Some? ==>
      "Offer-Id" in PutAll(m, OfferEntries(Some(o))) && PutAll(m, OfferEntries(Some(o)))["Offer-Id"] == o.id.value
  {
    var a, b, c, d := (Some("Offer-Id"), o.id), (Some("Offer-OfferType"), o.offerType),
      (Some("Offer-OfferVersion"), o.offerVersion), (Some("Offer-ResourceId"), o.resourceId);
    var m1 := WithAttribute(WithAttribute(WithAttribute(m, a), b), c);
    PutAllCons(m, a, [b, c, a, d]);
    PutAllCons(WithAttribute(m, a), b, [c, a, d]);
    PutAllCons(WithAttribute(WithAttribute(m, a), b), c, [a, d]);
    PutAllCons(m1, a, [d]);
    PutAllCons(WithAttribute(m1, a), d, []);
    assert OfferEntries(Some(o)) == [a] + [b, c, a, d];
    assert [b, c, a, d] == [b] + [c, a, d] && [c, a, d] == [c] + [a, d];
    assert [a, d] == [a] + [d] && [d] == [d] + [];
    PutAllCons(m, a, [b, c, d]);
    PutAllCons(WithAttribute(m, a), b, [c, d]);
    PutAllCons(WithAttribute(WithAttribute(m, a), b), c, [d]);
    PutAllCons(m1, d, []);
    assert [a, b, c, d] == [a] + [b, c, d] && [b, c, d] == [b] + [c, d] && [c, d] == [c] + [d];
    if Admissible(a) {
      var m0 := m[a.0.value := a.1.value];
      assert m1 == WithAttribute(WithAttribute(m0, b), c);
      assert a.0.value in m1 && m1[a.0.value] == a.1.value;
      assert WithAttribute(m1, a) == m1;
    }
  }

  // ---------------------------------------------------------------------------
  // The helpers as the source runs them, on a map updated in place.
  // ---------------------------------------------------------------------------

  /** A `HashMap<String, Object>` that the helpers fill in place. */
  class AttributeMap {
    var entries: Attributes

    /** `new HashMap<String, Object>()` */
    constructor ()
      ensures entries == map[]
    {
      entries := map[];
    }
  }

  /** `addAttribute(attributes, key, value)`; a null map is left alone. */
  method AddAttribute(attributes: AttributeMap?, key: Option<string>, value: Option<string>)
    modifies attributes
    ensures attributes != null ==> attributes.entries == WithAttribute(old(attributes.entries), (key, value))
  {
    if attributes != null && key.Some? && key.value != "" && value.Some? {
      attributes.entries := attributes.entries[key.value := value.value];
    }
  }

  lemma PutAllCons(m: Attributes, e: Entry, rest: seq<Entry>)
    ensures PutAll(m, [e] + rest) == PutAll(WithAttribute(m, e), rest)
  {
    assert ([e] + rest)[1..] == rest;
  }

  /** Three `addAttribute` calls in a row. */
  method AddThree(attributes: AttributeMap?, es: seq<Entry>)
    requires |es| == 3
    modifies attributes
    ensures attributes != null ==> attributes.entries == PutAll(old(attributes.entries), es)
  {
    AddAttribute(attributes, es[0].0, es[0].1);
    AddAttribute(attributes, es[1].0, es[1].1);
    AddAttribute(attributes, es[2].0, es[2].1);
    if attributes != null {
      assert es == [es[0]] + ([es[1]] + ([es[2]] + []));
      PutAllCons(old(attributes.entries), es[0], [es[1]] + ([es[2]] + []));
      PutAllCons(WithAttribute(old(attributes.entries), es[0]), es[1], [es[2]] + []);
      PutAllCons(WithAttribute(WithAttribute(old(attributes.entries), es[0]), es[1]), es[2], []);
    }
  }

  /** `addPartitionKey(attributes, partitionKey)` */
  method AddPartitionKey(attributes: AttributeMap?, partitionKey: Option<PartitionKey>)
    modifies attributes
    ensures attributes != null ==> attributes.entries == PutAll(old(attributes.entries), PartitionKeyEntries(partitionKey))
  {
    if partitionKey.Some? {
      AddAttribute(attributes, Some("PartitionKey"), Some(partitionKey.value.text));
      if attributes != null {
        PutAllCons(old(attributes.entries), PartitionKeyEntries(partitionKey)[0], []);
        assert PartitionKeyEntries(partitionKey) == [PartitionKeyEntries(partitionKey)[0]] + [];
      }
    }
  }

  /** `addDocumentCollection(attributes, collection)` */
  method AddDocumentCollection(attributes: AttributeMap?, collection: Option<DocumentCollection>)
    modifies attributes
    ensures attributes != null ==> attributes.entries == PutAll(old(attributes.entries), DocumentCollectionEntries(collection))
  {
    if collection.Some? {
      AddThree(attributes, DocumentCollectionEntries(collection));
    }
  }

  /** `addDatabase(attributes, database)` */
  method AddDatabase(attributes: AttributeMap?, database: Option<Database>)
    modifies attributes
    ensures attributes != null ==> attributes.entries == PutAll(old(attributes.entries), DatabaseEntries(database))
  {
    if database.Some? {
      AddThree(attributes, DatabaseEntries(database));
    }
  }

  /** `addStoredProcedure(attributes, stored)` */
  method AddStoredProcedure(attributes: AttributeMap?, stored: Option<StoredProcedure>)
    modifies attributes
    ensures attributes != null ==> attributes.entries == PutAll(old(attributes.entries), StoredProcedureEntries(stored))
  {
    if stored.Some? {
      AddThree(attributes, StoredProcedureEntries(stored));
    }
  }

  /** `addUser(attributes, user)` */
  method AddUser(attributes: AttributeMap?, user: Option<User>)
    modifies attributes
    ensures attributes != null ==> attributes.entries == PutAll(old(attributes.entries), UserEntries(user))
  {
    if user.Some? {
      AddThree(attributes, UserEntries(user));
    }
  }

  /** `addDocument(attributes, doc)` */
  method AddDocument(attributes: AttributeMap?, doc: Option<Document>)
    modifies attributes
    ensures attributes != null ==> attributes.entries == PutAll(old(attributes.entries), DocumentEntries(doc))
  {
    if doc.Some? {
      AddThree(attributes, DocumentEntries(doc));
    }
  }

  /** `addOffer(attributes, offer)`: five calls, "Offer-Id" twice. */
  method AddOffer(attributes: AttributeMap?, offer: Option<Offer>)
    modifies attributes
    ensures attributes != null ==> attributes.entries == PutAll(old(attributes.entries), OfferEntries(offer))
  {
    if offer.Some? {
      var es := OfferEntries(offer);
      AddThree(attributes, es[..3]);
      ghost var mid := if attributes != null then attributes.entries else map[];
      AddAttribute(attributes, es[3].0, es[3].1);
      AddAttribute(attributes, es[4].0, es[4].1);
      if attributes != null {
        PutAllAppend(old(attributes.entries), es[..3], es[3..]);
        assert es == es[..3] + es[3..];
        assert es[3..] == [es[3]] + ([es[4]] + []);
        PutAllCons(mid, es[3], [es[4]] + []);
        PutAllCons(WithAttribute(mid, es[3]), es[4], []);
      }
    }
  }

  lemma {:induction false} PutAllAppend(m: Attributes, a: seq<Entry>, b: seq<Entry>)
    ensures PutAll(m, a + b) == PutAll(PutAll(m, a), b)
    decreases |a|
  {
    if a == [] {
      assert a + b == b;
    } else {
      assert (a + b)[1..] == a[1..] + b;
      PutAllAppend(WithAttribute(m, a[0]), a[1..], b);
    }
  }
}
