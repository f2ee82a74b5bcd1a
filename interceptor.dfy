/**
 * What every woven call site does, independent of which method it wraps:
 * fill a fresh attribute map by successive helper calls, build the datastore
 * descriptor, create the CompletionRunnable (and the ErrorConsumer bound to
 * it), optionally hand it the map, and register the hooks on the original
 * result. A call site is described by an `Instrumented` value; `Instrument`
 * performs that description on objects.
 */
module Interceptor {
  import opened Wrappers
  import opened JavaLang
  import opened NewRelicApi
  import opened Utils
  import opened SpanLifecycle
  import Instrumentation
  import opened Signals
  import CosmosUtils

  /** One call into the attribute helpers. */
  datatype AttributeWrite =
    | Put(key: string, value: Option<string>)
    | PutPartitionKey(partitionKey: Option<PartitionKey>)
    | PutDocumentCollection(collection: Option<DocumentCollection>)
    | PutDatabase(database: Option<Database>)
    | PutStoredProcedure(storedProcedure: Option<StoredProcedure>)
    | PutUser(user: Option<User>)
    | PutDocument(document: Option<Document>)
    | PutOffer(offer: Option<Offer>)

  /** The `addAttribute` calls one helper call makes. */
  function EntriesOf(w: AttributeWrite): seq<Entry> {
    match w
    case Put(k, v) => [(Some(k), v)]
    case PutPartitionKey(pk) => PartitionKeyEntries(pk)
    case PutDocumentCollection(c) => DocumentCollectionEntries(c)
    case PutDatabase(d) => DatabaseEntries(d)
    case PutStoredProcedure(sp) => StoredProcedureEntries(sp)
    case PutUser(u) => UserEntries(u)
    case PutDocument(d) => DocumentEntries(d)
    case PutOffer(o) => OfferEntries(o)
  }

  /** The `addAttribute` calls of a sequence of helper calls, in order. */
  function AllEntries(writes: seq<AttributeWrite>): seq<Entry>
    decreases |writes|
  {
    if writes == [] then [] else EntriesOf(writes[0]) + AllEntries(writes[1..])
  }

  /** The map a fresh `HashMap` holds after the helper calls. */
  function Filled(writes: seq<AttributeWrite>): Attributes {
    PutAll(map[], AllEntries(writes))
  }

  /** A call site: everything it builds before returning the hooked result. */
  datatype Instrumented = Instrumented(
    segmentName: string,
    params: Option<DatastoreParameters>,
    writes: seq<AttributeWrite>,
    /** whether the site calls `setAttributes` */
    attached: bool,
    wiring: Wiring)

  /** The map the runnable holds: the filled map if the site attaches it, null otherwise. */
  function Attached(site: Instrumented): Option<Attributes> {
    if site.attached then Some(Filled(site.writes)) else None
  }

  /** `product(COSMOSDB).collection(c).operation(op).build()` */
  function Descriptor(collection: Option<string>, operation: string): DatastoreParameters {
    DatastoreParameters(CosmosUtils.COSMOSDB, collection, Some(operation), NoSlowQuery)
  }

  /**
   * The query sites' descriptor: null without a parsed statement; otherwise
   * the statement's model and operation, with the raw query as slow-query text.
   */
  function QueryDescriptor(statement: Option<CosmosUtils.ParsedStatement>, query: Option<string>): (r: Option<DatastoreParameters>)
    ensures r.Some? <==> statement.Some?
    ensures r.Some? ==>
      && r.value.product == "CosmosDB"
      && r.value.collection == Some(statement.value.model)
      && r.value.operation == Some(statement.value.operation)
      && r.value.query == SlowQuery(query)
  {
    match statement
    case None => None
    case Some(st) =>
      Some(DatastoreParameters(CosmosUtils.COSMOSDB, Some(st.model), Some(st.operation), SlowQuery(ToRawQueryString(query))))
  }

  const QUERY_SEGMENT := "CosmosAsyncClient/query"

  /** `addAttribute(attributes, "Operation", name)`. */
  function Operation(name: string): AttributeWrite {
    Put("Operation", Some(name))
  }

  /** The descriptor of a query site, from what `parseSQL` returns for its text. */
  function QueryParams(parse: ParseSql, query: Option<string>): (r: Result<Option<DatastoreParameters>, Failure>)
    ensures r.Err? <==> parse(query).Err?
    ensures r.Ok? ==> r.value == QueryDescriptor(parse(query).value, query)
  {
    var statement :- parse(query);
    Ok(QueryDescriptor(statement, query))
  }

  /** `getId()`, replaced by `fallback` when it is null or empty. */
  function IdOrElse(id: Option<string>, fallback: string): (r: string)
    ensures id.Some? && id.value != "" ==> r == id.value
    ensures id.None? || id.value == "" ==> r == fallback
  {
    if id.None? || id.value == "" then fallback else id.value
  }

  /** A site whose descriptor names a collection and an operation. */
  function Site(segmentName: string, collection: Option<string>, operation: string,
                writes: seq<AttributeWrite>, attached: bool, wiring: Wiring): Instrumented {
    Instrumented(segmentName, Some(Descriptor(collection, operation)), writes, attached, wiring)
  }

  /** A `SqlQuerySpec`, known by its query text. */
  datatype SqlQuerySpec = SqlQuerySpec(queryText: Option<string>)

  /** What `CosmosUtils.parseSQL` returns for a query text at the moment of the call. */
  type ParseSql = Option<string> -> Result<Option<CosmosUtils.ParsedStatement>, Failure>

  /** Where `getIDFromLink` throws: a null link, or a non-empty link made only of slashes. */
  predicate LinkFails(link: Option<string>) {
    link.None? || (link.value != "" && CosmosUtils.AllSlashes(link.value))
  }

  /** The id `getIDFromLink` returns: what follows the last slash once trailing slashes are dropped. */
  function LinkId(link: string): string {
    CosmosUtils.AfterLastSlash(CosmosUtils.TrimTrailingSlashes(link))
  }

  /** A site whose collection is the id of a link: it throws where `getIDFromLink` does. */
  function LinkSite(segmentName: string, link: Option<string>, operation: string,
                    writes: seq<AttributeWrite>, attached: bool, wiring: Wiring): (r: Result<Instrumented, Failure>)
    ensures r.Err? <==> LinkFails(link)
    ensures r.Ok? ==> r.value == Site(segmentName, Some(LinkId(link.value)), operation, writes, attached, wiring)
  {
    var id :- CosmosUtils.GetIdFromLink(link);
    Ok(Site(segmentName, Some(id), operation, writes, attached, wiring))
  }

  /** The runnable a site creates, once `setAttributes` has run where the site calls it. */
  function Runnable(site: Instrumented, transaction: Option<Transaction>): RunnableState {
    Fresh(Some(site.segmentName), site.params, transaction).(attributes := Attached(site))
  }

  lemma {:induction false} AllEntriesAppend(a: seq<AttributeWrite>, b: seq<AttributeWrite>)
    ensures AllEntries(a + b) == AllEntries(a) + AllEntries(b)
    decreases |a|
  {
    if a == [] {
      assert a + b == b;
    } else {
      assert (a + b)[1..] == a[1..] + b;
      AllEntriesAppend(a[1..], b);
    }
  }

  /** Filling a map call by call gives the map of all the calls: the later call of a key wins. */
  lemma FilledSnoc(writes: seq<AttributeWrite>, w: AttributeWrite)
    ensures Filled(writes + [w]) == PutAll(Filled(writes), EntriesOf(w))
  {
    AllEntriesAppend(writes, [w]);
    assert [w][1..] == [];
    assert AllEntries([w]) == EntriesOf(w) + AllEntries([]);
    assert AllEntries([w]) == EntriesOf(w);
    PutAllAppend(map[], AllEntries(writes), EntriesOf(w));
  }

  /**
   * The filled map holds, for each key, the value of the last admissible
   * `addAttribute` call for it, and no other key.
   */
  lemma FilledSpec(writes: seq<AttributeWrite>)
    ensures forall k :: k in Filled(writes) <==> LastFor(AllEntries(writes), k).Some?
    ensures forall k :: k in Filled(writes) ==> Filled(writes)[k] == LastFor(AllEntries(writes), k).value
  {
    PutAllSpec(map[], AllEntries(writes));
  }

  /** FilledSpec at one key. */
  lemma FilledKey(writes: seq<AttributeWrite>, k: string)
    ensures k in Filled(writes) <==> LastFor(AllEntries(writes), k).Some?
    ensures k in Filled(writes) ==> Filled(writes)[k] == LastFor(AllEntries(writes), k).value
  {
    FilledSpec(writes);
  }

  /** The keys a helper call may write. */
  function KeysOf(w: AttributeWrite): set<string> {
    EntityKeys(EntriesOf(w))
  }

  lemma {:induction false} LastForAppend(a: seq<Entry>, b: seq<Entry>, k: string)
    ensures LastFor(a + b, k) == if LastFor(b, k).Some? then LastFor(b, k) else LastFor(a, k)
    decreases |a|
  {
    if a == [] {
      assert a + b == b;
    } else {
      assert (a + b)[1..] == a[1..] + b;
      LastForAppend(a[1..], b, k);
    }
  }

  /** A key no later helper call writes is not overwritten. */
  lemma {:induction false} UnwrittenKey(writes: seq<AttributeWrite>, k: string)
    requires forall j :: 0 <= j < |writes| ==> k !in KeysOf(writes[j])
    ensures LastFor(AllEntries(writes), k) == None
    decreases |writes|
  {
    if writes != [] {
      LastForInKeys(EntriesOf(writes[0]), k);
      UnwrittenKey(writes[1..], k);
      LastForAppend(EntriesOf(writes[0]), AllEntries(writes[1..]), k);
    }
  }

  /**
   * An `addAttribute(k, v)` with a non-null value that no later helper call
   * overwrites leaves `k -> v` in the filled map.
   */
  lemma FilledAt(writes: seq<AttributeWrite>, i: nat, k: string, v: string)
    requires i < |writes| && writes[i] == Put(k, Some(v)) && k != ""
    requires forall j :: i < j < |writes| ==> k !in KeysOf(writes[j])
    ensures k in Filled(writes) && Filled(writes)[k] == v
  {
    var later := writes[i + 1..];
    assert writes == writes[..i] + ([writes[i]] + later);
    AllEntriesAppend(writes[..i], [writes[i]] + later);
    AllEntriesAppend([writes[i]], later);
    assert AllEntries([writes[i]]) == [(Some(k), Some(v))] by {
      assert [writes[i]][1..] == [];
    }
    forall j | 0 <= j < |later|
      ensures k !in KeysOf(later[j])
    {
      assert later[j] == writes[i + 1 + j];
    }
    UnwrittenKey(later, k);
    LastForAppend([(Some(k), Some(v))], AllEntries(later), k);
    LastForAppend(AllEntries(writes[..i]), [(Some(k), Some(v))] + AllEntries(later), k);
    assert [(Some(k), Some(v))][1..] == [];
    FilledSpec(writes);
  }

  /** A key that none of a helper call's entries names is not among its keys. */
  lemma NotKeyOf(w: AttributeWrite, k: string)
    requires forall i :: 0 <= i < |EntriesOf(w)| && EntriesOf(w)[i].0.Some? ==> EntriesOf(w)[i].0.value != k
    ensures k !in KeysOf(w)
  {
  }

  /** The last value of a single `addAttribute` call. */
  lemma LastForSingle(key: string, v: string, k: string)
    requires key != ""
    ensures LastFor([(Some(key), Some(v))], k) == if key == k then Some(v) else None
  {
    assert [(Some(key), Some(v))][1..] == [];
  }

  /** One more `addAttribute` call on the filled map. */
  lemma FilledPut(writes: seq<AttributeWrite>, k: string, v: Option<string>)
    requires k != ""
    ensures Filled(writes + [Put(k, v)]) == if v.Some? then Filled(writes)[k := v.value] else Filled(writes)
  {
    FilledSnoc(writes, Put(k, v));
    assert [(Some(k), v)][1..] == [];
  }

  /** One more `addPartitionKey` call on the filled map. */
  lemma FilledPartitionKey(writes: seq<AttributeWrite>, pk: Option<PartitionKey>)
    ensures Filled(writes + [PutPartitionKey(pk)]) == if pk.Some? then Filled(writes)["PartitionKey" := pk.value.text] else Filled(writes)
  {
    FilledSnoc(writes, PutPartitionKey(pk));
    PartitionKeySpec(Filled(writes), pk);
  }

  /** The key of a single `addAttribute` call. */
  lemma PutKeys(k: string, v: Option<string>)
    ensures KeysOf(Put(k, v)) == {k}
  {
    var es := EntriesOf(Put(k, v));
    assert es[0].0.value == k;
  }

  // ---------------------------------------------------------------------------
  // The site as it runs: the map filled in place, then the objects and hooks.
  // ---------------------------------------------------------------------------

  /** One helper call on the site's map. */
  method Perform(attributes: AttributeMap, w: AttributeWrite)
    modifies attributes
    ensures attributes.entries == PutAll(old(attributes.entries), EntriesOf(w))
  {
    match w {
      case Put(k, v) =>
        AddAttribute(attributes, Some(k), v);
        PutAllCons(old(attributes.entries), (Some(k), v), []);
        assert [(Some(k), v)] == [(Some(k), v)] + [];
      case PutPartitionKey(pk) => AddPartitionKey(attributes, pk);
      case PutDocumentCollection(c) => AddDocumentCollection(attributes, c);
      case PutDatabase(d) => AddDatabase(attributes, d);
      case PutStoredProcedure(sp) => AddStoredProcedure(attributes, sp);
      case PutUser(u) => AddUser(attributes, u);
      case PutDocument(d) => AddDocument(attributes, d);
      case PutOffer(o) => AddOffer(attributes, o);
    }
  }

  /** `new HashMap<>()` followed by the site's helper calls, one after another. */
  method Fill(writes: seq<AttributeWrite>) returns (attributes: AttributeMap)
    ensures fresh(attributes)
    ensures attributes.entries == Filled(writes)
  {
    attributes := new AttributeMap();
    var i := 0;
    while i < |writes|
      invariant 0 <= i <= |writes|
      invariant attributes.entries == Filled(writes[..i])
    {
      FilledSnoc(writes[..i], writes[i]);
      assert writes[..i + 1] == writes[..i] + [writes[i]];
      Perform(attributes, writes[i]);
      i := i + 1;
    }
    assert writes[..|writes|] == writes;
  }

  /**
   * The site's instrumentation: the runnable holds the site's name,
   * descriptor, transaction and (where attached) map, with no segment yet; an
   * ErrorConsumer bound to it is created where the wiring has an error hook;
   * the publisher carries the site's hooks in registration order.
   */
  method Instrument(site: Instrumented, agent: Agent, transaction: Option<Transaction>)
    returns (p: TracedPublisher)
    ensures fresh(p) && fresh(p.runnable)
    ensures p.Valid()
    ensures p.hooks == Hooks(site.wiring)
    ensures p.runnable.agent == agent
    ensures p.runnable.State() == Runnable(site, transaction)
  {
    var attributes := Fill(site.writes);
    var runnable := new Instrumentation.CompletionRunnable(Some(site.segmentName), site.params, transaction, agent);
    if site.attached {
      runnable.SetAttributes(Some(attributes.entries));
    }
    var errors: Instrumentation.ErrorConsumer? := null;
    if site.wiring != SubscribeTerminate {
      errors := new Instrumentation.ErrorConsumer(runnable, agent);
    }
    p := new TracedPublisher(Hooks(site.wiring), runnable, errors);
  }

  // ---------------------------------------------------------------------------
  // The exact events of subscribe followed by one terminal signal, per wiring.
  // ---------------------------------------------------------------------------

  /**
   * What the agent is told: nothing but the notice when the runnable does not
   * open a segment; otherwise the start, then the closing events (report,
   * attributes, end) unless 4.x readItem is cancelled. The error is noticed
   * after the close where a terminate hook precedes the error hook, before it
   * on the query wiring (whose complete hook ignores errors), and not at all
   * on 4.x readItem.
   */
  function ExpectedLog(w: Wiring, r: RunnableState, log: seq<Event>, t: Signal): seq<Event>
    requires !t.Subscribe?
  {
    var notice := if t.Error? && w != SubscribeTerminate then [NoticeError(t.error)] else [];
    if !Opens(r) then log + notice
    else
      var s := Count(log, AnyStart);
      var begun := log + [Start(s, r.segmentName.value, r.transaction.value)];
      if w == SubscribeTerminate && t.Cancel? then begun
      else if w == SubscribeCancelCompleteError && t.Error? then CloseLog(begun + notice, s, r)
      else CloseLog(begun, s, r) + notice
  }

  /** The steps a terminal signal causes, per wiring. */
  function WiringSteps(w: Wiring, t: Signal): seq<Step>
    requires !t.Subscribe?
  {
    match w
    case SubscribeCancelTerminateError | SubscribeTerminateCancelError =>
      if t.Error? then [RunStep, ErrorStep(t.error)] else [RunStep]
    case SubscribeCancelCompleteError =>
      if t.Error? then [ErrorStep(t.error)] else [RunStep]
    case SubscribeCancelTerminateTwiceError =>
      if t.Error? then [RunStep, RunStep, ErrorStep(t.error)]
      else if t.Complete? then [RunStep, RunStep] else [RunStep]
    case SubscribeTerminate =>
      if t.Cancel? then [] else [RunStep]
  }

  /** The steps one hook contributes to a signal. */
  function Single(h: Hook, t: Signal): seq<Step> {
    if Fires(h, t) then [StepOf(h, t)] else []
  }

  lemma StepsCons(h: Hook, rest: seq<Hook>, t: Signal)
    ensures Steps([h] + rest, t) == Single(h, t) + Steps(rest, t)
  {
    assert ([h] + rest)[1..] == rest;
  }

  lemma StepsOne(a: Hook, t: Signal)
    ensures Steps([a], t) == Single(a, t)
  {
    assert [a] == [a] + [];
    StepsCons(a, [], t);
  }

  lemma StepsThree(a: Hook, b: Hook, c: Hook, t: Signal)
    ensures Steps([a, b, c], t) == Single(a, t) + (Single(b, t) + Single(c, t))
  {
    assert [a, b, c] == [a] + ([b] + [c]);
    StepsCons(a, [b] + [c], t);
    StepsCons(b, [c], t);
    StepsOne(c, t);
  }

  lemma StepsFour(a: Hook, b: Hook, c: Hook, d: Hook, t: Signal)
    ensures Steps([a, b, c, d], t) == Single(a, t) + (Single(b, t) + (Single(c, t) + Single(d, t)))
  {
    assert [a, b, c, d] == [a] + [b, c, d];
    StepsCons(a, [b, c, d], t);
    StepsThree(b, c, d, t);
  }

  /** The subscribe hook, registered first on every wiring, ignores terminal signals. */
  lemma WithoutSubscribe(w: Wiring, t: Signal)
    requires !t.Subscribe?
    ensures Steps(Hooks(w), t) == Steps(Hooks(w)[1..], t)
  {
    assert Hooks(w) == [OnSubscribe] + Hooks(w)[1..];
    StepsCons(OnSubscribe, Hooks(w)[1..], t);
  }

  lemma WiringStepsSpec(w: Wiring, t: Signal)
    requires !t.Subscribe?
    ensures Steps(Hooks(w), t) == WiringSteps(w, t)
  {
    WithoutSubscribe(w, t);
    var tail := Hooks(w)[1..];
    if w.SubscribeTerminate? {
      assert tail == [OnTerminate];
      StepsOne(OnTerminate, t);
    } else if w.SubscribeCancelTerminateTwiceError? {
      assert tail == [OnCancel, OnTerminate, OnTerminate, OnError];
      TwiceSteps(t);
    } else {
      assert tail == [tail[0], tail[1], tail[2]];
      ThreeHookSteps(w, t);
    }
  }

  lemma TwiceSteps(t: Signal)
    requires !t.Subscribe?
    ensures Steps([OnCancel, OnTerminate, OnTerminate, OnError], t) == WiringSteps(SubscribeCancelTerminateTwiceError, t)
  {
    StepsFour(OnCancel, OnTerminate, OnTerminate, OnError, t);
    match t
    case Complete =>
    case Cancel =>
    case Error(e) =>
  }

  lemma ThreeHookSteps(w: Wiring, t: Signal)
    requires !t.Subscribe?
    requires w.SubscribeCancelTerminateError? || w.SubscribeTerminateCancelError? || w.SubscribeCancelCompleteError?
    ensures Steps(Hooks(w)[1..], t) == WiringSteps(w, t)
  {
    match w
    case SubscribeCancelTerminateError =>
      assert Hooks(w)[1..] == [OnCancel, OnTerminate, OnError];
      StepsThree(OnCancel, OnTerminate, OnError, t);
      assert t == Complete || t == Cancel || t == Error(t.error);
    case SubscribeTerminateCancelError =>
      assert Hooks(w)[1..] == [OnTerminate, OnCancel, OnError];
      StepsThree(OnTerminate, OnCancel, OnError, t);
      assert t == Complete || t == Cancel || t == Error(t.error);
    case SubscribeCancelCompleteError =>
      assert Hooks(w)[1..] == [OnCancel, OnComplete, OnError];
      StepsThree(OnCancel, OnComplete, OnError, t);
      assert t == Complete || t == Cancel || t == Error(t.error);
  }

  lemma ApplyOne(c: Config, a: Step)
    ensures ApplyAll(c, [a]) == Apply(c, a)
  {
    assert [a][..0] == [];
  }

  lemma ApplyTwo(c: Config, a: Step, b: Step)
    ensures ApplyAll(c, [a, b]) == Apply(Apply(c, a), b)
  {
    ApplyAllAppend(c, [a], [b]);
    assert [a] + [b] == [a, b];
    ApplyOne(c, a);
    ApplyOne(Apply(c, a), b);
  }

  lemma ApplyThree(c: Config, a: Step, b: Step, d: Step)
    ensures ApplyAll(c, [a, b, d]) == Apply(Apply(Apply(c, a), b), d)
  {
    ApplyAllAppend(c, [a, b], [d]);
    assert [a, b] + [d] == [a, b, d];
    ApplyTwo(c, a, b);
    ApplyOne(Apply(Apply(c, a), b), d);
  }

  /** With no open segment every `run` is a no-op, so the steps only add the notices. */
  lemma QuietSteps(w: Wiring, c: Config, t: Signal)
    requires c.runnable.segment.None?
    requires !t.Subscribe?
    ensures ApplyAll(c, WiringSteps(w, t)) ==
      c.(log := c.log + if t.Error? && w != SubscribeTerminate then [NoticeError(t.error)] else [])
  {
    var steps := WiringSteps(w, t);
    if |steps| == 0 {
      assert c.log + [] == c.log;
    } else if |steps| == 1 {
      ApplyOne(c, steps[0]);
      assert steps == [steps[0]];
      assert c.log + [] == c.log;
    } else if |steps| == 2 {
      ApplyTwo(c, steps[0], steps[1]);
      assert steps == [steps[0], steps[1]];
      assert c.log + [] == c.log;
    } else {
      ApplyThree(c, steps[0], steps[1], steps[2]);
      assert steps == [steps[0], steps[1], steps[2]];
    }
  }

  /** The steps after `accept` opened segment s: the first `run` closes it, later ones do nothing. */
  lemma OpenedSteps(w: Wiring, r: RunnableState, begun: seq<Event>, s: SegmentId, t: Signal)
    requires r.segment.None?
    requires !t.Subscribe?
    ensures var notice := if t.Error? && w != SubscribeTerminate then [NoticeError(t.error)] else [];
      ApplyAll(Config(r.(segment := Some(s)), begun), WiringSteps(w, t)) ==
        if w == SubscribeTerminate && t.Cancel? then Config(r.(segment := Some(s)), begun)
        else if w == SubscribeCancelCompleteError && t.Error? then Config(r, CloseLog(begun + notice, s, r))
        else Config(r, CloseLog(begun, s, r) + notice)
  {
    var c1 := Config(r.(segment := Some(s)), begun);
    var steps := WiringSteps(w, t);
    var closed := Config(r, CloseLog(begun, s, r));
    assert r.(segment := Some(s)).(segment := None) == r;
    assert Run(c1) == closed;
    assert CloseLog(begun, s, r) + [] == CloseLog(begun, s, r);
    if |steps| == 1 {
      ApplyOne(c1, steps[0]);
      assert steps == [steps[0]];
    } else if |steps| == 2 {
      ApplyTwo(c1, steps[0], steps[1]);
      assert steps == [steps[0], steps[1]];
    } else if |steps| == 3 {
      ApplyThree(c1, steps[0], steps[1], steps[2]);
      assert steps == [steps[0], steps[1], steps[2]];
    }
  }

  /**
   * Subscribe followed by one terminal signal, for a runnable that has not
   * opened a segment: the agent's log becomes exactly `ExpectedLog`, and the
   * runnable ends with no segment except on a cancelled 4.x readItem.
   */
  lemma WiringEvents(w: Wiring, r: RunnableState, log: seq<Event>, t: Signal)
    requires r.segment.None?
    requires !t.Subscribe?
    ensures var c' := Replay(Hooks(w), [Subscribe, t], Config(r, log));
      && c'.log == ExpectedLog(w, r, log, t)
      && c'.runnable == r.(segment := if Opens(r) && w == SubscribeTerminate && t.Cancel? then Some(Count(log, AnyStart)) else None)
  {
    var c := Config(r, log);
    HookCounts(w);
    SubscribeThenOther(Hooks(w), c, t);
    WiringStepsSpec(w, t);
    if Opens(r) {
      var s := Count(log, AnyStart);
      OpenedSteps(w, r, log + [Start(s, r.segmentName.value, r.transaction.value)], s, t);
    } else {
      QuietSteps(w, c, t);
      assert r.(segment := None) == r;
    }
  }

  /**
   * An error after subscribe on a wiring whose terminate hook precedes the
   * error hook: the span is closed with its descriptor and attributes first,
   * and the error is noticed after.
   */
  lemma ErrorClosesThenNotices(w: Wiring, r: RunnableState, log: seq<Event>, e: Throwable)
    requires w == SubscribeCancelTerminateError || w == SubscribeTerminateCancelError
    requires r.segment.None? && Opens(r) && r.params.Some? && r.attributes.Some?
    ensures var s := Count(log, AnyStart);
      Replay(Hooks(w), [Subscribe, Error(e)], Config(r, log)).log ==
        log + [Start(s, r.segmentName.value, r.transaction.value), ReportExternal(s, r.params.value),
               AddAttrs(s, r.attributes.value), End(s), NoticeError(e)]
  {
    WiringEvents(w, r, log, Error(e));
    var s := Count(log, AnyStart);
    var begun := log + [Start(s, r.segmentName.value, r.transaction.value)];
    assert ExpectedLog(w, r, log, Error(e)) == CloseLog(begun, s, r) + [NoticeError(e)];
    assert CloseLog(begun, s, r) ==
      begun + [ReportExternal(s, r.params.value)] + [AddAttrs(s, r.attributes.value)] + [End(s)];
  }

  /**
   * An error after subscribe on a query wiring: no terminate hook, so the
   * error consumer notices the error before its `run` closes the span.
   */
  lemma ErrorNoticesThenCloses(r: RunnableState, log: seq<Event>, e: Throwable)
    requires r.segment.None? && Opens(r) && r.params.Some? && r.attributes.Some?
    ensures var s := Count(log, AnyStart);
      Replay(Hooks(SubscribeCancelCompleteError), [Subscribe, Error(e)], Config(r, log)).log ==
        log + [Start(s, r.segmentName.value, r.transaction.value), NoticeError(e),
               ReportExternal(s, r.params.value), AddAttrs(s, r.attributes.value), End(s)]
  {
    WiringEvents(SubscribeCancelCompleteError, r, log, Error(e));
    var s := Count(log, AnyStart);
    var noticed := log + [Start(s, r.segmentName.value, r.transaction.value)] + [NoticeError(e)];
    assert ExpectedLog(SubscribeCancelCompleteError, r, log, Error(e)) == CloseLog(noticed, s, r);
    assert CloseLog(noticed, s, r) ==
      noticed + [ReportExternal(s, r.params.value)] + [AddAttrs(s, r.attributes.value)] + [End(s)];
  }
}
