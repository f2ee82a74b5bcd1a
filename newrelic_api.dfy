/**
 * The host agent's API as the instrumentation sees it: transactions start
 * segments, segments report datastore parameters, take custom attributes and
 * end, and errors are noticed. The agent itself is external; every call is
 * recorded as an event in a log, and the properties of the instrumentation
 * are statements about that log.
 */
module NewRelicApi {
  import opened Wrappers

  /** A segment handle: the n-th segment the agent hands out has id n. */
  type SegmentId = nat

  /** An opaque transaction handle. */
  type Transaction = nat

  /** A failure delivered by the reactive stream. */
  datatype Throwable = Throwable(message: string)

  /** The optional slow-query part of a descriptor: the raw query text, passed with the identity converter. */
  datatype SlowQuery = NoSlowQuery | SlowQuery(rawQuery: Option<string>)

  /** DatastoreParameters: product, collection, operation and an optional slow query. */
  datatype DatastoreParameters = DatastoreParameters(
    product: string,
    collection: Option<string>,
    operation: Option<string>,
    query: SlowQuery)

  /** One call into the agent. */
  datatype Event =
    | Start(segment: SegmentId, name: string, transaction: Transaction)
    | ReportExternal(segment: SegmentId, params: DatastoreParameters)
    | AddAttrs(segment: SegmentId, attributes: map<string, string>)
    | End(segment: SegmentId)
    | NoticeError(error: Throwable)

  /** The kinds of events that the properties count. */
  datatype Pattern =
    | AnyStart
    | StartOf(id: SegmentId)
    | AnyEnd
    | EndOf(id: SegmentId)
    | ReportOf(id: SegmentId)
    | AttrsOf(id: SegmentId)
    | AnyNotice

  predicate Matches(e: Event, p: Pattern) {
    match p
    case AnyStart => e.Start?
    case StartOf(id) => e.Start? && e.segment == id
    case AnyEnd => e.End?
    case EndOf(id) => e.End? && e.segment == id
    case ReportOf(id) => e.ReportExternal? && e.segment == id
    case AttrsOf(id) => e.AddAttrs? && e.segment == id
    case AnyNotice => e.NoticeError?
  }

  /** The number of events of the log that match the pattern. */
  function Count(log: seq<Event>, p: Pattern): (n: nat)
    ensures n <= |log|
  {
    if log == [] then 0
    else Count(log[..|log| - 1], p) + (if Matches(log[|log| - 1], p) then 1 else 0)
  }

  /** No event matches exactly when the count is zero; every event does exactly when it is the log's length. */
  lemma {:induction false} CountExtremes(log: seq<Event>, p: Pattern)
    ensures Count(log, p) == 0 <==> forall i :: 0 <= i < |log| ==> !Matches(log[i], p)
    ensures Count(log, p) == |log| <==> forall i :: 0 <= i < |log| ==> Matches(log[i], p)
  {
    if log != [] {
      var init := log[..|log| - 1];
      CountExtremes(init, p);
      assert forall i :: 0 <= i < |init| ==> init[i] == log[i];
    }
  }

  lemma CountSnoc(log: seq<Event>, e: Event, p: Pattern)
    ensures Count(log + [e], p) == Count(log, p) + (if Matches(e, p) then 1 else 0)
  {
    assert (log + [e])[..|log|] == log;
  }

  /** CountSnoc for every pattern at once. */
  lemma CountSnocAll(log: seq<Event>, e: Event)
    ensures forall p :: Count(log + [e], p) == Count(log, p) + (if Matches(e, p) then 1 else 0)
  {
    forall p ensures Count(log + [e], p) == Count(log, p) + (if Matches(e, p) then 1 else 0) {
      CountSnoc(log, e, p);
    }
  }

  lemma {:induction false} CountAppend(a: seq<Event>, b: seq<Event>, p: Pattern)
    ensures Count(a + b, p) == Count(a, p) + Count(b, p)
    decreases |b|
  {
    if b == [] {
      assert a + b == a;
    } else {
      var b' := b[..|b| - 1];
      assert a + b == (a + b') + [b[|b| - 1]];
      assert b == b' + [b[|b| - 1]];
      CountSnoc(a + b', b[|b| - 1], p);
      CountSnoc(b', b[|b| - 1], p);
      CountAppend(a, b', p);
    }
  }

  /**
   * The agent: the ghost log of every call made to it, and the number of
   * segments started so far, which is the id of the next segment.
   */
  class Agent {
    ghost var log: seq<Event>
    var started: nat

    ghost predicate Valid()
      reads this
    {
      started == Count(log, AnyStart)
    }

    constructor ()
      ensures Valid() && log == []
    {
      log := [];
      started := 0;
    }

    /** `transaction.startSegment(name)` */
    method StartSegment(t: Transaction, name: string) returns (s: SegmentId)
      requires Valid()
      modifies this
      ensures Valid()
      ensures s == old(started) && started == old(started) + 1
      ensures log == old(log) + [Start(s, name, t)]
    {
      s := started;
      CountSnoc(log, Start(s, name, t), AnyStart);
      log := log + [Start(s, name, t)];
      started := started + 1;
    }

    /** `segment.reportAsExternal(params)` */
    method ReportAsExternal(s: SegmentId, params: DatastoreParameters)
      requires Valid()
      modifies this
      ensures Valid() && started == old(started)
      ensures log == old(log) + [ReportExternal(s, params)]
    {
      CountSnoc(log, ReportExternal(s, params), AnyStart);
      log := log + [ReportExternal(s, params)];
    }

    /** `segment.addCustomAttributes(attributes)` */
    method AddCustomAttributes(s: SegmentId, attributes: map<string, string>)
      requires Valid()
      modifies this
      ensures Valid() && started == old(started)
      ensures log == old(log) + [AddAttrs(s, attributes)]
    {
      CountSnoc(log, AddAttrs(s, attributes), AnyStart);
      log := log + [AddAttrs(s, attributes)];
    }

    /** `segment.end()` */
    method EndSegment(s: SegmentId)
      requires Valid()
      modifies this
      ensures Valid() && started == old(started)
      ensures log == old(log) + [End(s)]
    {
      CountSnoc(log, End(s), AnyStart);
      log := log + [End(s)];
    }

    /** `NewRelic.noticeError(t)` */
    method NoticeError(t: Throwable)
      requires Valid()
      modifies this
      ensures Valid() && started == old(started)
      ensures log == old(log) + [Event.NoticeError(t)]
    {
      CountSnoc(log, Event.NoticeError(t), AnyStart);
      log := log + [Event.NoticeError(t)];
    }
  }
}
