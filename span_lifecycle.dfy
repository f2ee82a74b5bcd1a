/**
 * The span lifecycle of one traced call, as a pure state machine.
 *
 * A CompletionRunnable holds a nullable segment. `accept` (the subscribe hook)
 * opens a segment when there is a non-empty segment name and a transaction;
 * `run` (the terminate, complete and cancel hooks) reports the descriptor,
 * attaches the attributes, ends the segment and forgets it. The error hook is
 * an ErrorConsumer that notices the error and then runs the runnable. A
 * configuration pairs the runnable's fields with the agent's event log.
 */
module SpanLifecycle {
  import opened Wrappers
  import opened NewRelicApi

  /** The fields of a CompletionRunnable. */
  datatype RunnableState = RunnableState(
    segment: Option<SegmentId>,
    params: Option<DatastoreParameters>,
    segmentName: Option<string>,
    transaction: Option<Transaction>,
    attributes: Option<map<string, string>>)

  /** A runnable together with the log of the agent it talks to. */
  datatype Config = Config(runnable: RunnableState, log: seq<Event>)

  /** A runnable as its constructor leaves it: no segment and no attributes yet. */
  function Fresh(segmentName: Option<string>, params: Option<DatastoreParameters>, transaction: Option<Transaction>): RunnableState {
    RunnableState(None, params, segmentName, transaction, None)
  }

  /** Whether `accept` starts a segment: a non-null, non-empty name and a non-null transaction. */
  predicate Opens(r: RunnableState) {
    r.segmentName.Some? && r.segmentName.value != "" && r.transaction.Some?
  }

  /** `accept`: start a segment, which the agent numbers by the starts so far, and keep it. */
  function Accept(c: Config): Config {
    if Opens(c.runnable) then
      var s := Count(c.log, AnyStart);
      Config(c.runnable.(segment := Some(s)),
             c.log + [Start(s, c.runnable.segmentName.value, c.runnable.transaction.value)])
    else
      c
  }

  /** The calls `run` makes on an open segment, one after the other. */
  function CloseLog(log: seq<Event>, s: SegmentId, r: RunnableState): seq<Event> {
    var reported := if r.params.Some? then log + [ReportExternal(s, r.params.value)] else log;
    var attributed := if r.attributes.Some? then reported + [AddAttrs(s, r.attributes.value)] else reported;
    attributed + [End(s)]
  }

  /** `run`: close the open segment, if any, and null the field. */
  function Run(c: Config): Config {
    match c.runnable.segment
    case None => c
    case Some(s) => Config(c.runnable.(segment := None), CloseLog(c.log, s, c.runnable))
  }

  /** `ErrorConsumer.accept` on a consumer bound to the runnable: notice the error, then `run`. */
  function ErrorAccept(c: Config, t: Throwable): Config {
    Run(c.(log := c.log + [NoticeError(t)]))
  }

  /** One hook invocation on the runnable. */
  datatype Step = AcceptStep | RunStep | ErrorStep(error: Throwable)

  function Apply(c: Config, st: Step): Config {
    match st
    case AcceptStep => Accept(c)
    case RunStep => Run(c)
    case ErrorStep(t) => ErrorAccept(c, t)
  }

  /** The hook invocations in order, the last one applied last. */
  function ApplyAll(c: Config, steps: seq<Step>): Config
    decreases |steps|
  {
    if steps == [] then c
    else Apply(ApplyAll(c, steps[..|steps| - 1]), steps[|steps| - 1])
  }

  /** `run` called n times in a row. */
  function RunTimes(c: Config, n: nat): Config
    decreases n
  {
    if n == 0 then c else Run(RunTimes(c, n - 1))
  }

  /** A segment that has been started once and not yet ended. */
  predicate IsOpen(log: seq<Event>, s: SegmentId) {
    Count(log, StartOf(s)) == 1 && Count(log, EndOf(s)) == 0
  }

  /**
   * The log is well formed: every segment is started at most once, ended at
   * most as often as started, reported and given attributes at most as often
   * as ended, and no segment the agent has not handed out yet appears.
   */
  ghost predicate LogInv(log: seq<Event>) {
    && (forall id: SegmentId :: Count(log, StartOf(id)) <= 1)
    && (forall id: SegmentId :: Count(log, EndOf(id)) <= Count(log, StartOf(id)))
    && (forall id: SegmentId :: Count(log, ReportOf(id)) <= Count(log, EndOf(id)))
    && (forall id: SegmentId :: Count(log, AttrsOf(id)) <= Count(log, EndOf(id)))
    && (forall id: SegmentId :: Count(log, AnyStart) <= id ==> Count(log, StartOf(id)) == 0)
  }

  /** The log is well formed and the segment the runnable holds, if any, is open. */
  ghost predicate Inv(c: Config) {
    LogInv(c.log) && (c.runnable.segment.Some? ==> IsOpen(c.log, c.runnable.segment.value))
  }

  /** How many events matching a pattern `run` appends. */
  function CloseCount(s: SegmentId, r: RunnableState, p: Pattern): nat {
    (if r.params.Some? && Matches(ReportExternal(s, r.params.value), p) then 1 else 0)
    + (if r.attributes.Some? && Matches(AddAttrs(s, r.attributes.value), p) then 1 else 0)
    + (if Matches(End(s), p) then 1 else 0)
  }

  lemma CloseLogCount(log: seq<Event>, s: SegmentId, r: RunnableState, p: Pattern)
    ensures Count(CloseLog(log, s, r), p) == Count(log, p) + CloseCount(s, r, p)
  {
    var reported := if r.params.Some? then log + [ReportExternal(s, r.params.value)] else log;
    var attributed := if r.attributes.Some? then reported + [AddAttrs(s, r.attributes.value)] else reported;
    if r.params.Some? {
      CountSnoc(log, ReportExternal(s, r.params.value), p);
    }
    if r.attributes.Some? {
      CountSnoc(reported, AddAttrs(s, r.attributes.value), p);
    }
    CountSnoc(attributed, End(s), p);
  }

  /** The empty log, and a fresh runnable on a well-formed log, satisfy the invariant. */
  lemma FreshInv(r: RunnableState, log: seq<Event>)
    requires r.segment.None? && (log == [] || LogInv(log))
    ensures Inv(Config(r, log))
  {
  }

  /** `accept` starts a segment exactly when Opens holds, with the next id, and changes nothing else. */
  lemma AcceptSpec(c: Config)
    ensures var c' := Accept(c);
      && (Opens(c.runnable) ==>
            && c'.runnable == c.runnable.(segment := Some(Count(c.log, AnyStart)))
            && c'.log == c.log + [Start(Count(c.log, AnyStart), c.runnable.segmentName.value, c.runnable.transaction.value)]
            && Count(c'.log, AnyStart) == Count(c.log, AnyStart) + 1)
      && (!Opens(c.runnable) ==> c' == c)
  {
    if Opens(c.runnable) {
      var s := Count(c.log, AnyStart);
      CountSnoc(c.log, Start(s, c.runnable.segmentName.value, c.runnable.transaction.value), AnyStart);
    }
  }

  /**
   * `run` on an open segment reports the descriptor if there is one, then adds
   * the attributes if there are any, then ends the segment, and nulls the field;
   * with no segment it changes nothing.
   */
  lemma RunSpec(c: Config)
    ensures c.runnable.segment.None? ==> Run(c) == c
    ensures c.runnable.segment.Some? ==>
      var s := c.runnable.segment.value;
      var r := c.runnable;
      && Run(c).runnable == r.(segment := None)
      && Run(c).log == c.log
           + (if r.params.Some? then [ReportExternal(s, r.params.value)] else [])
           + (if r.attributes.Some? then [AddAttrs(s, r.attributes.value)] else [])
           + [End(s)]
  {
    if c.runnable.segment.Some? {
      var s := c.runnable.segment.value;
      var r := c.runnable;
      var p := if r.params.Some? then [ReportExternal(s, r.params.value)] else [];
      var a := if r.attributes.Some? then [AddAttrs(s, r.attributes.value)] else [];
      assert CloseLog(c.log, s, r) == c.log + p + a + [End(s)];
    }
  }

  /** `run` on an open segment ends it, once. */
  lemma RunCounts(c: Config)
    requires c.runnable.segment.Some?
    ensures var s := c.runnable.segment.value;
      && Count(Run(c).log, EndOf(s)) == Count(c.log, EndOf(s)) + 1
      && Count(Run(c).log, AnyEnd) == Count(c.log, AnyEnd) + 1
  {
    var s := c.runnable.segment.value;
    var log' := CloseLog(c.log, s, c.runnable);
    assert Run(c).log == log';
    CloseLogEnds(c.log, s, c.runnable);
  }

  lemma CloseLogEnds(log: seq<Event>, s: SegmentId, r: RunnableState)
    ensures Count(CloseLog(log, s, r), EndOf(s)) == Count(log, EndOf(s)) + 1
    ensures Count(CloseLog(log, s, r), AnyEnd) == Count(log, AnyEnd) + 1
  {
    assert Count(CloseLog(log, s, r), EndOf(s)) == Count(log, EndOf(s)) + 1 by {
      CloseLogCount(log, s, r, EndOf(s));
    }
    assert Count(CloseLog(log, s, r), AnyEnd) == Count(log, AnyEnd) + 1 by {
      CloseLogCount(log, s, r, AnyEnd);
    }
  }

  /** `run` on an open segment reports it once if there are parameters, and attributes it once if there are attributes. */
  lemma RunReportCounts(c: Config)
    requires c.runnable.segment.Some?
    ensures var s := c.runnable.segment.value;
      var r := c.runnable;
      && Count(Run(c).log, ReportOf(s)) == Count(c.log, ReportOf(s)) + (if r.params.Some? then 1 else 0)
      && Count(Run(c).log, AttrsOf(s)) == Count(c.log, AttrsOf(s)) + (if r.attributes.Some? then 1 else 0)
  {
    var s := c.runnable.segment.value;
    var r := c.runnable;
    assert Run(c).log == CloseLog(c.log, s, r);
    assert Count(Run(c).log, ReportOf(s)) == Count(c.log, ReportOf(s)) + (if r.params.Some? then 1 else 0) by {
      CloseLogCount(c.log, s, r, ReportOf(s));
    }
    assert Count(Run(c).log, AttrsOf(s)) == Count(c.log, AttrsOf(s)) + (if r.attributes.Some? then 1 else 0) by {
      CloseLogCount(c.log, s, r, AttrsOf(s));
    }
  }

  /** `run` starts no segment and notices no error. */
  lemma RunKeepsStartsAndNotices(c: Config)
    ensures Count(Run(c).log, AnyStart) == Count(c.log, AnyStart)
    ensures Count(Run(c).log, AnyNotice) == Count(c.log, AnyNotice)
  {
    if c.runnable.segment.Some? {
      var s := c.runnable.segment.value;
      assert Run(c).log == CloseLog(c.log, s, c.runnable);
      assert Count(Run(c).log, AnyStart) == Count(c.log, AnyStart) by {
        CloseLogCount(c.log, s, c.runnable, AnyStart);
      }
      assert Count(Run(c).log, AnyNotice) == Count(c.log, AnyNotice) by {
        CloseLogCount(c.log, s, c.runnable, AnyNotice);
      }
    }
  }

  /** After `run` the field is null, so a second `run` is a no-op. */
  lemma RunIdempotent(c: Config)
    ensures Run(c).runnable.segment.None?
    ensures Run(Run(c)) == Run(c)
  {
  }

  /** Any number of `run` calls, at least one, act like a single one. */
  lemma {:induction false} RunTimesIsRun(c: Config, n: nat)
    requires n >= 1
    ensures RunTimes(c, n) == Run(c)
  {
    if n > 1 {
      RunTimesIsRun(c, n - 1);
      RunIdempotent(c);
    }
  }

  /** `accept` keeps the invariant: the new segment id has never been used. */
  lemma AcceptKeepsInv(c: Config)
    requires Inv(c)
    ensures Inv(Accept(c))
  {
    if Opens(c.runnable) {
      var s := Count(c.log, AnyStart);
      var e := Start(s, c.runnable.segmentName.value, c.runnable.transaction.value);
      var log' := c.log + [e];
      assert Accept(c) == Config(c.runnable.(segment := Some(s)), log');
      StartCounts(c.log, e);
      StartingKeepsLogInv(c.log, log', s);
    }
  }

  /** What appending a start event does to the counts, segment by segment. */
  lemma StartCounts(log: seq<Event>, e: Event)
    requires e.Start?
    ensures Count(log + [e], AnyStart) == Count(log, AnyStart) + 1
    ensures forall id: SegmentId :: Count(log + [e], StartOf(id)) == Count(log, StartOf(id)) + (if id == e.segment then 1 else 0)
    ensures forall id: SegmentId :: Count(log + [e], EndOf(id)) == Count(log, EndOf(id))
    ensures forall id: SegmentId :: Count(log + [e], ReportOf(id)) == Count(log, ReportOf(id))
    ensures forall id: SegmentId :: Count(log + [e], AttrsOf(id)) == Count(log, AttrsOf(id))
  {
    CountSnoc(log, e, AnyStart);
    forall id: SegmentId
      ensures Count(log + [e], StartOf(id)) == Count(log, StartOf(id)) + (if id == e.segment then 1 else 0)
    {
      CountSnoc(log, e, StartOf(id));
    }
    forall id: SegmentId
      ensures Count(log + [e], EndOf(id)) == Count(log, EndOf(id))
    {
      CountSnoc(log, e, EndOf(id));
    }
    forall id: SegmentId
      ensures Count(log + [e], ReportOf(id)) == Count(log, ReportOf(id))
    {
      CountSnoc(log, e, ReportOf(id));
    }
    forall id: SegmentId
      ensures Count(log + [e], AttrsOf(id)) == Count(log, AttrsOf(id))
    {
      CountSnoc(log, e, AttrsOf(id));
    }
  }

  /** Starting the next segment keeps the log well formed and leaves that segment open. */
  lemma StartingKeepsLogInv(log: seq<Event>, log': seq<Event>, s: SegmentId)
    requires LogInv(log) && s == Count(log, AnyStart)
    requires Count(log', AnyStart) == s + 1
    requires forall id: SegmentId :: Count(log', StartOf(id)) == Count(log, StartOf(id)) + (if id == s then 1 else 0)
    requires forall id: SegmentId :: Count(log', EndOf(id)) == Count(log, EndOf(id))
    requires forall id: SegmentId :: Count(log', ReportOf(id)) == Count(log, ReportOf(id))
    requires forall id: SegmentId :: Count(log', AttrsOf(id)) == Count(log, AttrsOf(id))
    ensures LogInv(log') && IsOpen(log', s)
  {
  }

  /** `run` keeps the invariant: it ends only the open segment, once. */
  lemma RunKeepsInv(c: Config)
    requires Inv(c)
    ensures Inv(Run(c))
  {
    if c.runnable.segment.Some? {
      var s := c.runnable.segment.value;
      CloseLogCountPerId(c.log, s, c.runnable);
      CloseLogCount(c.log, s, c.runnable, AnyStart);
      EndingKeepsLogInv(c.log, CloseLog(c.log, s, c.runnable), s);
    }
  }

  /** What `run` appends, segment by segment. */
  lemma CloseLogCountPerId(log: seq<Event>, s: SegmentId, r: RunnableState)
    ensures var log' := CloseLog(log, s, r);
      && (forall id: SegmentId :: Count(log', StartOf(id)) == Count(log, StartOf(id)))
      && (forall id: SegmentId :: Count(log', EndOf(id)) == Count(log, EndOf(id)) + (if id == s then 1 else 0))
      && (forall id: SegmentId :: Count(log', ReportOf(id)) <= Count(log, ReportOf(id)) + (if id == s then 1 else 0))
      && (forall id: SegmentId :: Count(log', AttrsOf(id)) <= Count(log, AttrsOf(id)) + (if id == s then 1 else 0))
  {
    var log' := CloseLog(log, s, r);
    forall id: SegmentId
      ensures Count(log', StartOf(id)) == Count(log, StartOf(id))
    {
      CloseLogCount(log, s, r, StartOf(id));
    }
    forall id: SegmentId
      ensures Count(log', EndOf(id)) == Count(log, EndOf(id)) + (if id == s then 1 else 0)
    {
      CloseLogCount(log, s, r, EndOf(id));
    }
    forall id: SegmentId
      ensures Count(log', ReportOf(id)) <= Count(log, ReportOf(id)) + (if id == s then 1 else 0)
    {
      CloseLogCount(log, s, r, ReportOf(id));
    }
    forall id: SegmentId
      ensures Count(log', AttrsOf(id)) <= Count(log, AttrsOf(id)) + (if id == s then 1 else 0)
    {
      CloseLogCount(log, s, r, AttrsOf(id));
    }
  }

  /** Ending an open segment, with at most one report and one attribute set, keeps the log well formed. */
  lemma EndingKeepsLogInv(log: seq<Event>, log': seq<Event>, s: SegmentId)
    requires LogInv(log) && IsOpen(log, s)
    requires Count(log', AnyStart) == Count(log, AnyStart)
    requires forall id: SegmentId :: Count(log', StartOf(id)) == Count(log, StartOf(id))
    requires forall id: SegmentId :: Count(log', EndOf(id)) == Count(log, EndOf(id)) + (if id == s then 1 else 0)
    requires forall id: SegmentId :: Count(log', ReportOf(id)) <= Count(log, ReportOf(id)) + (if id == s then 1 else 0)
    requires forall id: SegmentId :: Count(log', AttrsOf(id)) <= Count(log, AttrsOf(id)) + (if id == s then 1 else 0)
    ensures LogInv(log') && !IsOpen(log', s)
  {
  }

  /** The error consumer keeps the invariant. */
  lemma ErrorAcceptKeepsInv(c: Config, t: Throwable)
    requires Inv(c)
    ensures Inv(ErrorAccept(c, t))
  {
    CountSnocAll(c.log, NoticeError(t));
    RunKeepsInv(c.(log := c.log + [NoticeError(t)]));
  }

  lemma ApplyKeepsInv(c: Config, st: Step)
    requires Inv(c)
    ensures Inv(Apply(c, st))
  {
    match st
    case AcceptStep => AcceptKeepsInv(c);
    case RunStep => RunKeepsInv(c);
    case ErrorStep(t) => ErrorAcceptKeepsInv(c, t);
  }

  /**
   * Whatever hooks fire, in whatever order, every segment is started at most
   * once, ended at most once, and reported at most once.
   */
  lemma {:induction false} ApplyAllKeepsInv(c: Config, steps: seq<Step>)
    requires Inv(c)
    ensures Inv(ApplyAll(c, steps))
    ensures forall id: SegmentId :: Count(ApplyAll(c, steps).log, EndOf(id)) <= 1
    ensures forall id: SegmentId :: Count(ApplyAll(c, steps).log, ReportOf(id)) <= 1
    decreases |steps|
  {
    if steps != [] {
      ApplyAllKeepsInv(c, steps[..|steps| - 1]);
      ApplyKeepsInv(ApplyAll(c, steps[..|steps| - 1]), steps[|steps| - 1]);
    }
  }

  /**
   * Subscribe followed by any number of `run` calls: exactly one segment is
   * started and ended when the name and transaction are present, none otherwise.
   */
  lemma AcceptThenRuns(c: Config, n: nat)
    requires c.runnable.segment.None?
    requires n >= 1
    ensures var c' := RunTimes(Accept(c), n);
      && Count(c'.log, AnyStart) == Count(c.log, AnyStart) + (if Opens(c.runnable) then 1 else 0)
      && Count(c'.log, AnyEnd) == Count(c.log, AnyEnd) + (if Opens(c.runnable) then 1 else 0)
      && c'.runnable.segment.None?
  {
    RunTimesIsRun(Accept(c), n);
    AcceptSpec(c);
    RunKeepsStartsAndNotices(Accept(c));
    if Opens(c.runnable) {
      RunCounts(Accept(c));
      CountSnoc(c.log, Accept(c).log[|c.log|], AnyEnd);
      assert Accept(c).log == c.log + [Accept(c).log[|c.log|]];
    }
  }

  /** `run` never ends a segment that the runnable does not hold. */
  lemma RunAvoids(c: Config, id: SegmentId)
    requires c.runnable.segment != Some(id)
    ensures Count(Run(c).log, EndOf(id)) == Count(c.log, EndOf(id))
    ensures Count(Run(c).log, AnyStart) == Count(c.log, AnyStart)
    ensures Run(c).runnable.segment.None?
  {
    if c.runnable.segment.Some? {
      var s := c.runnable.segment.value;
      assert Run(c).log == CloseLog(c.log, s, c.runnable);
      assert Count(Run(c).log, AnyStart) == Count(c.log, AnyStart) by {
        CloseLogCount(c.log, s, c.runnable, AnyStart);
      }
      assert Count(Run(c).log, EndOf(id)) == Count(c.log, EndOf(id)) by {
        CloseLogCount(c.log, s, c.runnable, EndOf(id));
      }
    }
  }

  /** No hook invocation ever ends a segment that the runnable no longer holds. */
  lemma ApplyAvoids(c: Config, st: Step, id: SegmentId)
    requires c.runnable.segment != Some(id) && id < Count(c.log, AnyStart)
    ensures var c' := Apply(c, st);
      && c'.runnable.segment != Some(id)
      && id < Count(c'.log, AnyStart)
      && Count(c'.log, EndOf(id)) == Count(c.log, EndOf(id))
  {
    match st
    case AcceptStep =>
      if Opens(c.runnable) {
        var e := Start(Count(c.log, AnyStart), c.runnable.segmentName.value, c.runnable.transaction.value);
        CountSnoc(c.log, e, AnyStart);
        CountSnoc(c.log, e, EndOf(id));
      }
    case RunStep =>
      RunAvoids(c, id);
    case ErrorStep(t) =>
      var d := c.(log := c.log + [NoticeError(t)]);
      CountSnoc(c.log, NoticeError(t), AnyStart);
      CountSnoc(c.log, NoticeError(t), EndOf(id));
      RunAvoids(d, id);
  }

  /** A segment the runnable has let go of stays as ended as it was, whatever follows. */
  lemma {:induction false} LeakIsPermanent(c: Config, steps: seq<Step>, id: SegmentId)
    requires c.runnable.segment != Some(id) && id < Count(c.log, AnyStart)
    ensures var c' := ApplyAll(c, steps);
      && c'.runnable.segment != Some(id)
      && id < Count(c'.log, AnyStart)
      && Count(c'.log, EndOf(id)) == Count(c.log, EndOf(id))
    decreases |steps|
  {
    if steps != [] {
      LeakIsPermanent(c, steps[..|steps| - 1], id);
      ApplyAvoids(ApplyAll(c, steps[..|steps| - 1]), steps[|steps| - 1], id);
    }
  }

  /**
   * A second `accept` without a `run` in between overwrites the field: the
   * first segment stays open and no later hook invocation ever ends it.
   */
  lemma SecondAcceptLeaks(c: Config)
    requires Inv(c) && c.runnable.segment.None? && Opens(c.runnable)
    ensures var first := Count(c.log, AnyStart);
      var c2 := Accept(Accept(c));
      && c2.runnable.segment == Some(first + 1)
      && IsOpen(c2.log, first)
      && forall steps :: Count(ApplyAll(c2, steps).log, EndOf(first)) == 0
  {
    var first := Count(c.log, AnyStart);
    var c2 := Accept(Accept(c));
    SecondAcceptKeepsFirstOpen(c);
    forall steps
      ensures Count(ApplyAll(c2, steps).log, EndOf(first)) == 0
    {
      LeakIsPermanent(c2, steps, first);
    }
  }

  /** After two `accept` calls the runnable holds the second segment and the first one is still open. */
  lemma SecondAcceptKeepsFirstOpen(c: Config)
    requires Inv(c) && c.runnable.segment.None? && Opens(c.runnable)
    ensures var first := Count(c.log, AnyStart);
      var c2 := Accept(Accept(c));
      && c2.runnable.segment == Some(first + 1)
      && IsOpen(c2.log, first)
      && first < Count(c2.log, AnyStart)
  {
    var first := Count(c.log, AnyStart);
    var c1 := Accept(c);
    AcceptSpec(c);
    AcceptKeepsInv(c);
    AcceptSpec(c1);
    var c2 := Accept(c1);
    var e := Start(first + 1, c.runnable.segmentName.value, c.runnable.transaction.value);
    assert c2.log == c1.log + [e];
    CountSnoc(c1.log, e, StartOf(first));
    CountSnoc(c1.log, e, EndOf(first));
  }

  /**
   * Two error deliveries notice the error twice but end the segment at most
   * once, because the second `run` finds the field null.
   */
  lemma ErrorTwice(c: Config, t1: Throwable, t2: Throwable)
    ensures var c' := ErrorAccept(ErrorAccept(c, t1), t2);
      && Count(c'.log, AnyNotice) == Count(c.log, AnyNotice) + 2
      && Count(c'.log, AnyEnd) == Count(c.log, AnyEnd) + (if c.runnable.segment.Some? then 1 else 0)
      && c'.runnable.segment.None?
  {
    var c1 := ErrorAccept(c, t1);
    ErrorAcceptCounts(c, t1);
    ErrorAcceptCounts(c1, t2);
  }

  /** The error consumer notices the error once, ends the segment the runnable holds, and nulls the field. */
  lemma ErrorAcceptCounts(c: Config, t: Throwable)
    ensures var c' := ErrorAccept(c, t);
      && Count(c'.log, AnyStart) == Count(c.log, AnyStart)
      && Count(c'.log, AnyNotice) == Count(c.log, AnyNotice) + 1
      && Count(c'.log, AnyEnd) == Count(c.log, AnyEnd) + (if c.runnable.segment.Some? then 1 else 0)
      && c'.runnable == c.runnable.(segment := None)
  {
    var d := c.(log := c.log + [NoticeError(t)]);
    assert Count(d.log, AnyStart) == Count(c.log, AnyStart) by {
      CountSnoc(c.log, NoticeError(t), AnyStart);
    }
    assert Count(d.log, AnyNotice) == Count(c.log, AnyNotice) + 1 by {
      CountSnoc(c.log, NoticeError(t), AnyNotice);
    }
    assert Count(d.log, AnyEnd) == Count(c.log, AnyEnd) by {
      CountSnoc(c.log, NoticeError(t), AnyEnd);
    }
    RunKeepsStartsAndNotices(d);
    if d.runnable.segment.Some? {
      RunCounts(d);
    }
  }
}
