/**
 * The reactive result of a traced call, seen only through the hooks the
 * instrumentation registers on it. A call site chains `doOnSubscribe`,
 * `doOnTerminate`, `doOnComplete`, `doOnCancel` and `doOnError` in a fixed
 * order; when a signal passes through the chain, every hook that reacts to it
 * runs, in registration order.
 */
module Signals {
  import opened Wrappers
  import opened NewRelicApi
  import opened SpanLifecycle
  import Instrumentation

  /** The signals of a Mono or Flux that the hooks react to. */
  datatype Signal = Subscribe | Complete | Error(error: Throwable) | Cancel

  /** The hook-registering operators. */
  datatype Hook = OnSubscribe | OnTerminate | OnComplete | OnCancel | OnError

  /** Whether a hook runs when the signal passes it: terminate reacts to both completion and error. */
  predicate Fires(h: Hook, s: Signal) {
    match h
    case OnSubscribe => s.Subscribe?
    case OnTerminate => s.Complete? || s.Error?
    case OnComplete => s.Complete?
    case OnCancel => s.Cancel?
    case OnError => s.Error?
  }

  /**
   * What a firing hook does: the subscribe hook is the runnable's `accept`, the
   * error hook is the ErrorConsumer, the others are the runnable's `run`.
   */
  function StepOf(h: Hook, s: Signal): Step
    requires Fires(h, s)
  {
    match h
    case OnSubscribe => AcceptStep
    case OnError => ErrorStep(s.error)
    case _ => RunStep
  }

  /** The hook invocations a signal causes, in registration order. */
  function Steps(hooks: seq<Hook>, s: Signal): seq<Step>
    decreases |hooks|
  {
    if hooks == [] then []
    else (if Fires(hooks[0], s) then [StepOf(hooks[0], s)] else []) + Steps(hooks[1..], s)
  }

  /** The hook invocations a sequence of signals causes. */
  function Trace(hooks: seq<Hook>, signals: seq<Signal>): seq<Step>
    decreases |signals|
  {
    if signals == [] then []
    else Steps(hooks, signals[0]) + Trace(hooks, signals[1..])
  }

  /** One signal passing through the hooks. */
  function Deliver(hooks: seq<Hook>, s: Signal, c: Config): Config {
    ApplyAll(c, Steps(hooks, s))
  }

  /** A sequence of signals passing through the hooks. */
  function Replay(hooks: seq<Hook>, signals: seq<Signal>, c: Config): Config {
    ApplyAll(c, Trace(hooks, signals))
  }

  /** How many error deliveries a sequence of steps makes. */
  function ErrorSteps(steps: seq<Step>): (n: nat)
    ensures n <= |steps|
    decreases |steps|
  {
    if steps == [] then 0 else (if steps[0].ErrorStep? then 1 else 0) + ErrorSteps(steps[1..])
  }

  /** No error delivery exactly when the count is zero; only error deliveries exactly when it is the length. */
  lemma {:induction false} ErrorStepsExtremes(steps: seq<Step>)
    ensures ErrorSteps(steps) == 0 <==> forall i :: 0 <= i < |steps| ==> !steps[i].ErrorStep?
    ensures ErrorSteps(steps) == |steps| <==> forall i :: 0 <= i < |steps| ==> steps[i].ErrorStep?
    decreases |steps|
  {
    if steps != [] {
      var rest := steps[1..];
      ErrorStepsExtremes(rest);
      assert forall i :: 0 <= i < |rest| ==> rest[i] == steps[i + 1];
    }
  }

  /** Steps of hooks registered one after the other are the steps of each, in order. */
  lemma {:induction false} StepsAppend(a: seq<Hook>, b: seq<Hook>, s: Signal)
    ensures Steps(a + b, s) == Steps(a, s) + Steps(b, s)
    decreases |a|
  {
    if a == [] {
      assert a + b == b;
    } else {
      assert (a + b)[0] == a[0];
      assert (a + b)[1..] == a[1..] + b;
      StepsAppend(a[1..], b, s);
    }
  }

  lemma {:induction false} ApplyAllAppend(c: Config, a: seq<Step>, b: seq<Step>)
    ensures ApplyAll(c, a + b) == ApplyAll(ApplyAll(c, a), b)
    decreases |b|
  {
    if b == [] {
      assert a + b == a;
    } else {
      assert (a + b)[..|a + b| - 1] == a + b[..|b| - 1];
      ApplyAllAppend(c, a, b[..|b| - 1]);
    }
  }

  /** A sequence of signals is delivered one signal after another. */
  lemma ReplaySnoc(hooks: seq<Hook>, signals: seq<Signal>, s: Signal, c: Config)
    ensures Replay(hooks, signals + [s], c) == Deliver(hooks, s, Replay(hooks, signals, c))
  {
    TraceSnoc(hooks, signals, s);
    ApplyAllAppend(c, Trace(hooks, signals), Steps(hooks, s));
  }

  lemma {:induction false} TraceSnoc(hooks: seq<Hook>, signals: seq<Signal>, s: Signal)
    ensures Trace(hooks, signals + [s]) == Trace(hooks, signals) + Steps(hooks, s)
    decreases |signals|
  {
    if signals == [] {
      assert Trace(hooks, [s]) == Steps(hooks, s) + Trace(hooks, []);
    } else {
      assert (signals + [s])[1..] == signals[1..] + [s];
      TraceSnoc(hooks, signals[1..], s);
    }
  }

  /** The subscribe signal only reaches subscribe hooks. */
  lemma {:induction false} SubscribeSteps(hooks: seq<Hook>)
    ensures |Steps(hooks, Subscribe)| == multiset(hooks)[OnSubscribe]
    ensures forall i :: 0 <= i < |Steps(hooks, Subscribe)| ==> Steps(hooks, Subscribe)[i] == AcceptStep
    decreases |hooks|
  {
    if hooks != [] {
      assert hooks == [hooks[0]] + hooks[1..];
      SubscribeSteps(hooks[1..]);
    }
  }

  /** A terminal signal only reaches closing hooks; an error reaches every error hook. */
  lemma TerminalSteps(hooks: seq<Hook>, s: Signal)
    requires !s.Subscribe?
    ensures forall i :: 0 <= i < |Steps(hooks, s)| ==> !Steps(hooks, s)[i].AcceptStep?
    ensures ErrorSteps(Steps(hooks, s)) == if s.Error? then multiset(hooks)[OnError] else 0
  {
    TerminalStepsClose(hooks, s);
    TerminalErrorSteps(hooks, s);
  }

  lemma {:induction false} TerminalStepsClose(hooks: seq<Hook>, s: Signal)
    requires !s.Subscribe?
    ensures forall i :: 0 <= i < |Steps(hooks, s)| ==> !Steps(hooks, s)[i].AcceptStep?
    decreases |hooks|
  {
    if hooks != [] {
      TerminalStepsClose(hooks[1..], s);
    }
  }

  lemma {:induction false} TerminalErrorSteps(hooks: seq<Hook>, s: Signal)
    requires !s.Subscribe?
    ensures ErrorSteps(Steps(hooks, s)) == if s.Error? then multiset(hooks)[OnError] else 0
    decreases |hooks|
  {
    if hooks != [] {
      assert hooks == [hooks[0]] + hooks[1..];
      TerminalErrorSteps(hooks[1..], s);
      var head := if Fires(hooks[0], s) then [StepOf(hooks[0], s)] else [];
      ErrorStepsAppend(head, Steps(hooks[1..], s));
    }
  }

  lemma {:induction false} ErrorStepsAppend(a: seq<Step>, b: seq<Step>)
    ensures ErrorSteps(a + b) == ErrorSteps(a) + ErrorSteps(b)
    decreases |a|
  {
    if a == [] {
      assert a + b == b;
    } else {
      assert (a + b)[1..] == a[1..] + b;
      ErrorStepsAppend(a[1..], b);
    }
  }

  /** One closing step: it ends the segment the runnable holds, if any, and notices an error it carries. */
  lemma ClosingStep(d: Config, st: Step)
    requires !st.AcceptStep?
    ensures var d' := Apply(d, st);
      && Count(d'.log, AnyStart) == Count(d.log, AnyStart)
      && Count(d'.log, AnyEnd) == Count(d.log, AnyEnd) + (if d.runnable.segment.Some? then 1 else 0)
      && Count(d'.log, AnyNotice) == Count(d.log, AnyNotice) + (if st.ErrorStep? then 1 else 0)
      && d'.runnable == d.runnable.(segment := None)
  {
    match st
    case RunStep =>
      RunKeepsStartsAndNotices(d);
      if d.runnable.segment.Some? {
        RunCounts(d);
      }
    case ErrorStep(t) =>
      ErrorAcceptCounts(d, t);
  }

  /**
   * Closing steps (`run` and error deliveries) in any number: the first one
   * ends the segment the runnable holds, the others find the field null; every
   * error delivery notices its error; no segment is started.
   */
  lemma {:induction false} ClosingSteps(c: Config, steps: seq<Step>)
    requires forall i :: 0 <= i < |steps| ==> !steps[i].AcceptStep?
    ensures var c' := ApplyAll(c, steps);
      && Count(c'.log, AnyStart) == Count(c.log, AnyStart)
      && Count(c'.log, AnyEnd) == Count(c.log, AnyEnd) + (if c.runnable.segment.Some? && steps != [] then 1 else 0)
      && Count(c'.log, AnyNotice) == Count(c.log, AnyNotice) + ErrorSteps(steps)
      && (steps == [] ==> c' == c)
      && (steps != [] ==> c'.runnable == c.runnable.(segment := None))
    decreases |steps|
  {
    if steps != [] {
      var init := steps[..|steps| - 1];
      var last := steps[|steps| - 1];
      ClosingSteps(c, init);
      assert steps == init + [last];
      ErrorStepsAppend(init, [last]);
      assert ErrorSteps([last]) == (if last.ErrorStep? then 1 else 0) + ErrorSteps([]);
      ClosingStep(ApplyAll(c, init), last);
    }
  }

  /** Every signal sequence keeps the invariant: each segment is ended and reported at most once. */
  lemma ReplayKeepsInv(hooks: seq<Hook>, signals: seq<Signal>, c: Config)
    requires Inv(c)
    ensures Inv(Replay(hooks, signals, c))
    ensures forall id: SegmentId :: Count(Replay(hooks, signals, c).log, EndOf(id)) <= 1
    ensures forall id: SegmentId :: Count(Replay(hooks, signals, c).log, ReportOf(id)) <= 1
  {
    ApplyAllKeepsInv(c, Trace(hooks, signals));
  }

  /** Trace of signals none of which is a subscribe contains no `accept`. */
  lemma {:induction false} TraceWithoutSubscribe(hooks: seq<Hook>, signals: seq<Signal>)
    requires forall i :: 0 <= i < |signals| ==> !signals[i].Subscribe?
    ensures forall i :: 0 <= i < |Trace(hooks, signals)| ==> !Trace(hooks, signals)[i].AcceptStep?
    decreases |signals|
  {
    if signals != [] {
      TerminalSteps(hooks, signals[0]);
      TraceWithoutSubscribe(hooks, signals[1..]);
    }
  }

  /** A result that is never subscribed starts no segment, whatever else it signals. */
  lemma NeverSubscribedStartsNothing(hooks: seq<Hook>, signals: seq<Signal>, c: Config)
    requires forall i :: 0 <= i < |signals| ==> !signals[i].Subscribe?
    ensures Count(Replay(hooks, signals, c).log, AnyStart) == Count(c.log, AnyStart)
    ensures c.runnable.segment.None? ==> Count(Replay(hooks, signals, c).log, AnyEnd) == Count(c.log, AnyEnd)
  {
    TraceWithoutSubscribe(hooks, signals);
    ClosingSteps(c, Trace(hooks, signals));
  }

  /** Whether some registered hook closes the span on the terminal signal. */
  predicate Closes(hooks: seq<Hook>, s: Signal) {
    exists i :: 0 <= i < |hooks| && Fires(hooks[i], s)
  }

  lemma {:induction false} StepsEmptyIff(hooks: seq<Hook>, s: Signal)
    ensures Steps(hooks, s) == [] <==> !Closes(hooks, s)
    decreases |hooks|
  {
    if hooks != [] {
      StepsEmptyIff(hooks[1..], s);
      if Closes(hooks[1..], s) {
        var i :| 0 <= i < |hooks[1..]| && Fires(hooks[1..][i], s);
        assert Fires(hooks[i + 1], s);
      }
      if Closes(hooks, s) && !Fires(hooks[0], s) {
        var i :| 0 <= i < |hooks| && Fires(hooks[i], s);
        assert Fires(hooks[1..][i - 1], s);
      }
    }
  }

  /**
   * Subscribe followed by one terminal signal, on a wiring with one subscribe
   * hook: a segment is started exactly when the runnable opens one; it is
   * ended exactly once when some hook reacts to the terminal signal and stays
   * open otherwise; each error hook notices the error once.
   */
  lemma SubscribeThenTerminal(hooks: seq<Hook>, c: Config, t: Signal)
    requires multiset(hooks)[OnSubscribe] == 1
    requires Inv(c) && c.runnable.segment.None?
    requires !t.Subscribe?
    ensures var c' := Replay(hooks, [Subscribe, t], c);
      && Inv(c')
      && Count(c'.log, AnyStart) == Count(c.log, AnyStart) + (if Opens(c.runnable) then 1 else 0)
      && Count(c'.log, AnyEnd) == Count(c.log, AnyEnd) + (if Opens(c.runnable) && Closes(hooks, t) then 1 else 0)
      && Count(c'.log, AnyNotice) == Count(c.log, AnyNotice) + (if t.Error? then multiset(hooks)[OnError] else 0)
      && c'.runnable.segment.Some? == (Opens(c.runnable) && !Closes(hooks, t))
  {
    SubscribeThenOther(hooks, c, t);
    var c1 := Accept(c);
    AcceptCounts(c);
    TerminalSteps(hooks, t);
    StepsEmptyIff(hooks, t);
    ClosingSteps(c1, Steps(hooks, t));
    ReplayKeepsInv(hooks, [Subscribe, t], c);
  }

  /** On a wiring with one subscribe hook, subscribe is `accept`, and the next signal acts on its result. */
  lemma SubscribeThenOther(hooks: seq<Hook>, c: Config, t: Signal)
    requires multiset(hooks)[OnSubscribe] == 1
    ensures Replay(hooks, [Subscribe, t], c) == ApplyAll(Accept(c), Steps(hooks, t))
  {
    SubscribeSteps(hooks);
    var sub := Steps(hooks, Subscribe);
    assert sub == [AcceptStep];
    assert [Subscribe, t][1..] == [t] && [t][1..] == [];
    assert Trace(hooks, [Subscribe, t]) == sub + Trace(hooks, [t]);
    assert Trace(hooks, [t]) == Steps(hooks, t) + Trace(hooks, []);
    assert Trace(hooks, [Subscribe, t]) == sub + Steps(hooks, t);
    assert sub[..|sub| - 1] == [];
    assert ApplyAll(c, sub) == Apply(ApplyAll(c, []), AcceptStep);
    assert ApplyAll(c, sub) == Accept(c);
    ApplyAllAppend(c, sub, Steps(hooks, t));
  }

  /** `accept` adds one start when it opens a segment, and no end or notice. */
  lemma AcceptCounts(c: Config)
    ensures Count(Accept(c).log, AnyStart) == Count(c.log, AnyStart) + (if Opens(c.runnable) then 1 else 0)
    ensures Count(Accept(c).log, AnyEnd) == Count(c.log, AnyEnd)
    ensures Count(Accept(c).log, AnyNotice) == Count(c.log, AnyNotice)
    ensures Accept(c).runnable.segment.Some? == (Opens(c.runnable) || c.runnable.segment.Some?)
  {
    if Opens(c.runnable) {
      var e := Start(Count(c.log, AnyStart), c.runnable.segmentName.value, c.runnable.transaction.value);
      CountSnoc(c.log, e, AnyStart);
      CountSnoc(c.log, e, AnyEnd);
      CountSnoc(c.log, e, AnyNotice);
    }
  }

  /** The hook chains of the call sites, in registration order. */
  datatype Wiring =
    | SubscribeCancelTerminateError   // most Mono sites
    | SubscribeTerminateCancelError   // the 4.0 sites and some 4.19-4.28 sites
    | SubscribeCancelCompleteError    // the query and Flux sites
    | SubscribeCancelTerminateTwiceError  // createContainerIfNotExists, createDatabaseIfNotExistsInternal
    | SubscribeTerminate              // 4.x readItem

  function Hooks(w: Wiring): (hooks: seq<Hook>)
    ensures |hooks| >= 2 && hooks[0] == OnSubscribe
    ensures OnError in hooks <==> w != SubscribeTerminate
    ensures OnCancel in hooks <==> w != SubscribeTerminate
    ensures OnComplete in hooks <==> w == SubscribeCancelCompleteError
    ensures OnTerminate in hooks <==> w != SubscribeCancelCompleteError
  {
    match w
    case SubscribeCancelTerminateError => [OnSubscribe, OnCancel, OnTerminate, OnError]
    case SubscribeTerminateCancelError => [OnSubscribe, OnTerminate, OnCancel, OnError]
    case SubscribeCancelCompleteError => [OnSubscribe, OnCancel, OnComplete, OnError]
    case SubscribeCancelTerminateTwiceError => [OnSubscribe, OnCancel, OnTerminate, OnTerminate, OnError]
    case SubscribeTerminate => [OnSubscribe, OnTerminate]
  }

  /**
   * Which terminal signals close the span, and how many error hooks each
   * wiring has: every wiring but 4.x readItem's closes on every terminal
   * signal and notices an error once; readItem's does not close on cancel
   * and never notices.
   */
  lemma WiringFacts(w: Wiring, t: Signal)
    requires !t.Subscribe?
    ensures Closes(Hooks(w), t) <==> !(w == SubscribeTerminate && t.Cancel?)
    ensures multiset(Hooks(w))[OnSubscribe] == 1
    ensures multiset(Hooks(w))[OnError] == if w == SubscribeTerminate then 0 else 1
  {
    WiringCloses(w, t);
    HookCounts(w);
  }

  lemma WiringCloses(w: Wiring, t: Signal)
    requires !t.Subscribe?
    ensures Closes(Hooks(w), t) <==> !(w == SubscribeTerminate && t.Cancel?)
  {
    var hooks := Hooks(w);
    match w
    case SubscribeTerminate =>
      if t.Cancel? {
        assert forall i :: 0 <= i < |hooks| ==> !Fires(hooks[i], t);
      } else {
        assert Fires(hooks[1], t);
      }
    case SubscribeTerminateCancelError =>
      assert Fires(hooks[if t.Cancel? then 2 else 1], t);
    case SubscribeCancelCompleteError =>
      assert Fires(hooks[if t.Cancel? then 1 else if t.Error? then 3 else 2], t);
    case _ =>
      assert Fires(hooks[if t.Cancel? then 1 else 2], t);
  }

  /** Every wiring registers one subscribe hook, and one error hook except 4.x readItem's, which has none. */
  lemma HookCounts(w: Wiring)
    ensures multiset(Hooks(w))[OnSubscribe] == 1
    ensures multiset(Hooks(w))[OnError] == if w == SubscribeTerminate then 0 else 1
  {
    match w
    case SubscribeCancelTerminateError =>
      assert multiset(Hooks(w)) == multiset{OnSubscribe, OnCancel, OnTerminate, OnError};
    case SubscribeTerminateCancelError =>
      assert multiset(Hooks(w)) == multiset{OnSubscribe, OnTerminate, OnCancel, OnError};
    case SubscribeCancelCompleteError =>
      assert multiset(Hooks(w)) == multiset{OnSubscribe, OnCancel, OnComplete, OnError};
    case SubscribeCancelTerminateTwiceError =>
      assert multiset(Hooks(w)) == multiset{OnSubscribe, OnCancel, OnTerminate, OnTerminate, OnError};
    case SubscribeTerminate =>
      assert multiset(Hooks(w)) == multiset{OnSubscribe, OnTerminate};
  }

  /**
   * The end-to-end claim for every call site: subscribe followed by one
   * terminal signal starts at most one segment and ends it exactly once,
   * except that 4.x readItem leaves it open on cancel; the error is noticed
   * once on every wiring that has an error hook.
   */
  lemma SiteLifecycle(w: Wiring, c: Config, t: Signal)
    requires Inv(c) && c.runnable.segment.None?
    requires !t.Subscribe?
    ensures var c' := Replay(Hooks(w), [Subscribe, t], c);
      var closes := !(w == SubscribeTerminate && t.Cancel?);
      && Count(c'.log, AnyStart) == Count(c.log, AnyStart) + (if Opens(c.runnable) then 1 else 0)
      && Count(c'.log, AnyEnd) == Count(c.log, AnyEnd) + (if Opens(c.runnable) && closes then 1 else 0)
      && Count(c'.log, AnyNotice) == Count(c.log, AnyNotice) + (if t.Error? && w != SubscribeTerminate then 1 else 0)
      && c'.runnable.segment.Some? == (Opens(c.runnable) && !closes)
      && forall id: SegmentId :: Count(c'.log, EndOf(id)) <= 1
  {
    WiringFacts(w, t);
    SubscribeThenTerminal(Hooks(w), c, t);
    ReplayKeepsInv(Hooks(w), [Subscribe, t], c);
  }

  /**
   * The result the instrumented call returns: the original result with the
   * hooks chained on it. Delivering a signal runs the hooks that react to it,
   * in registration order.
   */
  class TracedPublisher {
    const hooks: seq<Hook>
    const runnable: Instrumentation.CompletionRunnable
    /** Null where the site registers no error hook. */
    const errors: Instrumentation.ErrorConsumer?

    ghost predicate Valid() {
      && (errors != null ==> errors.runnable == runnable && errors.agent == runnable.agent)
      && (OnError in hooks ==> errors != null)
    }

    constructor (hooks: seq<Hook>, runnable: Instrumentation.CompletionRunnable, errors: Instrumentation.ErrorConsumer?)
      requires errors != null ==> errors.runnable == runnable && errors.agent == runnable.agent
      requires OnError in hooks ==> errors != null
      ensures Valid()
      ensures this.hooks == hooks && this.runnable == runnable && this.errors == errors
    {
      this.hooks := hooks;
      this.runnable := runnable;
      this.errors := errors;
    }

    /** One signal passes through the chain. */
    method Receive(s: Signal)
      requires Valid() && runnable.agent.Valid()
      modifies runnable, runnable.agent
      ensures runnable.agent.Valid()
      ensures runnable.Snapshot() == Deliver(hooks, s, old(runnable.Snapshot()))
    {
      var i := 0;
      while i < |hooks|
        invariant 0 <= i <= |hooks|
        invariant runnable.agent.Valid()
        invariant runnable.Snapshot() == ApplyAll(old(runnable.Snapshot()), Steps(hooks[..i], s))
      {
        var h := hooks[i];
        ghost var before := runnable.Snapshot();
        StepsAppend(hooks[..i], [h], s);
        assert hooks[..i + 1] == hooks[..i] + [h];
        assert Steps([h], s) == (if Fires(h, s) then [StepOf(h, s)] else []) + Steps([], s);
        ApplyAllAppend(old(runnable.Snapshot()), Steps(hooks[..i], s), Steps([h], s));
        if Fires(h, s) {
          match h {
            case OnSubscribe =>
              runnable.Accept();
            case OnError =>
              assert h in hooks;
              errors.Accept(s.error);
            case _ =>
              runnable.Run();
          }
          assert runnable.Snapshot() == ApplyAll(before, [StepOf(h, s)]);
        }
        i := i + 1;
      }
      assert hooks[..|hooks|] == hooks;
    }

    /** The signals pass through the chain one after another. */
    method ReceiveAll(signals: seq<Signal>)
      requires Valid() && runnable.agent.Valid()
      modifies runnable, runnable.agent
      ensures runnable.agent.Valid()
      ensures runnable.Snapshot() == Replay(hooks, signals, old(runnable.Snapshot()))
    {
      var i := 0;
      while i < |signals|
        invariant 0 <= i <= |signals|
        invariant runnable.agent.Valid()
        invariant runnable.Snapshot() == Replay(hooks, signals[..i], old(runnable.Snapshot()))
      {
        ReplaySnoc(hooks, signals[..i], signals[i], old(runnable.Snapshot()));
        assert signals[..i + 1] == signals[..i] + [signals[i]];
        Receive(signals[i]);
        i := i + 1;
      }
      assert signals[..|signals|] == signals;
    }
  }
}
