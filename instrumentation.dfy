/**
 * CompletionRunnable and ErrorConsumer as the objects they are: fields that
 * the hooks update in place, and calls into the agent. Each method is proved
 * to move the pair (fields, agent log) exactly as the pure state machine of
 * SpanLifecycle does, so every property proved there holds of these objects.
 */
module Instrumentation {
  import opened Wrappers
  import opened NewRelicApi
  import SpanLifecycle

  /** The span object registered on the subscribe, terminate, complete and cancel hooks. */
  class CompletionRunnable {
    var segment: Option<SegmentId>
    const params: Option<DatastoreParameters>
    const segmentName: Option<string>
    const transaction: Option<Transaction>
    var attributes: Option<map<string, string>>
    /** The agent that the segment calls go to. */
    const agent: Agent

    /** The runnable's fields as a value. */
    function State(): SpanLifecycle.RunnableState
      reads this
    {
      SpanLifecycle.RunnableState(segment, params, segmentName, transaction, attributes)
    }

    /** The fields together with everything the agent has been told. */
    ghost function Snapshot(): SpanLifecycle.Config
      reads this, agent
    {
      SpanLifecycle.Config(State(), agent.log)
    }

    /** `new CompletionRunnable(seg, p, t)`: stores its arguments; no segment, no attributes. */
    constructor (seg: Option<string>, p: Option<DatastoreParameters>, t: Option<Transaction>, agent: Agent)
      ensures State() == SpanLifecycle.Fresh(seg, p, t)
      ensures this.agent == agent
    {
      segment := None;
      params := p;
      segmentName := seg;
      transaction := t;
      attributes := None;
      this.agent := agent;
    }

    /** `setAttributes(m)`: replaces any previous map; touches no other field and not the agent. */
    method SetAttributes(m: Option<map<string, string>>)
      modifies this
      ensures State() == old(State()).(attributes := m)
    {
      attributes := m;
    }

    /** `accept(t)`, the subscribe hook. */
    method Accept()
      requires agent.Valid()
      modifies this, agent
      ensures agent.Valid()
      ensures Snapshot() == SpanLifecycle.Accept(old(Snapshot()))
    {
      if segmentName.Some? && segmentName.value != "" {
        if transaction.Some? {
          var s := agent.StartSegment(transaction.value, segmentName.value);
          segment := Some(s);
        }
      }
    }

    /** `run()`, the terminate, complete and cancel hook. */
    method Run()
      requires agent.Valid()
      modifies this, agent
      ensures agent.Valid()
      ensures Snapshot() == SpanLifecycle.Run(old(Snapshot()))
    {
      if segment.Some? {
        var s := segment.value;
        if params.Some? {
          agent.ReportAsExternal(s, params.value);
        }
        if attributes.Some? {
          agent.AddCustomAttributes(s, attributes.value);
        }
        agent.EndSegment(s);
        segment := None;
      }
    }
  }

  /** The error hook: notices the error, then closes the span of the bound runnable. */
  class ErrorConsumer {
    const runnable: CompletionRunnable?
    const agent: Agent

    /** `new ErrorConsumer(r)`: stores the runnable unchanged. */
    constructor (r: CompletionRunnable?, agent: Agent)
      ensures runnable == r && this.agent == agent
    {
      runnable := r;
      this.agent := agent;
    }

    /** `accept(t)`: `noticeError(t)` first, then `run()` on a non-null runnable. */
    method Accept(t: Throwable)
      requires agent.Valid()
      requires runnable != null ==> runnable.agent == agent
      modifies agent, runnable
      ensures agent.Valid()
      ensures runnable != null ==>
        runnable.Snapshot() == SpanLifecycle.ErrorAccept(old(runnable.Snapshot()), t)
      ensures runnable == null ==> agent.log == old(agent.log) + [Event.NoticeError(t)]
    {
      agent.NoticeError(t);
      if runnable != null {
        runnable.Run();
      }
    }
  }
}
