/** The drains the hooks are reasoned about with are the worker's own batch loop: the run of
    `Execute` steps of a device queue that holds the batch, with the runtime's answers. */
module HookedQueue {
  import opened Lifecycle
  import opened DeviceQueue
  import opened Hooks
  import ProcessHost
  import AdapterHook

  // ---------------------------------------------------------------------------
  // The batch loop over any runtime
  // ---------------------------------------------------------------------------

  /** What the worker's remaining batch holds. */
  function Left(worker: Worker): nat {
    if worker.Running? then |worker.todo| else 0
  }

  /** The `Execute` steps of a batch. `edge` is the runtime: what one request makes of it, and what it
      answers meanwhile; `at` numbers the requests. */
  function Loop<R>(edge: (R, TransitionRequest, nat) -> (R, Replies), s: DeviceState, rt: R, at: nat)
    : (DeviceState, R)
    decreases Left(s.worker)
  {
    if Left(s.worker) == 0 then (s, rt)
    else
      var (next, replies) := edge(rt, s.worker.todo[0], at);
      Loop(edge, AfterExecute(s, replies), next, at + 1)
  }

  /** The same on the runtime alone. */
  function Drain<R>(
      edge: (R, TransitionRequest, nat) -> (R, Replies), rt: R, requests: seq<TransitionRequest>, at: nat): R
    decreases |requests|
  {
    if requests == [] then rt
    else
      var (next, replies) := edge(rt, requests[0], at);
      if AttemptOf(requests[0], replies).Succeeded() then Drain(edge, next, requests[1..], at + 1) else next
  }

  /** Executing steps touch neither the queues nor the parameters. */
  predicate OnlyExecuted(s: DeviceState, t: DeviceState) {
    && t.worker == Waiting
    && t.parameters == s.parameters && t.revision == s.revision && t.pending == s.pending
    && t.urgent == s.urgent && t.normal == s.normal && t.running == s.running && t.stopping == s.stopping
  }

  /** The queue's loop drains the batch, and then waits again. */
  lemma {:induction false} LoopDrains<R>(
      edge: (R, TransitionRequest, nat) -> (R, Replies), s: DeviceState, rt: R,
      requests: seq<TransitionRequest>, at: nat)
    requires s.worker == Resume(requests)
    ensures Loop(edge, s, rt, at).1 == Drain(edge, rt, requests, at)
    ensures OnlyExecuted(s, Loop(edge, s, rt, at).0)
    decreases |requests|
  {
    if requests == [] {
    } else {
      var (next, replies) := edge(rt, requests[0], at);
      if AttemptOf(requests[0], replies).Succeeded() {
        LoopDrains(edge, AfterExecute(s, replies), next, requests[1..], at + 1);
      }
    }
  }

  /** The answers of a runtime that never throws. */
  function Answered(source: LifecycleState, result: TransitionResult, after: LifecycleState): Replies {
    Replies(Returned(source), Returned(result), Returned(after), after)
  }

  lemma AnsweredSucceeds(
      request: TransitionRequest, source: LifecycleState, result: TransitionResult, after: LifecycleState)
    ensures AttemptOf(request, Answered(source, result, after)).Succeeded()
      <==> source == request.from && result == Success && after == request.target
  {
  }

  // ---------------------------------------------------------------------------
  // The three runtimes
  // ---------------------------------------------------------------------------

  function ProcessEdge(sources: set<string>, edges: nat -> ProcessHost.EdgeWeather)
    : (ProcessHost.Process, TransitionRequest, nat) -> (ProcessHost.Process, Replies)
  {
    (p: ProcessHost.Process, request: TransitionRequest, at: nat) =>
      var q := ProcessHost.Reaped(p, edges(at).before);
      if q.cached != request.from then (q, Answered(q.cached, Failure, q.cached))
      else
        var (r, result) := ProcessHost.Performed(q, sources, request, edges(at).edge);
        var t := ProcessHost.Reaped(r, edges(at).after);
        (t, Answered(q.cached, result, t.cached))
  }

  lemma {:induction false} ProcessDrains(
      p: ProcessHost.Process, sources: set<string>, requests: seq<TransitionRequest>,
      edges: nat -> ProcessHost.EdgeWeather, at: nat)
    ensures ProcessHost.Drained(p, sources, requests, edges, at)
      == Drain(ProcessEdge(sources, edges), p, requests, at)
    decreases |requests|
  {
    if requests == [] {
    } else {
      var q := ProcessHost.Reaped(p, edges(at).before);
      var (r, result) := ProcessHost.Performed(q, sources, requests[0], edges(at).edge);
      var t := ProcessHost.Reaped(r, edges(at).after);
      AnsweredSucceeds(requests[0], q.cached, Failure, q.cached);
      AnsweredSucceeds(requests[0], q.cached, result, t.cached);
      ProcessDrains(t, sources, requests[1..], edges, at + 1);
    }
  }

  function InProcessEdge(opens: bool): (InProcess, TransitionRequest, nat) -> (InProcess, Replies) {
    (r: InProcess, request: TransitionRequest, at: nat) =>
      if r.state != request.from then (r, Answered(r.state, Failure, r.state))
      else
        var (q, result) := InProcessPerform(r, request, opens);
        (q, Answered(r.state, result, q.state))
  }

  lemma {:induction false} InProcessDrains(r: InProcess, requests: seq<TransitionRequest>, opens: bool, at: nat)
    ensures InProcessDrain(r, requests, opens) == Drain(InProcessEdge(opens), r, requests, at)
    decreases |requests|
  {
    if requests == [] {
    } else {
      var (next, replies) := InProcessEdge(opens)(r, requests[0], at);
      AnsweredSucceeds(requests[0], replies.source.value, replies.outcome.value, replies.after.value);
      InProcessDrains(next, requests[1..], opens, at + 1);
    }
  }

  function NodeEdge(): (LifecycleState, TransitionRequest, nat) -> (LifecycleState, Replies) {
    (state: LifecycleState, request: TransitionRequest, at: nat) =>
      if state != request.from then (state, Answered(state, Failure, state))
      else
        var (next, result) := AdapterHook.NodePerform(state, request);
        (next, Answered(state, result, next))
  }

  lemma {:induction false} NodeDrains(state: LifecycleState, requests: seq<TransitionRequest>, at: nat)
    ensures AdapterHook.NodeDrain(state, requests) == Drain(NodeEdge(), state, requests, at)
    decreases |requests|
  {
    if requests == [] {
    } else {
      var (next, replies) := NodeEdge()(state, requests[0], at);
      AnsweredSucceeds(requests[0], replies.source.value, replies.outcome.value, replies.after.value);
      NodeDrains(next, requests[1..], at + 1);
    }
  }

  // ---------------------------------------------------------------------------
  // Ticks are steps of the queue
  // ---------------------------------------------------------------------------

  /** A tick of the process hook leaves the process where the queue's worker leaves it, once it has
      begun the batch the hook asked for. */
  lemma ProcessTickIsTheQueue(
      c: ProcessHost.Config, h: ProcessHost.Hosted, w: ProcessHost.Weather, s: DeviceState)
    requires s.worker ==
      Resume(ProcessRequests(h.handled, ProcessHost.ContextOf(c, ProcessHost.Noticed(h.process, w))))
    ensures var seen := ProcessHost.Noticed(h.process, w);
      var (t, p) := Loop(ProcessEdge(c.sources, w.edges), s, seen, 0);
      p == ProcessHost.Ticked(c, h, w).process && OnlyExecuted(s, t)
  {
    var seen := ProcessHost.Noticed(h.process, w);
    var requests := ProcessRequests(h.handled, ProcessHost.ContextOf(c, seen));
    LoopDrains(ProcessEdge(c.sources, w.edges), s, seen, requests, 0);
    ProcessDrains(seen, c.sources, requests, w.edges, 0);
  }

  lemma InProcessTickIsTheQueue(setting: Setting, h: Plugged, s: DeviceState)
    requires s.worker == Resume(InProcessRequests(h.handled, Context(setting, h.runtime.state)))
    ensures var (t, r) := Loop(InProcessEdge(true), s, h.runtime, 0);
      r == PluggedTicked(setting, h).runtime && OnlyExecuted(s, t)
  {
    var requests := InProcessRequests(h.handled, Context(setting, h.runtime.state));
    LoopDrains(InProcessEdge(true), s, h.runtime, requests, 0);
    InProcessDrains(h.runtime, requests, true, 0);
  }

  lemma NodeTickIsTheQueue(setting: Setting, h: AdapterHook.Node, s: DeviceState)
    requires s.worker == Resume(AdapterHook.AdapterRequests(h.handled, Context(setting, h.state)))
    ensures var (t, state) := Loop(NodeEdge(), s, h.state, 0);
      state == AdapterHook.NodeTicked(setting, h).state && OnlyExecuted(s, t)
  {
    var requests := AdapterHook.AdapterRequests(h.handled, Context(setting, h.state));
    LoopDrains(NodeEdge(), s, h.state, requests, 0);
    NodeDrains(h.state, requests, 0);
  }
}
