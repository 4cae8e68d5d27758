/** What the log of every run looks like: queue conservation and priority order, and the shape
    of the runtime-call trace against an adversarial runtime. */
module QueueTrace {
  import opened Lifecycle
  import opened DeviceQueue

  // ---------------------------------------------------------------------------
  // Reading the log
  // ---------------------------------------------------------------------------

  /** Batches of a priority accepted since the queue was last started or stopped. */
  function AcceptedSince(log: seq<Event>, priority: Priority): seq<Batch> {
    if log == [] then []
    else
      var before := AcceptedSince(log[..|log| - 1], priority);
      match log[|log| - 1]
      case Started => []
      case Stopped(_) => []
      case Queued(p, batch) => if p == priority then before + [batch] else before
      case _ => before
  }

  /** Batches of a priority dequeued since the queue was last started or stopped. */
  function TakenSince(log: seq<Event>, priority: Priority): seq<Batch> {
    if log == [] then []
    else
      var before := TakenSince(log[..|log| - 1], priority);
      match log[|log| - 1]
      case Started => []
      case Stopped(_) => []
      case Taken(p, batch) => if p == priority then before + [batch] else before
      case _ => before
  }

  /** Started and not stopped since. */
  predicate Open(log: seq<Event>) {
    log != [] &&
    match log[|log| - 1]
    case Started => true
    case Stopped(_) => false
    case _ => Open(log[..|log| - 1])
  }

  /** Started and the worker has not exited since. */
  predicate Alive(log: seq<Event>) {
    log != [] &&
    match log[|log| - 1]
    case Started => true
    case Exited(_, _) => false
    case _ => Alive(log[..|log| - 1])
  }

  /** A batch the worker started: what was planned, and the `execute` calls made for it. */
  datatype Segment = Segment(planned: seq<TransitionRequest>, attempts: seq<Attempt>)

  function Segments(log: seq<Event>): seq<Segment> {
    if log == [] then []
    else
      var before := Segments(log[..|log| - 1]);
      match log[|log| - 1]
      case Began(requests) => before + [Segment(requests, [])]
      case Attempted(attempt) =>
        if before == [] then before
        else
          var last := before[|before| - 1];
          before[|before| - 1 := Segment(last.planned, last.attempts + [attempt])]
      case _ => before
  }

  // ---------------------------------------------------------------------------
  // Shape predicates
  // ---------------------------------------------------------------------------

  /** The runtime was asked in the source state, reported success, and showed the target. */
  predicate Honoured(attempt: Attempt) {
    && attempt.replies.source == Returned(attempt.request.from)
    && attempt.replies.outcome == Returned(Success)
    && attempt.replies.after == Returned(attempt.request.target)
  }

  /** The calls of a segment are a prefix of its plan, and every call but the last was honoured. */
  predicate Prefix(g: Segment) {
    && |g.attempts| <= |g.planned|
    && (forall k :: 0 <= k < |g.attempts| ==> g.attempts[k].request == g.planned[k])
    && (forall k :: 0 <= k < |g.attempts| - 1 ==> Honoured(g.attempts[k]))
  }

  predicate AllHonoured(g: Segment) {
    forall k :: 0 <= k < |g.attempts| ==> Honoured(g.attempts[k])
  }

  /** The segment ran to its end or stopped at its first failure. */
  predicate Complete(g: Segment) {
    |g.attempts| == |g.planned| || (g.attempts != [] && !Honoured(g.attempts[|g.attempts| - 1]))
  }

  predicate WorkerEvent(e: Event) {
    e.Taken? || e.Handed? || e.Discarded? || e.Planned? || e.Began? || e.Attempted? || e.Exited?
  }

  /** The attempt is the next request of the batch in progress, everything before it was honoured. */
  predicate Continues(segments: seq<Segment>, attempt: Attempt) {
    && segments != []
    && var last := segments[|segments| - 1];
    && |last.attempts| < |last.planned|
    && attempt.request == last.planned[|last.attempts|]
    && AllHonoured(last)
  }

  /** What holds at the instant an event happens, given the log before it. */
  predicate Timely(before: seq<Event>, e: Event) {
    && (WorkerEvent(e) ==> Alive(before))
    && (e.Taken? ==> Open(before))
    && (e.Attempted? ==> Continues(Segments(before), e.attempt))
    && (e.Taken? && e.priority == Normal ==> AcceptedSince(before, Urgent) == TakenSince(before, Urgent))
  }

  predicate AllTimely(log: seq<Event>) {
    forall i :: 0 <= i < |log| ==> Timely(log[..i], log[i])
  }

  predicate SegmentsOk(segments: seq<Segment>) {
    && (forall i :: 0 <= i < |segments| ==> Prefix(segments[i]))
    && (forall i :: 0 <= i < |segments| - 1 ==> Complete(segments[i]))
  }

  // ---------------------------------------------------------------------------
  // The invariant
  // ---------------------------------------------------------------------------

  predicate ControlInv(s: DeviceState) {
    && (s.running ==> !s.stopping && s.worker != Joined && s.worker != Finalizing)
    && (!s.running ==> s.urgent == [] && s.normal == [])
    && (!s.running && s.worker != Joined ==> s.stopping)
    && Open(s.log) == s.running
    && Alive(s.log) == (s.worker != Joined)
  }

  predicate QueueInv(s: DeviceState) {
    && AcceptedSince(s.log, Urgent) == TakenSince(s.log, Urgent) + s.urgent
    && AcceptedSince(s.log, Normal) == TakenSince(s.log, Normal) + s.normal
  }

  /** The worker's remaining requests are the unexecuted rest of the last segment. */
  predicate WorkerMatches(worker: Worker, segments: seq<Segment>) {
    if worker.Running? then
      && segments != []
      && var last := segments[|segments| - 1];
      && |last.attempts| < |last.planned|
      && worker.todo == last.planned[|last.attempts|..]
      && AllHonoured(last)
    else
      segments != [] ==> Complete(segments[|segments| - 1])
  }

  predicate SegmentInv(s: DeviceState) {
    SegmentsOk(Segments(s.log)) && WorkerMatches(s.worker, Segments(s.log))
  }

  predicate TraceInv(s: DeviceState) {
    ControlInv(s) && QueueInv(s) && SegmentInv(s) && AllTimely(s.log)
  }

  // ---------------------------------------------------------------------------
  // Preservation
  // ---------------------------------------------------------------------------

  /** The record of `execute` says "succeeded" exactly for an honoured request. */
  lemma SucceededMeansHonoured(request: TransitionRequest, replies: Replies)
    ensures AttemptOf(request, replies).Succeeded() <==> Honoured(AttemptOf(request, replies))
  {
  }

  lemma TimelyGrows(log: seq<Event>, e: Event)
    requires AllTimely(log) && Timely(log, e)
    ensures AllTimely(log + [e])
  {
    var longer := log + [e];
    forall i | 0 <= i < |longer| ensures Timely(longer[..i], longer[i]) {
      assert i < |log| ==> longer[..i] == log[..i];
      assert longer[..|log|] == log;
    }
  }

  lemma Readings(log: seq<Event>, e: Event)
    ensures Open(log + [e]) == (e.Started? || (Open(log) && !e.Stopped?))
    ensures Alive(log + [e]) == (e.Started? || (Alive(log) && !e.Exited?))
    ensures !e.Began? && !e.Attempted? ==> Segments(log + [e]) == Segments(log)
    ensures e.Began? ==> Segments(log + [e]) == Segments(log) + [Segment(e.requests, [])]
  {
    assert (log + [e])[..|log|] == log;
  }

  lemma QueueReadings(log: seq<Event>, e: Event, p: Priority)
    ensures AcceptedSince(log + [e], p)
         == if e.Started? || e.Stopped? then []
            else AcceptedSince(log, p) + (if e.Queued? && e.priority == p then [e.batch] else [])
    ensures TakenSince(log + [e], p)
         == if e.Started? || e.Stopped? then []
            else TakenSince(log, p) + (if e.Taken? && e.priority == p then [e.batch] else [])
  {
    assert (log + [e])[..|log|] == log;
  }

  /** Nothing but log and worker moves. */
  predicate SameQueues(s: DeviceState, t: DeviceState) {
    t.urgent == s.urgent && t.normal == s.normal && t.running == s.running && t.stopping == s.stopping
  }

  lemma QueueAside(s: DeviceState, t: DeviceState, e: Event)
    requires QueueInv(s) && SameQueues(s, t) && t.log == s.log + [e]
    requires !e.Started? && !e.Stopped? && !e.Queued? && !e.Taken?
    ensures QueueInv(t)
  {
    QueueReadings(s.log, e, Urgent);
    QueueReadings(s.log, e, Normal);
  }

  lemma ControlAside(s: DeviceState, t: DeviceState, e: Event)
    requires ControlInv(s) && SameQueues(s, t) && t.log == s.log + [e]
    requires !e.Started? && !e.Stopped? && !e.Exited?
    requires (t.worker == Joined) == (s.worker == Joined) && (t.worker == Finalizing ==> s.worker == Finalizing)
    ensures ControlInv(t)
  {
    Readings(s.log, e);
  }

  predicate Silent(e: Event) {
    e.Patched? || e.StoredDisabled? || e.Handed? || e.Discarded? || e.Planned?
  }

  /** Positions of the worker between which no batch is begun or left. */
  predicate MovesSilently(before: Worker, after: Worker) {
    || after == before
    || (before.Holding? && (after.Planning? || after == Waiting))
    || (before.Planning? && after == Waiting)
  }

  /** An event none of the readings looks at, with the worker moved between silent positions. */
  lemma SilentStep(s: DeviceState, t: DeviceState, e: Event)
    requires TraceInv(s) && SameQueues(s, t) && t.log == s.log + [e]
    requires Silent(e) && (WorkerEvent(e) ==> s.worker != Joined)
    requires MovesSilently(s.worker, t.worker)
    ensures TraceInv(t)
  {
    Readings(s.log, e);
    ControlAside(s, t, e);
    QueueAside(s, t, e);
    TimelyGrows(s.log, e);
  }

  lemma StartKeeps(s: DeviceState)
    requires TraceInv(s) && Enabled(s, Start)
    ensures TraceInv(AfterStart(s))
  {
    if !s.running {
      Readings(s.log, Started);
      QueueReadings(s.log, Started, Urgent);
      QueueReadings(s.log, Started, Normal);
      TimelyGrows(s.log, Started);
    }
  }

  lemma StopKeeps(s: DeviceState)
    requires TraceInv(s)
    ensures TraceInv(AfterStop(s))
  {
    if s.running {
      var e := Stopped(s.parameters);
      Readings(s.log, e);
      QueueReadings(s.log, e, Urgent);
      QueueReadings(s.log, e, Normal);
      TimelyGrows(s.log, e);
    }
  }

  lemma PushedQueue(s: DeviceState, t: DeviceState, priority: Priority, batch: Batch)
    requires QueueInv(s) && t.log == s.log + [Queued(priority, batch)]
    requires t.urgent == s.urgent + if priority == Urgent then [batch] else []
    requires t.normal == s.normal + if priority == Normal then [batch] else []
    ensures QueueInv(t)
  {
    QueueReadings(s.log, Queued(priority, batch), Urgent);
    QueueReadings(s.log, Queued(priority, batch), Normal);
  }

  lemma PushKeeps(s: DeviceState, t: DeviceState, priority: Priority, batch: Batch)
    requires TraceInv(s) && s.running && t.log == s.log + [Queued(priority, batch)]
    requires t.running == s.running && t.stopping == s.stopping && t.worker == s.worker
    requires t.urgent == s.urgent + if priority == Urgent then [batch] else []
    requires t.normal == s.normal + if priority == Normal then [batch] else []
    ensures TraceInv(t)
  {
    var e := Queued(priority, batch);
    Readings(s.log, e);
    PushedQueue(s, t, priority, batch);
    TimelyGrows(s.log, e);
  }

  lemma DeltaKeeps(s: DeviceState, patch: ParameterMap, priority: Priority)
    requires TraceInv(s) && s.running
    ensures TraceInv(PushDelta(s, patch, priority))
  {
    PushKeeps(s, PushDelta(s, patch, priority), priority, Batch([], Some(s.revision + 1), s.pending + patch));
  }

  lemma PatchKeeps(s: DeviceState, patch: ParameterMap, priority: Priority)
    requires TraceInv(s)
    ensures TraceInv(AfterPatch(s, patch, priority))
  {
    if PatchResult(s, patch) == Accepted {
      var merged := Merged(s, patch);
      SilentStep(s, merged, Patched(patch));
      if !merged.enabled {
        SilentStep(merged, AfterPatch(s, patch, priority), StoredDisabled(merged.parameters));
      } else {
        DeltaKeeps(merged, patch, priority);
      }
    }
  }

  lemma BeganKeeps(segments: seq<Segment>, requests: seq<TransitionRequest>, worker: Worker)
    requires SegmentsOk(segments) && !worker.Running? && WorkerMatches(worker, segments)
    ensures SegmentsOk(segments + [Segment(requests, [])])
    ensures WorkerMatches(Resume(requests), segments + [Segment(requests, [])])
  {
    var grown := segments + [Segment(requests, [])];
    forall i | 0 <= i < |grown| - 1 ensures Complete(grown[i]) {
      assert grown[i] == segments[i];
    }
  }

  lemma TakenQueue(log: seq<Event>, e: Event, p: Priority, queue: seq<Batch>, rest: seq<Batch>)
    requires e.Taken? && AcceptedSince(log, p) == TakenSince(log, p) + queue
    requires queue == (if e.priority == p then [e.batch] else []) + rest
    ensures AcceptedSince(log + [e], p) == TakenSince(log + [e], p) + rest
  {
    QueueReadings(log, e, p);
  }

  /** Taking a batch off its queue, before it starts. */
  lemma TakenKeeps(s: DeviceState, t: DeviceState, priority: Priority, batch: Batch)
    requires TraceInv(s) && s.running && s.worker == Waiting
    requires priority == Normal ==> s.urgent == []
    requires s.urgent == (if priority == Urgent then [batch] else []) + t.urgent
    requires s.normal == (if priority == Normal then [batch] else []) + t.normal
    requires t.running == s.running && t.stopping == s.stopping && t.log == s.log + [Taken(priority, batch)]
    requires t.worker == Waiting || t.worker.Holding?
    ensures TraceInv(t)
  {
    var e := Taken(priority, batch);
    TakenQueue(s.log, e, Urgent, s.urgent, t.urgent);
    TakenQueue(s.log, e, Normal, s.normal, t.normal);
    TakenTimely(s, e);
    Readings(s.log, e);
  }

  lemma TakenTimely(s: DeviceState, e: Event)
    requires TraceInv(s) && s.running && e.Taken?
    requires e.priority == Normal ==> s.urgent == []
    ensures AllTimely(s.log + [e])
  {
    TimelyGrows(s.log, e);
  }

  /** Starting a planned batch. */
  lemma BeginKeeps(s: DeviceState, t: DeviceState, requests: seq<TransitionRequest>)
    requires TraceInv(s) && (s.worker == Waiting || s.worker.Planning?)
    requires t.urgent == s.urgent && t.normal == s.normal && t.running == s.running && t.stopping == s.stopping
    requires t.worker == Resume(requests) && t.log == s.log + [Began(requests)]
    ensures TraceInv(t)
  {
    var e := Began(requests);
    Readings(s.log, e);
    QueueReadings(s.log, e, Urgent);
    QueueReadings(s.log, e, Normal);
    TimelyGrows(s.log, e);
    BeganKeeps(Segments(s.log), requests, s.worker);
  }

  lemma TakeKeeps(s: DeviceState, popped: DeviceState, priority: Priority, batch: Batch)
    requires TraceInv(s) && s.running && s.worker == Waiting
    requires priority == Normal ==> s.urgent == []
    requires popped == s.(urgent := popped.urgent, normal := popped.normal)
    requires s.urgent == (if priority == Urgent then [batch] else []) + popped.urgent
    requires s.normal == (if priority == Normal then [batch] else []) + popped.normal
    ensures TraceInv(Take(popped, priority, batch))
  {
    var taken, began := Taken(priority, batch), Began(batch.requests);
    if batch.revision.None? {
      var middle := popped.(log := s.log + [taken]);
      TakenKeeps(s, middle, priority, batch);
      assert s.log + [taken, began] == s.log + [taken] + [began];
      BeginKeeps(middle, Take(popped, priority, batch), batch.requests);
    } else {
      TakenKeeps(s, Take(popped, priority, batch), priority, batch);
    }
  }

  lemma WakeKeeps(s: DeviceState)
    requires TraceInv(s) && Enabled(s, Wake)
    ensures TraceInv(AfterWake(s))
  {
    if !s.stopping {
      if s.urgent != [] {
        TakeKeeps(s, s.(urgent := s.urgent[1..]), Urgent, s.urgent[0]);
      } else {
        TakeKeeps(s, s.(normal := s.normal[1..]), Normal, s.normal[0]);
      }
    }
  }

  lemma CheckKeeps(s: DeviceState, safe: LifecycleState)
    requires TraceInv(s) && Enabled(s, Check(safe))
    ensures TraceInv(AfterCheck(s, safe))
  {
    if s.worker.batch.revision.value == s.revision {
      SilentStep(s, AfterCheck(s, safe), Handed(s.revision, s.parameters, s.worker.batch.patch));
    } else {
      SilentStep(s, AfterCheck(s, safe), Discarded(safe));
    }
  }

  lemma PlanKeeps(s: DeviceState, initial: Reply<LifecycleState>, plan: Reply<seq<TransitionRequest>>)
    requires TraceInv(s) && s.worker.Planning?
    ensures TraceInv(AfterPlan(s, initial, plan))
  {
    var planned := Planned(initial, s.worker.full, s.worker.patch, plan);
    if initial.Threw? || plan.Threw? {
      SilentStep(s, AfterPlan(s, initial, plan), planned);
    } else {
      var asked := s.(log := s.log + [planned]);
      SilentStep(s, asked, planned);
      BeginKeeps(asked, AfterPlan(s, initial, plan), plan.value);
    }
  }

  /** One more call in the last segment. */
  lemma AttemptGrows(segments: seq<Segment>, todo: seq<TransitionRequest>, attempt: Attempt, worker: Worker)
    requires SegmentsOk(segments) && WorkerMatches(Running(todo), segments)
    requires todo != [] && attempt.request == todo[0]
    requires worker == if Honoured(attempt) then Resume(todo[1..]) else Waiting
    ensures var last := segments[|segments| - 1];
      var grown := segments[|segments| - 1 := Segment(last.planned, last.attempts + [attempt])];
      SegmentsOk(grown) && WorkerMatches(worker, grown)
  {
    var last := segments[|segments| - 1];
    var longer := Segment(last.planned, last.attempts + [attempt]);
    assert Prefix(longer);
    assert todo[1..] == last.planned[|longer.attempts|..];
    assert Honoured(attempt) ==> AllHonoured(longer);
    assert longer.attempts[|longer.attempts| - 1] == attempt;
    var grown := segments[|segments| - 1 := longer];
    forall i | 0 <= i < |grown| ensures Prefix(grown[i]) {
      assert i < |segments| - 1 ==> grown[i] == segments[i];
    }
  }

  lemma AttemptReading(log: seq<Event>, attempt: Attempt)
    requires Segments(log) != []
    ensures var segments := Segments(log);
      var last := segments[|segments| - 1];
      Segments(log + [Attempted(attempt)])
        == segments[|segments| - 1 := Segment(last.planned, last.attempts + [attempt])]
  {
    assert (log + [Attempted(attempt)])[..|log|] == log;
  }

  lemma AttemptSegments(s: DeviceState, t: DeviceState, attempt: Attempt)
    requires SegmentInv(s) && t.log == s.log + [Attempted(attempt)]
    requires s.worker.Running? && s.worker.todo != [] && attempt.request == s.worker.todo[0]
    requires t.worker == if Honoured(attempt) then Resume(s.worker.todo[1..]) else Waiting
    ensures SegmentInv(t)
  {
    AttemptReading(s.log, attempt);
    AttemptGrows(Segments(s.log), s.worker.todo, attempt, t.worker);
  }

  lemma AttemptTimely(s: DeviceState, attempt: Attempt)
    requires ControlInv(s) && SegmentInv(s) && AllTimely(s.log)
    requires s.worker.Running? && s.worker.todo != [] && attempt.request == s.worker.todo[0]
    ensures AllTimely(s.log + [Attempted(attempt)])
  {
    assert Continues(Segments(s.log), attempt);
    TimelyGrows(s.log, Attempted(attempt));
  }

  lemma AttemptKeeps(s: DeviceState, t: DeviceState, attempt: Attempt)
    requires TraceInv(s) && SameQueues(s, t) && t.log == s.log + [Attempted(attempt)]
    requires s.worker.Running? && s.worker.todo != [] && attempt.request == s.worker.todo[0]
    requires t.worker == if Honoured(attempt) then Resume(s.worker.todo[1..]) else Waiting
    ensures TraceInv(t)
  {
    ControlAside(s, t, Attempted(attempt));
    QueueAside(s, t, Attempted(attempt));
    AttemptTimely(s, attempt);
    AttemptSegments(s, t, attempt);
  }

  lemma ExecuteKeeps(s: DeviceState, replies: Replies)
    requires TraceInv(s) && Enabled(s, Execute(replies))
    ensures TraceInv(AfterExecute(s, replies))
  {
    SucceededMeansHonoured(s.worker.todo[0], replies);
    AttemptKeeps(s, AfterExecute(s, replies), AttemptOf(s.worker.todo[0], replies));
  }

  lemma ExitKeeps(s: DeviceState, t: DeviceState, e: Event)
    requires TraceInv(s) && SameQueues(s, t) && e.Exited? && t.log == s.log + [e]
    requires s.worker == Finalizing && t.worker == Joined
    ensures TraceInv(t)
  {
    Readings(s.log, e);
    QueueAside(s, t, e);
    TimelyGrows(s.log, e);
  }

  lemma FinalizeKeeps(s: DeviceState, safe: LifecycleState, replies: Replies)
    requires TraceInv(s) && s.worker == Finalizing
    ensures TraceInv(AfterFinalize(s, safe, replies))
  {
    var t := AfterFinalize(s, safe, replies);
    ExitKeeps(s, t, t.log[|s.log|]);
  }

  lemma StepKeeps(s: DeviceState, step: Step)
    requires TraceInv(s) && Enabled(s, step)
    ensures TraceInv(Next(s, step))
  {
    match step
    case Start => StartKeeps(s);
    case Stop => StopKeeps(s);
    case Submit(requests, priority) =>
      if SubmitResult(s) == Accepted {
        PushKeeps(s, AfterSubmit(s, requests, priority), priority, Batch(requests, None, map[]));
      }
    case Patch(patch, priority) => PatchKeeps(s, patch, priority);
    case Wake => WakeKeeps(s);
    case Check(safe) => CheckKeeps(s, safe);
    case Plan(initial, plan) => PlanKeeps(s, initial, plan);
    case Execute(replies) => ExecuteKeeps(s, replies);
    case Finalize(safe, replies) => FinalizeKeeps(s, safe, replies);
  }

  lemma {:induction false} RunKeeps(s: DeviceState, steps: seq<Step>)
    requires TraceInv(s) && Runs(s, steps)
    ensures TraceInv(Reached(s, steps))
    decreases |steps|
  {
    if steps == [] {
    } else {
      StepKeeps(s, steps[0]);
      RunKeeps(Next(s, steps[0]), steps[1..]);
    }
  }

  // ---------------------------------------------------------------------------
  // Main results
  // ---------------------------------------------------------------------------

  /** Between start and stop, what was accepted per priority is what was dequeued followed by
      what still waits; nothing is dequeued after a stop; and a normal batch is dequeued only
      when every accepted urgent batch already was. */
  lemma QueuesConserveBatches(parameters: ParameterMap, enabled: bool, steps: seq<Step>)
    requires Runs(Initial(parameters, enabled), steps)
    ensures var s := Reached(Initial(parameters, enabled), steps);
      && AcceptedSince(s.log, Urgent) == TakenSince(s.log, Urgent) + s.urgent
      && AcceptedSince(s.log, Normal) == TakenSince(s.log, Normal) + s.normal
      && (!s.running ==> s.urgent == [] && s.normal == [])
      && forall i :: 0 <= i < |s.log| && s.log[i].Taken? ==>
           && Open(s.log[..i])
           && (s.log[i].priority == Normal ==> AcceptedSince(s.log[..i], Urgent) == TakenSince(s.log[..i], Urgent))
  {
    RunKeeps(Initial(parameters, enabled), steps);
    var log := Reached(Initial(parameters, enabled), steps).log;
    forall i | 0 <= i < |log| && log[i].Taken? ensures Timely(log[..i], log[i]) {}
  }

  /** The runtime-call trace is a concatenation of batch prefixes: in every batch the worker
      began, call k is request k of the plan, and the worker went past it only because the
      runtime was in the source state, reported success and showed the target. Every batch but
      the one in progress ran to its end or stopped at its first failure. */
  lemma TraceIsBatchPrefixes(parameters: ParameterMap, enabled: bool, steps: seq<Step>)
    requires Runs(Initial(parameters, enabled), steps)
    ensures var s := Reached(Initial(parameters, enabled), steps);
      var segments := Segments(s.log);
      && (forall i :: 0 <= i < |segments| ==> Prefix(segments[i]))
      && (forall i :: 0 <= i < |segments| - 1 ==> Complete(segments[i]))
      && (!s.worker.Running? && segments != [] ==> Complete(segments[|segments| - 1]))
  {
    RunKeeps(Initial(parameters, enabled), steps);
  }

  lemma {:induction false} AliveNeedsStart(log: seq<Event>, i: nat)
    requires i < |log| && log[i].Exited? && Alive(log)
    ensures exists k :: i < k < |log| && log[k].Started?
  {
    var last := |log| - 1;
    if log[last].Started? {
      assert i < last;
    } else {
      AliveNeedsStart(log[..last], i);
      var k :| i < k < |log[..last]| && log[..last][k].Started?;
      assert log[k].Started?;
    }
  }

  /** The finalize request, if any, is the last runtime call: after the worker exits, no batch
      is taken, planned or executed until the queue is started again. */
  lemma FinalizeIsLast(parameters: ParameterMap, enabled: bool, steps: seq<Step>, i: nat, j: nat)
    requires Runs(Initial(parameters, enabled), steps)
    requires i < j < |Reached(Initial(parameters, enabled), steps).log|
    requires Reached(Initial(parameters, enabled), steps).log[i].Exited?
    requires WorkerEvent(Reached(Initial(parameters, enabled), steps).log[j])
    ensures exists k :: i < k < j && Reached(Initial(parameters, enabled), steps).log[k].Started?
  {
    RunKeeps(Initial(parameters, enabled), steps);
    var log := Reached(Initial(parameters, enabled), steps).log;
    assert Timely(log[..j], log[j]);
    AliveNeedsStart(log[..j], i);
    var k :| i < k < j && log[..j][k].Started?;
    assert log[k].Started?;
  }
}
