/** The per-device lifecycle queue: one worker drains two priority queues while other
    threads submit transition batches and parameter patches.

    Every locked region of the source is one atomic step. `DeviceState` is the state the
    steps act on (with the log of what happened so far), `Next` is the meaning of each
    step, and class `Device` performs the steps on mutable fields. */
module DeviceQueue {
  import opened Lifecycle

  const ENABLE := "device.enable"

  datatype Priority = Normal | Urgent

  /** Outcome of a submission: accepted, or the reason it never entered a queue. */
  datatype Submission =
    | Accepted | NotRunning | EnableMustBeBoolean
    | UnknownDevice | EmptyBatch | NotContiguous | EmptyPatch

  /** A queued submission. `revision` is present exactly for parameter patches. */
  datatype Batch = Batch(requests: seq<TransitionRequest>, revision: Option<nat>, patch: ParameterMap)

  datatype TransitionRecord =
    TransitionRecord(request: TransitionRequest, result: TransitionResult, discarded: bool, actual: LifecycleState)

  const NO_REQUEST := TransitionRequest(Unknown, Unknown, map[])

  /** Everything an adversarial runtime may answer during one `execute`: the first `state()`,
      `request_transition()`, the second `state()`, and `safe_state()` in the handlers. */
  datatype Replies = Replies(
    source: Reply<LifecycleState>, outcome: Reply<TransitionResult>,
    after: Reply<LifecycleState>, safe: LifecycleState)

  /** The position of the worker thread between two atomic steps. */
  datatype Worker =
    | Joined                                            // no thread is running
    | Waiting                                           // at the condition variable
    | Holding(batch: Batch)                             // has a patch batch, before the supersession check
    | Planning(revision: nat, full: ParameterMap, patch: ParameterMap) // after the check, before planning
    | Running(todo: seq<TransitionRequest>)             // executing a batch
    | Finalizing                                        // woke up while stopping

  /** One `execute` call: the request, what the runtime answered, and the record kept. */
  datatype Attempt = Attempt(request: TransitionRequest, replies: Replies, record: TransitionRecord) {
    predicate Succeeded() {
      record.result == Success && record.actual == request.target
    }
  }

  /** A call the worker makes into the runtime, with what came back. `SafeAsked` is `safe_state()`,
      which never throws. */
  datatype Call =
    | StateAsked(reply: Reply<LifecycleState>)
    | TransitionAsked(request: TransitionRequest, outcome: Reply<TransitionResult>)
    | PlanAsked(state: LifecycleState, full: ParameterMap, patch: ParameterMap, plan: Reply<seq<TransitionRequest>>)
    | SafeAsked(state: LifecycleState)

  datatype Event =
    | Started
    | Stopped(parameters: ParameterMap)
    | Queued(priority: Priority, batch: Batch)
    | Patched(patch: ParameterMap)
    | StoredDisabled(parameters: ParameterMap)
    | Taken(priority: Priority, batch: Batch)
    | Handed(revision: nat, full: ParameterMap, patch: ParameterMap)
    | Discarded(safe: LifecycleState)
    | Planned(initial: Reply<LifecycleState>, full: ParameterMap, patch: ParameterMap,
              plan: Reply<seq<TransitionRequest>>)
    | Began(requests: seq<TransitionRequest>)
    | Attempted(attempt: Attempt)
    | Exited(safe: LifecycleState, finalize: Option<Attempt>)

  /** `log` says what happened, and `calls` is every call the worker made into the runtime. */
  datatype DeviceState = DeviceState(
    parameters: ParameterMap, enabled: bool, revision: nat, lastTransition: Option<TransitionRecord>,
    urgent: seq<Batch>, normal: seq<Batch>, pending: ParameterMap,
    running: bool, stopping: bool, worker: Worker, log: seq<Event>, calls: seq<Call>)

  datatype Step =
    | Start
    | Stop
    | Submit(requests: seq<TransitionRequest>, priority: Priority)
    | Patch(patch: ParameterMap, priority: Priority)
    | Wake
    | Check(safe: LifecycleState)
    | Plan(initial: Reply<LifecycleState>, plan: Reply<seq<TransitionRequest>>)
    | Execute(replies: Replies)
    | Finalize(safe: LifecycleState, replies: Replies)

  // ---------------------------------------------------------------------------
  // Meaning of the steps
  // ---------------------------------------------------------------------------

  /** `execute`: query the source, call the runtime only on a match, observe, normalise. */
  function RecordOf(request: TransitionRequest, r: Replies): TransitionRecord {
    if r.source.Threw? then TransitionRecord(request, Error, false, Unknown)
    else if r.source.value != request.from then TransitionRecord(request, Failure, true, r.source.value)
    else if r.outcome.Threw? || r.after.Threw? then TransitionRecord(request, Error, false, r.safe)
    else if r.outcome.value == Success && r.after.value != request.target then
      TransitionRecord(request, Failure, false, r.after.value)
    else TransitionRecord(request, r.outcome.value, false, r.after.value)
  }

  function AttemptOf(request: TransitionRequest, r: Replies): Attempt {
    Attempt(request, r, RecordOf(request, r))
  }

  /** The calls of one `execute`: the source state first, the transition only from there, the target
      state only after a report, and `safe_state()` after a throw. */
  function ExecuteCalls(request: TransitionRequest, r: Replies): seq<Call> {
    [StateAsked(r.source)] +
    if r.source != Returned(request.from) then []
    else if r.outcome.Threw? then [TransitionAsked(request, r.outcome), SafeAsked(r.safe)]
    else [TransitionAsked(request, r.outcome), StateAsked(r.after)] + if r.after.Threw? then [SafeAsked(r.safe)] else []
  }

  function PlanCalls(
      initial: Reply<LifecycleState>, full: ParameterMap, patch: ParameterMap, plan: Reply<seq<TransitionRequest>>)
    : seq<Call>
  {
    [StateAsked(initial)] + if initial.Threw? then [] else [PlanAsked(initial.value, full, patch, plan)]
  }

  function Resume(todo: seq<TransitionRequest>): Worker {
    if todo == [] then Waiting else Running(todo)
  }

  function ErrorRecord(): TransitionRecord {
    TransitionRecord(NO_REQUEST, Error, false, Unknown)
  }

  /** Which steps can happen. Submissions, start and stop come from other threads; the rest
      belong to the worker. `Start` on a stopped queue needs the previous worker joined. */
  predicate Enabled(s: DeviceState, step: Step) {
    match step
    case Start => s.running || s.worker == Joined
    case Stop => true
    case Submit(_, _) => true
    case Patch(_, _) => true
    case Wake => s.worker == Waiting && (s.stopping || s.urgent != [] || s.normal != [])
    case Check(_) => s.worker.Holding? && s.worker.batch.revision.Some?
    case Plan(_, _) => s.worker.Planning?
    case Execute(_) => s.worker.Running? && s.worker.todo != []
    case Finalize(_, _) => s.worker == Finalizing
  }

  function AfterStart(s: DeviceState): DeviceState {
    if s.running then s
    else s.(stopping := false, running := true, worker := Waiting, log := s.log + [Started])
  }

  function AfterStop(s: DeviceState): DeviceState {
    if !s.running then s
    else s.(stopping := true, running := false, urgent := [], normal := [], pending := map[],
            log := s.log + [Stopped(s.parameters)])
  }

  function Push(s: DeviceState, priority: Priority, batch: Batch): DeviceState {
    var pushed := s.(log := s.log + [Queued(priority, batch)]);
    if priority == Urgent then pushed.(urgent := s.urgent + [batch]) else pushed.(normal := s.normal + [batch])
  }

  function SubmitResult(s: DeviceState): Submission {
    if !s.running || s.stopping then NotRunning else Accepted
  }

  function AfterSubmit(s: DeviceState, requests: seq<TransitionRequest>, priority: Priority): DeviceState {
    if SubmitResult(s) != Accepted then s else Push(s, priority, Batch(requests, None, map[]))
  }

  function PatchResult(s: DeviceState, patch: ParameterMap): Submission {
    if !s.running || s.stopping then NotRunning
    else if ENABLE in patch && !patch[ENABLE].BoolValue? then EnableMustBeBoolean
    else Accepted
  }

  function Merged(s: DeviceState, patch: ParameterMap): DeviceState
    requires PatchResult(s, patch) == Accepted
  {
    s.(parameters := s.parameters + patch, enabled := if ENABLE in patch then patch[ENABLE].flag else s.enabled,
       log := s.log + [Patched(patch)])
  }

  function PushDelta(s: DeviceState, patch: ParameterMap, priority: Priority): DeviceState {
    Push(s.(revision := s.revision + 1, pending := s.pending + patch), priority,
         Batch([], Some(s.revision + 1), s.pending + patch))
  }

  /** An accepted patch merges into the full map; then it is stored (disabled device), needs
      no reaction (enable only), or is queued with the accumulated delta. */
  function AfterPatch(s: DeviceState, patch: ParameterMap, priority: Priority): DeviceState {
    if PatchResult(s, patch) != Accepted then s
    else
      var merged := Merged(s, patch);
      if !merged.enabled then
        merged.(revision := s.revision + 1, pending := map[], log := merged.log + [StoredDisabled(merged.parameters)])
      else if |patch| == 1 && ENABLE in patch then merged
      else PushDelta(merged, patch, priority)
  }

  /** A dequeued plain batch starts executing; a patch batch is held for the supersession check. */
  function Take(s: DeviceState, priority: Priority, batch: Batch): DeviceState {
    if batch.revision.Some? then
      s.(worker := Holding(batch), log := s.log + [Taken(priority, batch)])
    else
      s.(worker := Resume(batch.requests), log := s.log + [Taken(priority, batch), Began(batch.requests)])
  }

  function AfterWake(s: DeviceState): DeviceState
    requires Enabled(s, Wake)
  {
    if s.stopping then s.(worker := Finalizing)
    else if s.urgent != [] then Take(s.(urgent := s.urgent[1..]), Urgent, s.urgent[0])
    else Take(s.(normal := s.normal[1..]), Normal, s.normal[0])
  }

  function AfterCheck(s: DeviceState, safe: LifecycleState): DeviceState
    requires Enabled(s, Check(safe))
  {
    var batch := s.worker.batch;
    if batch.revision.value != s.revision then
      s.(worker := Waiting, lastTransition := Some(TransitionRecord(NO_REQUEST, Failure, true, safe)),
         log := s.log + [Discarded(safe)], calls := s.calls + [SafeAsked(safe)])
    else
      s.(worker := Planning(s.revision, s.parameters, batch.patch), pending := map[],
         log := s.log + [Handed(s.revision, s.parameters, batch.patch)])
  }

  /** Planning starts from the state the runtime reports; a throw anywhere becomes an error record. */
  function AfterPlan(
      s: DeviceState, initial: Reply<LifecycleState>, plan: Reply<seq<TransitionRequest>>): DeviceState
    requires s.worker.Planning?
  {
    var asked := s.(log := s.log + [Planned(initial, s.worker.full, s.worker.patch, plan)],
                    calls := s.calls + PlanCalls(initial, s.worker.full, s.worker.patch, plan));
    if initial.Threw? || plan.Threw? then
      asked.(worker := Waiting, lastTransition := Some(ErrorRecord()))
    else
      asked.(worker := Resume(plan.value), log := asked.log + [Began(plan.value)])
  }

  function AfterExecute(s: DeviceState, replies: Replies): DeviceState
    requires Enabled(s, Execute(replies))
  {
    var attempt := AttemptOf(s.worker.todo[0], replies);
    s.(worker := if attempt.Succeeded() then Resume(s.worker.todo[1..]) else Waiting,
       lastTransition := Some(attempt.record), log := s.log + [Attempted(attempt)],
       calls := s.calls + ExecuteCalls(attempt.request, replies))
  }

  function AfterFinalize(s: DeviceState, safe: LifecycleState, replies: Replies): DeviceState
    requires s.worker == Finalizing
  {
    if safe == Finalized then
      s.(worker := Joined, log := s.log + [Exited(safe, None)], calls := s.calls + [SafeAsked(safe)])
    else
      var attempt := AttemptOf(TransitionRequest(safe, Finalized, map[]), replies);
      s.(worker := Joined, lastTransition := Some(attempt.record), log := s.log + [Exited(safe, Some(attempt))],
         calls := s.calls + [SafeAsked(safe)] + ExecuteCalls(attempt.request, replies))
  }

  function Next(s: DeviceState, step: Step): DeviceState
    requires Enabled(s, step)
  {
    match step
    case Start => AfterStart(s)
    case Stop => AfterStop(s)
    case Submit(requests, priority) => AfterSubmit(s, requests, priority)
    case Patch(patch, priority) => AfterPatch(s, patch, priority)
    case Wake => AfterWake(s)
    case Check(safe) => AfterCheck(s, safe)
    case Plan(initial, plan) => AfterPlan(s, initial, plan)
    case Execute(replies) => AfterExecute(s, replies)
    case Finalize(safe, replies) => AfterFinalize(s, safe, replies)
  }

  function Initial(parameters: ParameterMap, enabled: bool): DeviceState {
    DeviceState(parameters, enabled, 0, None, [], [], map[], false, false, Joined, [], [])
  }

  /** A run: every step can happen where it occurs. */
  predicate Runs(s: DeviceState, steps: seq<Step>)
    decreases |steps|
  {
    steps == [] || (Enabled(s, steps[0]) && Runs(Next(s, steps[0]), steps[1..]))
  }

  function Reached(s: DeviceState, steps: seq<Step>): DeviceState
    requires Runs(s, steps)
    decreases |steps|
  {
    if steps == [] then s else Reached(Next(s, steps[0]), steps[1..])
  }

  // ---------------------------------------------------------------------------
  // The mutable device
  // ---------------------------------------------------------------------------

  /** The merge loop of a patch: insert or overwrite every entry. */
  method InsertAll(base: ParameterMap, patch: ParameterMap) returns (merged: ParameterMap)
    ensures merged == base + patch
  {
    merged := base;
    var rest := patch.Keys;
    while rest != {}
      invariant rest <= patch.Keys
      invariant merged == base + (patch - rest)
      decreases rest
    {
      var key :| key in rest;
      merged := merged[key := patch[key]];
      rest := rest - {key};
    }
    assert patch - {} == patch;
  }

  /** The runtime as the worker reaches it during one step: it answers what the adversary chose and
      records every call. */
  class RuntimePort {
    const replies: Replies
    const plan: Reply<seq<TransitionRequest>>
    var calls: seq<Call>

    constructor (replies: Replies, plan: Reply<seq<TransitionRequest>>)
      ensures this.replies == replies && this.plan == plan && calls == []
    {
      this.replies, this.plan, calls := replies, plan, [];
    }

    method State() returns (reply: Reply<LifecycleState>)
      modifies this`calls
      ensures reply == if old(calls) == [] then replies.source else replies.after
      ensures calls == old(calls) + [StateAsked(reply)]
    {
      reply := if calls == [] then replies.source else replies.after;
      calls := calls + [StateAsked(reply)];
    }

    method SafeState() returns (state: LifecycleState)
      modifies this`calls
      ensures state == replies.safe && calls == old(calls) + [SafeAsked(state)]
    {
      state := replies.safe;
      calls := calls + [SafeAsked(state)];
    }

    method RequestTransition(request: TransitionRequest) returns (outcome: Reply<TransitionResult>)
      modifies this`calls
      ensures outcome == replies.outcome && calls == old(calls) + [TransitionAsked(request, outcome)]
    {
      outcome := replies.outcome;
      calls := calls + [TransitionAsked(request, outcome)];
    }

    method ParameterTransitions(state: LifecycleState, full: ParameterMap, patch: ParameterMap)
      returns (reply: Reply<seq<TransitionRequest>>)
      modifies this`calls
      ensures reply == plan && calls == old(calls) + [PlanAsked(state, full, patch, reply)]
    {
      reply := plan;
      calls := calls + [PlanAsked(state, full, patch, reply)];
    }
  }

  const SILENT := Replies(Threw, Threw, Threw, Unknown)

  class Device {
    var parameters: ParameterMap
    var enabled: bool
    var revision: nat
    var lastTransition: Option<TransitionRecord>
    var urgentQueue: seq<Batch>
    var normalQueue: seq<Batch>
    var pendingPatch: ParameterMap
    var running: bool
    var stopping: bool
    var worker: Worker
    ghost var log: seq<Event>
    ghost var calls: seq<Call>

    ghost function View(): DeviceState
      reads this
    {
      DeviceState(parameters, enabled, revision, lastTransition, urgentQueue, normalQueue, pendingPatch,
                  running, stopping, worker, log, calls)
    }

    constructor (definitionParameters: ParameterMap, definitionEnabled: bool)
      ensures View() == Initial(definitionParameters, definitionEnabled)
    {
      parameters, enabled, revision, lastTransition := definitionParameters, definitionEnabled, 0, None;
      urgentQueue, normalQueue, pendingPatch := [], [], map[];
      running, stopping, worker, log, calls := false, false, Joined, [], [];
    }

    method StartQueue()
      requires Enabled(View(), Start)
      modifies this
      ensures View() == AfterStart(old(View()))
    {
      if running {
        return;
      }
      stopping := false;
      running := true;
      worker := Waiting;
      log := log + [Started];
    }

    /** The locked region of `stop`; the caller then waits for the worker to reach `Joined`. */
    method StopQueue()
      modifies this
      ensures View() == AfterStop(old(View()))
    {
      if !running {
        return;
      }
      stopping := true;
      running := false;
      urgentQueue := [];
      normalQueue := [];
      pendingPatch := map[];
      log := log + [Stopped(parameters)];
    }

    method PushBack(priority: Priority, batch: Batch)
      modifies this
      ensures View() == Push(old(View()), priority, batch)
    {
      if priority == Urgent {
        urgentQueue := urgentQueue + [batch];
      } else {
        normalQueue := normalQueue + [batch];
      }
      log := log + [Queued(priority, batch)];
    }

    method Enqueue(requests: seq<TransitionRequest>, priority: Priority) returns (result: Submission)
      modifies this
      ensures result == SubmitResult(old(View()))
      ensures View() == AfterSubmit(old(View()), requests, priority)
    {
      if !running || stopping {
        return NotRunning;
      }
      PushBack(priority, Batch(requests, None, map[]));
      return Accepted;
    }

    /** The queued case of a patch: bump, accumulate the delta, push it. */
    method PushAccumulated(patch: ParameterMap, priority: Priority)
      modifies this
      ensures View() == PushDelta(old(View()), patch, priority)
    {
      var accumulated := InsertAll(pendingPatch, patch);
      revision := revision + 1;
      pendingPatch := accumulated;
      PushBack(priority, Batch([], Some(revision), accumulated));
    }

    /** Every accepted patch merges into the full map. */
    method MergePatch(patch: ParameterMap)
      requires PatchResult(View(), patch) == Accepted
      modifies this
      ensures View() == Merged(old(View()), patch)
    {
      var merged := InsertAll(parameters, patch);
      parameters := merged;
      if ENABLE in patch {
        enabled := patch[ENABLE].flag;
      }
      log := log + [Patched(patch)];
    }

    method EnqueueParameterPatch(patch: ParameterMap, priority: Priority) returns (result: Submission)
      modifies this
      ensures result == PatchResult(old(View()), patch)
      ensures View() == AfterPatch(old(View()), patch, priority)
    {
      if !running || stopping {
        return NotRunning;
      }
      if ENABLE in patch && !patch[ENABLE].BoolValue? {
        return EnableMustBeBoolean;
      }
      MergePatch(patch);
      if !enabled {
        revision := revision + 1;
        pendingPatch := map[];
        log := log + [StoredDisabled(parameters)];
      } else if |patch| != 1 || ENABLE !in patch {
        PushAccumulated(patch, priority);
      }
      return Accepted;
    }

    /** The wait-and-pop region of the worker loop. */
    method WakeUp()
      requires Enabled(View(), Wake)
      modifies this
      ensures View() == AfterWake(old(View()))
    {
      if stopping {
        worker := Finalizing;
        return;
      }
      var priority: Priority;
      var batch: Batch;
      if urgentQueue == [] {
        priority, batch := Normal, normalQueue[0];
        normalQueue := normalQueue[1..];
      } else {
        priority, batch := Urgent, urgentQueue[0];
        urgentQueue := urgentQueue[1..];
      }
      if batch.revision.Some? {
        worker := Holding(batch);
        log := log + [Taken(priority, batch)];
      } else {
        worker := Resume(batch.requests);
        log := log + [Taken(priority, batch), Began(batch.requests)];
      }
    }

    method AskSafeState(safe: LifecycleState) returns (state: LifecycleState)
      modifies this`calls
      ensures state == safe && calls == old(calls) + [SafeAsked(safe)]
    {
      var port := new RuntimePort(SILENT.(safe := safe), Threw);
      state := port.SafeState();
      calls := calls + port.calls;
    }

    /** The supersession check of `execute_parameter_patch`. */
    method CheckRevision(safe: LifecycleState)
      requires Enabled(View(), Check(safe))
      modifies this
      ensures View() == AfterCheck(old(View()), safe)
    {
      var batch := worker.batch;
      var superseded := batch.revision.value != revision;
      if !superseded {
        pendingPatch := map[];
      }
      if superseded {
        var actual := AskSafeState(safe);
        lastTransition := Some(TransitionRecord(NO_REQUEST, Failure, true, actual));
        worker := Waiting;
        log := log + [Discarded(safe)];
        return;
      }
      worker := Planning(revision, parameters, batch.patch);
      log := log + [Handed(revision, parameters, batch.patch)];
    }

    method PlanPatch(initial: Reply<LifecycleState>, plan: Reply<seq<TransitionRequest>>)
      requires worker.Planning?
      modifies this
      ensures View() == AfterPlan(old(View()), initial, plan)
    {
      var full, patch := worker.full, worker.patch;
      var port := new RuntimePort(SILENT.(source := initial), plan);
      log := log + [Planned(initial, full, patch, plan)];
      var requests: Reply<seq<TransitionRequest>> := Threw;
      var state := port.State();
      if state.Returned? {
        requests := port.ParameterTransitions(state.value, full, patch);
      }
      calls := calls + port.calls;
      if requests.Threw? {
        lastTransition := Some(TransitionRecord(NO_REQUEST, Error, false, Unknown));
        worker := Waiting;
        return;
      }
      worker := Resume(requests.value);
      log := log + [Began(requests.value)];
    }

    /** `execute`, against whatever the runtime answers: the record kept, and every call made. */
    method ExecuteRequest(request: TransitionRequest, port: RuntimePort) returns (succeeded: bool)
      requires port.calls == []
      modifies this`lastTransition, port`calls
      ensures lastTransition == Some(RecordOf(request, port.replies))
      ensures succeeded == AttemptOf(request, port.replies).Succeeded()
      ensures port.calls == ExecuteCalls(request, port.replies)
    {
      var source := port.State();
      if source.Threw? {
        lastTransition := Some(TransitionRecord(request, Error, false, Unknown));
        return false;
      }
      var result, discarded, actual := Failure, false, source.value;
      if source.value != request.from {
        discarded := true;
      } else {
        var outcome := port.RequestTransition(request);
        var after: Reply<LifecycleState> := Threw;
        if outcome.Returned? {
          after := port.State();
        }
        if after.Returned? {
          result, actual := outcome.value, after.value;
        } else {
          result := Error;
          actual := port.SafeState();
        }
      }
      if result == Success && actual != request.target {
        result := Failure;
      }
      lastTransition := Some(TransitionRecord(request, result, discarded, actual));
      return result == Success && actual == request.target;
    }

    method Perform(request: TransitionRequest, replies: Replies) returns (succeeded: bool)
      modifies this`lastTransition, this`calls
      ensures lastTransition == Some(RecordOf(request, replies))
      ensures succeeded == AttemptOf(request, replies).Succeeded()
      ensures calls == old(calls) + ExecuteCalls(request, replies)
    {
      var port := new RuntimePort(replies, Threw);
      succeeded := ExecuteRequest(request, port);
      calls := calls + port.calls;
    }

    /** One iteration of a batch loop. */
    method ExecuteNext(replies: Replies)
      requires Enabled(View(), Execute(replies))
      modifies this
      ensures View() == AfterExecute(old(View()), replies)
    {
      var todo := worker.todo;
      var succeeded := Perform(todo[0], replies);
      worker := if succeeded then Resume(todo[1..]) else Waiting;
      log := log + [Attempted(AttemptOf(todo[0], replies))];
    }

    method FinalizeDevice(safe: LifecycleState, replies: Replies)
      requires worker == Finalizing
      modifies this
      ensures View() == AfterFinalize(old(View()), safe, replies)
    {
      worker := Joined;
      var state := AskSafeState(safe);
      if state == Finalized {
        log := log + [Exited(safe, None)];
        return;
      }
      var request := TransitionRequest(state, Finalized, map[]);
      var _ := Perform(request, replies);
      log := log + [Exited(safe, Some(AttemptOf(request, replies)))];
    }
  }
}
