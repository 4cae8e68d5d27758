/** The queue and a runtime that honours every standard edge, end to end: the newest map wins.
    The device stays enabled and only parameter patches are submitted, at any moment. */
module NewestMap {
  import opened Lifecycle
  import opened DeviceQueue
  import opened QueueInvariants
  import QueueCalls

  /** A runtime that honours every edge: its state and what `configure` was last given. */
  datatype Runtime = Runtime(state: LifecycleState, configured: Option<ParameterMap>, configures: nat)

  function Perform(rt: Runtime, request: TransitionRequest): Runtime {
    match Dispatch(request.from, request.target)
    case Unsupported => rt
    case Configure => Runtime(request.target, Some(request.parameters), rt.configures + 1)
    case _ => rt.(state := request.target)
  }

  function PerformAll(rt: Runtime, requests: seq<TransitionRequest>): Runtime
    decreases |requests|
  {
    if requests == [] then rt else PerformAll(Perform(rt, requests[0]), requests[1..])
  }

  datatype System = System(queue: DeviceState, rt: Runtime)

  /** A patch from any thread, or the next atomic step of the worker. */
  datatype Move = Submits(patch: ParameterMap, priority: Priority) | Works

  predicate KeepsEnabled(patch: ParameterMap) {
    ENABLE in patch ==> patch[ENABLE] != BoolValue(false)
  }

  /** What this runtime answers while a request is executed. */
  function Answers(rt: Runtime, request: TransitionRequest): Replies {
    var done := Perform(rt, request).state;
    Replies(Returned(rt.state),
            Returned(if Dispatch(request.from, request.target) == Unsupported then Failure else Success),
            Returned(done), done)
  }

  /** The worker's next step, with the runtime's own answers. */
  function WorkerStep(c: System): Step {
    match c.queue.worker
    case Holding(_) => Check(c.rt.state)
    case Planning(_, full, _) => Plan(Returned(c.rt.state), Returned(StandardParameterTransitions(c.rt.state, full)))
    case Running(todo) =>
      if todo == [] then Wake else Execute(Answers(c.rt, todo[0]))
    case _ => Wake
  }

  /** The transitions the worker has asked the runtime for between two states of the queue. */
  function Asked(s: DeviceState, t: DeviceState): seq<TransitionRequest> {
    if |s.calls| <= |t.calls| then QueueCalls.Commands(t.calls[|s.calls|..]) else []
  }

  predicate CanMove(c: System, move: Move) {
    match move
    case Submits(patch, _) => KeepsEnabled(patch)
    case Works => Enabled(c.queue, WorkerStep(c))
  }

  function Moved(c: System, move: Move): System
    requires CanMove(c, move)
  {
    match move
    case Submits(patch, priority) => System(AfterPatch(c.queue, patch, priority), c.rt)
    case Works =>
      var t := Next(c.queue, WorkerStep(c));
      System(t, PerformAll(c.rt, Asked(c.queue, t)))
  }

  predicate Moves(c: System, moves: seq<Move>)
    decreases |moves|
  {
    moves == [] || (CanMove(c, moves[0]) && Moves(Moved(c, moves[0]), moves[1..]))
  }

  function MovedBy(c: System, moves: seq<Move>): System
    requires Moves(c, moves)
    decreases |moves|
  {
    if moves == [] then c else MovedBy(Moved(c, moves[0]), moves[1..])
  }

  function Begin(parameters: ParameterMap, rt: Runtime): System {
    System(AfterStart(Initial(parameters, true)), rt)
  }

  // ---------------------------------------------------------------------------
  // The invariant
  // ---------------------------------------------------------------------------

  /** The full map of the last planner call, or the base map before any. */
  function LastFull(base: ParameterMap, log: seq<Event>): ParameterMap {
    if log == [] then base
    else if log[|log| - 1].Handed? then log[|log| - 1].full
    else LastFull(base, log[..|log| - 1])
  }

  /** The runtime after `n` applied patches, the last of them planned with map `full`. */
  function Settled(start: Runtime, n: nat, full: ParameterMap): Runtime {
    if n == 0 then start else Runtime(Rest(start.state), Some(full), start.configures + n)
  }

  /** The runtime once the worker has finished what it has in hand. */
  function Finished(c: System): Runtime {
    match c.queue.worker
    case Planning(_, full, _) => PerformAll(c.rt, StandardParameterTransitions(c.rt.state, full))
    case Running(todo) => PerformAll(c.rt, todo)
    case _ => c.rt
  }

  predicate WorkerOk(c: System) {
    match c.queue.worker
    case Running(todo) => todo != [] && Path(c.rt.state, todo)
    case Holding(batch) => batch.revision.Some?
    case Finalizing => false
    case Joined => false
    case _ => true
  }

  predicate OnlyPatches(batches: seq<Batch>) {
    forall i :: 0 <= i < |batches| ==> batches[i].revision.Some?
  }

  predicate SystemInv(base: ParameterMap, start: Runtime, c: System) {
    var s := c.queue;
    && Inv(base, s)
    && s.running && !s.stopping && s.enabled
    && OnlyPatches(s.urgent) && OnlyPatches(s.normal)
    && WorkerOk(c)
    && Stable(c.rt.state)
    && Finished(c) == Settled(start, |HandedRevisions(s.log)|, LastFull(base, s.log))
    && (s.worker.Planning? ==> LastFull(base, s.log) == s.worker.full)
    && (Current(s) == 0 ==> AgreeExceptEnable(LastFull(base, s.log), s.parameters))
  }

  // ---------------------------------------------------------------------------
  // The standard path
  // ---------------------------------------------------------------------------

  lemma PerformSteps(rt: Runtime, requests: seq<TransitionRequest>)
    requires requests != [] && Path(rt.state, requests)
    ensures Perform(rt, requests[0]).state == requests[0].target
    ensures Path(requests[0].target, requests[1..])
    ensures PerformAll(rt, requests) == PerformAll(Perform(rt, requests[0]), requests[1..])
  {
    var rest := requests[1..];
    forall i | 0 <= i < |rest| - 1 ensures rest[i].target == rest[i + 1].from {
      assert requests[i + 1].target == requests[i + 2].from;
    }
  }

  lemma ActivePathApplies(rt: Runtime, full: ParameterMap)
    requires rt.state == Active
    ensures var path := StandardParameterTransitions(rt.state, full);
      && path != [] && Path(rt.state, path)
      && PerformAll(rt, path) == Runtime(Rest(rt.state), Some(full), rt.configures + 1)
  {
    var path := StandardParameterTransitions(rt.state, full);
    var rt1 := Perform(rt, path[0]);
    var rt2 := Perform(rt1, path[1]);
    PerformSteps(rt, path);
    PerformSteps(rt1, path[1..]);
    PerformSteps(rt2, path[2..]);
    PerformSteps(Perform(rt2, path[2]), path[3..]);
  }

  lemma RestingPathApplies(rt: Runtime, full: ParameterMap)
    requires Stable(rt.state) && rt.state != Active
    ensures var path := StandardParameterTransitions(rt.state, full);
      && path != [] && Path(rt.state, path)
      && PerformAll(rt, path) == Runtime(Rest(rt.state), Some(full), rt.configures + 1)
  {
    var path := StandardParameterTransitions(rt.state, full);
    assert Contiguous(path);
    PerformSteps(rt, path);
    if |path| > 1 {
      PerformSteps(Perform(rt, path[0]), path[1..]);
    }
  }

  /** From every stable state the standard path is executable, configures exactly once with the
      full map, and ends active iff it started active, inactive otherwise. */
  lemma StandardPathApplies(rt: Runtime, full: ParameterMap)
    requires Stable(rt.state)
    ensures var path := StandardParameterTransitions(rt.state, full);
      && path != [] && Path(rt.state, path)
      && PerformAll(rt, path) == Runtime(Rest(rt.state), Some(full), rt.configures + 1)
  {
    if rt.state == Active {
      ActivePathApplies(rt, full);
    } else {
      RestingPathApplies(rt, full);
    }
  }

  // ---------------------------------------------------------------------------
  // Preservation
  // ---------------------------------------------------------------------------

  lemma LogReadings(base: ParameterMap, log: seq<Event>, e: Event)
    ensures LastFull(base, log + [e]) == if e.Handed? then e.full else LastFull(base, log)
    ensures |HandedRevisions(log + [e])| == |HandedRevisions(log)| + if e.Handed? then 1 else 0
  {
    assert (log + [e])[..|log|] == log;
  }

  /** A queued patch leaves a current batch behind. */
  lemma PushedIsCurrent(s: DeviceState, patch: ParameterMap, priority: Priority)
    ensures Current(PushDelta(s, patch, priority)) > 0
  {
    var batch := Batch([], Some(s.revision + 1), s.pending + patch);
    CountAppend(s.urgent, [batch], s.revision + 1);
    CountAppend(s.normal, [batch], s.revision + 1);
    CountOne(batch, s.revision + 1);
  }

  /** A patch that only touches the gate. */
  lemma GateKeeps(base: ParameterMap, start: Runtime, c: System, patch: ParameterMap)
    requires SystemInv(base, start, c) && KeepsEnabled(patch) && PatchResult(c.queue, patch) == Accepted
    requires |patch| == 1 && ENABLE in patch
    ensures SystemInv(base, start, System(Merged(c.queue, patch), c.rt))
  {
    var s := c.queue;
    var t := Merged(s, patch);
    EnableOnlyPatch(base, s, patch, Normal);
    EnableOnly(patch);
    LogReadings(base, s.log, Patched(patch));
    assert Current(t) == Current(s);
    if Current(s) == 0 {
      GateOutsideAgreement(LastFull(base, s.log), s.parameters, patch);
    }
    assert Finished(System(t, c.rt)) == Finished(c);
  }

  /** A patch that is queued. */
  lemma DeltaKeeps(base: ParameterMap, start: Runtime, c: System, patch: ParameterMap, priority: Priority)
    requires SystemInv(base, start, c) && KeepsEnabled(patch) && PatchResult(c.queue, patch) == Accepted
    ensures SystemInv(base, start, System(PushDelta(Merged(c.queue, patch), patch, priority), c.rt))
  {
    var s := c.queue;
    var t := PushDelta(Merged(s, patch), patch, priority);
    PushedDelta(base, s, patch, priority);
    PushedIsCurrent(Merged(s, patch), patch, priority);
    LogReadings(base, s.log, Patched(patch));
    LogReadings(base, s.log + [Patched(patch)], Queued(priority, Batch([], Some(s.revision + 1), s.pending + patch)));
    assert Finished(System(t, c.rt)) == Finished(c);
  }

  lemma SubmitKeeps(base: ParameterMap, start: Runtime, c: System, patch: ParameterMap, priority: Priority)
    requires SystemInv(base, start, c) && KeepsEnabled(patch)
    ensures SystemInv(base, start, System(AfterPatch(c.queue, patch, priority), c.rt))
  {
    var s := c.queue;
    if PatchResult(s, patch) == Accepted {
      assert Merged(s, patch).enabled;
      if |patch| == 1 && ENABLE in patch {
        GateKeeps(base, start, c, patch);
      } else {
        DeltaKeeps(base, start, c, patch, priority);
      }
    }
  }

  /** The runtime is asked for the request in hand and for nothing else. */
  lemma MovedRuntime(c: System)
    requires CanMove(c, Works)
    ensures Moved(c, Works).queue == Next(c.queue, WorkerStep(c))
    ensures Moved(c, Works).rt
      == if c.queue.worker.Running? && c.queue.worker.todo != [] && c.rt.state == c.queue.worker.todo[0].from
         then Perform(c.rt, c.queue.worker.todo[0])
         else c.rt
  {
    QueueCalls.StepSaysWhatIsInHand(c.queue, WorkerStep(c));
    if c.queue.worker.Running? && c.queue.worker.todo != [] && c.rt.state == c.queue.worker.todo[0].from {
      var request := c.queue.worker.todo[0];
      assert [request][1..] == [];
      assert PerformAll(c.rt, [request]) == Perform(c.rt, request);
    }
  }

  lemma WakeKeeps(base: ParameterMap, start: Runtime, c: System)
    requires SystemInv(base, start, c) && c.queue.worker == Waiting && Enabled(c.queue, Wake)
    ensures SystemInv(base, start, System(AfterWake(c.queue), c.rt))
  {
    var s := c.queue;
    var t := AfterWake(s);
    QueueInvariants.WakeKeeps(base, s);
    var queue, priority := if s.urgent != [] then s.urgent else s.normal, if s.urgent != [] then Urgent else Normal;
    assert t.log == s.log + [Taken(priority, queue[0])];
    LogReadings(base, s.log, Taken(priority, queue[0]));
    CountHead(queue, s.revision);
    assert Current(t) == Current(s);
  }

  lemma CountHead(batches: seq<Batch>, revision: nat)
    requires batches != []
    ensures CountCurrent(batches, revision)
         == CountCurrent([batches[0]], revision) + CountCurrent(batches[1..], revision)
  {
    CountOne(batches[0], revision);
  }

  lemma CheckKeeps(base: ParameterMap, start: Runtime, c: System)
    requires SystemInv(base, start, c) && Enabled(c.queue, Check(c.rt.state))
    ensures SystemInv(base, start, System(AfterCheck(c.queue, c.rt.state), c.rt))
  {
    var s := c.queue;
    var batch := s.worker.batch;
    QueueInvariants.CheckKeeps(base, s, c.rt.state);
    CountOne(batch, s.revision);
    if batch.revision.value == s.revision {
      LogReadings(base, s.log, Handed(s.revision, s.parameters, batch.patch));
      StandardPathApplies(c.rt, s.parameters);
    } else {
      LogReadings(base, s.log, Discarded(c.rt.state));
      assert Current(AfterCheck(s, c.rt.state)) == Current(s);
    }
  }

  lemma PlannedReadings(
      base: ParameterMap, s: DeviceState, t: DeviceState, planned: Event, path: seq<TransitionRequest>)
    requires planned.Planned? && t.log == s.log + [planned] + [Began(path)]
    ensures LastFull(base, t.log) == LastFull(base, s.log)
    ensures |HandedRevisions(t.log)| == |HandedRevisions(s.log)|
  {
    LogReadings(base, s.log, planned);
    LogReadings(base, s.log + [planned], Began(path));
  }

  lemma PlanKeeps(base: ParameterMap, start: Runtime, c: System)
    requires SystemInv(base, start, c) && c.queue.worker.Planning?
    ensures SystemInv(base, start, Moved(c, Works))
  {
    var s := c.queue;
    var path := StandardParameterTransitions(c.rt.state, s.worker.full);
    var t := AfterPlan(s, Returned(c.rt.state), Returned(path));
    QueueInvariants.PlanKeeps(base, s, Returned(c.rt.state), Returned(path));
    PlannedReadings(base, s, t, Planned(Returned(c.rt.state), s.worker.full, s.worker.patch, Returned(path)), path);
    StandardPathApplies(c.rt, s.worker.full);
    MovedRuntime(c);
    assert Current(t) == Current(s);
  }

  /** An honoured request succeeds. */
  lemma AnswersSucceed(rt: Runtime, request: TransitionRequest)
    requires rt.state == request.from && Dispatch(request.from, request.target) != Unsupported
    ensures AttemptOf(request, Answers(rt, request)).Succeeded()
  {
  }

  lemma ExecuteKeeps(base: ParameterMap, start: Runtime, c: System)
    requires SystemInv(base, start, c) && c.queue.worker.Running?
    ensures SystemInv(base, start, Moved(c, Works))
  {
    var s := c.queue;
    var todo := s.worker.todo;
    var replies := Answers(c.rt, todo[0]);
    var t := AfterExecute(s, replies);
    QueueInvariants.ExecuteKeeps(base, s, replies);
    LogReadings(base, s.log, Attempted(AttemptOf(todo[0], replies)));
    AnswersSucceed(c.rt, todo[0]);
    PerformSteps(c.rt, todo);
    MovedRuntime(c);
    assert Current(t) == Current(s);
    DispatchIsStable(todo[0].from, todo[0].target);
  }

  lemma DispatchIsStable(from: LifecycleState, target: LifecycleState)
    requires Dispatch(from, target) != Unsupported
    ensures Stable(from) && Stable(target)
  {
  }

  lemma MoveKeeps(base: ParameterMap, start: Runtime, c: System, move: Move)
    requires SystemInv(base, start, c) && CanMove(c, move)
    ensures SystemInv(base, start, Moved(c, move))
  {
    match move
    case Submits(patch, priority) => SubmitKeeps(base, start, c, patch, priority);
    case Works =>
      match c.queue.worker {
        case Waiting =>
          MovedRuntime(c);
          WakeKeeps(base, start, c);
        case Holding(_) =>
          MovedRuntime(c);
          CheckKeeps(base, start, c);
        case Planning(_, _, _) => PlanKeeps(base, start, c);
        case Running(_) => ExecuteKeeps(base, start, c);
      }
  }

  lemma {:induction false} MovesKeep(base: ParameterMap, start: Runtime, c: System, moves: seq<Move>)
    requires SystemInv(base, start, c) && Moves(c, moves)
    ensures SystemInv(base, start, MovedBy(c, moves))
    decreases |moves|
  {
    if moves == [] {
    } else {
      MoveKeeps(base, start, c, moves[0]);
      MovesKeep(base, start, Moved(c, moves[0]), moves[1..]);
    }
  }

  lemma BeginInv(parameters: ParameterMap, rt: Runtime)
    requires Stable(rt.state)
    ensures SystemInv(parameters, rt, Begin(parameters, rt))
  {
    ReachedInv(parameters, true, []);
    StartKeeps(parameters, Initial(parameters, true));
    LogReadings(parameters, [], Started);
    assert [] + [Started] == [Started];
    assert Begin(parameters, rt).queue.log == [Started];
  }

  lemma SystemReached(parameters: ParameterMap, rt: Runtime, moves: seq<Move>)
    requires Stable(rt.state) && Moves(Begin(parameters, rt), moves)
    ensures SystemInv(parameters, rt, MovedBy(Begin(parameters, rt), moves))
  {
    BeginInv(parameters, rt);
    MovesKeep(parameters, rt, Begin(parameters, rt), moves);
  }

  // ---------------------------------------------------------------------------
  // Main result
  // ---------------------------------------------------------------------------

  /** No batch is being planned or executed. */
  predicate AtRest(c: System) {
    c.queue.worker == Waiting || c.queue.worker.Holding?
  }

  /** Newest map wins. At every point where the worker has no batch in execution, after `n`
      planner calls: the device rests active iff it started active and otherwise inactive, it
      was configured exactly once per call, and the last configuration carried the full map of
      the newest call. If moreover nothing waits, that map is the device's map, except for the
      gate. */
  lemma NewestMapWins(parameters: ParameterMap, rt: Runtime, moves: seq<Move>)
    requires Stable(rt.state) && Moves(Begin(parameters, rt), moves)
    ensures var c := MovedBy(Begin(parameters, rt), moves);
      var n := |HandedRevisions(c.queue.log)|;
      AtRest(c) ==>
      && c.rt.configures == rt.configures + n
      && (n == 0 ==> c.rt == rt)
      && (n > 0 ==> c.rt.state == Rest(rt.state) && c.rt.configured == Some(LastFull(parameters, c.queue.log)))
      && (n > 0 && Outstanding(c.queue) == [] ==>
            c.rt.configured.Some? && AgreeExceptEnable(c.rt.configured.value, c.queue.parameters))
  {
    SystemReached(parameters, rt, moves);
    var c := MovedBy(Begin(parameters, rt), moves);
    if Outstanding(c.queue) == [] {
      assert HeldBatches(c.queue.worker) == [] && c.queue.urgent == [] && c.queue.normal == [];
      assert Current(c.queue) == 0;
    }
  }

  lemma WorkerOkCanMove(c: System)
    requires WorkerOk(c) && !c.queue.stopping
    ensures CanMove(c, Works) <==> c.queue.worker != Waiting || c.queue.urgent != [] || c.queue.normal != []
  {
  }

  /** The worker never gets stuck: it has a next step exactly while something is queued or in hand. */
  lemma WorkerNeverStuck(parameters: ParameterMap, rt: Runtime, moves: seq<Move>)
    requires Stable(rt.state) && Moves(Begin(parameters, rt), moves)
    ensures var c := MovedBy(Begin(parameters, rt), moves);
      CanMove(c, Works) <==> c.queue.worker != Waiting || c.queue.urgent != [] || c.queue.normal != []
  {
    SystemReached(parameters, rt, moves);
    WorkerOkCanMove(MovedBy(Begin(parameters, rt), moves));
  }
}
