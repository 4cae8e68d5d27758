/** What the submitting threads alone decide. The accepted patches and submissions are read off the
    steps of a run, not off its log, and the device is what they make it. */
module QueueReplay {
  import opened Lifecycle
  import opened DeviceQueue
  import opened QueueTrace

  // ---------------------------------------------------------------------------
  // Reading the steps
  // ---------------------------------------------------------------------------

  /** The patch that opens the gate and changes nothing else. */
  const GATE_ON: ParameterMap := map[ENABLE := BoolValue(true)]

  predicate WellTyped(patch: ParameterMap) {
    ENABLE in patch ==> patch[ENABLE].BoolValue?
  }

  /** The last start or stop was a start. */
  predicate Opened(steps: seq<Step>) {
    steps != [] && (steps[|steps| - 1].Start? || (!steps[|steps| - 1].Stop? && Opened(steps[..|steps| - 1])))
  }

  /** The patches that were well typed and came while the queue was open, of any priority. */
  function Patches(steps: seq<Step>): seq<ParameterMap> {
    if steps == [] then []
    else
      var front, last := steps[..|steps| - 1], steps[|steps| - 1];
      Patches(front) + if last.Patch? && Opened(front) && WellTyped(last.patch) then [last.patch] else []
  }

  function Overlaid(base: ParameterMap, patches: seq<ParameterMap>): ParameterMap {
    if patches == [] then base else Overlaid(base, patches[..|patches| - 1]) + patches[|patches| - 1]
  }

  /** The last patch that names the gate sets it. */
  function Gate(initially: bool, patches: seq<ParameterMap>): bool {
    if patches == [] then initially
    else if ENABLE in patches[|patches| - 1] then patches[|patches| - 1][ENABLE] == BoolValue(true)
    else Gate(initially, patches[..|patches| - 1])
  }

  /** The patches that do more than open the gate. */
  function Changes(patches: seq<ParameterMap>): nat {
    if patches == [] then 0
    else Changes(patches[..|patches| - 1]) + if patches[|patches| - 1] != GATE_ON then 1 else 0
  }

  /** What identifies a queued batch: its requests, and its revision if it is a patch. */
  datatype Arrival = Arrival(requests: seq<TransitionRequest>, revision: Option<nat>)

  /** What the last step sends to the queue of a priority. */
  function Arriving(enabled: bool, front: seq<Step>, last: Step, priority: Priority): seq<Arrival> {
    match last
    case Submit(requests, p) => if p == priority && Opened(front) then [Arrival(requests, None)] else []
    case Patch(patch, p) =>
      var patches := Patches(front) + [patch];
      if p == priority && Opened(front) && WellTyped(patch) && Gate(enabled, patches) && patch != GATE_ON then
        [Arrival([], Some(Changes(patches)))]
      else []
    case _ => []
  }

  /** What came to the queue of a priority since it was last opened or closed. */
  function Arrivals(enabled: bool, steps: seq<Step>, priority: Priority): seq<Arrival> {
    if steps == [] then []
    else
      var front, last := steps[..|steps| - 1], steps[|steps| - 1];
      if Opened(steps) != Opened(front) then []
      else Arrivals(enabled, front, priority) + Arriving(enabled, front, last, priority)
  }

  function Tagged(batches: seq<Batch>): seq<Arrival> {
    seq(|batches|, i requires 0 <= i < |batches| => Arrival(batches[i].requests, batches[i].revision))
  }

  /** The patches the log speaks of. */
  function Logged(log: seq<Event>): seq<ParameterMap> {
    if log == [] then []
    else Logged(log[..|log| - 1]) + if log[|log| - 1].Patched? then [log[|log| - 1].patch] else []
  }

  function QueueOf(s: DeviceState, priority: Priority): seq<Batch> {
    if priority == Urgent then s.urgent else s.normal
  }

  // ---------------------------------------------------------------------------
  // The invariant
  // ---------------------------------------------------------------------------

  predicate ControlReplays(steps: seq<Step>, s: DeviceState) {
    s.running == Opened(steps) && !(s.running && s.stopping)
  }

  predicate PatchesReplay(parameters: ParameterMap, enabled: bool, patches: seq<ParameterMap>, s: DeviceState) {
    && s.parameters == Overlaid(parameters, patches)
    && s.enabled == Gate(enabled, patches)
    && s.revision == Changes(patches)
    && Logged(s.log) == patches
  }

  predicate ArrivalsReplay(enabled: bool, steps: seq<Step>, log: seq<Event>, priority: Priority) {
    Tagged(AcceptedSince(log, priority)) == Arrivals(enabled, steps, priority)
  }

  predicate Replays(parameters: ParameterMap, enabled: bool, steps: seq<Step>, s: DeviceState) {
    && ControlReplays(steps, s)
    && PatchesReplay(parameters, enabled, Patches(steps), s)
    && ArrivalsReplay(enabled, steps, s.log, Urgent)
    && ArrivalsReplay(enabled, steps, s.log, Normal)
  }

  // ---------------------------------------------------------------------------
  // Preservation
  // ---------------------------------------------------------------------------

  lemma {:induction false} ReachedSnoc(s: DeviceState, steps: seq<Step>, step: Step)
    requires Runs(s, steps + [step])
    ensures Runs(s, steps) && Enabled(Reached(s, steps), step)
    ensures Reached(s, steps + [step]) == Next(Reached(s, steps), step)
    decreases |steps|
  {
    if steps == [] {
      assert steps + [step] == [step] && [step][1..] == [];
    } else {
      assert (steps + [step])[1..] == steps[1..] + [step];
      ReachedSnoc(Next(s, steps[0]), steps[1..], step);
    }
  }

  lemma StepReadings(enabled: bool, steps: seq<Step>, step: Step, priority: Priority)
    ensures Opened(steps + [step]) == (step.Start? || (!step.Stop? && Opened(steps)))
    ensures Patches(steps + [step])
      == if step.Patch? && Opened(steps) && WellTyped(step.patch) then Patches(steps) + [step.patch] else Patches(steps)
    ensures Arrivals(enabled, steps + [step], priority)
      == if Opened(steps + [step]) != Opened(steps) then []
         else Arrivals(enabled, steps, priority) + Arriving(enabled, steps, step, priority)
  {
    assert (steps + [step])[..|steps|] == steps;
  }

  lemma PatchReadings(parameters: ParameterMap, enabled: bool, patches: seq<ParameterMap>, patch: ParameterMap)
    ensures Overlaid(parameters, patches + [patch]) == Overlaid(parameters, patches) + patch
    ensures Gate(enabled, patches + [patch])
      == if ENABLE in patch then patch[ENABLE] == BoolValue(true) else Gate(enabled, patches)
    ensures Changes(patches + [patch]) == Changes(patches) + if patch != GATE_ON then 1 else 0
  {
    assert (patches + [patch])[..|patches|] == patches;
  }

  lemma LoggedSnoc(log: seq<Event>, e: Event)
    ensures Logged(log + [e]) == if e.Patched? then Logged(log) + [e.patch] else Logged(log)
  {
    assert (log + [e])[..|log|] == log;
  }

  lemma TaggedSnoc(batches: seq<Batch>, batch: Batch)
    ensures Tagged(batches + [batch]) == Tagged(batches) + [Arrival(batch.requests, batch.revision)]
  {
  }

  /** Nothing a submitting thread decides has moved. */
  predicate Untouched(s: DeviceState, t: DeviceState) {
    && t.running == s.running && t.stopping == s.stopping
    && t.parameters == s.parameters && t.enabled == s.enabled && t.revision == s.revision
    && Logged(t.log) == Logged(s.log)
    && forall priority: Priority :: AcceptedSince(t.log, priority) == AcceptedSince(s.log, priority)
  }

  lemma UnreadEvent(log: seq<Event>, e: Event)
    requires WorkerEvent(e)
    ensures Logged(log + [e]) == Logged(log)
    ensures forall priority: Priority :: AcceptedSince(log + [e], priority) == AcceptedSince(log, priority)
  {
    LoggedSnoc(log, e);
    forall priority: Priority ensures AcceptedSince(log + [e], priority) == AcceptedSince(log, priority) {
      QueueReadings(log, e, priority);
    }
  }

  lemma LogTouches(s: DeviceState, t: DeviceState, e: Event)
    requires WorkerEvent(e) && t.log == s.log + [e]
    requires t.running == s.running && t.stopping == s.stopping
    requires t.parameters == s.parameters && t.enabled == s.enabled && t.revision == s.revision
    ensures Untouched(s, t)
  {
    UnreadEvent(s.log, e);
  }

  lemma TakeTouches(s: DeviceState, priority: Priority, batch: Batch)
    ensures Untouched(s, Take(s, priority, batch))
  {
    var taken := Taken(priority, batch);
    var middle := s.(log := s.log + [taken]);
    LogTouches(s, middle, taken);
    if batch.revision.None? {
      assert s.log + [taken, Began(batch.requests)] == s.log + [taken] + [Began(batch.requests)];
      LogTouches(middle, Take(s, priority, batch), Began(batch.requests));
    }
  }

  lemma WakeTouches(s: DeviceState)
    requires Enabled(s, Wake)
    ensures Untouched(s, AfterWake(s))
  {
    if !s.stopping {
      if s.urgent != [] {
        TakeTouches(s.(urgent := s.urgent[1..]), Urgent, s.urgent[0]);
      } else {
        TakeTouches(s.(normal := s.normal[1..]), Normal, s.normal[0]);
      }
    }
  }

  lemma CheckTouches(s: DeviceState, safe: LifecycleState)
    requires Enabled(s, Check(safe))
    ensures Untouched(s, AfterCheck(s, safe))
  {
    var e := if s.worker.batch.revision.value == s.revision
             then Handed(s.revision, s.parameters, s.worker.batch.patch) else Discarded(safe);
    LogTouches(s, AfterCheck(s, safe), e);
  }

  lemma PlanTouches(s: DeviceState, initial: Reply<LifecycleState>, plan: Reply<seq<TransitionRequest>>)
    requires s.worker.Planning?
    ensures Untouched(s, AfterPlan(s, initial, plan))
  {
    var planned := Planned(initial, s.worker.full, s.worker.patch, plan);
    UnreadEvent(s.log, planned);
    if plan.Returned? {
      UnreadEvent(s.log + [planned], Began(plan.value));
    }
  }

  lemma ExecuteTouches(s: DeviceState, replies: Replies)
    requires Enabled(s, Execute(replies))
    ensures Untouched(s, AfterExecute(s, replies))
  {
    UnreadEvent(s.log, Attempted(AttemptOf(s.worker.todo[0], replies)));
  }

  lemma FinalizeTouches(s: DeviceState, safe: LifecycleState, replies: Replies)
    requires s.worker == Finalizing
    ensures Untouched(s, AfterFinalize(s, safe, replies))
  {
    UnreadEvent(s.log, Exited(safe, None));
    UnreadEvent(s.log, Exited(safe, Some(AttemptOf(TransitionRequest(safe, Finalized, map[]), replies))));
  }

  predicate OfWorker(step: Step) {
    step.Wake? || step.Check? || step.Plan? || step.Execute? || step.Finalize?
  }

  lemma WorkerTouches(s: DeviceState, step: Step)
    requires Enabled(s, step) && OfWorker(step)
    ensures Untouched(s, Next(s, step))
  {
    match step
    case Wake => WakeTouches(s);
    case Check(safe) => CheckTouches(s, safe);
    case Plan(initial, plan) => PlanTouches(s, initial, plan);
    case Execute(replies) => ExecuteTouches(s, replies);
    case Finalize(safe, replies) => FinalizeTouches(s, safe, replies);
  }

  /** A step of the worker decides none of this. */
  lemma WorkerKeeps(
      parameters: ParameterMap, enabled: bool, steps: seq<Step>, s: DeviceState, step: Step, t: DeviceState)
    requires Replays(parameters, enabled, steps, s) && OfWorker(step) && Untouched(s, t)
    ensures Replays(parameters, enabled, steps + [step], t)
  {
    StepReadings(enabled, steps, step, Urgent);
    StepReadings(enabled, steps, step, Normal);
    assert Arrivals(enabled, steps, Urgent) + [] == Arrivals(enabled, steps, Urgent);
    assert Arrivals(enabled, steps, Normal) + [] == Arrivals(enabled, steps, Normal);
  }

  /** A start or a stop that has an effect empties what came since. */
  lemma ControlArrives(enabled: bool, steps: seq<Step>, s: DeviceState, step: Step, priority: Priority)
    requires ControlReplays(steps, s) && ArrivalsReplay(enabled, steps, s.log, priority)
    requires Enabled(s, step) && (step.Start? || step.Stop?)
    ensures ArrivalsReplay(enabled, steps + [step], Next(s, step).log, priority)
  {
    StepReadings(enabled, steps, step, priority);
    QueueReadings(s.log, if step.Start? then Started else Stopped(s.parameters), priority);
    assert Arrivals(enabled, steps, priority) + [] == Arrivals(enabled, steps, priority);
  }

  lemma ControlKeeps(parameters: ParameterMap, enabled: bool, steps: seq<Step>, s: DeviceState, step: Step)
    requires Replays(parameters, enabled, steps, s) && Enabled(s, step) && (step.Start? || step.Stop?)
    ensures Replays(parameters, enabled, steps + [step], Next(s, step))
  {
    LoggedSnoc(s.log, if step.Start? then Started else Stopped(s.parameters));
    ControlArrives(enabled, steps, s, step, Urgent);
    ControlArrives(enabled, steps, s, step, Normal);
    StepReadings(enabled, steps, step, Urgent);
  }

  /** A batch that is pushed arrives at its priority only. */
  lemma PushedArrives(
      enabled: bool, steps: seq<Step>, step: Step, log: seq<Event>, to: Priority, batch: Batch, priority: Priority)
    requires ArrivalsReplay(enabled, steps, log, priority) && Opened(steps + [step]) == Opened(steps)
    requires Arriving(enabled, steps, step, priority)
      == if to == priority then [Arrival(batch.requests, batch.revision)] else []
    ensures ArrivalsReplay(enabled, steps + [step], log + [Queued(to, batch)], priority)
  {
    StepReadings(enabled, steps, step, priority);
    QueueReadings(log, Queued(to, batch), priority);
    TaggedSnoc(AcceptedSince(log, priority), batch);
  }

  /** Nothing arrives. */
  lemma NothingArrives(enabled: bool, steps: seq<Step>, step: Step, log: seq<Event>, priority: Priority)
    requires ArrivalsReplay(enabled, steps, log, priority) && Opened(steps + [step]) == Opened(steps)
    requires Arriving(enabled, steps, step, priority) == []
    ensures ArrivalsReplay(enabled, steps + [step], log, priority)
  {
    StepReadings(enabled, steps, step, priority);
    assert Arrivals(enabled, steps, priority) + [] == Arrivals(enabled, steps, priority);
  }

  lemma SubmitArrives(enabled: bool, steps: seq<Step>, s: DeviceState, step: Step, priority: Priority)
    requires ControlReplays(steps, s) && ArrivalsReplay(enabled, steps, s.log, priority) && step.Submit?
    ensures ArrivalsReplay(enabled, steps + [step], AfterSubmit(s, step.requests, step.priority).log, priority)
  {
    StepReadings(enabled, steps, step, priority);
    if Opened(steps) {
      PushedArrives(enabled, steps, step, s.log, step.priority, Batch(step.requests, None, map[]), priority);
    } else {
      NothingArrives(enabled, steps, step, s.log, priority);
    }
  }

  lemma SubmitIsNoPatch(parameters: ParameterMap, enabled: bool, patches: seq<ParameterMap>, s: DeviceState,
                        requests: seq<TransitionRequest>, priority: Priority)
    requires PatchesReplay(parameters, enabled, patches, s)
    ensures PatchesReplay(parameters, enabled, patches, AfterSubmit(s, requests, priority))
  {
    LoggedSnoc(s.log, Queued(priority, Batch(requests, None, map[])));
  }

  lemma SubmitKeeps(parameters: ParameterMap, enabled: bool, steps: seq<Step>, s: DeviceState, step: Step)
    requires Replays(parameters, enabled, steps, s) && step.Submit?
    ensures Replays(parameters, enabled, steps + [step], AfterSubmit(s, step.requests, step.priority))
  {
    SubmitIsNoPatch(parameters, enabled, Patches(steps), s, step.requests, step.priority);
    SubmitArrives(enabled, steps, s, step, Urgent);
    SubmitArrives(enabled, steps, s, step, Normal);
    StepReadings(enabled, steps, step, Urgent);
  }

  /** A map with the gate alone. */
  lemma GateAlone(patch: ParameterMap)
    requires WellTyped(patch)
    ensures patch == GATE_ON <==> |patch| == 1 && ENABLE in patch && patch[ENABLE].flag
  {
    if |patch| == 1 && ENABLE in patch && patch[ENABLE].flag {
      var rest := patch.Keys - {ENABLE};
      assert patch.Keys == rest + {ENABLE};
      assert |patch.Keys| == |rest| + 1;
      assert patch.Keys == {ENABLE};
    }
  }

  /** The log of an accepted patch: what was merged, and what became of it. */
  predicate LogsPatch(s: DeviceState, t: DeviceState, patch: ParameterMap, to: Priority, pushed: bool) {
    if pushed then
      t.log == s.log + [Patched(patch)] + [Queued(to, Batch([], Some(s.revision + 1), s.pending + patch))]
    else t.log == s.log + [Patched(patch)] || t.log == s.log + [Patched(patch)] + [StoredDisabled(t.parameters)]
  }

  lemma PatchIsLogged(s: DeviceState, patch: ParameterMap, to: Priority)
    requires PatchResult(s, patch) == Accepted
    ensures LogsPatch(s, AfterPatch(s, patch, to), patch, to,
                      Merged(s, patch).enabled && !(|patch| == 1 && ENABLE in patch))
  {
  }

  lemma PatchLogged(s: DeviceState, t: DeviceState, patch: ParameterMap, to: Priority, pushed: bool)
    requires LogsPatch(s, t, patch, to, pushed)
    ensures Logged(t.log) == Logged(s.log) + [patch]
  {
    LoggedSnoc(s.log, Patched(patch));
    LoggedSnoc(s.log + [Patched(patch)], t.log[|t.log| - 1]);
  }

  lemma PatchCounts(parameters: ParameterMap, enabled: bool, patches: seq<ParameterMap>, s: DeviceState,
                    patch: ParameterMap, priority: Priority)
    requires PatchesReplay(parameters, enabled, patches, s) && PatchResult(s, patch) == Accepted
    ensures PatchesReplay(parameters, enabled, patches + [patch], AfterPatch(s, patch, priority))
  {
    PatchReadings(parameters, enabled, patches, patch);
    GateAlone(patch);
    PatchIsLogged(s, patch, priority);
    PatchLogged(s, AfterPatch(s, patch, priority), patch, priority,
                Merged(s, patch).enabled && !(|patch| == 1 && ENABLE in patch));
  }

  /** What an accepted patch sends. */
  lemma PatchArriving(parameters: ParameterMap, enabled: bool, steps: seq<Step>, s: DeviceState, patch: ParameterMap,
                      to: Priority, priority: Priority)
    requires PatchesReplay(parameters, enabled, Patches(steps), s) && Opened(steps)
    requires PatchResult(s, patch) == Accepted
    ensures Arriving(enabled, steps, Patch(patch, to), priority)
      == if to == priority && Merged(s, patch).enabled && !(|patch| == 1 && ENABLE in patch)
         then [Arrival([], Some(s.revision + 1))] else []
  {
    PatchReadings(parameters, enabled, Patches(steps), patch);
    GateAlone(patch);
  }

  lemma PatchArrives(parameters: ParameterMap, enabled: bool, steps: seq<Step>, s: DeviceState, patch: ParameterMap,
                     to: Priority, priority: Priority)
    requires ControlReplays(steps, s) && PatchesReplay(parameters, enabled, Patches(steps), s)
    requires ArrivalsReplay(enabled, steps, s.log, priority) && PatchResult(s, patch) == Accepted
    ensures ArrivalsReplay(enabled, steps + [Patch(patch, to)], AfterPatch(s, patch, to).log, priority)
  {
    var pushed := Merged(s, patch).enabled && !(|patch| == 1 && ENABLE in patch);
    PatchArriving(parameters, enabled, steps, s, patch, to, priority);
    PatchIsLogged(s, patch, to);
    StepReadings(enabled, steps, Patch(patch, to), priority);
    LoggedArrives(enabled, steps, s, AfterPatch(s, patch, to), patch, to, pushed, priority);
  }

  lemma LoggedArrives(enabled: bool, steps: seq<Step>, s: DeviceState, t: DeviceState, patch: ParameterMap,
                      to: Priority, pushed: bool, priority: Priority)
    requires LogsPatch(s, t, patch, to, pushed) && ArrivalsReplay(enabled, steps, s.log, priority)
    requires Opened(steps + [Patch(patch, to)]) == Opened(steps)
    requires Arriving(enabled, steps, Patch(patch, to), priority)
      == if to == priority && pushed then [Arrival([], Some(s.revision + 1))] else []
    ensures ArrivalsReplay(enabled, steps + [Patch(patch, to)], t.log, priority)
  {
    var merged := s.log + [Patched(patch)];
    QueueReadings(s.log, Patched(patch), priority);
    assert ArrivalsReplay(enabled, steps, merged, priority);
    if pushed {
      PushedArrives(enabled, steps, Patch(patch, to), merged, to, Batch([], Some(s.revision + 1), s.pending + patch),
                    priority);
    } else {
      QueueReadings(merged, StoredDisabled(t.parameters), priority);
      NothingArrives(enabled, steps, Patch(patch, to), t.log, priority);
    }
  }

  lemma PatchControls(s: DeviceState, patch: ParameterMap, to: Priority)
    ensures var t := AfterPatch(s, patch, to); t.running == s.running && t.stopping == s.stopping
  {
  }

  lemma AcceptedKeeps(parameters: ParameterMap, enabled: bool, steps: seq<Step>, s: DeviceState, patch: ParameterMap,
                      to: Priority)
    requires Replays(parameters, enabled, steps, s) && PatchResult(s, patch) == Accepted
    ensures Replays(parameters, enabled, steps + [Patch(patch, to)], AfterPatch(s, patch, to))
  {
    StepReadings(enabled, steps, Patch(patch, to), Urgent);
    PatchControls(s, patch, to);
    PatchCounts(parameters, enabled, Patches(steps), s, patch, to);
    PatchArrives(parameters, enabled, steps, s, patch, to, Urgent);
    PatchArrives(parameters, enabled, steps, s, patch, to, Normal);
  }

  lemma PatchKeeps(parameters: ParameterMap, enabled: bool, steps: seq<Step>, s: DeviceState, patch: ParameterMap,
                   to: Priority)
    requires Replays(parameters, enabled, steps, s)
    ensures Replays(parameters, enabled, steps + [Patch(patch, to)], AfterPatch(s, patch, to))
  {
    if PatchResult(s, patch) == Accepted {
      AcceptedKeeps(parameters, enabled, steps, s, patch, to);
    } else {
      StepReadings(enabled, steps, Patch(patch, to), Urgent);
      NothingArrives(enabled, steps, Patch(patch, to), s.log, Urgent);
      NothingArrives(enabled, steps, Patch(patch, to), s.log, Normal);
    }
  }

  lemma {:induction false} ReachedReplays(parameters: ParameterMap, enabled: bool, steps: seq<Step>)
    requires Runs(Initial(parameters, enabled), steps)
    ensures Replays(parameters, enabled, steps, Reached(Initial(parameters, enabled), steps))
  {
    if steps == [] {
    } else {
      var front, step := steps[..|steps| - 1], steps[|steps| - 1];
      assert front + [step] == steps;
      ReachedSnoc(Initial(parameters, enabled), front, step);
      ReachedReplays(parameters, enabled, front);
      var s := Reached(Initial(parameters, enabled), front);
      match step
      case Start => ControlKeeps(parameters, enabled, front, s, step);
      case Stop => ControlKeeps(parameters, enabled, front, s, step);
      case Submit(_, _) => SubmitKeeps(parameters, enabled, front, s, step);
      case Patch(_, _) => PatchKeeps(parameters, enabled, front, s, step.patch, step.priority);
      case _ =>
        WorkerTouches(s, step);
        WorkerKeeps(parameters, enabled, front, s, step, Next(s, step));
    }
  }

  // ---------------------------------------------------------------------------
  // Main results
  // ---------------------------------------------------------------------------

  /** The device is what its accepted patches make it. In every run, whatever the worker and the
      runtime do: the full map is the initial one overlaid, in order, with every well-typed patch
      that came while the queue was open, of either priority; the gate is what the last of them to
      name it says; and the revision counts those that do more than open the gate. The log tells
      of exactly these patches. */
  lemma DeviceReplaysItsPatches(parameters: ParameterMap, enabled: bool, steps: seq<Step>)
    requires Runs(Initial(parameters, enabled), steps)
    ensures var s := Reached(Initial(parameters, enabled), steps);
      && s.running == Opened(steps)
      && s.parameters == Overlaid(parameters, Patches(steps))
      && s.enabled == Gate(enabled, Patches(steps))
      && s.revision == Changes(Patches(steps))
      && Logged(s.log) == Patches(steps)
  {
    ReachedReplays(parameters, enabled, steps);
  }

  /** Nothing that came is lost on its way. In every run, for either priority: the batches dequeued
      since the queue was last opened or closed, followed by those still queued, are in order what
      was sent to that priority: every submission with its requests, and every patch that leaves
      the device enabled and does more than open the gate, with its own revision. */
  lemma ArrivalsAreTakenOrQueued(parameters: ParameterMap, enabled: bool, steps: seq<Step>, priority: Priority)
    requires Runs(Initial(parameters, enabled), steps)
    ensures var s := Reached(Initial(parameters, enabled), steps);
      Tagged(TakenSince(s.log, priority) + QueueOf(s, priority)) == Arrivals(enabled, steps, priority)
  {
    ReachedReplays(parameters, enabled, steps);
    var s := Initial(parameters, enabled);
    RunKeeps(s, steps);
    assert ArrivalsReplay(enabled, steps, Reached(s, steps).log, priority);
  }

  /** The queue of the other priority, the worker and the controls do not move. */
  predicate OthersStand(s: DeviceState, t: DeviceState, priority: Priority) {
    && (if priority == Urgent then t.normal == s.normal else t.urgent == s.urgent)
    && t.worker == s.worker && t.running == s.running && t.stopping == s.stopping
    && t.lastTransition == s.lastTransition && t.calls == s.calls
  }

  /** What an accepted patch does to parameters, gate, revision and delta. */
  predicate Absorbs(s: DeviceState, t: DeviceState, patch: ParameterMap, gateOn: bool) {
    && t.parameters == s.parameters + patch
    && t.enabled == (if ENABLE in patch then patch[ENABLE] == BoolValue(true) else s.enabled)
    && t.revision == s.revision + (if gateOn then 0 else 1)
    && t.pending == (if !t.enabled then map[] else if gateOn then s.pending else s.pending + patch)
  }

  lemma PatchIsAbsorbed(s: DeviceState, patch: ParameterMap, priority: Priority)
    requires PatchResult(s, patch) == Accepted
    ensures Absorbs(s, AfterPatch(s, patch, priority), patch, |patch| == 1 && ENABLE in patch && patch[ENABLE].flag)
  {
  }

  lemma PatchIsPushed(s: DeviceState, patch: ParameterMap, priority: Priority)
    requires PatchResult(s, patch) == Accepted
    ensures var t := AfterPatch(s, patch, priority);
      && OthersStand(s, t, priority)
      && if t.enabled && patch != GATE_ON then
           QueueOf(t, priority) == QueueOf(s, priority) + [Batch([], Some(t.revision), t.pending)]
         else QueueOf(t, priority) == QueueOf(s, priority)
  {
    GateAlone(patch);
  }

  /** One patch. Refused, it changes nothing. Accepted, the device ends up disabled, and the patch is
      stored with a new revision and no delta; or the patch only opens the gate, and nothing else
      moves; or the delta grows by the patch, and a batch with exactly that delta and the new
      revision is last in the queue of the patch's own priority. */
  lemma PatchIsStoredOrQueuedLast(s: DeviceState, patch: ParameterMap, priority: Priority)
    ensures var t := Next(s, Patch(patch, priority));
      if !s.running || s.stopping || !WellTyped(patch) then t == s
      else
        && Absorbs(s, t, patch, patch == GATE_ON)
        && OthersStand(s, t, priority)
        && if t.enabled && patch != GATE_ON then
             QueueOf(t, priority) == QueueOf(s, priority) + [Batch([], Some(t.revision), t.pending)]
           else QueueOf(t, priority) == QueueOf(s, priority)
  {
    if PatchResult(s, patch) == Accepted {
      GateAlone(patch);
      PatchIsAbsorbed(s, patch, priority);
      PatchIsPushed(s, patch, priority);
    }
  }

  /** One submission: last in the queue of its own priority, or refused without a trace. */
  lemma SubmissionIsQueuedLast(s: DeviceState, requests: seq<TransitionRequest>, priority: Priority)
    ensures var t := Next(s, Submit(requests, priority));
      if !s.running || s.stopping then t == s
      else
        && OthersStand(s, t, priority)
        && t.parameters == s.parameters && t.enabled == s.enabled
        && t.revision == s.revision && t.pending == s.pending
        && QueueOf(t, priority) == QueueOf(s, priority) + [Batch(requests, None, map[])]
  {
  }
}
