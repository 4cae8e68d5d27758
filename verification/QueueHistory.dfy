/** How the events of every run hang together: each is explained by the ones before it, and the
    calls the worker makes into the runtime are exactly those its events stand for. */
module QueueHistory {
  import opened Lifecycle
  import opened DeviceQueue
  import opened Streams
  import QueueInvariants
  import opened QueueTrace

  // ---------------------------------------------------------------------------
  // Reading the log
  // ---------------------------------------------------------------------------

  /** The full map: the base map overlaid with every accepted patch. */
  function FullMap(base: ParameterMap, log: seq<Event>): ParameterMap {
    if log == [] then base
    else
      var before := FullMap(base, log[..|log| - 1]);
      if log[|log| - 1].Patched? then before + log[|log| - 1].patch else before
  }

  function Bump(e: Event): nat {
    if e.StoredDisabled? || (e.Queued? && e.batch.revision.Some?) then 1 else 0
  }

  /** The number of revisions so far. */
  function Bumps(log: seq<Event>): nat {
    if log == [] then 0 else Bumps(log[..|log| - 1]) + Bump(log[|log| - 1])
  }

  /** What the worker did last. */
  function LastWork(log: seq<Event>): Option<Event> {
    if log == [] then None
    else if WorkerEvent(log[|log| - 1]) then Some(log[|log| - 1])
    else LastWork(log[..|log| - 1])
  }

  /** The calls into the runtime an event stands for. */
  function EventCalls(e: Event): seq<Call> {
    match e
    case Discarded(safe) => [SafeAsked(safe)]
    case Planned(initial, full, patch, plan) => PlanCalls(initial, full, patch, plan)
    case Attempted(attempt) => ExecuteCalls(attempt.request, attempt.replies)
    case Exited(safe, finalize) =>
      [SafeAsked(safe)]
      + if finalize.None? then [] else ExecuteCalls(finalize.value.request, finalize.value.replies)
    case _ => []
  }

  // ---------------------------------------------------------------------------
  // What explains an event
  // ---------------------------------------------------------------------------

  predicate TookPatch(last: Option<Event>, revision: nat, patch: ParameterMap) {
    last.Some? && last.value.Taken? && last.value.batch.revision == Some(revision) && last.value.batch.patch == patch
  }

  predicate TookOlder(last: Option<Event>, revision: nat) {
    last.Some? && last.value.Taken? && last.value.batch.revision.Some? && last.value.batch.revision.value < revision
  }

  predicate HandedWith(last: Option<Event>, full: ParameterMap, patch: ParameterMap) {
    last.Some? && last.value.Handed? && last.value.full == full && last.value.patch == patch
  }

  /** A plain batch just taken, or what the planner just replied. */
  predicate BeginsFrom(e: Event, requests: seq<TransitionRequest>) {
    || (e.Taken? && e.batch.revision.None? && e.batch.requests == requests)
    || (e.Planned? && e.initial.Returned? && e.plan == Returned(requests))
  }

  /** One request, from the state asked to FINALIZED, unless it is finalized already. */
  predicate Finalizes(safe: LifecycleState, finalize: Option<Attempt>) {
    match finalize
    case None => safe == Finalized
    case Some(attempt) => safe != Finalized && attempt.request == TransitionRequest(safe, Finalized, map[])
  }

  /** What the log before an event says about it. */
  predicate Explained(base: ParameterMap, before: seq<Event>, e: Event) {
    match e
    case Handed(revision, full, patch) =>
      && revision == Bumps(before)
      && full == FullMap(base, before)
      && TookPatch(LastWork(before), revision, patch)
    case Discarded(_) => TookOlder(LastWork(before), Bumps(before))
    case Planned(_, full, patch, _) => HandedWith(LastWork(before), full, patch)
    case Began(requests) => before != [] && BeginsFrom(before[|before| - 1], requests)
    case Queued(_, batch) => batch.revision.Some? ==> batch.revision.value == Bumps(before) + 1
    case Stopped(parameters) => parameters == FullMap(base, before)
    case StoredDisabled(parameters) => parameters == FullMap(base, before)
    case Exited(safe, finalize) => Finalizes(safe, finalize)
    case _ => true
  }

  predicate AllExplained(base: ParameterMap, log: seq<Event>) {
    forall i :: 0 <= i < |log| ==> Explained(base, log[..i], log[i])
  }

  predicate WorkerAt(worker: Worker, last: Option<Event>) {
    match worker
    case Holding(batch) => batch.revision.Some? && TookPatch(last, batch.revision.value, batch.patch)
    case Planning(_, full, patch) => HandedWith(last, full, patch)
    case _ => true
  }

  predicate HistoryInv(base: ParameterMap, s: DeviceState) {
    && s.parameters == FullMap(base, s.log)
    && s.revision == Bumps(s.log)
    && WorkerAt(s.worker, LastWork(s.log))
    && AllExplained(base, s.log)
    && s.calls == FlatMap(EventCalls, s.log)
  }

  // ---------------------------------------------------------------------------
  // Preservation
  // ---------------------------------------------------------------------------

  lemma Readings(base: ParameterMap, log: seq<Event>, e: Event)
    ensures FullMap(base, log + [e]) == if e.Patched? then FullMap(base, log) + e.patch else FullMap(base, log)
    ensures Bumps(log + [e]) == Bumps(log) + Bump(e)
    ensures LastWork(log + [e]) == if WorkerEvent(e) then Some(e) else LastWork(log)
    ensures AllExplained(base, log) && Explained(base, log, e) ==> AllExplained(base, log + [e])
  {
    var longer := log + [e];
    assert longer[..|log|] == log;
    forall i | 0 <= i < |log| ensures longer[..i] == log[..i] && longer[i] == log[i] {
    }
  }

  /** One event that the log explains, and its calls. */
  lemma Extends(base: ParameterMap, s: DeviceState, t: DeviceState, e: Event)
    requires HistoryInv(base, s) && t.log == s.log + [e] && t.calls == s.calls + EventCalls(e)
    requires t.parameters == if e.Patched? then s.parameters + e.patch else s.parameters
    requires t.revision == s.revision + Bump(e)
    requires Explained(base, s.log, e)
    requires WorkerAt(t.worker, if WorkerEvent(e) then Some(e) else LastWork(s.log))
    ensures HistoryInv(base, t)
  {
    Readings(base, s.log, e);
    FlatMapSnoc(EventCalls, s.log, e);
  }

  /** An event no call comes with. */
  lemma ExtendsQuietly(base: ParameterMap, s: DeviceState, t: DeviceState, e: Event)
    requires HistoryInv(base, s) && t.log == s.log + [e] && t.calls == s.calls && EventCalls(e) == []
    requires t.parameters == if e.Patched? then s.parameters + e.patch else s.parameters
    requires t.revision == s.revision + Bump(e)
    requires Explained(base, s.log, e)
    requires WorkerAt(t.worker, if WorkerEvent(e) then Some(e) else LastWork(s.log))
    ensures HistoryInv(base, t)
  {
    assert s.calls == s.calls + [];
    Extends(base, s, t, e);
  }

  lemma MergedKeeps(base: ParameterMap, s: DeviceState, patch: ParameterMap)
    requires HistoryInv(base, s) && PatchResult(s, patch) == Accepted
    ensures HistoryInv(base, Merged(s, patch))
  {
    ExtendsQuietly(base, s, Merged(s, patch), Patched(patch));
  }

  lemma StoredKeeps(base: ParameterMap, merged: DeviceState, t: DeviceState)
    requires HistoryInv(base, merged) && t.log == merged.log + [StoredDisabled(merged.parameters)]
    requires t.calls == merged.calls && t.parameters == merged.parameters && t.worker == merged.worker
    requires t.revision == merged.revision + 1
    ensures HistoryInv(base, t)
  {
    ExtendsQuietly(base, merged, t, StoredDisabled(merged.parameters));
  }

  lemma DeltaKeeps(base: ParameterMap, merged: DeviceState, patch: ParameterMap, priority: Priority)
    requires HistoryInv(base, merged)
    ensures HistoryInv(base, PushDelta(merged, patch, priority))
  {
    ExtendsQuietly(base, merged, PushDelta(merged, patch, priority),
                   Queued(priority, Batch([], Some(merged.revision + 1), merged.pending + patch)));
  }

  lemma PatchKeeps(base: ParameterMap, s: DeviceState, patch: ParameterMap, priority: Priority)
    requires HistoryInv(base, s)
    ensures HistoryInv(base, AfterPatch(s, patch, priority))
  {
    if PatchResult(s, patch) == Accepted {
      MergedKeeps(base, s, patch);
      if !Merged(s, patch).enabled {
        StoredKeeps(base, Merged(s, patch), AfterPatch(s, patch, priority));
      } else {
        DeltaKeeps(base, Merged(s, patch), patch, priority);
      }
    }
  }

  lemma StartKeeps(base: ParameterMap, s: DeviceState)
    requires HistoryInv(base, s)
    ensures HistoryInv(base, AfterStart(s))
  {
    if !s.running {
      ExtendsQuietly(base, s, AfterStart(s), Started);
    }
  }

  lemma StopKeeps(base: ParameterMap, s: DeviceState)
    requires HistoryInv(base, s)
    ensures HistoryInv(base, AfterStop(s))
  {
    if s.running {
      ExtendsQuietly(base, s, AfterStop(s), Stopped(s.parameters));
    }
  }

  lemma SubmitKeeps(base: ParameterMap, s: DeviceState, requests: seq<TransitionRequest>, priority: Priority)
    requires HistoryInv(base, s)
    ensures HistoryInv(base, AfterSubmit(s, requests, priority))
  {
    if SubmitResult(s) == Accepted {
      ExtendsQuietly(base, s, AfterSubmit(s, requests, priority), Queued(priority, Batch(requests, None, map[])));
    }
  }

  lemma TakeKeeps(base: ParameterMap, s: DeviceState, popped: DeviceState, priority: Priority, batch: Batch)
    requires HistoryInv(base, s) && popped == s.(urgent := popped.urgent, normal := popped.normal)
    ensures HistoryInv(base, Take(popped, priority, batch))
  {
    var t := Take(popped, priority, batch);
    var taken := Taken(priority, batch);
    if batch.revision.Some? {
      ExtendsQuietly(base, s, t, taken);
    } else {
      var middle := s.(worker := Waiting, log := s.log + [taken]);
      ExtendsQuietly(base, s, middle, taken);
      assert t.log == middle.log + [Began(batch.requests)];
      ExtendsQuietly(base, middle, t, Began(batch.requests));
    }
  }

  lemma WakeKeeps(base: ParameterMap, s: DeviceState)
    requires HistoryInv(base, s) && Enabled(s, Wake)
    ensures HistoryInv(base, AfterWake(s))
  {
    if !s.stopping {
      if s.urgent != [] {
        TakeKeeps(base, s, s.(urgent := s.urgent[1..]), Urgent, s.urgent[0]);
      } else {
        TakeKeeps(base, s, s.(normal := s.normal[1..]), Normal, s.normal[0]);
      }
    }
  }

  lemma HandKeeps(base: ParameterMap, s: DeviceState, safe: LifecycleState)
    requires HistoryInv(base, s) && Enabled(s, Check(safe)) && s.worker.batch.revision.value == s.revision
    ensures HistoryInv(base, AfterCheck(s, safe))
  {
    ExtendsQuietly(base, s, AfterCheck(s, safe), Handed(s.revision, s.parameters, s.worker.batch.patch));
  }

  lemma DiscardKeeps(base: ParameterMap, s: DeviceState, safe: LifecycleState)
    requires HistoryInv(base, s) && Enabled(s, Check(safe)) && s.worker.batch.revision.value < s.revision
    ensures HistoryInv(base, AfterCheck(s, safe))
  {
    Extends(base, s, AfterCheck(s, safe), Discarded(safe));
  }

  lemma HeldIsNeverNewer(base: ParameterMap, s: DeviceState)
    requires QueueInvariants.Inv(base, s) && s.worker.Holding? && s.worker.batch.revision.Some?
    ensures s.worker.batch.revision.value <= s.revision
  {
    assert QueueInvariants.BatchOk(s.revision, s.parameters, s.pending, QueueInvariants.HeldBatches(s.worker)[0]);
  }

  lemma CheckKeeps(base: ParameterMap, s: DeviceState, safe: LifecycleState)
    requires HistoryInv(base, s) && QueueInvariants.Inv(base, s) && Enabled(s, Check(safe))
    ensures HistoryInv(base, AfterCheck(s, safe))
  {
    HeldIsNeverNewer(base, s);
    if s.worker.batch.revision.value == s.revision {
      HandKeeps(base, s, safe);
    } else {
      DiscardKeeps(base, s, safe);
    }
  }

  lemma PlanKeeps(
      base: ParameterMap, s: DeviceState, initial: Reply<LifecycleState>, plan: Reply<seq<TransitionRequest>>)
    requires HistoryInv(base, s) && s.worker.Planning?
    ensures HistoryInv(base, AfterPlan(s, initial, plan))
  {
    var planned := Planned(initial, s.worker.full, s.worker.patch, plan);
    var asked := s.(worker := Waiting, log := s.log + [planned],
                    calls := s.calls + PlanCalls(initial, s.worker.full, s.worker.patch, plan));
    Extends(base, s, asked, planned);
    if initial.Returned? && plan.Returned? {
      ExtendsQuietly(base, asked, AfterPlan(s, initial, plan), Began(plan.value));
    }
  }

  lemma ExecuteKeeps(base: ParameterMap, s: DeviceState, replies: Replies)
    requires HistoryInv(base, s) && Enabled(s, Execute(replies))
    ensures HistoryInv(base, AfterExecute(s, replies))
  {
    Extends(base, s, AfterExecute(s, replies), Attempted(AttemptOf(s.worker.todo[0], replies)));
  }

  lemma ExitKeeps(
      base: ParameterMap, s: DeviceState, t: DeviceState, safe: LifecycleState, finalize: Option<Attempt>)
    requires HistoryInv(base, s) && t.log == s.log + [Exited(safe, finalize)] && t.worker == Joined
    requires Finalizes(safe, finalize)
    requires t.calls == s.calls + EventCalls(Exited(safe, finalize))
    requires t.parameters == s.parameters && t.revision == s.revision
    ensures HistoryInv(base, t)
  {
    Extends(base, s, t, Exited(safe, finalize));
  }

  lemma FinalizeKeeps(base: ParameterMap, s: DeviceState, safe: LifecycleState, replies: Replies)
    requires HistoryInv(base, s) && s.worker == Finalizing
    ensures HistoryInv(base, AfterFinalize(s, safe, replies))
  {
    var t := AfterFinalize(s, safe, replies);
    if safe == Finalized {
      assert [SafeAsked(safe)] + [] == [SafeAsked(safe)];
      ExitKeeps(base, s, t, safe, None);
    } else {
      var attempt := AttemptOf(TransitionRequest(safe, Finalized, map[]), replies);
      assert s.calls + [SafeAsked(safe)] + ExecuteCalls(attempt.request, replies)
        == s.calls + ([SafeAsked(safe)] + ExecuteCalls(attempt.request, replies));
      ExitKeeps(base, s, t, safe, Some(attempt));
    }
  }

  lemma StepKeeps(base: ParameterMap, s: DeviceState, step: Step)
    requires QueueInvariants.Inv(base, s) && HistoryInv(base, s) && Enabled(s, step)
    ensures HistoryInv(base, Next(s, step))
  {
    match step
    case Start => StartKeeps(base, s);
    case Stop => StopKeeps(base, s);
    case Submit(requests, priority) => SubmitKeeps(base, s, requests, priority);
    case Patch(patch, priority) => PatchKeeps(base, s, patch, priority);
    case Wake => WakeKeeps(base, s);
    case Check(safe) => CheckKeeps(base, s, safe);
    case Plan(initial, plan) => PlanKeeps(base, s, initial, plan);
    case Execute(replies) => ExecuteKeeps(base, s, replies);
    case Finalize(safe, replies) => FinalizeKeeps(base, s, safe, replies);
  }

  lemma {:induction false} RunKeeps(base: ParameterMap, s: DeviceState, steps: seq<Step>)
    requires QueueInvariants.Inv(base, s) && HistoryInv(base, s) && Runs(s, steps)
    ensures HistoryInv(base, Reached(s, steps))
    decreases |steps|
  {
    if steps == [] {
    } else {
      QueueInvariants.StepKeeps(base, s, steps[0]);
      StepKeeps(base, s, steps[0]);
      RunKeeps(base, Next(s, steps[0]), steps[1..]);
    }
  }

  lemma ReachedHistory(parameters: ParameterMap, enabled: bool, steps: seq<Step>)
    requires Runs(Initial(parameters, enabled), steps)
    ensures HistoryInv(parameters, Reached(Initial(parameters, enabled), steps))
  {
    QueueInvariants.ReachedInv(parameters, enabled, []);
    RunKeeps(parameters, Initial(parameters, enabled), steps);
  }

  // ---------------------------------------------------------------------------
  // Main results
  // ---------------------------------------------------------------------------

  /** A patch is handed over exactly when it is the latest. In every run, a handed patch is the one
      of the batch the worker took last; its revision is the number of revisions made so far; and the
      full map handed with it is the base map overlaid with every patch accepted so far, the gate
      included. A patch batch is discarded only when a later revision had been made. */
  lemma HandedExactlyWhenLatest(parameters: ParameterMap, enabled: bool, steps: seq<Step>, i: nat)
    requires Runs(Initial(parameters, enabled), steps)
    requires i < |Reached(Initial(parameters, enabled), steps).log|
    ensures var log := Reached(Initial(parameters, enabled), steps).log;
      var before := log[..i];
      && (log[i].Handed? ==>
            && log[i].revision == Bumps(before)
            && log[i].full == FullMap(parameters, before)
            && TookPatch(LastWork(before), log[i].revision, log[i].patch))
      && (log[i].Discarded? ==> TookOlder(LastWork(before), Bumps(before)))
  {
    ReachedHistory(parameters, enabled, steps);
    var log := Reached(Initial(parameters, enabled), steps).log;
    assert Explained(parameters, log[..i], log[i]);
  }

  /** What the worker runs is what it was given. In every run: a batch begins directly after it was
      taken off its queue, or directly after the planner replied with it to the patch handed over
      last; and every call of `execute` is for the next request of the batch in progress, all
      requests before it having been honoured. */
  lemma BatchesAreTakenOrPlanned(parameters: ParameterMap, enabled: bool, steps: seq<Step>, i: nat)
    requires Runs(Initial(parameters, enabled), steps)
    requires i < |Reached(Initial(parameters, enabled), steps).log|
    ensures var log := Reached(Initial(parameters, enabled), steps).log;
      && (log[i].Began? ==> i > 0 && BeginsFrom(log[i - 1], log[i].requests))
      && (log[i].Planned? ==> HandedWith(LastWork(log[..i]), log[i].full, log[i].patch))
      && (log[i].Attempted? ==> Continues(Segments(log[..i]), log[i].attempt))
  {
    ReachedHistory(parameters, enabled, steps);
    var s := Initial(parameters, enabled);
    QueueTrace.RunKeeps(s, steps);
    var log := Reached(s, steps).log;
    assert Explained(parameters, log[..i], log[i]) && Timely(log[..i], log[i]);
  }

  /** An exit finalizes. In every run the worker leaves with one attempt, from the state the runtime
      reported to FINALIZED and without parameters, or with none if that state is FINALIZED. */
  lemma ExitsFinalize(parameters: ParameterMap, enabled: bool, steps: seq<Step>, i: nat)
    requires Runs(Initial(parameters, enabled), steps)
    requires i < |Reached(Initial(parameters, enabled), steps).log|
    ensures var e := Reached(Initial(parameters, enabled), steps).log[i];
      e.Exited? ==> Finalizes(e.safe, e.finalize)
  {
    ReachedHistory(parameters, enabled, steps);
    var log := Reached(Initial(parameters, enabled), steps).log;
    assert Explained(parameters, log[..i], log[i]);
  }

  /** Every transition call directly follows a `state()` that returned its source. */
  predicate Guarded(calls: seq<Call>) {
    forall i :: 0 <= i < |calls| && calls[i].TransitionAsked? ==>
      i > 0 && calls[i - 1] == StateAsked(Returned(calls[i].request.from))
  }

  lemma EventGuarded(e: Event)
    ensures Guarded(EventCalls(e))
  {
  }

  lemma {:induction false} LogGuarded(log: seq<Event>)
    ensures Guarded(FlatMap(EventCalls, log))
  {
    if log == [] {
    } else {
      LogGuarded(log[..|log| - 1]);
      EventGuarded(log[|log| - 1]);
    }
  }

  /** The calls into the runtime. In every run, against any answers: the worker's calls are, in
      order, those of its events, and the runtime is commanded only directly after it reported the
      source state of the command. */
  lemma CommandsFollowTheirSource(parameters: ParameterMap, enabled: bool, steps: seq<Step>)
    requires Runs(Initial(parameters, enabled), steps)
    ensures var s := Reached(Initial(parameters, enabled), steps);
      s.calls == FlatMap(EventCalls, s.log) && Guarded(s.calls)
  {
    ReachedHistory(parameters, enabled, steps);
    LogGuarded(Reached(Initial(parameters, enabled), steps).log);
  }
}
