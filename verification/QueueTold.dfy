/** What the planner has really been told, patch by patch, and which changes it is never told. */
module QueueTold {
  import opened Lifecycle
  import opened DeviceQueue
  import opened QueueInvariants

  // ---------------------------------------------------------------------------
  // Reading the log
  // ---------------------------------------------------------------------------

  /** The base map overlaid with every patch handed to the planner, and with nothing else. */
  function Told(base: ParameterMap, log: seq<Event>): ParameterMap {
    if log == [] then base
    else
      var before := Told(base, log[..|log| - 1]);
      if log[|log| - 1].Handed? then before + log[|log| - 1].patch else before
  }

  /** Keys changed by an accepted patch and in no patch handed over since. */
  function Untold(log: seq<Event>): set<string> {
    if log == [] then {}
    else
      var before := Untold(log[..|log| - 1]);
      match log[|log| - 1]
      case Patched(patch) => before + (patch.Keys - {ENABLE})
      case Handed(_, _, patch) => before - patch.Keys
      case _ => before
  }

  /** Untold keys the queue has forgotten: a disabled accept and a stop forget all of them; a key is
      remembered again once it is patched, and told once it is handed over. */
  function Dropped(log: seq<Event>): set<string> {
    if log == [] then {}
    else
      var front := log[..|log| - 1];
      match log[|log| - 1]
      case Patched(patch) => Dropped(front) - patch.Keys
      case Handed(_, _, patch) => Dropped(front) - patch.Keys
      case StoredDisabled(_) => Untold(front)
      case Stopped(_) => Untold(front)
      case _ => Dropped(front)
  }

  /** Two maps give every key outside `except` and the gate the same value. */
  ghost predicate AgreeOutside(a: ParameterMap, b: ParameterMap, except: set<string>) {
    forall key :: key != ENABLE && key !in except ==>
      (key in a <==> key in b) && (key in a ==> a[key] == b[key])
  }

  ghost predicate ToldInv(base: ParameterMap, s: DeviceState) {
    && Untold(s.log) == Dropped(s.log) + (s.pending.Keys - {ENABLE})
    && AgreeOutside(Told(base, s.log), s.parameters, Untold(s.log))
  }

  // ---------------------------------------------------------------------------
  // Preservation
  // ---------------------------------------------------------------------------

  lemma Readings(base: ParameterMap, log: seq<Event>, e: Event)
    ensures Told(base, log + [e]) == if e.Handed? then Told(base, log) + e.patch else Told(base, log)
    ensures Untold(log + [e])
      == if e.Patched? then Untold(log) + (e.patch.Keys - {ENABLE})
         else if e.Handed? then Untold(log) - e.patch.Keys
         else Untold(log)
    ensures Dropped(log + [e])
      == if e.Patched? || e.Handed? then Dropped(log) - e.patch.Keys
         else if e.StoredDisabled? || e.Stopped? then Untold(log)
         else Dropped(log)
  {
    assert (log + [e])[..|log|] == log;
  }

  predicate Neutral(e: Event) {
    Quiet(e) && !e.Patched?
  }

  /** An event none of the readings looks at. */
  lemma NeutralKeeps(base: ParameterMap, s: DeviceState, t: DeviceState, e: Event)
    requires ToldInv(base, s) && Neutral(e) && t.log == s.log + [e]
    requires t.parameters == s.parameters && t.pending == s.pending
    ensures ToldInv(base, t)
  {
    Readings(base, s.log, e);
  }

  lemma PatchAgrees(told: ParameterMap, parameters: ParameterMap, untold: set<string>, patch: ParameterMap)
    requires AgreeOutside(told, parameters, untold)
    ensures AgreeOutside(told, parameters + patch, untold + (patch.Keys - {ENABLE}))
  {
  }

  lemma HandAgrees(told: ParameterMap, parameters: ParameterMap, untold: set<string>, patch: ParameterMap)
    requires AgreeOutside(told, parameters, untold) && SubMap(patch, parameters)
    ensures AgreeOutside(told + patch, parameters, untold - patch.Keys)
  {
  }

  /** A patch on a disabled device: all that is untold is forgotten. */
  lemma StoredKeeps(base: ParameterMap, s: DeviceState, patch: ParameterMap, t: DeviceState)
    requires ToldInv(base, s)
    requires t.log == s.log + [Patched(patch)] + [StoredDisabled(t.parameters)]
    requires t.parameters == s.parameters + patch && t.pending == map[]
    ensures ToldInv(base, t)
  {
    Readings(base, s.log, Patched(patch));
    Readings(base, s.log + [Patched(patch)], StoredDisabled(t.parameters));
    PatchAgrees(Told(base, s.log), s.parameters, Untold(s.log), patch);
  }

  /** A patch that is queued: its keys are remembered in the pending delta. */
  lemma QueuedKeeps(
      base: ParameterMap, s: DeviceState, patch: ParameterMap, priority: Priority, batch: Batch, t: DeviceState)
    requires ToldInv(base, s)
    requires t.log == s.log + [Patched(patch)] + [Queued(priority, batch)]
    requires t.parameters == s.parameters + patch && t.pending == s.pending + patch
    ensures ToldInv(base, t)
  {
    Readings(base, s.log, Patched(patch));
    Readings(base, s.log + [Patched(patch)], Queued(priority, batch));
    GateIsNoChange(s.log);
    assert t.pending.Keys == s.pending.Keys + patch.Keys;
    PatchAgrees(Told(base, s.log), s.parameters, Untold(s.log), patch);
  }

  /** A patch of the gate alone changes no other key. */
  lemma GateKeeps(base: ParameterMap, s: DeviceState, patch: ParameterMap, t: DeviceState)
    requires ToldInv(base, s) && patch.Keys == {ENABLE} && ENABLE !in Dropped(s.log)
    requires t.log == s.log + [Patched(patch)]
    requires t.parameters == s.parameters + patch && t.pending == s.pending
    ensures ToldInv(base, t)
  {
    Readings(base, s.log, Patched(patch));
    PatchAgrees(Told(base, s.log), s.parameters, Untold(s.log), patch);
    assert patch.Keys - {ENABLE} == {};
  }

  /** The gate is never among the untold or the dropped keys. */
  lemma {:induction false} GateIsNoChange(log: seq<Event>)
    ensures ENABLE !in Untold(log) && ENABLE !in Dropped(log)
  {
    if log == [] {
    } else {
      GateIsNoChange(log[..|log| - 1]);
    }
  }

  lemma GateAloneKeeps(base: ParameterMap, s: DeviceState, patch: ParameterMap)
    requires ToldInv(base, s) && PatchResult(s, patch) == Accepted && |patch| == 1 && ENABLE in patch
    ensures ToldInv(base, Merged(s, patch))
  {
    assert |patch.Keys - {ENABLE}| == 0;
    assert patch.Keys == {ENABLE};
    GateIsNoChange(s.log);
    GateKeeps(base, s, patch, Merged(s, patch));
  }

  lemma DeltaKeeps(base: ParameterMap, s: DeviceState, patch: ParameterMap, priority: Priority)
    requires ToldInv(base, s) && PatchResult(s, patch) == Accepted
    ensures ToldInv(base, PushDelta(Merged(s, patch), patch, priority))
  {
    QueuedKeeps(base, s, patch, priority, Batch([], Some(s.revision + 1), s.pending + patch),
                PushDelta(Merged(s, patch), patch, priority));
  }

  lemma PatchKeeps(base: ParameterMap, s: DeviceState, patch: ParameterMap, priority: Priority)
    requires ToldInv(base, s)
    ensures ToldInv(base, AfterPatch(s, patch, priority))
  {
    if PatchResult(s, patch) == Accepted {
      if !Merged(s, patch).enabled {
        StoredKeeps(base, s, patch, AfterPatch(s, patch, priority));
      } else if |patch| == 1 && ENABLE in patch {
        GateAloneKeeps(base, s, patch);
      } else {
        DeltaKeeps(base, s, patch, priority);
      }
    }
  }

  lemma StopKeeps(base: ParameterMap, s: DeviceState)
    requires ToldInv(base, s)
    ensures ToldInv(base, AfterStop(s))
  {
    if s.running {
      Readings(base, s.log, Stopped(s.parameters));
    }
  }

  /** The patch handed over covers the pending delta. */
  lemma HandKeeps(base: ParameterMap, s: DeviceState, batch: Batch, t: DeviceState)
    requires ToldInv(base, s) && SubMap(batch.patch, s.parameters)
    requires s.pending != map[] ==> batch.patch == s.pending
    requires t.log == s.log + [Handed(s.revision, s.parameters, batch.patch)]
    requires t.parameters == s.parameters && t.pending == map[]
    ensures ToldInv(base, t)
  {
    Readings(base, s.log, Handed(s.revision, s.parameters, batch.patch));
    HandAgrees(Told(base, s.log), s.parameters, Untold(s.log), batch.patch);
  }

  lemma CheckKeeps(base: ParameterMap, s: DeviceState, safe: LifecycleState)
    requires Inv(base, s) && ToldInv(base, s) && Enabled(s, Check(safe))
    ensures ToldInv(base, AfterCheck(s, safe))
  {
    var batch := s.worker.batch;
    assert BatchOk(s.revision, s.parameters, s.pending, HeldBatches(s.worker)[0]);
    if batch.revision.value == s.revision {
      HandKeeps(base, s, batch, AfterCheck(s, safe));
    } else {
      NeutralKeeps(base, s, AfterCheck(s, safe), Discarded(safe));
    }
  }

  lemma TakeKeeps(base: ParameterMap, s: DeviceState, popped: DeviceState, priority: Priority, batch: Batch)
    requires ToldInv(base, s) && popped == s.(urgent := popped.urgent, normal := popped.normal)
    ensures ToldInv(base, Take(popped, priority, batch))
  {
    var t, taken := Take(popped, priority, batch), Taken(priority, batch);
    if batch.revision.Some? {
      NeutralKeeps(base, s, t, taken);
    } else {
      var middle := s.(log := s.log + [taken]);
      NeutralKeeps(base, s, middle, taken);
      assert t.log == middle.log + [Began(batch.requests)];
      NeutralKeeps(base, middle, t, Began(batch.requests));
    }
  }

  lemma WakeKeeps(base: ParameterMap, s: DeviceState)
    requires ToldInv(base, s) && Enabled(s, Wake)
    ensures ToldInv(base, AfterWake(s))
  {
    if s.stopping {
    } else if s.urgent != [] {
      TakeKeeps(base, s, s.(urgent := s.urgent[1..]), Urgent, s.urgent[0]);
    } else {
      TakeKeeps(base, s, s.(normal := s.normal[1..]), Normal, s.normal[0]);
    }
  }

  lemma PlanKeeps(
      base: ParameterMap, s: DeviceState, initial: Reply<LifecycleState>, plan: Reply<seq<TransitionRequest>>)
    requires ToldInv(base, s) && s.worker.Planning?
    ensures ToldInv(base, AfterPlan(s, initial, plan))
  {
    var planned := Planned(initial, s.worker.full, s.worker.patch, plan);
    var asked := s.(log := s.log + [planned]);
    NeutralKeeps(base, s, asked, planned);
    if initial.Returned? && plan.Returned? {
      NeutralKeeps(base, asked, AfterPlan(s, initial, plan), Began(plan.value));
    }
  }

  lemma FinalizeKeeps(base: ParameterMap, s: DeviceState, safe: LifecycleState, replies: Replies)
    requires ToldInv(base, s) && s.worker == Finalizing
    ensures ToldInv(base, AfterFinalize(s, safe, replies))
  {
    var t := AfterFinalize(s, safe, replies);
    NeutralKeeps(base, s, t, t.log[|s.log|]);
  }

  lemma StepKeeps(base: ParameterMap, s: DeviceState, step: Step)
    requires Inv(base, s) && ToldInv(base, s) && Enabled(s, step)
    ensures ToldInv(base, Next(s, step))
  {
    match step
    case Start =>
      if !s.running {
        NeutralKeeps(base, s, AfterStart(s), Started);
      }
    case Stop => StopKeeps(base, s);
    case Submit(requests, priority) =>
      if SubmitResult(s) == Accepted {
        NeutralKeeps(base, s, AfterSubmit(s, requests, priority), Queued(priority, Batch(requests, None, map[])));
      }
    case Patch(patch, priority) => PatchKeeps(base, s, patch, priority);
    case Wake => WakeKeeps(base, s);
    case Check(safe) => CheckKeeps(base, s, safe);
    case Plan(initial, plan) => PlanKeeps(base, s, initial, plan);
    case Execute(replies) =>
      NeutralKeeps(base, s, AfterExecute(s, replies), Attempted(AttemptOf(s.worker.todo[0], replies)));
    case Finalize(safe, replies) => FinalizeKeeps(base, s, safe, replies);
  }

  lemma {:induction false} RunKeeps(base: ParameterMap, s: DeviceState, steps: seq<Step>)
    requires Inv(base, s) && ToldInv(base, s) && Runs(s, steps)
    ensures ToldInv(base, Reached(s, steps))
    decreases |steps|
  {
    if steps == [] {
    } else {
      QueueInvariants.StepKeeps(base, s, steps[0]);
      StepKeeps(base, s, steps[0]);
      RunKeeps(base, Next(s, steps[0]), steps[1..]);
    }
  }

  // ---------------------------------------------------------------------------
  // Main results
  // ---------------------------------------------------------------------------

  /** Where every change is. In every run an untold change is dropped or pending, and on every key
      that is not dropped, what the planner has been told plus the pending delta is the full map. */
  lemma UntoldIsDroppedOrPending(parameters: ParameterMap, enabled: bool, steps: seq<Step>)
    requires Runs(Initial(parameters, enabled), steps)
    ensures var s := Reached(Initial(parameters, enabled), steps);
      && Untold(s.log) == Dropped(s.log) + (s.pending.Keys - {ENABLE})
      && AgreeOutside(Told(parameters, s.log) + s.pending, s.parameters, Dropped(s.log))
  {
    QueueInvariants.ReachedInv(parameters, enabled, []);
    RunKeeps(parameters, Initial(parameters, enabled), steps);
    QueueInvariants.ReachedInv(parameters, enabled, steps);
  }

  /** With nothing queued or held the planner has been told every change if and only if none was
      dropped: the changes it is never told are exactly those forgotten at a disabled accept or a
      stop, and neither patched nor handed over since. */
  lemma IdleMeansToldIff(parameters: ParameterMap, enabled: bool, steps: seq<Step>)
    requires Runs(Initial(parameters, enabled), steps)
    requires Outstanding(Reached(Initial(parameters, enabled), steps)) == []
    ensures var s := Reached(Initial(parameters, enabled), steps);
      && Untold(s.log) == Dropped(s.log)
      && (Untold(s.log) == {} <==> Dropped(s.log) == {})
      && AgreeOutside(Told(parameters, s.log), s.parameters, Dropped(s.log))
  {
    UntoldIsDroppedOrPending(parameters, enabled, steps);
    NoChangeIsLost(parameters, enabled, steps);
    var s := Reached(Initial(parameters, enabled), steps);
    assert s.pending == map[];
    assert Told(parameters, s.log) + s.pending == Told(parameters, s.log);
  }

  const WHILE_DISABLED := map[ENABLE := BoolValue(false), "x" := IntegerValue(1)]
  const ENABLED_AGAIN := map[ENABLE := BoolValue(true)]

  /** A run that ends enabled and idle with a change the planner was never told: it was accepted
      while the device was disabled, and enabling the device afterwards queues nothing. */
  const UNTOLD_RUN: seq<Step> := [Start, Patch(WHILE_DISABLED, Normal), Patch(ENABLED_AGAIN, Normal)]

  lemma StoredThenEnabled(s: DeviceState)
    requires s == AfterStart(Initial(map[], true))
    ensures var t := AfterPatch(s, WHILE_DISABLED, Normal);
      && t == s.(parameters := WHILE_DISABLED, enabled := false, revision := 1,
                 log := [Started, Patched(WHILE_DISABLED), StoredDisabled(WHILE_DISABLED)])
      && AfterPatch(t, ENABLED_AGAIN, Normal)
         == t.(parameters := WHILE_DISABLED + ENABLED_AGAIN, enabled := true, log := t.log + [Patched(ENABLED_AGAIN)])
  {
    assert map[] + WHILE_DISABLED == WHILE_DISABLED;
    assert |ENABLED_AGAIN| == 1;
  }

  lemma UntoldRunEnds()
    ensures Runs(Initial(map[], true), UNTOLD_RUN)
    ensures Reached(Initial(map[], true), UNTOLD_RUN)
      == AfterPatch(AfterPatch(AfterStart(Initial(map[], true)), WHILE_DISABLED, Normal), ENABLED_AGAIN, Normal)
  {
    var s1 := AfterStart(Initial(map[], true));
    var s2 := AfterPatch(s1, WHILE_DISABLED, Normal);
    var s3 := AfterPatch(s2, ENABLED_AGAIN, Normal);
    var rest := [Patch(ENABLED_AGAIN, Normal)];
    assert UNTOLD_RUN[1..] == [Patch(WHILE_DISABLED, Normal), Patch(ENABLED_AGAIN, Normal)];
    assert UNTOLD_RUN[1..][1..] == rest && rest[1..] == [];
    assert Runs(s3, []) && Reached(s3, []) == s3;
    assert Runs(s2, rest) && Reached(s2, rest) == s3;
    assert Runs(s1, UNTOLD_RUN[1..]) && Reached(s1, UNTOLD_RUN[1..]) == s3;
  }

  function UntoldLog(): seq<Event> {
    [Started] + [Patched(WHILE_DISABLED)] + [StoredDisabled(WHILE_DISABLED)] + [Patched(ENABLED_AGAIN)]
  }

  lemma UntoldRunReadings()
    ensures "x" in Untold(UntoldLog()) && "x" in Dropped(UntoldLog()) && "x" !in Told(map[], UntoldLog())
  {
    assert |"x"| != |ENABLE|;
    Readings(map[], [], Started);
    assert [] + [Started] == [Started];
    Readings(map[], [Started], Patched(WHILE_DISABLED));
    Readings(map[], [Started] + [Patched(WHILE_DISABLED)], StoredDisabled(WHILE_DISABLED));
    Readings(map[], [Started] + [Patched(WHILE_DISABLED)] + [StoredDisabled(WHILE_DISABLED)], Patched(ENABLED_AGAIN));
  }

  lemma UntoldRunState()
    ensures Runs(Initial(map[], true), UNTOLD_RUN)
    ensures var s := Reached(Initial(map[], true), UNTOLD_RUN);
      && s.enabled && s.worker == Waiting && s.urgent == [] && s.normal == [] && s.pending == map[]
      && s.parameters == WHILE_DISABLED + ENABLED_AGAIN && s.log == UntoldLog()
  {
    UntoldRunEnds();
    StoredThenEnabled(AfterStart(Initial(map[], true)));
  }

  lemma DisabledAcceptIsNeverTold()
    ensures Runs(Initial(map[], true), UNTOLD_RUN)
    ensures var s := Reached(Initial(map[], true), UNTOLD_RUN);
      && s.enabled && s.worker == Waiting && Outstanding(s) == [] && s.pending == map[]
      && "x" in s.parameters && "x" in Untold(s.log) && "x" !in Told(map[], s.log)
  {
    UntoldRunState();
    UntoldRunReadings();
  }
}
