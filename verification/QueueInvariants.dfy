/** What every run of the device queue keeps, whatever the interleaving and whatever the
    runtime answers: no parameter change is lost, and planner calls are newest-only. */
module QueueInvariants {
  import opened Lifecycle
  import opened DeviceQueue

  // ---------------------------------------------------------------------------
  // Reading the log
  // ---------------------------------------------------------------------------

  /** The map the pending delta is relative to: the base map, replaced by the full map wherever the
      source forgets its delta (a disabled accept, a stop), overlaid with every patch handed over
      since. Changes forgotten there are absorbed, told or not; `QueueTold` says which are not. */
  function Replayed(base: ParameterMap, log: seq<Event>): ParameterMap {
    if log == [] then base
    else
      var before := Replayed(base, log[..|log| - 1]);
      match log[|log| - 1]
      case Stopped(parameters) => parameters
      case StoredDisabled(parameters) => parameters
      case Handed(_, _, patch) => before + patch
      case _ => before
  }

  /** Revisions handed to the planner, in order. */
  function HandedRevisions(log: seq<Event>): seq<nat> {
    if log == [] then []
    else
      var before := HandedRevisions(log[..|log| - 1]);
      if log[|log| - 1].Handed? then before + [log[|log| - 1].revision] else before
  }

  predicate AgreeExceptEnable(a: ParameterMap, b: ParameterMap) {
    a - {ENABLE} == b - {ENABLE}
  }

  predicate SubMap(a: ParameterMap, b: ParameterMap) {
    forall key :: key in a ==> key in b && a[key] == b[key]
  }

  predicate EnableTrue(patch: ParameterMap) {
    ENABLE in patch ==> patch[ENABLE] == BoolValue(true)
  }

  function HeldBatches(worker: Worker): seq<Batch> {
    if worker.Holding? then [worker.batch] else []
  }

  /** Batches that will still reach the supersession check, unless stopped. */
  function Outstanding(s: DeviceState): seq<Batch> {
    HeldBatches(s.worker) + s.urgent + s.normal
  }

  function CountCurrent(batches: seq<Batch>, revision: nat): nat {
    if batches == [] then 0
    else (if batches[0].revision == Some(revision) then 1 else 0) + CountCurrent(batches[1..], revision)
  }

  // ---------------------------------------------------------------------------
  // The invariant
  // ---------------------------------------------------------------------------

  predicate BatchOk(revision: nat, parameters: ParameterMap, pending: ParameterMap, b: Batch) {
    && (b.revision.Some? ==> b.revision.value <= revision)
    && (b.revision == Some(revision) ==>
          && SubMap(b.patch, parameters)
          && EnableTrue(b.patch)
          && (pending != map[] ==> b.patch == pending))
  }

  predicate BatchesOk(revision: nat, parameters: ParameterMap, pending: ParameterMap, batches: seq<Batch>) {
    forall i :: 0 <= i < |batches| ==> BatchOk(revision, parameters, pending, batches[i])
  }

  predicate PendingOk(parameters: ParameterMap, pending: ParameterMap, current: nat) {
    && SubMap(pending, parameters)
    && EnableTrue(pending)
    && current <= 1
    && (pending != map[] ==> current == 1)
  }

  function Current(s: DeviceState): nat {
    CountCurrent(HeldBatches(s.worker), s.revision) + CountCurrent(s.urgent, s.revision)
    + CountCurrent(s.normal, s.revision)
  }

  predicate DeltaInv(s: DeviceState) {
    && BatchesOk(s.revision, s.parameters, s.pending, HeldBatches(s.worker))
    && BatchesOk(s.revision, s.parameters, s.pending, s.urgent)
    && BatchesOk(s.revision, s.parameters, s.pending, s.normal)
    && PendingOk(s.parameters, s.pending, Current(s))
  }

  predicate RevisionsOk(handed: seq<nat>, revision: nat, current: nat) {
    && (forall i, j :: 0 <= i < j < |handed| ==> handed[i] < handed[j])
    && (forall i :: 0 <= i < |handed| ==> handed[i] <= revision)
    && (current == 1 ==> forall i :: 0 <= i < |handed| ==> handed[i] < revision)
  }

  predicate HandedOk(e: Event) {
    e.Handed? ==> SubMap(e.patch, e.full) && EnableTrue(e.patch)
  }

  predicate LogOk(log: seq<Event>) {
    forall i :: 0 <= i < |log| ==> HandedOk(log[i])
  }

  /** The part of the invariant that reads the log. */
  predicate LogInv(base: ParameterMap, s: DeviceState) {
    && RevisionsOk(HandedRevisions(s.log), s.revision, Current(s))
    && AgreeExceptEnable(Replayed(base, s.log) + s.pending, s.parameters)
    && LogOk(s.log)
  }

  predicate Inv(base: ParameterMap, s: DeviceState) {
    DeltaInv(s) && LogInv(base, s)
  }

  // ---------------------------------------------------------------------------
  // Counting
  // ---------------------------------------------------------------------------

  lemma {:induction false} CountAppend(a: seq<Batch>, b: seq<Batch>, revision: nat)
    ensures CountCurrent(a + b, revision) == CountCurrent(a, revision) + CountCurrent(b, revision)
  {
    if a == [] {
      assert a + b == b;
    } else {
      assert (a + b)[1..] == a[1..] + b;
      CountAppend(a[1..], b, revision);
    }
  }

  /** A revision no batch has reached yet counts zero. */
  lemma {:induction false} CountFresh(batches: seq<Batch>, revision: nat)
    requires forall i :: 0 <= i < |batches| && batches[i].revision.Some? ==> batches[i].revision.value < revision
    ensures CountCurrent(batches, revision) == 0
  {
    if batches == [] {
    } else {
      CountFresh(batches[1..], revision);
    }
  }

  lemma CountOne(batch: Batch, revision: nat)
    ensures CountCurrent([batch], revision) == if batch.revision == Some(revision) then 1 else 0
  {
    assert [batch][1..] == [];
  }

  // ---------------------------------------------------------------------------
  // Preservation, one step kind at a time
  // ---------------------------------------------------------------------------

  /** Events that neither hand a patch over nor restart the base map leave the readings alone. */
  lemma QuietEvent(base: ParameterMap, log: seq<Event>, e: Event)
    requires Quiet(e)
    ensures Replayed(base, log + [e]) == Replayed(base, log)
    ensures HandedRevisions(log + [e]) == HandedRevisions(log)
    ensures LogOk(log) ==> LogOk(log + [e])
  {
    assert (log + [e])[..|log|] == log;
  }

  predicate Quiet(e: Event) {
    !e.Stopped? && !e.StoredDisabled? && !e.Handed?
  }

  lemma {:induction false} QuietEvents(base: ParameterMap, log: seq<Event>, events: seq<Event>)
    requires forall i :: 0 <= i < |events| ==> Quiet(events[i])
    ensures Replayed(base, log + events) == Replayed(base, log)
    ensures HandedRevisions(log + events) == HandedRevisions(log)
    ensures LogOk(log) ==> LogOk(log + events)
  {
    if events == [] {
      assert log + events == log;
    } else {
      var last := |events| - 1;
      QuietEvents(base, log, events[..last]);
      assert log + events == (log + events[..last]) + [events[last]];
      QuietEvent(base, log + events[..last], events[last]);
    }
  }

  lemma RestartEvent(base: ParameterMap, log: seq<Event>, e: Event)
    requires e.Stopped? || e.StoredDisabled?
    ensures Replayed(base, log + [e]) == e.parameters
    ensures HandedRevisions(log + [e]) == HandedRevisions(log)
    ensures LogOk(log) ==> LogOk(log + [e])
  {
    assert (log + [e])[..|log|] == log;
  }

  lemma HandEvent(base: ParameterMap, log: seq<Event>, e: Event)
    requires e.Handed? && HandedOk(e)
    ensures Replayed(base, log + [e]) == Replayed(base, log) + e.patch
    ensures HandedRevisions(log + [e]) == HandedRevisions(log) + [e.revision]
    ensures LogOk(log) ==> LogOk(log + [e])
  {
    assert (log + [e])[..|log|] == log;
  }

  /** Pushing a batch leaves the two queues sound and adds it to the count. */
  lemma PushCounts(s: DeviceState, priority: Priority, batch: Batch)
    requires BatchesOk(s.revision, s.parameters, s.pending, s.urgent)
    requires BatchesOk(s.revision, s.parameters, s.pending, s.normal)
    requires BatchOk(s.revision, s.parameters, s.pending, batch)
    ensures var t := Push(s, priority, batch);
      && BatchesOk(t.revision, t.parameters, t.pending, t.urgent)
      && BatchesOk(t.revision, t.parameters, t.pending, t.normal)
      && Current(t) == Current(s) + (if batch.revision == Some(s.revision) then 1 else 0)
  {
    CountAppend(s.urgent, [batch], s.revision);
    CountAppend(s.normal, [batch], s.revision);
    CountOne(batch, s.revision);
  }

  lemma PushPlain(base: ParameterMap, s: DeviceState, priority: Priority, batch: Batch)
    requires Inv(base, s) && batch.revision.None?
    ensures Inv(base, Push(s, priority, batch))
  {
    QuietEvent(base, s.log, Queued(priority, batch));
    PushCounts(s, priority, batch);
  }

  /** After a bump nothing outstanding is current any more, so nothing constrains the batches. */
  lemma BumpClears(revision: nat, parameters: ParameterMap, pending: ParameterMap, batches: seq<Batch>,
                   parameters': ParameterMap, pending': ParameterMap)
    requires BatchesOk(revision, parameters, pending, batches)
    ensures CountCurrent(batches, revision + 1) == 0
    ensures BatchesOk(revision + 1, parameters', pending', batches)
  {
    forall i | 0 <= i < |batches|
      ensures BatchOk(revision + 1, parameters', pending', batches[i])
      ensures batches[i].revision.Some? ==> batches[i].revision.value < revision + 1
    {
      assert BatchOk(revision, parameters, pending, batches[i]);
    }
    CountFresh(batches, revision + 1);
  }

  lemma BumpClearsAll(s: DeviceState, t: DeviceState)
    requires DeltaInv(s)
    requires t.revision == s.revision + 1
    requires t.worker == s.worker && t.urgent == s.urgent && t.normal == s.normal
    ensures Current(t) == 0
    ensures BatchesOk(t.revision, t.parameters, t.pending, HeldBatches(t.worker))
    ensures BatchesOk(t.revision, t.parameters, t.pending, t.urgent)
    ensures BatchesOk(t.revision, t.parameters, t.pending, t.normal)
  {
    BumpClears(s.revision, s.parameters, s.pending, HeldBatches(s.worker), t.parameters, t.pending);
    BumpClears(s.revision, s.parameters, s.pending, s.urgent, t.parameters, t.pending);
    BumpClears(s.revision, s.parameters, s.pending, s.normal, t.parameters, t.pending);
  }

  lemma BumpRevisions(handed: seq<nat>, revision: nat, current: nat, current': nat)
    requires RevisionsOk(handed, revision, current)
    ensures RevisionsOk(handed, revision + 1, current')
  {
    forall i | 0 <= i < |handed| ensures handed[i] < revision + 1 { assert handed[i] <= revision; }
  }

  lemma GrowAgreement(told: ParameterMap, pending: ParameterMap, parameters: ParameterMap, patch: ParameterMap)
    requires AgreeExceptEnable(told + pending, parameters)
    ensures AgreeExceptEnable(told + (pending + patch), parameters + patch)
  {
    assert told + (pending + patch) == (told + pending) + patch;
    var a, b := told + pending, parameters;
    forall key | key != ENABLE
      ensures key in a + patch <==> key in b + patch
      ensures key in a + patch ==> (a + patch)[key] == (b + patch)[key]
    {
      assert key in a - {ENABLE} <==> key in a;
      assert key in b - {ENABLE} <==> key in b;
      if key in a {
        assert a[key] == (a - {ENABLE})[key] == (b - {ENABLE})[key] == b[key];
      }
    }
    assert (a + patch) - {ENABLE} == (b + patch) - {ENABLE};
  }

  lemma PushedBatches(base: ParameterMap, s: DeviceState, patch: ParameterMap, priority: Priority)
    requires Inv(base, s) && PatchResult(s, patch) == Accepted && Merged(s, patch).enabled
    ensures DeltaInv(PushDelta(Merged(s, patch), patch, priority))
  {
    var delta := s.pending + patch;
    var batch := Batch([], Some(s.revision + 1), delta);
    var bumped := Merged(s, patch).(revision := s.revision + 1, pending := delta);
    assert PushDelta(Merged(s, patch), patch, priority) == Push(bumped, priority, batch);
    BumpClearsAll(s, bumped);
    assert SubMap(delta, bumped.parameters) && EnableTrue(delta);
    PushCounts(bumped, priority, batch);
  }

  lemma PushedReadings(base: ParameterMap, log: seq<Event>, patch: ParameterMap, priority: Priority, batch: Batch)
    requires LogOk(log)
    ensures var grown := log + [Patched(patch)] + [Queued(priority, batch)];
      LogOk(grown) && Replayed(base, grown) == Replayed(base, log) && HandedRevisions(grown) == HandedRevisions(log)
  {
    QuietEvent(base, log, Patched(patch));
    QuietEvent(base, log + [Patched(patch)], Queued(priority, batch));
  }

  lemma PushedLog(
      base: ParameterMap, s: DeviceState, t: DeviceState, patch: ParameterMap, priority: Priority, batch: Batch)
    requires LogInv(base, s) && t.log == s.log + [Patched(patch)] + [Queued(priority, batch)]
    requires t.parameters == s.parameters + patch && t.pending == s.pending + patch && t.revision == s.revision + 1
    ensures LogInv(base, t)
  {
    PushedReadings(base, s.log, patch, priority, batch);
    BumpRevisions(HandedRevisions(s.log), s.revision, Current(s), Current(t));
    GrowAgreement(Replayed(base, s.log), s.pending, s.parameters, patch);
  }

  lemma PushedDelta(base: ParameterMap, s: DeviceState, patch: ParameterMap, priority: Priority)
    requires Inv(base, s) && PatchResult(s, patch) == Accepted && Merged(s, patch).enabled
    ensures Inv(base, PushDelta(Merged(s, patch), patch, priority))
  {
    PushedBatches(base, s, patch, priority);
    PushedLog(base, s, PushDelta(Merged(s, patch), patch, priority), patch, priority,
              Batch([], Some(s.revision + 1), s.pending + patch));
  }

  lemma StoredPatch(base: ParameterMap, s: DeviceState, patch: ParameterMap, priority: Priority)
    requires Inv(base, s) && PatchResult(s, patch) == Accepted && !Merged(s, patch).enabled
    ensures Inv(base, AfterPatch(s, patch, priority))
  {
    var t := AfterPatch(s, patch, priority);
    BumpClearsAll(s, t);
    BumpRevisions(HandedRevisions(s.log), s.revision, Current(s), 0);
    QuietEvent(base, s.log, Patched(patch));
    RestartEvent(base, s.log + [Patched(patch)], StoredDisabled(t.parameters));
    assert t.parameters + map[] == t.parameters;
  }

  /** A gate that is set to true changes no value a current delta carries. */
  lemma GateKeepsBatches(revision: nat, parameters: ParameterMap, pending: ParameterMap, patch: ParameterMap,
                         batches: seq<Batch>)
    requires BatchesOk(revision, parameters, pending, batches)
    requires patch == map[ENABLE := BoolValue(true)]
    ensures BatchesOk(revision, parameters + patch, pending, batches)
  {
    forall i | 0 <= i < |batches| ensures BatchOk(revision, parameters + patch, pending, batches[i]) {
      assert BatchOk(revision, parameters, pending, batches[i]);
    }
  }

  lemma GateOutsideAgreement(told: ParameterMap, parameters: ParameterMap, patch: ParameterMap)
    requires AgreeExceptEnable(told, parameters) && patch == map[ENABLE := BoolValue(true)]
    ensures AgreeExceptEnable(told, parameters + patch)
  {
    assert (parameters + patch) - {ENABLE} == parameters - {ENABLE};
  }

  lemma EnableOnly(patch: ParameterMap)
    requires |patch| == 1 && ENABLE in patch && patch[ENABLE] == BoolValue(true)
    ensures patch == map[ENABLE := BoolValue(true)]
  {
    assert |patch.Keys - {ENABLE}| == 0;
    assert patch.Keys == {ENABLE};
  }

  lemma GateBatches(s: DeviceState, t: DeviceState, patch: ParameterMap)
    requires DeltaInv(s) && patch == map[ENABLE := BoolValue(true)]
    requires t.parameters == s.parameters + patch && t.pending == s.pending && t.revision == s.revision
    requires t.worker == s.worker && t.urgent == s.urgent && t.normal == s.normal
    ensures DeltaInv(t) && Current(t) == Current(s)
  {
    GateKeepsBatches(s.revision, s.parameters, s.pending, patch, HeldBatches(s.worker));
    GateKeepsBatches(s.revision, s.parameters, s.pending, patch, s.urgent);
    GateKeepsBatches(s.revision, s.parameters, s.pending, patch, s.normal);
  }

  lemma EnableOnlyBatches(s: DeviceState, patch: ParameterMap)
    requires DeltaInv(s) && PatchResult(s, patch) == Accepted && Merged(s, patch).enabled
    requires |patch| == 1 && ENABLE in patch
    ensures DeltaInv(Merged(s, patch)) && Current(Merged(s, patch)) == Current(s)
  {
    assert patch[ENABLE] == BoolValue(true);
    EnableOnly(patch);
    GateBatches(s, Merged(s, patch), patch);
  }

  lemma EnableOnlyPatch(base: ParameterMap, s: DeviceState, patch: ParameterMap, priority: Priority)
    requires Inv(base, s) && PatchResult(s, patch) == Accepted && Merged(s, patch).enabled
    requires |patch| == 1 && ENABLE in patch
    ensures Inv(base, Merged(s, patch))
  {
    EnableOnlyBatches(s, patch);
    EnableOnly(patch);
    QuietEvent(base, s.log, Patched(patch));
    GateOutsideAgreement(Replayed(base, s.log) + s.pending, s.parameters, patch);
  }

  lemma StopKeeps(base: ParameterMap, s: DeviceState)
    requires Inv(base, s)
    ensures Inv(base, AfterStop(s))
  {
    if s.running {
      RestartEvent(base, s.log, Stopped(s.parameters));
      assert s.parameters + map[] == s.parameters;
      var t := AfterStop(s);
      assert BatchesOk(t.revision, t.parameters, t.pending, HeldBatches(t.worker));
    }
  }

  /** Popping the head of a queue. */
  lemma PopCounts(revision: nat, parameters: ParameterMap, pending: ParameterMap, batches: seq<Batch>)
    requires batches != [] && BatchesOk(revision, parameters, pending, batches)
    ensures BatchesOk(revision, parameters, pending, [batches[0]])
    ensures BatchesOk(revision, parameters, pending, batches[1..])
    ensures CountCurrent(batches, revision)
         == CountCurrent([batches[0]], revision) + CountCurrent(batches[1..], revision)
    ensures batches[0].revision.None? ==> CountCurrent([batches[0]], revision) == 0
  {
    CountOne(batches[0], revision);
  }

  lemma TakeEvents(base: ParameterMap, log: seq<Event>, priority: Priority, batch: Batch)
    requires LogOk(log)
    ensures var grown := log + [Taken(priority, batch)];
      LogOk(grown) && Replayed(base, grown) == Replayed(base, log) && HandedRevisions(grown) == HandedRevisions(log)
    ensures var grown := log + [Taken(priority, batch), Began(batch.requests)];
      LogOk(grown) && Replayed(base, grown) == Replayed(base, log) && HandedRevisions(grown) == HandedRevisions(log)
  {
    QuietEvents(base, log, [Taken(priority, batch)]);
    QuietEvents(base, log, [Taken(priority, batch), Began(batch.requests)]);
  }

  /** The chosen batch moves from its queue into the worker's hand, or out of sight if it is plain. */
  lemma TakeCounts(s: DeviceState, popped: DeviceState, priority: Priority, batch: Batch)
    requires DeltaInv(s)
    requires popped == s.(urgent := popped.urgent, normal := popped.normal)
    requires BatchesOk(s.revision, s.parameters, s.pending, popped.urgent)
    requires BatchesOk(s.revision, s.parameters, s.pending, popped.normal)
    requires BatchesOk(s.revision, s.parameters, s.pending, [batch])
    requires Current(s) == CountCurrent([batch], s.revision) + CountCurrent(popped.urgent, s.revision)
                           + CountCurrent(popped.normal, s.revision)
    requires batch.revision.None? ==> CountCurrent([batch], s.revision) == 0
    ensures DeltaInv(Take(popped, priority, batch))
    ensures Current(Take(popped, priority, batch)) == Current(s)
  {
    assert HeldBatches(Take(popped, priority, batch).worker) == if batch.revision.Some? then [batch] else [];
  }

  /** `Take`, from a state whose chosen queue has already been popped. */
  lemma TakeKeeps(base: ParameterMap, s: DeviceState, popped: DeviceState, priority: Priority, batch: Batch)
    requires Inv(base, s) && s.worker == Waiting
    requires popped == s.(urgent := popped.urgent, normal := popped.normal)
    requires BatchesOk(s.revision, s.parameters, s.pending, popped.urgent)
    requires BatchesOk(s.revision, s.parameters, s.pending, popped.normal)
    requires BatchesOk(s.revision, s.parameters, s.pending, [batch])
    requires Current(s) == CountCurrent([batch], s.revision) + CountCurrent(popped.urgent, s.revision)
                           + CountCurrent(popped.normal, s.revision)
    requires batch.revision.None? ==> CountCurrent([batch], s.revision) == 0
    ensures Inv(base, Take(popped, priority, batch))
  {
    TakeCounts(s, popped, priority, batch);
    TakeEvents(base, s.log, priority, batch);
  }

  lemma WakeKeeps(base: ParameterMap, s: DeviceState)
    requires Inv(base, s) && Enabled(s, Wake)
    ensures Inv(base, AfterWake(s))
  {
    if s.stopping {
      assert HeldBatches(AfterWake(s).worker) == HeldBatches(s.worker);
    } else if s.urgent != [] {
      PopCounts(s.revision, s.parameters, s.pending, s.urgent);
      TakeKeeps(base, s, s.(urgent := s.urgent[1..]), Urgent, s.urgent[0]);
    } else {
      PopCounts(s.revision, s.parameters, s.pending, s.normal);
      TakeKeeps(base, s, s.(normal := s.normal[1..]), Normal, s.normal[0]);
    }
  }

  /** Handing over the current delta moves it from "pending" to "told", whether it still is the
      pending delta or `stop` has already forgotten that. */
  lemma HandingCoversPending(
      told: ParameterMap, pending: ParameterMap, patch: ParameterMap, parameters: ParameterMap)
    requires AgreeExceptEnable(told + pending, parameters)
    requires SubMap(patch, parameters) && (pending != map[] ==> patch == pending)
    ensures AgreeExceptEnable(told + patch + map[], parameters)
  {
    assert told + patch + map[] == told + patch;
    if pending == map[] {
      assert told + pending == told;
      forall key | key in told + patch && key != ENABLE
        ensures key in parameters && (told + patch)[key] == parameters[key]
      {
        if key !in patch {
          assert key in told - {ENABLE};
        }
      }
      forall key | key in parameters && key != ENABLE ensures key in told + patch {
        assert key in parameters - {ENABLE};
        assert key in told - {ENABLE};
      }
      assert (told + patch) - {ENABLE} == parameters - {ENABLE};
    }
  }

  /** Clearing the pending delta only weakens what the remaining batches must satisfy. */
  lemma ForgetPending(revision: nat, parameters: ParameterMap, pending: ParameterMap, batches: seq<Batch>)
    requires BatchesOk(revision, parameters, pending, batches)
    ensures BatchesOk(revision, parameters, map[], batches)
  {
    forall i | 0 <= i < |batches| ensures BatchOk(revision, parameters, map[], batches[i]) {
      assert BatchOk(revision, parameters, pending, batches[i]);
    }
  }

  /** The revisions handed so far, one more at the end. */
  lemma HandRevision(handed: seq<nat>, revision: nat)
    requires RevisionsOk(handed, revision, 1)
    ensures RevisionsOk(handed + [revision], revision, 0)
  {
  }

  /** The batch in hand passes the check. */
  lemma HandOver(base: ParameterMap, s: DeviceState, batch: Batch)
    requires Inv(base, s) && s.worker == Holding(batch) && batch.revision == Some(s.revision)
    ensures var t := s.(worker := Planning(s.revision, s.parameters, batch.patch), pending := map[],
                        log := s.log + [Handed(s.revision, s.parameters, batch.patch)]);
      Inv(base, t)
  {
    assert BatchOk(s.revision, s.parameters, s.pending, HeldBatches(s.worker)[0]);
    CountOne(batch, s.revision);
    assert Current(s) == 1;
    HandRevision(HandedRevisions(s.log), s.revision);
    HandEvent(base, s.log, Handed(s.revision, s.parameters, batch.patch));
    HandingCoversPending(Replayed(base, s.log), s.pending, batch.patch, s.parameters);
    ForgetPending(s.revision, s.parameters, s.pending, s.urgent);
    ForgetPending(s.revision, s.parameters, s.pending, s.normal);
  }

  /** The batch in hand is superseded. */
  lemma Supersede(base: ParameterMap, s: DeviceState, batch: Batch, safe: LifecycleState)
    requires Inv(base, s) && s.worker == Holding(batch) && batch.revision.Some? && batch.revision != Some(s.revision)
    ensures Inv(base, AfterCheck(s, safe))
  {
    CountOne(batch, s.revision);
    QuietEvent(base, s.log, Discarded(safe));
    assert HeldBatches(AfterCheck(s, safe).worker) == [];
  }

  lemma CheckKeeps(base: ParameterMap, s: DeviceState, safe: LifecycleState)
    requires Inv(base, s) && Enabled(s, Check(safe))
    ensures Inv(base, AfterCheck(s, safe))
  {
    var batch := s.worker.batch;
    if batch.revision.value == s.revision {
      HandOver(base, s, batch);
    } else {
      Supersede(base, s, batch, safe);
    }
  }

  /** Steps that only move the worker along or keep a record. */
  lemma WorkerKeeps(base: ParameterMap, s: DeviceState, t: DeviceState, events: seq<Event>)
    requires Inv(base, s)
    requires t.parameters == s.parameters && t.pending == s.pending && t.revision == s.revision
    requires t.urgent == s.urgent && t.normal == s.normal
    requires HeldBatches(t.worker) == HeldBatches(s.worker)
    requires t.log == s.log + events && forall i :: 0 <= i < |events| ==> Quiet(events[i])
    ensures Inv(base, t)
  {
    assert Current(t) == Current(s);
    QuietEvents(base, s.log, events);
  }

  lemma StartKeeps(base: ParameterMap, s: DeviceState)
    requires Inv(base, s) && Enabled(s, Start)
    ensures Inv(base, AfterStart(s))
  {
    if !s.running {
      WorkerKeeps(base, s, AfterStart(s), [Started]);
    }
  }

  lemma PlanKeeps(
      base: ParameterMap, s: DeviceState, initial: Reply<LifecycleState>, plan: Reply<seq<TransitionRequest>>)
    requires Inv(base, s) && s.worker.Planning?
    ensures Inv(base, AfterPlan(s, initial, plan))
  {
    var planned := Planned(initial, s.worker.full, s.worker.patch, plan);
    if initial.Threw? || plan.Threw? {
      WorkerKeeps(base, s, AfterPlan(s, initial, plan), [planned]);
    } else {
      assert s.log + [planned] + [Began(plan.value)] == s.log + [planned, Began(plan.value)];
      WorkerKeeps(base, s, AfterPlan(s, initial, plan), [planned, Began(plan.value)]);
    }
  }

  lemma ExecuteKeeps(base: ParameterMap, s: DeviceState, replies: Replies)
    requires Inv(base, s) && Enabled(s, Execute(replies))
    ensures Inv(base, AfterExecute(s, replies))
  {
    WorkerKeeps(base, s, AfterExecute(s, replies), [Attempted(AttemptOf(s.worker.todo[0], replies))]);
  }

  lemma FinalizeKeeps(base: ParameterMap, s: DeviceState, safe: LifecycleState, replies: Replies)
    requires Inv(base, s) && s.worker == Finalizing
    ensures Inv(base, AfterFinalize(s, safe, replies))
  {
    var finalize := if safe == Finalized then None
                    else Some(AttemptOf(TransitionRequest(safe, Finalized, map[]), replies));
    WorkerKeeps(base, s, AfterFinalize(s, safe, replies), [Exited(safe, finalize)]);
  }

  lemma PatchKeeps(base: ParameterMap, s: DeviceState, patch: ParameterMap, priority: Priority)
    requires Inv(base, s)
    ensures Inv(base, AfterPatch(s, patch, priority))
  {
    if PatchResult(s, patch) == Accepted {
      if !Merged(s, patch).enabled {
        StoredPatch(base, s, patch, priority);
      } else if |patch| == 1 && ENABLE in patch {
        EnableOnlyPatch(base, s, patch, priority);
      } else {
        PushedDelta(base, s, patch, priority);
      }
    }
  }

  lemma StepKeeps(base: ParameterMap, s: DeviceState, step: Step)
    requires Inv(base, s) && Enabled(s, step)
    ensures Inv(base, Next(s, step))
  {
    match step
    case Start => StartKeeps(base, s);
    case Stop => StopKeeps(base, s);
    case Submit(requests, priority) =>
      if SubmitResult(s) == Accepted {
        PushPlain(base, s, priority, Batch(requests, None, map[]));
      }
    case Patch(patch, priority) => PatchKeeps(base, s, patch, priority);
    case Wake => WakeKeeps(base, s);
    case Check(safe) => CheckKeeps(base, s, safe);
    case Plan(initial, plan) => PlanKeeps(base, s, initial, plan);
    case Execute(replies) => ExecuteKeeps(base, s, replies);
    case Finalize(safe, replies) => FinalizeKeeps(base, s, safe, replies);
  }

  lemma {:induction false} RunKeeps(base: ParameterMap, s: DeviceState, steps: seq<Step>)
    requires Inv(base, s) && Runs(s, steps)
    ensures Inv(base, Reached(s, steps))
    decreases |steps|
  {
    if steps == [] {
    } else {
      StepKeeps(base, s, steps[0]);
      RunKeeps(base, Next(s, steps[0]), steps[1..]);
    }
  }

  lemma ReachedInv(parameters: ParameterMap, enabled: bool, steps: seq<Step>)
    requires Runs(Initial(parameters, enabled), steps)
    ensures Inv(parameters, Reached(Initial(parameters, enabled), steps))
  {
    var s := Initial(parameters, enabled);
    assert parameters + map[] == parameters;
    assert Inv(parameters, s);
    RunKeeps(parameters, s, steps);
  }

  // ---------------------------------------------------------------------------
  // Main results
  // ---------------------------------------------------------------------------

  /** No pending change is lost. In every reachable state, the pending delta completes the map it is
      relative to to the full map (up to the materialisation gate), and a non-empty delta has exactly
      one batch on its way, carrying the current revision and that delta. */
  lemma NoChangeIsLost(parameters: ParameterMap, enabled: bool, steps: seq<Step>)
    requires Runs(Initial(parameters, enabled), steps)
    ensures var s := Reached(Initial(parameters, enabled), steps);
      && AgreeExceptEnable(Replayed(parameters, s.log) + s.pending, s.parameters)
      && (s.pending != map[] ==>
            && CountCurrent(Outstanding(s), s.revision) == 1
            && forall i :: 0 <= i < |Outstanding(s)| && Outstanding(s)[i].revision == Some(s.revision) ==>
                 Outstanding(s)[i].patch == s.pending)
  {
    ReachedInv(parameters, enabled, steps);
    var s := Reached(Initial(parameters, enabled), steps);
    var held := HeldBatches(s.worker);
    CountAppend(held + s.urgent, s.normal, s.revision);
    CountAppend(held, s.urgent, s.revision);
    assert BatchesOk(s.revision, s.parameters, s.pending, Outstanding(s));
  }

  /** When nothing is queued or held, every change accepted since the delta was last forgotten has
      been handed to the planner. */
  lemma IdleMeansHandedSince(parameters: ParameterMap, enabled: bool, steps: seq<Step>)
    requires Runs(Initial(parameters, enabled), steps)
    requires Outstanding(Reached(Initial(parameters, enabled), steps)) == []
    ensures var s := Reached(Initial(parameters, enabled), steps);
      AgreeExceptEnable(Replayed(parameters, s.log), s.parameters)
  {
    NoChangeIsLost(parameters, enabled, steps);
    var s := Reached(Initial(parameters, enabled), steps);
    assert Replayed(parameters, s.log) + map[] == Replayed(parameters, s.log);
  }

  /** Planner calls are newest-only: the revisions that pass the supersession check strictly
      increase along the run, and every call is consistent: each key of the patch has the
      value the full map gives it, and the gate can only be true. */
  lemma PlannerCallsAreNewest(parameters: ParameterMap, enabled: bool, steps: seq<Step>)
    requires Runs(Initial(parameters, enabled), steps)
    ensures var log := Reached(Initial(parameters, enabled), steps).log;
      && (forall i, j :: 0 <= i < j < |HandedRevisions(log)| ==> HandedRevisions(log)[i] < HandedRevisions(log)[j])
      && forall i :: 0 <= i < |log| && log[i].Handed? ==>
           SubMap(log[i].patch, log[i].full) && EnableTrue(log[i].patch)
  {
    ReachedInv(parameters, enabled, steps);
    var log := Reached(Initial(parameters, enabled), steps).log;
    forall i | 0 <= i < |log| && log[i].Handed?
      ensures SubMap(log[i].patch, log[i].full) && EnableTrue(log[i].patch)
    {
      assert HandedOk(log[i]);
    }
  }

  /** No batch on its way is newer than the device: the check can only find it latest or superseded. */
  lemma OutstandingIsNeverNewer(parameters: ParameterMap, enabled: bool, steps: seq<Step>, i: nat)
    requires Runs(Initial(parameters, enabled), steps)
    requires i < |Outstanding(Reached(Initial(parameters, enabled), steps))|
    ensures var s := Reached(Initial(parameters, enabled), steps);
      Outstanding(s)[i].revision.Some? ==> Outstanding(s)[i].revision.value <= s.revision
  {
    ReachedInv(parameters, enabled, steps);
    var s := Reached(Initial(parameters, enabled), steps);
    assert BatchesOk(s.revision, s.parameters, s.pending, Outstanding(s));
    assert BatchOk(s.revision, s.parameters, s.pending, Outstanding(s)[i]);
  }
}
