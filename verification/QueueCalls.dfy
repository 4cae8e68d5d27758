/** What the worker says to the runtime, and what it keeps of the answers: stated on the calls
    themselves, next to what the worker has in hand. */
module QueueCalls {
  import opened Lifecycle
  import opened DeviceQueue
  import opened Streams
  import QueueHistory

  // ---------------------------------------------------------------------------
  // Reading the calls
  // ---------------------------------------------------------------------------

  function Command(call: Call): seq<TransitionRequest> {
    if call.TransitionAsked? then [call.request] else []
  }

  /** The transitions the runtime was asked for, in order. */
  function Commands(calls: seq<Call>): seq<TransitionRequest> {
    FlatMap(Command, calls)
  }

  /** A call into the planner: where planning starts, the full map and the patch. */
  datatype Question = Question(state: LifecycleState, full: ParameterMap, patch: ParameterMap)

  function Asking(call: Call): seq<Question> {
    if call.PlanAsked? then [Question(call.state, call.full, call.patch)] else []
  }

  function Questions(calls: seq<Call>): seq<Question> {
    FlatMap(Asking, calls)
  }

  // ---------------------------------------------------------------------------
  // What should have been asked
  // ---------------------------------------------------------------------------

  /** The request an attempt passes on: its own, if the runtime reported its source. */
  function Passed(attempt: Attempt): seq<TransitionRequest> {
    if attempt.replies.source == Returned(attempt.request.from) then [attempt.request] else []
  }

  function PassedBy(e: Event): seq<TransitionRequest> {
    match e
    case Attempted(attempt) => Passed(attempt)
    case Exited(_, Some(attempt)) => Passed(attempt)
    case _ => []
  }

  /** The question a planning event stands for, if the runtime reported a state to plan from. */
  function PlannedBy(e: Event): seq<Question> {
    if e.Planned? && e.initial.Returned? then [Question(e.initial.value, e.full, e.patch)] else []
  }

  /** The finalize request, if the runtime still reports the state asked. */
  function Exiting(safe: LifecycleState, replies: Replies): seq<TransitionRequest> {
    if safe != Finalized && replies.source == Returned(safe) then [TransitionRequest(safe, Finalized, map[])] else []
  }

  /** The requests one step passes on, from the state it is taken in. */
  function Ordered(s: DeviceState, step: Step): seq<TransitionRequest>
    requires Enabled(s, step)
  {
    match step
    case Execute(replies) =>
      if replies.source == Returned(s.worker.todo[0].from) then [s.worker.todo[0]] else []
    case Finalize(safe, replies) => Exiting(safe, replies)
    case _ => []
  }

  /** The question one step asks. */
  function Wondered(s: DeviceState, step: Step): seq<Question>
    requires Enabled(s, step)
  {
    if step.Plan? && step.initial.Returned? then
      [Question(step.initial.value, s.worker.full, s.worker.patch)]
    else []
  }

  // ---------------------------------------------------------------------------
  // Calls of one act of the worker
  // ---------------------------------------------------------------------------

  /** What the calls of one `execute` pass on. */
  lemma ExecuteCommands(request: TransitionRequest, r: Replies)
    ensures Commands(ExecuteCalls(request, r)) == if r.source == Returned(request.from) then [request] else []
    ensures Questions(ExecuteCalls(request, r)) == []
  {
    var calls := ExecuteCalls(request, r);
    FlatMapNothing(Asking, calls);
    if r.source == Returned(request.from) {
      assert calls == [calls[0]] + [calls[1]] + calls[2..];
      FlatMapOne(Command, [calls[0]], calls[1], calls[2..]);
    } else {
      FlatMapNothing(Command, calls);
    }
  }

  lemma PlanQuestions(
      initial: Reply<LifecycleState>, full: ParameterMap, patch: ParameterMap, plan: Reply<seq<TransitionRequest>>)
    ensures Questions(PlanCalls(initial, full, patch, plan))
      == if initial.Returned? then [Question(initial.value, full, patch)] else []
    ensures Commands(PlanCalls(initial, full, patch, plan)) == []
  {
    var calls := PlanCalls(initial, full, patch, plan);
    FlatMapNothing(Command, calls);
    if initial.Returned? {
      assert calls == [calls[0]] + [calls[1]] + [];
      FlatMapOne(Asking, [calls[0]], calls[1], []);
    } else {
      FlatMapNothing(Asking, calls);
    }
  }

  lemma SafeFirst(safe: LifecycleState, calls: seq<Call>)
    ensures Commands([SafeAsked(safe)] + calls) == Commands(calls)
    ensures Questions([SafeAsked(safe)] + calls) == Questions(calls)
  {
    FlatMapAppend(Command, [SafeAsked(safe)], calls);
    FlatMapAppend(Asking, [SafeAsked(safe)], calls);
    FlatMapNothing(Command, [SafeAsked(safe)]);
    FlatMapNothing(Asking, [SafeAsked(safe)]);
  }

  // ---------------------------------------------------------------------------
  // One step
  // ---------------------------------------------------------------------------

  /** The calls a step has added. */
  function NewCalls(s: DeviceState, t: DeviceState): seq<Call>
    requires s.calls <= t.calls
  {
    t.calls[|s.calls|..]
  }

  lemma ExecuteSays(s: DeviceState, replies: Replies)
    requires Enabled(s, Execute(replies))
    ensures var t := AfterExecute(s, replies);
      && s.calls <= t.calls
      && Commands(NewCalls(s, t)) == Ordered(s, Execute(replies))
      && Questions(NewCalls(s, t)) == []
  {
    assert NewCalls(s, AfterExecute(s, replies)) == ExecuteCalls(s.worker.todo[0], replies);
    ExecuteCommands(s.worker.todo[0], replies);
  }

  lemma PlanSays(s: DeviceState, initial: Reply<LifecycleState>, plan: Reply<seq<TransitionRequest>>)
    requires s.worker.Planning?
    ensures var t := AfterPlan(s, initial, plan);
      && s.calls <= t.calls
      && Commands(NewCalls(s, t)) == []
      && Questions(NewCalls(s, t)) == Wondered(s, Plan(initial, plan))
  {
    assert NewCalls(s, AfterPlan(s, initial, plan)) == PlanCalls(initial, s.worker.full, s.worker.patch, plan);
    PlanQuestions(initial, s.worker.full, s.worker.patch, plan);
  }

  /** The calls of an exit after the first. */
  function ExitCalls(safe: LifecycleState, replies: Replies): seq<Call> {
    if safe == Finalized then [] else ExecuteCalls(TransitionRequest(safe, Finalized, map[]), replies)
  }

  lemma FinalizeCalls(s: DeviceState, safe: LifecycleState, replies: Replies)
    requires s.worker == Finalizing
    ensures AfterFinalize(s, safe, replies).calls == s.calls + ([SafeAsked(safe)] + ExitCalls(safe, replies))
  {
    var calls := ExitCalls(safe, replies);
    assert s.calls + [SafeAsked(safe)] + calls == s.calls + ([SafeAsked(safe)] + calls);
  }

  lemma ExitSays(safe: LifecycleState, replies: Replies)
    ensures Commands(ExitCalls(safe, replies)) == Exiting(safe, replies)
    ensures Questions(ExitCalls(safe, replies)) == []
  {
    ExecuteCommands(TransitionRequest(safe, Finalized, map[]), replies);
  }

  /** The calls of an exit. */
  predicate Exits(s: DeviceState, t: DeviceState, safe: LifecycleState, replies: Replies) {
    && s.calls <= t.calls
    && NewCalls(s, t) == [SafeAsked(safe)] + ExitCalls(safe, replies)
    && Commands(NewCalls(s, t)) == Exiting(safe, replies)
    && Questions(NewCalls(s, t)) == []
  }

  lemma ExitThenSays(s: DeviceState, t: DeviceState, safe: LifecycleState, replies: Replies)
    requires t.calls == s.calls + ([SafeAsked(safe)] + ExitCalls(safe, replies))
    ensures Exits(s, t, safe, replies)
  {
    SafeFirst(safe, ExitCalls(safe, replies));
    ExitSays(safe, replies);
  }

  lemma FinalizeSays(s: DeviceState, safe: LifecycleState, replies: Replies)
    requires s.worker == Finalizing
    ensures Exits(s, AfterFinalize(s, safe, replies), safe, replies)
  {
    FinalizeCalls(s, safe, replies);
    ExitThenSays(s, AfterFinalize(s, safe, replies), safe, replies);
  }

  /** Either the patch is handed over, with no call, or it is discarded, with the safe state. */
  predicate Checked(s: DeviceState, t: DeviceState, safe: LifecycleState) {
    || Silent(s, t)
    || (t.calls == s.calls + [SafeAsked(safe)]
        && t.lastTransition == Some(TransitionRecord(NO_REQUEST, Failure, true, safe)))
  }

  lemma CheckIsChecked(s: DeviceState, safe: LifecycleState)
    requires Enabled(s, Check(safe))
    ensures Checked(s, AfterCheck(s, safe), safe)
  {
  }

  lemma CheckedSays(s: DeviceState, t: DeviceState, safe: LifecycleState)
    requires Checked(s, t, safe)
    ensures s.calls <= t.calls && Commands(NewCalls(s, t)) == [] && Questions(NewCalls(s, t)) == []
    ensures RecordAfter(s, Check(safe), NewCalls(s, t), t.lastTransition)
  {
    var more := NewCalls(s, t);
    assert more == [] || more == [SafeAsked(safe)];
    FlatMapNothing(Command, more);
    FlatMapNothing(Asking, more);
  }

  lemma CheckSays(s: DeviceState, safe: LifecycleState)
    requires Enabled(s, Check(safe))
    ensures var t := AfterCheck(s, safe);
      && s.calls <= t.calls && Commands(NewCalls(s, t)) == [] && Questions(NewCalls(s, t)) == []
      && RecordAfter(s, Check(safe), NewCalls(s, t), t.lastTransition)
  {
    CheckIsChecked(s, safe);
    CheckedSays(s, AfterCheck(s, safe), safe);
  }

  /** No call, and no new record. */
  predicate Silent(s: DeviceState, t: DeviceState) {
    t.calls == s.calls && t.lastTransition == s.lastTransition
  }

  lemma DeltaIsSilent(s: DeviceState, patch: ParameterMap, priority: Priority)
    ensures Silent(s, PushDelta(s, patch, priority))
  {
  }

  lemma PatchIsSilent(s: DeviceState, patch: ParameterMap, priority: Priority)
    ensures Silent(s, AfterPatch(s, patch, priority))
  {
    if PatchResult(s, patch) == Accepted {
      DeltaIsSilent(Merged(s, patch), patch, priority);
    }
  }

  lemma TakeIsSilent(s: DeviceState, priority: Priority, batch: Batch)
    ensures Silent(s, Take(s, priority, batch))
  {
  }

  lemma WakeIsSilent(s: DeviceState)
    requires Enabled(s, Wake)
    ensures Silent(s, AfterWake(s))
  {
    if !s.stopping {
      if s.urgent != [] {
        TakeIsSilent(s.(urgent := s.urgent[1..]), Urgent, s.urgent[0]);
      } else {
        TakeIsSilent(s.(normal := s.normal[1..]), Normal, s.normal[0]);
      }
    }
  }

  lemma QuietStep(s: DeviceState, step: Step)
    requires Enabled(s, step) && (step.Start? || step.Stop? || step.Submit? || step.Patch? || step.Wake?)
    ensures Silent(s, Next(s, step))
  {
    match step
    case Patch(patch, priority) => PatchIsSilent(s, patch, priority);
    case Wake => WakeIsSilent(s);
    case _ =>
  }

  /** The runtime is told exactly what is in hand. Whatever step is taken in whatever state: the
      transitions asked for meanwhile are the request in hand, all of it, if the runtime reported
      its source; on exit the finalize request from the state asked first, unless already
      finalized; and otherwise none. The planner is asked exactly when planning, from the state
      reported, with the full map and the patch handed over. */
  lemma StepSaysWhatIsInHand(s: DeviceState, step: Step)
    requires Enabled(s, step)
    ensures var t := Next(s, step);
      && s.calls <= t.calls
      && Commands(NewCalls(s, t)) == Ordered(s, step)
      && Questions(NewCalls(s, t)) == Wondered(s, step)
  {
    match step
    case Check(safe) => CheckSays(s, safe);
    case Plan(initial, plan) => PlanSays(s, initial, plan);
    case Execute(replies) => ExecuteSays(s, replies);
    case Finalize(safe, replies) => FinalizeSays(s, safe, replies);
    case _ => QuietStep(s, step);
  }

  /** The state a call made known. */
  function Shown(call: Call): LifecycleState {
    match call
    case StateAsked(Returned(state)) => state
    case SafeAsked(state) => state
    case _ => Unknown
  }

  predicate Failed(call: Call) {
    match call
    case StateAsked(reply) => reply.Threw?
    case TransitionAsked(_, outcome) => outcome.Threw? || outcome.value == Error
    case PlanAsked(_, _, _, plan) => plan.Threw?
    case SafeAsked(_) => false
  }

  /** A record of a request and the calls made for it. */
  predicate Tells(request: TransitionRequest, calls: seq<Call>, record: TransitionRecord)
    requires calls != []
  {
    && record.request == request
    && record.actual == Shown(calls[|calls| - 1])
    && (record.discarded <==> |calls| == 1 && !Failed(calls[0]))
    && (record.result == Error <==> exists i :: 0 <= i < |calls| && Failed(calls[i]))
    && (record.result == Success <==>
          && |calls| == 3
          && calls[1] == TransitionAsked(request, Returned(Success))
          && calls[2] == StateAsked(Returned(request.target)))
  }

  lemma UncommandedTells(request: TransitionRequest, r: Replies)
    requires r.source != Returned(request.from)
    ensures Tells(request, ExecuteCalls(request, r), RecordOf(request, r))
  {
    var calls := ExecuteCalls(request, r);
    assert calls == [StateAsked(r.source)];
    assert r.source.Threw? ==> Failed(calls[0]);
  }

  lemma CommandedTells(request: TransitionRequest, r: Replies)
    requires r.source == Returned(request.from)
    ensures Tells(request, ExecuteCalls(request, r), RecordOf(request, r))
  {
    var calls := ExecuteCalls(request, r);
    assert !Failed(calls[0]) && calls[1] == TransitionAsked(request, r.outcome);
    if r.outcome.Threw? {
      assert Failed(calls[1]);
    } else {
      assert calls[2] == StateAsked(r.after);
      assert r.after.Threw? ==> Failed(calls[2]) && calls[3] == SafeAsked(r.safe);
      assert r.outcome.value == Error ==> Failed(calls[1]);
    }
  }

  lemma ExecuteTells(s: DeviceState, replies: Replies)
    requires Enabled(s, Execute(replies))
    ensures var t := AfterExecute(s, replies);
      && s.calls <= t.calls && NewCalls(s, t) != [] && t.lastTransition.Some?
      && Tells(s.worker.todo[0], NewCalls(s, t), t.lastTransition.value)
  {
    var request := s.worker.todo[0];
    assert NewCalls(s, AfterExecute(s, replies)) == ExecuteCalls(request, replies);
    ExecuteCallsTell(request, replies);
  }

  lemma ExecuteCallsTell(request: TransitionRequest, replies: Replies)
    ensures Tells(request, ExecuteCalls(request, replies), RecordOf(request, replies))
  {
    if replies.source == Returned(request.from) {
      CommandedTells(request, replies);
    } else {
      UncommandedTells(request, replies);
    }
  }

  lemma FinalizeTells(s: DeviceState, safe: LifecycleState, replies: Replies)
    requires s.worker == Finalizing
    ensures var t := AfterFinalize(s, safe, replies);
      && s.calls <= t.calls && NewCalls(s, t) != []
      && var more := NewCalls(s, t)[1..];
      && (more == [] ==> t.lastTransition == s.lastTransition)
      && (more != [] ==> t.lastTransition.Some?
                         && Tells(TransitionRequest(safe, Finalized, map[]), more, t.lastTransition.value))
  {
    FinalizeSays(s, safe, replies);
    ExecuteCallsTell(TransitionRequest(safe, Finalized, map[]), replies);
  }

  /** A record without a request: of a patch that was superseded, or could not be planned. */
  predicate Unrequested(record: TransitionRecord, result: TransitionResult, discarded: bool, actual: LifecycleState) {
    record == TransitionRecord(NO_REQUEST, result, discarded, actual)
  }

  /** What the record of the last transition is after a step, told from the calls of the step. */
  predicate RecordAfter(s: DeviceState, step: Step, calls: seq<Call>, last: Option<TransitionRecord>) {
    match step
    case Execute(_) =>
      && s.worker.Running? && s.worker.todo != [] && calls != []
      && last.Some? && Tells(s.worker.todo[0], calls, last.value)
    case Finalize(safe, _) =>
      && calls != []
      && if |calls| == 1 then last == s.lastTransition
         else last.Some? && Tells(TransitionRequest(safe, Finalized, map[]), calls[1..], last.value)
    case Check(_) =>
      if calls == [] then last == s.lastTransition
      else last.Some? && Unrequested(last.value, Failure, true, Shown(calls[|calls| - 1]))
    case Plan(_, _) =>
      && calls != []
      && if Failed(calls[|calls| - 1]) then last.Some? && Unrequested(last.value, Error, false, Unknown)
         else last == s.lastTransition
    case _ => calls == [] && last == s.lastTransition
  }

  lemma PlanTells(s: DeviceState, initial: Reply<LifecycleState>, plan: Reply<seq<TransitionRequest>>)
    requires s.worker.Planning?
    ensures var t := AfterPlan(s, initial, plan);
      s.calls <= t.calls && RecordAfter(s, Plan(initial, plan), NewCalls(s, t), t.lastTransition)
  {
    assert NewCalls(s, AfterPlan(s, initial, plan)) == PlanCalls(initial, s.worker.full, s.worker.patch, plan);
  }

  /** The record tells what the calls showed, after every step. An execute is recorded with its
      request; its state is what the last call made known; it is discarded exactly if the runtime
      answered and was not asked anything more; its result is an error exactly if a call threw or
      reported one; and a success exactly if the runtime was commanded, reported success and then
      showed the target. A superseded patch is recorded as discarded with the safe state, a patch
      that could not be planned as an error, and no other step touches the record. */
  lemma RecordTellsTheCalls(s: DeviceState, step: Step)
    requires Enabled(s, step)
    ensures var t := Next(s, step);
      s.calls <= t.calls && RecordAfter(s, step, NewCalls(s, t), t.lastTransition)
  {
    match step
    case Execute(replies) => ExecuteTells(s, replies);
    case Finalize(safe, replies) => FinalizeTells(s, safe, replies);
    case Check(safe) => CheckSays(s, safe);
    case Plan(initial, plan) => PlanTells(s, initial, plan);
    case _ => QuietStep(s, step);
  }

  // ---------------------------------------------------------------------------
  // Every run
  // ---------------------------------------------------------------------------

  lemma EventSays(e: Event)
    ensures Commands(QueueHistory.EventCalls(e)) == PassedBy(e)
    ensures Questions(QueueHistory.EventCalls(e)) == PlannedBy(e)
  {
    match e
    case Attempted(attempt) => ExecuteCommands(attempt.request, attempt.replies);
    case Planned(initial, full, patch, plan) => PlanQuestions(initial, full, patch, plan);
    case Discarded(safe) =>
      SafeFirst(safe, []);
      assert [SafeAsked(safe)] + [] == [SafeAsked(safe)];
    case Exited(safe, finalize) =>
      var calls := if finalize.None? then [] else ExecuteCalls(finalize.value.request, finalize.value.replies);
      SafeFirst(safe, calls);
      if finalize.Some? {
        ExecuteCommands(finalize.value.request, finalize.value.replies);
      }
    case _ =>
  }

  lemma {:induction false} LogSays(log: seq<Event>)
    ensures Commands(FlatMap(QueueHistory.EventCalls, log)) == FlatMap(PassedBy, log)
    ensures Questions(FlatMap(QueueHistory.EventCalls, log)) == FlatMap(PlannedBy, log)
  {
    if log == [] {
    } else {
      var front, e := log[..|log| - 1], log[|log| - 1];
      LogSays(front);
      EventSays(e);
      FlatMapAppend(Command, FlatMap(QueueHistory.EventCalls, front), QueueHistory.EventCalls(e));
      FlatMapAppend(Asking, FlatMap(QueueHistory.EventCalls, front), QueueHistory.EventCalls(e));
    }
  }

  /** Nothing else is ever asked. In every run: the transitions the runtime was asked for are, in
      order and with all their fields, the requests of the attempts, finalizing ones included,
      whose first state reply was the source of the request; and the planner was asked, in order,
      exactly what the planning events say, with the full map and the patch of each. */
  lemma RuntimeIsAskedWhatIsAttempted(parameters: ParameterMap, enabled: bool, steps: seq<Step>)
    requires Runs(Initial(parameters, enabled), steps)
    ensures var s := Reached(Initial(parameters, enabled), steps);
      && Commands(s.calls) == FlatMap(PassedBy, s.log)
      && Questions(s.calls) == FlatMap(PlannedBy, s.log)
  {
    QueueHistory.CommandsFollowTheirSource(parameters, enabled, steps);
    LogSays(Reached(Initial(parameters, enabled), steps).log);
  }

  /** Every command is followed by a look at the outcome: at the state after a report, at the safe
      state after a throw; and so is a state that could not be read. */
  predicate ObservedAt(calls: seq<Call>, i: nat)
    requires i < |calls| && calls[i].TransitionAsked?
  {
    && i + 1 < |calls|
    && if calls[i].outcome.Threw? then calls[i + 1].SafeAsked?
       else
         && calls[i + 1].StateAsked?
         && (calls[i + 1].reply.Threw? ==> i + 2 < |calls| && calls[i + 2].SafeAsked?)
  }

  predicate Observed(calls: seq<Call>) {
    forall i :: 0 <= i < |calls| && calls[i].TransitionAsked? ==> ObservedAt(calls, i)
  }

  lemma EventObserved(e: Event)
    ensures Observed(QueueHistory.EventCalls(e))
  {
  }

  lemma ObservedAppend(a: seq<Call>, b: seq<Call>)
    requires Observed(a) && Observed(b)
    ensures Observed(a + b)
  {
    forall i | |a| <= i < |a + b| ensures (a + b)[i] == b[i - |a|] {
    }
    forall i | 0 <= i < |a + b| && (a + b)[i].TransitionAsked? ensures ObservedAt(a + b, i) {
      assert if i < |a| then ObservedAt(a, i) else ObservedAt(b, i - |a|);
    }
  }

  lemma {:induction false} LogObserved(log: seq<Event>)
    ensures Observed(FlatMap(QueueHistory.EventCalls, log))
  {
    if log == [] {
    } else {
      var last := |log| - 1;
      LogObserved(log[..last]);
      EventObserved(log[last]);
      ObservedAppend(FlatMap(QueueHistory.EventCalls, log[..last]), QueueHistory.EventCalls(log[last]));
    }
  }

  lemma CommandsAreObserved(parameters: ParameterMap, enabled: bool, steps: seq<Step>)
    requires Runs(Initial(parameters, enabled), steps)
    ensures Observed(Reached(Initial(parameters, enabled), steps).calls)
  {
    QueueHistory.CommandsFollowTheirSource(parameters, enabled, steps);
    LogObserved(Reached(Initial(parameters, enabled), steps).log);
  }
}
