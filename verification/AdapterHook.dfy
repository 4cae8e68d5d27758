/** The recovery hook of the ROS lifecycle adapter, over a lifecycle node that somebody else
    hosts: it can be moved along the lifecycle, but never brought back once finalized. */
module AdapterHook {
  import opened Lifecycle
  import opened Planners
  import opened Iteration
  import opened Hooks

  /** A new error or stale event. */
  predicate EventDue(handled: Option<nat>, ctx: HookContext) {
    ctx.event.Some? && NeedsRecovery(ctx.event.value) && !Handled(handled, ctx.revision)
  }

  function EventPath(ctx: HookContext): seq<TransitionRequest>
    requires ctx.event.Some?
  {
    AdapterTransitionsTo(ctx.state, ctx.event.value.target, ctx.parameters)
  }

  function AdapterRequests(handled: Option<nat>, ctx: HookContext): seq<TransitionRequest> {
    if !ctx.enabled then []
    else if EventDue(handled, ctx) && EventPath(ctx) != [] then EventPath(ctx)
    else AdapterTransitionsTo(ctx.state, if ctx.state == Unconfigured then Inactive else Active, ctx.parameters)
  }

  function AdapterHandled(handled: Option<nat>, ctx: HookContext): Option<nat> {
    if ctx.enabled && EventDue(handled, ctx) && EventPath(ctx) == [] then Some(ctx.revision) else handled
  }

  class LifecycleHook {
    var handledRevision: Option<nat>

    constructor ()
      ensures handledRevision == None
    {
      handledRevision := None;
    }

    method Tick(ctx: HookContext) returns (requests: seq<TransitionRequest>)
      modifies this
      ensures requests == AdapterRequests(old(handledRevision), ctx)
      ensures handledRevision == AdapterHandled(old(handledRevision), ctx)
    {
      if !ctx.enabled {
        return [];
      }
      if ctx.event.Some? && (ctx.event.value.level == ErrorLevel || ctx.event.value.level == StaleLevel) {
        var alreadyHandled := handledRevision.Some? && handledRevision.value >= ctx.revision;
        var targetReached := ctx.state == ctx.event.value.target;
        if !alreadyHandled && !targetReached {
          requests := AdapterTransitionsTo(ctx.state, ctx.event.value.target, ctx.parameters);
          if requests != [] {
            return;
          }
        }
        if !alreadyHandled {
          handledRevision := Some(ctx.revision);
        }
      }
      var target := if ctx.state == Unconfigured then Inactive else Active;
      return AdapterTransitionsTo(ctx.state, target, ctx.parameters);
    }
  }

  /** What the hook asks for: a chain of edges from the state seen, with the newest map exactly on the
      configure edge. */
  lemma HookCarriesTheMap(handled: Option<nat>, ctx: HookContext)
    ensures var requests := AdapterRequests(handled, ctx);
      Path(ctx.state, requests) && Carries(requests, ctx.parameters)
  {
    PlanCarriesTheMap(ctx.state, Inactive, ctx.parameters);
    PlanCarriesTheMap(ctx.state, Active, ctx.parameters);
    if ctx.event.Some? {
      PlanCarriesTheMap(ctx.state, ctx.event.value.target, ctx.parameters);
    }
  }

  lemma PlanCarriesTheMap(from: LifecycleState, target: LifecycleState, parameters: ParameterMap)
    ensures var path := AdapterTransitionsTo(from, target, parameters);
      Path(from, path) && Carries(path, parameters)
  {
    AdapterPathsAreNameable(from, target, parameters);
  }

  // ---------------------------------------------------------------------------
  // A node whose services answer
  // ---------------------------------------------------------------------------

  /** `request_transition` when every service answers in time and the node accepts: parameters
      are refused on anything but the configure edge. */
  function NodePerform(state: LifecycleState, request: TransitionRequest): (LifecycleState, TransitionResult) {
    if !HasTransitionId(request.from, request.target) then (state, Failure)
    else if request.parameters != map[] && !(request.from == Unconfigured && request.target == Inactive) then
      (state, Failure)
    else (request.target, Success)
  }

  function NodeDrain(state: LifecycleState, requests: seq<TransitionRequest>): LifecycleState
    decreases |requests|
  {
    if requests == [] || state != requests[0].from then state
    else
      var (next, result) := NodePerform(state, requests[0]);
      if result != Success then next else NodeDrain(next, requests[1..])
  }

  datatype Node = Node(handled: Option<nat>, state: LifecycleState)

  function NodeTicked(setting: Setting, h: Node): Node {
    var ctx := Context(setting, h.state);
    Node(AdapterHandled(h.handled, ctx), NodeDrain(h.state, AdapterRequests(h.handled, ctx)))
  }

  function NodeTicker(setting: Setting): Node -> Node {
    h => NodeTicked(setting, h)
  }

  function NodeTicks(setting: Setting, h: Node, n: nat): Node {
    Iterate(NodeTicker(setting), h, n)
  }

  /** Every planned path is carried out to its end: none of its edges is refused. */
  lemma PathIsCarriedOut(from: LifecycleState, target: LifecycleState, parameters: ParameterMap)
    ensures var path := AdapterTransitionsTo(from, target, parameters);
      NodeDrain(from, path) == if path == [] then from else target
  {
    AdapterPathsAreNameable(from, target, parameters);
    var path := AdapterTransitionsTo(from, target, parameters);
    if |path| == 2 {
      assert path[1..] == [path[1]] && [path[1]][1..] == [];
      assert NodeDrain(path[1].from, [path[1]]) == NodeDrain(target, []) == target;
    } else if |path| == 1 {
      assert path[1..] == [] && NodeDrain(target, []) == target;
    }
  }

  function Raised(state: LifecycleState): LifecycleState {
    match state
    case Finalized => Finalized
    case Unconfigured => Inactive
    case _ => Active
  }

  /** One tick: serve a due event along its path, or mark it handled and climb one step. */
  lemma NodeTick(setting: Setting, h: Node)
    requires Stable(h.state) && setting.enabled
    ensures var t := NodeTicked(setting, h);
      var ctx := Context(setting, h.state);
      && Stable(t.state)
      && (if EventDue(h.handled, ctx) && EventPath(ctx) != [] then
            t.handled == h.handled && t.state == setting.event.value.target && t.state != h.state
          else !EventDue(t.handled, ctx) && t.state == Raised(h.state))
  {
    var ctx := Context(setting, h.state);
    if EventDue(h.handled, ctx) {
      PathIsCarriedOut(h.state, setting.event.value.target, setting.parameters);
      AdapterPlannerDiffersOnce(h.state, setting.event.value.target, setting.parameters);
      TransitionsToIsAPath(h.state, setting.event.value.target, setting.parameters, map[]);
    }
    PathIsCarriedOut(h.state, if h.state == Unconfigured then Inactive else Active, setting.parameters);
  }

  /** Whether the latest event, if due, asks to finalize the node. */
  predicate FinalizeDue(setting: Setting, h: Node) {
    EventDue(h.handled, Context(setting, h.state)) && setting.event.value.target == Finalized
  }

  /** Where the node rests. */
  function RestingPlace(setting: Setting, h: Node): LifecycleState {
    if !setting.enabled || h.state == Finalized then h.state
    else if FinalizeDue(setting, h) then Finalized
    else Active
  }

  /** Ticks needed until then, at most. */
  function Remaining(setting: Setting, h: Node): nat {
    if !setting.enabled then 0
    else if h.state == RestingPlace(setting, h) && !EventDue(h.handled, Context(setting, h.state)) then 0
    else if h.state == Finalized then 1
    else if FinalizeDue(setting, h) then 2
    else if EventDue(h.handled, Context(setting, h.state)) && EventPath(Context(setting, h.state)) != [] then 3
    else if h.state == Unconfigured then 2
    else 1
  }

  lemma NodeProgress(setting: Setting, h: Node)
    requires Stable(h.state)
    ensures var t := NodeTicked(setting, h);
      && Stable(t.state)
      && RestingPlace(setting, t) == RestingPlace(setting, h)
      && (Remaining(setting, h) > 0 ==> Remaining(setting, t) < Remaining(setting, h))
      && (Remaining(setting, h) == 0 ==> t.state == h.state && Remaining(setting, t) == 0)
  {
    if setting.enabled {
      NodeTick(setting, h);
    }
  }

  lemma {:induction false} RemainingShrinks(setting: Setting, h: Node, n: nat)
    requires Stable(h.state)
    ensures var t := NodeTicks(setting, h, n);
      && Stable(t.state)
      && RestingPlace(setting, t) == RestingPlace(setting, h)
      && (Remaining(setting, t) == 0 || Remaining(setting, t) + n <= Remaining(setting, h))
  {
    if n == 0 {
    } else {
      RemainingShrinks(setting, h, n - 1);
      NodeProgress(setting, NodeTicks(setting, h, n - 1));
    }
  }

  /** Hook convergence, exactly. From any stable state and any latest event, with no further
      events and services that answer: from the third drained tick on a disabled or finalized
      node is where it was, a node with an unserved error event asking for FINALIZED is finalized
      for good, and every other node is ACTIVE. */
  lemma NodeHookConverges(setting: Setting, h: Node, n: nat)
    requires Stable(h.state) && n >= 3
    ensures NodeTicks(setting, h, n).state
      == if !setting.enabled || h.state == Finalized then h.state
         else if FinalizeDue(setting, h) then Finalized
         else Active
  {
    RemainingShrinks(setting, h, n);
  }

  lemma NodeStep(state: LifecycleState, requests: seq<TransitionRequest>)
    requires requests != [] && state == requests[0].from
    ensures var (next, result) := NodePerform(state, requests[0]);
      NodeDrain(state, requests) == if result != Success then next else NodeDrain(next, requests[1..])
  {
  }

  /** The standard plan on such a node, exactly: it ends at rest if and only if it does not start from
      FINALIZED, which the adapter has no edge out of. */
  lemma StandardPlanOnNodeIff(state: LifecycleState, full: ParameterMap)
    requires Stable(state)
    ensures NodeDrain(state, StandardParameterTransitions(state, full))
      == if state == Finalized then Finalized else Rest(state)
  {
    var plan := StandardParameterTransitions(state, full);
    NodeStep(state, plan);
    if state == Active {
      NodeStep(Inactive, plan[1..]);
      NodeStep(Unconfigured, plan[1..][1..]);
      NodeStep(Inactive, plan[1..][1..][1..]);
    } else if state == Inactive {
      NodeStep(Unconfigured, plan[1..]);
    }
  }
}
