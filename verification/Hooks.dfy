/** The recovery hooks of the process-hosted and the in-process runtimes, and the in-process runtime
    (the CH020 IMU) under its hook. */
module Hooks {
  import opened Lifecycle
  import opened Planners
  import opened Iteration

  datatype EventLevel = OkLevel | WarnLevel | ErrorLevel | StaleLevel

  datatype DeviceEvent = DeviceEvent(level: EventLevel, target: LifecycleState)

  /** What a hook sees on a tick. `revision` counts received events, so it is zero before any. */
  datatype HookContext = HookContext(
    state: LifecycleState, enabled: bool, parameters: ParameterMap, event: Option<DeviceEvent>, revision: nat)

  // ---------------------------------------------------------------------------
  // The hooks
  // ---------------------------------------------------------------------------

  predicate Handled(handled: Option<nat>, revision: nat) {
    handled.Some? && handled.value >= revision
  }

  /** The latest event still calls for a path the planner knows. */
  predicate EventPathPending(handled: Option<nat>, ctx: HookContext) {
    && ctx.event.Some? && ctx.revision != 0
    && !Handled(handled, ctx.revision)
    && ctx.state != ctx.event.value.target
    && TransitionsTo(ctx.state, ctx.event.value.target, ctx.parameters, map[]) != []
  }

  /** Without an event to serve: towards FINALIZED when disabled, one step up when enabled. */
  function AutomaticRequests(ctx: HookContext): seq<TransitionRequest> {
    var target :=
      if !ctx.enabled then Finalized
      else if ctx.state == Finalized then Unconfigured
      else if ctx.state == Unconfigured then Inactive
      else Active;
    TransitionsTo(ctx.state, target, ctx.parameters, map[])
  }

  /** Event first: serve the latest event until its target is reached, then advance automatically. */
  class ProcessHook {
    var handledRevision: Option<nat>

    constructor ()
      ensures handledRevision == None
    {
      handledRevision := None;
    }

    method Tick(ctx: HookContext) returns (requests: seq<TransitionRequest>)
      modifies this
      ensures requests == ProcessRequests(old(handledRevision), ctx)
      ensures handledRevision == ProcessHandled(old(handledRevision), ctx)
    {
      if ctx.event.Some? && ctx.revision != 0 {
        var alreadyHandled := handledRevision.Some? && handledRevision.value >= ctx.revision;
        var targetReached := ctx.state == ctx.event.value.target;
        if !alreadyHandled && !targetReached {
          requests := TransitionsTo(ctx.state, ctx.event.value.target, ctx.parameters, map[]);
          if requests != [] {
            return;
          }
        }
        if !alreadyHandled {
          handledRevision := Some(ctx.revision);
        }
      }
      if ctx.state == Finalized {
        if !ctx.enabled {
          return [];
        }
        return TransitionsTo(ctx.state, Unconfigured, ctx.parameters, map[]);
      }
      if !ctx.enabled {
        return TransitionsTo(ctx.state, Finalized, ctx.parameters, map[]);
      }
      var target := if ctx.state == Unconfigured then Inactive else Active;
      return TransitionsTo(ctx.state, target, ctx.parameters, map[]);
    }
  }

  function ProcessRequests(handled: Option<nat>, ctx: HookContext): seq<TransitionRequest> {
    if EventPathPending(handled, ctx) then TransitionsTo(ctx.state, ctx.event.value.target, ctx.parameters, map[])
    else AutomaticRequests(ctx)
  }

  function ProcessHandled(handled: Option<nat>, ctx: HookContext): Option<nat> {
    if ctx.event.Some? && ctx.revision != 0 && !Handled(handled, ctx.revision) && !EventPathPending(handled, ctx)
    then Some(ctx.revision)
    else handled
  }

  predicate NeedsRecovery(event: DeviceEvent) {
    event.level == ErrorLevel || event.level == StaleLevel
  }

  /** Startup first: climb to ACTIVE, and only there serve a new error or stale event. */
  class InProcessHook {
    var handledRevision: nat

    constructor ()
      ensures handledRevision == 0
    {
      handledRevision := 0;
    }

    method Tick(ctx: HookContext) returns (requests: seq<TransitionRequest>)
      modifies this
      ensures requests == InProcessRequests(old(handledRevision), ctx)
      ensures handledRevision == InProcessHandled(old(handledRevision), ctx)
    {
      if !ctx.enabled {
        return RecoveryRequests(ctx.state, Finalized);
      }
      if ctx.state == Finalized {
        return [TransitionRequest(Finalized, Unconfigured, ctx.parameters)];
      }
      if ctx.state == Unconfigured {
        return [TransitionRequest(Unconfigured, Inactive, ctx.parameters)];
      }
      if ctx.state == Inactive {
        return [TransitionRequest(Inactive, Active, map[])];
      }
      if ctx.state != Active || ctx.event.None? || !NeedsRecovery(ctx.event.value) || ctx.revision <= handledRevision {
        return [];
      }
      handledRevision := ctx.revision;
      return RecoveryRequests(ctx.state, ctx.event.value.target);
    }
  }

  predicate RecoveryDue(handled: nat, ctx: HookContext) {
    ctx.enabled && ctx.state == Active && ctx.event.Some? && NeedsRecovery(ctx.event.value) && ctx.revision > handled
  }

  function InProcessRequests(handled: nat, ctx: HookContext): seq<TransitionRequest> {
    if !ctx.enabled then RecoveryRequests(ctx.state, Finalized)
    else match ctx.state
      case Finalized => [TransitionRequest(Finalized, Unconfigured, ctx.parameters)]
      case Unconfigured => [TransitionRequest(Unconfigured, Inactive, ctx.parameters)]
      case Inactive => [TransitionRequest(Inactive, Active, map[])]
      case _ => if RecoveryDue(handled, ctx) then RecoveryRequests(ctx.state, ctx.event.value.target) else []
  }

  function InProcessHandled(handled: nat, ctx: HookContext): nat {
    if RecoveryDue(handled, ctx) then ctx.revision else handled
  }

  /** Every edge that starts or configures the device carries the map the hook was given, and no
      other edge carries anything. */
  predicate Carries(requests: seq<TransitionRequest>, parameters: ParameterMap) {
    forall i :: 0 <= i < |requests| ==>
      requests[i].parameters ==
        if requests[i].from == Finalized || (requests[i].from == Unconfigured && requests[i].target == Inactive)
        then parameters else map[]
  }

  /** What the hooks ask for: a chain of edges from the state seen, and the newest map exactly where a
      driver takes one. */
  lemma HooksCarryTheMap(handled: Option<nat>, served: nat, ctx: HookContext)
    ensures var requests := ProcessRequests(handled, ctx);
      Path(ctx.state, requests) && Carries(requests, ctx.parameters)
    ensures var requests := InProcessRequests(served, ctx);
      Path(ctx.state, requests) && Carries(requests, ctx.parameters)
  {
    PlansCarryTheMap(ctx.state, Finalized, ctx.parameters);
    PlansCarryTheMap(ctx.state, Unconfigured, ctx.parameters);
    PlansCarryTheMap(ctx.state, Inactive, ctx.parameters);
    PlansCarryTheMap(ctx.state, Active, ctx.parameters);
    if ctx.event.Some? {
      PlansCarryTheMap(ctx.state, ctx.event.value.target, ctx.parameters);
    }
  }

  lemma PlansCarryTheMap(from: LifecycleState, target: LifecycleState, parameters: ParameterMap)
    ensures var path := TransitionsTo(from, target, parameters, map[]);
      Path(from, path) && Carries(path, parameters)
    ensures var path := RecoveryRequests(from, target);
      Path(from, path) && Carries(path, parameters)
  {
    TransitionsToIsAPath(from, target, parameters, map[]);
    RecoveryRequestsIsAPath(from, target);
  }

  // ---------------------------------------------------------------------------
  // What a hook sees from tick to tick
  // ---------------------------------------------------------------------------

  /** What does not change while no event arrives and no patch is submitted. */
  datatype Setting = Setting(
    enabled: bool, parameters: ParameterMap, event: Option<DeviceEvent>, revision: nat)

  function Context(setting: Setting, state: LifecycleState): HookContext {
    HookContext(state, setting.enabled, setting.parameters, setting.event, setting.revision)
  }

  // ---------------------------------------------------------------------------
  // The in-process runtime and its hook
  // ---------------------------------------------------------------------------

  /** The CH020 runtime: its state, whether the driver object exists and is configured. */
  datatype InProcess = InProcess(state: LifecycleState, hasDriver: bool, configured: bool)

  function InProcessPerform(r: InProcess, request: TransitionRequest, opens: bool): (InProcess, TransitionResult) {
    match Dispatch(request.from, request.target)
    case Materialize =>
      if r.state != Finalized || r.hasDriver then (r, Failure) else (InProcess(Unconfigured, true, false), Success)
    case Configure =>
      if r.state != Unconfigured || !r.hasDriver then (r, Failure)
      else if opens then (r.(state := Inactive, configured := true), Success)
      else (r.(configured := false), Error)
    case Activate =>
      if r.state != Inactive || !r.hasDriver || !r.configured then (r, Failure) else (r.(state := Active), Success)
    case Deactivate =>
      if r.state != Active || !r.hasDriver then (r, Failure) else (r.(state := Inactive), Success)
    case Cleanup =>
      if r.state != Inactive || !r.hasDriver then (r, Failure)
      else (r.(state := Unconfigured, configured := false), Success)
    case Dematerialize =>
      if !r.hasDriver || r.state == Finalized then (r, Failure) else (InProcess(Finalized, false, false), Success)
    case Unsupported => (r, Failure)
  }

  function InProcessDrain(r: InProcess, requests: seq<TransitionRequest>, opens: bool): InProcess
    decreases |requests|
  {
    if requests == [] || r.state != requests[0].from then r
    else
      var (q, result) := InProcessPerform(r, requests[0], opens);
      if result != Success || q.state != requests[0].target then q
      else InProcessDrain(q, requests[1..], opens)
  }

  datatype Plugged = Plugged(handled: nat, runtime: InProcess)

  function PluggedTicked(setting: Setting, h: Plugged): Plugged {
    var ctx := Context(setting, h.runtime.state);
    Plugged(InProcessHandled(h.handled, ctx), InProcessDrain(h.runtime, InProcessRequests(h.handled, ctx), true))
  }

  function PluggedTicks(setting: Setting, h: Plugged, n: nat): Plugged {
    Iterate(PluggedTicker(setting), h, n)
  }

  function PluggedTicker(setting: Setting): Plugged -> Plugged {
    h => PluggedTicked(setting, h)
  }

  predicate CoherentDriver(r: InProcess) {
    && Stable(r.state)
    && (r.hasDriver <==> r.state != Finalized)
    && (r.state in {Inactive, Active} ==> r.configured)
  }

  lemma {:induction false} DriverDrain(r: InProcess, requests: seq<TransitionRequest>)
    requires CoherentDriver(r) && Path(r.state, requests)
    ensures var q := InProcessDrain(r, requests, true);
      CoherentDriver(q) && q.state == End(r.state, requests)
    decreases |requests|
  {
    if requests == [] {
    } else {
      var (q, _) := InProcessPerform(r, requests[0], true);
      var rest := requests[1..];
      forall i | 0 <= i < |rest| - 1 ensures rest[i].target == rest[i + 1].from {
        assert requests[i + 1].target == requests[i + 2].from;
      }
      assert rest != [] ==> requests[0].target == requests[1].from;
      DriverDrain(q, rest);
      assert rest == [] ==> End(r.state, requests) == requests[0].target;
    }
  }

  /** How far a device still has to climb: ticks to ACTIVE, once no recovery is due there. */
  function Climb(state: LifecycleState): nat {
    match state
    case Active => 0
    case Inactive => 1
    case Unconfigured => 2
    case _ => 3
  }

  /** Ticks an enabled device needs at most: a recovery at ACTIVE costs one tick and a new climb. */
  function Budget(setting: Setting, h: Plugged): nat {
    var due := setting.event.Some? && NeedsRecovery(setting.event.value) && setting.revision > h.handled;
    Climb(h.runtime.state) + if due then 4 else 0
  }

  lemma PluggedTick(setting: Setting, h: Plugged)
    requires CoherentDriver(h.runtime)
    ensures var t := PluggedTicked(setting, h);
      && CoherentDriver(t.runtime)
      && (!setting.enabled ==> t.runtime.state == Finalized)
      && (setting.enabled ==>
            && (Budget(setting, h) > 0 ==> Budget(setting, t) < Budget(setting, h))
            && (Budget(setting, h) == 0 ==> t == h))
  {
    var ctx := Context(setting, h.runtime.state);
    var requests := InProcessRequests(h.handled, ctx);
    RecoveryRequestsIsAPath(ctx.state, Finalized);
    if ctx.event.Some? {
      RecoveryRequestsIsAPath(ctx.state, ctx.event.value.target);
    }
    assert Path(ctx.state, requests);
    DriverDrain(h.runtime, requests);
  }

  /** In-process hook convergence, over the runtime's own edges: from any coherent stable state
      and any latest event, ACTIVE from the seventh drained tick on when enabled, FINALIZED from
      the first on when disabled. */
  lemma InProcessHookConverges(setting: Setting, h: Plugged, n: nat)
    requires CoherentDriver(h.runtime)
    requires n >= if setting.enabled then 7 else 1
    ensures var t := PluggedTicks(setting, h, n);
      && CoherentDriver(t.runtime)
      && t.runtime.state == if setting.enabled then Active else Finalized
  {
    PluggedBudget(setting, h, n);
    if !setting.enabled {
      PluggedBudget(setting, h, n - 1);
      PluggedTick(setting, PluggedTicks(setting, h, n - 1));
    }
  }

  lemma Rung(setting: Setting, h: Plugged)
    requires CoherentDriver(h.runtime) && setting.enabled && h.runtime.state != Active
    ensures var t := PluggedTicked(setting, h);
      CoherentDriver(t.runtime) && t.handled == h.handled && Climb(t.runtime.state) == Climb(h.runtime.state) - 1
  {
    DriverDrain(h.runtime, InProcessRequests(h.handled, Context(setting, h.runtime.state)));
  }

  lemma FallFromTheTop(setting: Setting, h: Plugged)
    requires CoherentDriver(h.runtime) && setting.enabled && h.runtime.state == Active
    requires RecoveryDue(h.handled, Context(setting, Active)) && setting.event.value.target == Finalized
    ensures var t := PluggedTicked(setting, h);
      CoherentDriver(t.runtime) && t.runtime.state == Finalized
  {
    RecoveryRequestsIsAPath(Active, Finalized);
    DriverDrain(h.runtime, RecoveryRequests(Active, Finalized));
  }

  /** Seven is needed: a finalized device with an unserved error event that asks for FINALIZED
      climbs to ACTIVE, is recovered down again, and climbs once more. */
  lemma InProcessBoundIsTight()
    ensures var setting := Setting(true, map[], Some(DeviceEvent(ErrorLevel, Finalized)), 1);
      var h := Plugged(0, InProcess(Finalized, false, false));
      CoherentDriver(h.runtime) && PluggedTicks(setting, h, 6).runtime.state != Active
  {
    var setting := Setting(true, map[], Some(DeviceEvent(ErrorLevel, Finalized)), 1);
    var h := Plugged(0, InProcess(Finalized, false, false));
    assert PluggedTicks(setting, h, 0) == h;
    for k := 0 to 3
      invariant var t := PluggedTicks(setting, h, k);
        CoherentDriver(t.runtime) && t.handled == 0 && Climb(t.runtime.state) == 3 - k
    {
      Rung(setting, PluggedTicks(setting, h, k));
    }
    FallFromTheTop(setting, PluggedTicks(setting, h, 3));
    assert PluggedTicks(setting, h, 4) == PluggedTicked(setting, PluggedTicks(setting, h, 3));
    for k := 4 to 6
      invariant var t := PluggedTicks(setting, h, k);
        CoherentDriver(t.runtime) && Climb(t.runtime.state) == 7 - k
    {
      Rung(setting, PluggedTicks(setting, h, k));
    }
  }

  lemma {:induction false} PluggedBudget(setting: Setting, h: Plugged, n: nat)
    requires CoherentDriver(h.runtime)
    ensures CoherentDriver(PluggedTicks(setting, h, n).runtime)
    ensures setting.enabled && n >= Budget(setting, h) ==> Budget(setting, PluggedTicks(setting, h, n)) == 0
    ensures setting.enabled ==> Budget(setting, PluggedTicks(setting, h, n)) + n <= Budget(setting, h)
                                || Budget(setting, PluggedTicks(setting, h, n)) == 0
  {
    if n == 0 {
    } else {
      PluggedBudget(setting, h, n - 1);
      PluggedTick(setting, PluggedTicks(setting, h, n - 1));
    }
  }
}
