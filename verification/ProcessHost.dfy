/** The process-hosted runtime, its child process and the events its exits raise, under the
    event-first hook: what every tick keeps, and exactly when the device recovers. */
module ProcessHost {
  import opened Lifecycle
  import opened Planners
  import opened Iteration
  import opened Hooks

  // ---------------------------------------------------------------------------
  // The runtime
  // ---------------------------------------------------------------------------

  /** Whether a child handle is held, the cached state, the parameters the child was started with, and what the
      device's event handler has kept: the latest event and the number of events so far. */
  datatype Process = Process(
    alive: bool, cached: LifecycleState, materialized: ParameterMap, event: Option<DeviceEvent>, revision: nat)

  /** What the operating system does during one edge: the child is found dead when reaped, the
      spawn works, the process group goes away when stopped. */
  datatype Environment = Environment(exited: bool, spawns: bool, stops: bool)

  const EXIT_EVENT := DeviceEvent(ErrorLevel, Finalized)

  function Notified(p: Process, event: DeviceEvent): Process {
    p.(event := Some(event), revision := p.revision + 1)
  }

  /** A dead child is noticed by `state()` and at the start of most edges; the cached state stays. */
  function Reaped(p: Process, exited: bool): Process {
    if p.alive && exited then Notified(p.(alive := false), EXIT_EVENT) else p
  }

  predicate Startable(sources: set<string>, parameters: ParameterMap, env: Environment) {
    sources <= parameters.Keys && env.spawns
  }

  function AfterStart(p: Process, sources: set<string>, parameters: ParameterMap, env: Environment)
    : (Process, TransitionResult)
  {
    if Startable(sources, parameters, env) then
      (p.(alive := true, cached := Unconfigured, materialized := parameters), Success)
    else (p, Error)
  }

  /** Stopping waits for the child itself, so it raises no exit event. */
  function AfterStop(p: Process, env: Environment): (Process, TransitionResult) {
    if p.alive && !env.stops then (p, Error) else (p.(alive := false, cached := Finalized), Success)
  }

  function AfterMaterialize(p: Process, sources: set<string>, parameters: ParameterMap, env: Environment)
    : (Process, TransitionResult)
  {
    var q := Reaped(p, env.exited);
    if q.alive then (q.(cached := Unconfigured), Success) else AfterStart(q, sources, parameters, env)
  }

  /** Configure restarts a child that was started with other parameters, and starts a missing one. */
  function AfterConfigure(p: Process, sources: set<string>, parameters: ParameterMap, env: Environment)
    : (Process, TransitionResult)
  {
    var q := Reaped(p, env.exited);
    var restart := q.alive && parameters != map[] && parameters != q.materialized;
    var (stopped, stopResult) := if restart then AfterStop(q, env) else (q, Success);
    if stopResult != Success then (stopped, stopResult)
    else
      var (started, startResult) := if stopped.alive then (stopped, Success)
                                    else AfterStart(stopped, sources, parameters, env);
      if startResult != Success then (started, startResult) else (started.(cached := Inactive), Success)
  }

  /** Activate and deactivate only move the cached state, and need a child held. */
  function AfterMove(p: Process, target: LifecycleState, env: Environment): (Process, TransitionResult) {
    var q := Reaped(p, env.exited);
    if q.alive then (q.(cached := target), Success) else (q, Error)
  }

  function AfterCleanup(p: Process, env: Environment): (Process, TransitionResult) {
    var (q, result) := AfterStop(p, env);
    if result == Success then (q.(cached := Unconfigured), Success) else (q, result)
  }

  class ProcessRuntime {
    const sources: set<string>
    var childAlive: bool
    var cachedState: LifecycleState
    var materializedParameters: ParameterMap
    var latestEvent: Option<DeviceEvent>
    var eventRevision: nat

    ghost function View(): Process
      reads this
    {
      Process(childAlive, cachedState, materializedParameters, latestEvent, eventRevision)
    }

    constructor (sources: set<string>)
      ensures this.sources == sources && View() == Process(false, Finalized, map[], None, 0)
    {
      this.sources := sources;
      childAlive, cachedState, materializedParameters := false, Finalized, map[];
      latestEvent, eventRevision := None, 0;
    }

    /** The device's event handler. */
    method HandleEvent(event: DeviceEvent)
      modifies this`latestEvent, this`eventRevision
      ensures View() == Notified(old(View()), event)
    {
      latestEvent, eventRevision := Some(event), eventRevision + 1;
    }

    method ReapChild(exited: bool)
      modifies this`childAlive, this`latestEvent, this`eventRevision
      ensures View() == Reaped(old(View()), exited)
    {
      if childAlive && exited {
        childAlive := false;
        HandleEvent(EXIT_EVENT);
      }
    }

    method State(exited: bool) returns (state: LifecycleState)
      modifies this`childAlive, this`latestEvent, this`eventRevision
      ensures View() == Reaped(old(View()), exited) && state == old(cachedState)
    {
      ReapChild(exited);
      state := cachedState;
    }

    method StartProcess(parameters: ParameterMap, env: Environment) returns (result: TransitionResult)
      modifies this
      ensures (View(), result) == AfterStart(old(View()), sources, parameters, env)
    {
      if !(sources <= parameters.Keys) || !env.spawns {
        return Error;
      }
      childAlive, materializedParameters, cachedState := true, parameters, Unconfigured;
      return Success;
    }

    method StopProcess(env: Environment) returns (result: TransitionResult)
      modifies this
      ensures (View(), result) == AfterStop(old(View()), env)
    {
      if !childAlive {
        cachedState := Finalized;
        return Success;
      }
      if !env.stops {
        return Error;
      }
      childAlive, cachedState := false, Finalized;
      return Success;
    }

    method MaterializeEdge(parameters: ParameterMap, env: Environment) returns (result: TransitionResult)
      modifies this
      ensures (View(), result) == AfterMaterialize(old(View()), sources, parameters, env)
    {
      ReapChild(env.exited);
      if childAlive {
        cachedState := Unconfigured;
        return Success;
      }
      result := StartProcess(parameters, env);
    }

    method ConfigureEdge(parameters: ParameterMap, env: Environment) returns (result: TransitionResult)
      modifies this
      ensures (View(), result) == AfterConfigure(old(View()), sources, parameters, env)
    {
      ReapChild(env.exited);
      if childAlive && parameters != map[] && parameters != materializedParameters {
        var stopped := StopProcess(env);
        if stopped != Success {
          return stopped;
        }
      }
      if !childAlive {
        var started := StartProcess(parameters, env);
        if started != Success {
          return started;
        }
      }
      cachedState := Inactive;
      return Success;
    }

    method MoveEdge(target: LifecycleState, env: Environment) returns (result: TransitionResult)
      modifies this
      ensures (View(), result) == AfterMove(old(View()), target, env)
    {
      ReapChild(env.exited);
      if !childAlive {
        return Error;
      }
      cachedState := target;
      return Success;
    }

    method CleanupEdge(env: Environment) returns (result: TransitionResult)
      modifies this
      ensures (View(), result) == AfterCleanup(old(View()), env)
    {
      result := StopProcess(env);
      if result == Success {
        cachedState := Unconfigured;
      }
    }

    /** `request_transition` of the runtime base class, over this runtime's edges. */
    method RequestTransition(request: TransitionRequest, env: Environment) returns (result: TransitionResult)
      modifies this
      ensures (View(), result) == Performed(old(View()), sources, request, env)
    {
      match Dispatch(request.from, request.target) {
        case Materialize => result := MaterializeEdge(request.parameters, env);
        case Configure => result := ConfigureEdge(request.parameters, env);
        case Activate => result := MoveEdge(Active, env);
        case Deactivate => result := MoveEdge(Inactive, env);
        case Cleanup => result := CleanupEdge(env);
        case Dematerialize => result := StopProcess(env);
        case Unsupported => result := Failure;
      }
    }
  }

  function Performed(p: Process, sources: set<string>, request: TransitionRequest, env: Environment)
    : (Process, TransitionResult)
  {
    match Dispatch(request.from, request.target)
    case Materialize => AfterMaterialize(p, sources, request.parameters, env)
    case Configure => AfterConfigure(p, sources, request.parameters, env)
    case Activate => AfterMove(p, Active, env)
    case Deactivate => AfterMove(p, Inactive, env)
    case Cleanup => AfterCleanup(p, env)
    case Dematerialize => AfterStop(p, env)
    case Unsupported => (p, Failure)
  }

  // ---------------------------------------------------------------------------
  // Ticks of the hook, each drained before the next
  // ---------------------------------------------------------------------------

  /** One request: exits noticed by the state query before it, during the edge, and by the state
      query after it. */
  datatype EdgeWeather = EdgeWeather(before: bool, edge: Environment, after: bool)

  /** One tick: an event from elsewhere that arrives first, an exit noticed by the hook's own state
      query, and the weather of every request that is drained. */
  datatype Weather = Weather(arriving: Option<DeviceEvent>, seen: bool, edges: nat -> EdgeWeather)

  const CALM_EDGES := EdgeWeather(false, Environment(false, true, true), false)

  function Calm(): Weather {
    Weather(None, false, _ => CALM_EDGES)
  }

  /** The worker drains one batch: state query, edge, state query, stop at the first failure. */
  function Drained(
      p: Process, sources: set<string>, requests: seq<TransitionRequest>, edges: nat -> EdgeWeather, at: nat): Process
    decreases |requests|
  {
    if requests == [] then p
    else
      var q := Reaped(p, edges(at).before);
      if q.cached != requests[0].from then q
      else
        var (r, result) := Performed(q, sources, requests[0], edges(at).edge);
        var t := Reaped(r, edges(at).after);
        if result != Success || t.cached != requests[0].target then t
        else Drained(t, sources, requests[1..], edges, at + 1)
  }

  /** What no tick changes. */
  datatype Config = Config(enabled: bool, parameters: ParameterMap, sources: set<string>) {
    predicate Supplied() { sources <= parameters.Keys }
  }

  datatype Hosted = Hosted(handled: Option<nat>, process: Process)

  function ContextOf(c: Config, p: Process): HookContext {
    HookContext(p.cached, c.enabled, c.parameters, p.event, p.revision)
  }

  /** The process as the hook sees it. */
  function Noticed(p: Process, w: Weather): Process {
    Reaped(if w.arriving.Some? then Notified(p, w.arriving.value) else p, w.seen)
  }

  function Ticked(c: Config, h: Hosted, w: Weather): Hosted {
    var p := Noticed(h.process, w);
    Hosted(ProcessHandled(h.handled, ContextOf(c, p)),
           Drained(p, c.sources, ProcessRequests(h.handled, ContextOf(c, p)), w.edges, 0))
  }

  function CalmTicker(c: Config): Hosted -> Hosted {
    h => Ticked(c, h, Calm())
  }

  /** State after `n` calm ticks. */
  function Ticks(c: Config, h: Hosted, n: nat): Hosted {
    Iterate(CalmTicker(c), h, n)
  }

  /** State after ticks in any weather. */
  function After(c: Config, h: Hosted, weather: seq<Weather>): Hosted {
    if weather == [] then h
    else Ticked(c, After(c, h, weather[..|weather| - 1]), weather[|weather| - 1])
  }

  predicate Served(h: Hosted) {
    h.process.event.None? || h.process.revision == 0 || Handled(h.handled, h.process.revision)
  }

  predicate Pending(c: Config, h: Hosted) {
    EventPathPending(h.handled, ContextOf(c, h.process))
  }

  /** What every reachable process satisfies. */
  predicate Plausible(p: Process) {
    Stable(p.cached) && (p.cached == Finalized ==> !p.alive)
  }

  /** The cached state tells the truth about the child. */
  predicate Coherent(p: Process) {
    Plausible(p) && (p.cached in {Inactive, Active} ==> p.alive)
  }

  predicate SameEvents(p: Process, q: Process) {
    p.event == q.event && p.revision == q.revision
  }

  /** The next state up the chain when enabled, FINALIZED when disabled. */
  function Advanced(enabled: bool, state: LifecycleState): LifecycleState {
    if !enabled then Finalized
    else match state
      case Finalized => Unconfigured
      case Unconfigured => Inactive
      case _ => Active
  }

  // ---------------------------------------------------------------------------
  // Calm ticks from a coherent process
  // ---------------------------------------------------------------------------

  /** One edge in calm weather from a coherent state. */
  lemma CalmEdge(p: Process, sources: set<string>, request: TransitionRequest)
    requires Coherent(p) && p.cached == request.from && Dispatch(request.from, request.target) != Unsupported
    requires Dispatch(request.from, request.target) in {Materialize, Configure} ==> sources <= request.parameters.Keys
    ensures var (q, result) := Performed(p, sources, request, CALM_EDGES.edge);
      result == Success && q.cached == request.target && Coherent(q) && SameEvents(p, q)
  {
  }

  predicate AllSupplied(sources: set<string>, requests: seq<TransitionRequest>) {
    forall i :: 0 <= i < |requests| && Dispatch(requests[i].from, requests[i].target) in {Materialize, Configure} ==>
      sources <= requests[i].parameters.Keys
  }

  /** A calm drain of a path reaches its end. */
  lemma {:induction false} CalmDrain(p: Process, sources: set<string>, requests: seq<TransitionRequest>, at: nat)
    requires Coherent(p) && Path(p.cached, requests) && AllSupplied(sources, requests)
    ensures var q := Drained(p, sources, requests, Calm().edges, at);
      Coherent(q) && q.cached == End(p.cached, requests) && SameEvents(p, q)
    decreases |requests|
  {
    if requests == [] {
    } else {
      CalmEdge(p, sources, requests[0]);
      var (q, _) := Performed(p, sources, requests[0], CALM_EDGES.edge);
      var rest := requests[1..];
      forall i | 0 <= i < |rest| - 1 ensures rest[i].target == rest[i + 1].from {
        assert requests[i + 1].target == requests[i + 2].from;
      }
      assert rest != [] ==> requests[0].target == requests[1].from;
      CalmDrain(q, sources, rest, at + 1);
      assert rest == [] ==> End(p.cached, requests) == requests[0].target;
    }
  }

  /** A calm tick serves a pending event path, or else advances and leaves the event served. */
  lemma CalmTick(c: Config, h: Hosted)
    requires Coherent(h.process) && c.Supplied()
    ensures var t := Ticked(c, h, Calm());
      && Coherent(t.process) && SameEvents(h.process, t.process)
      && (if Pending(c, h) then
            t.handled == h.handled && t.process.cached == h.process.event.value.target
          else
            Served(t) && t.process.cached == Advanced(c.enabled, h.process.cached))
      && (Served(h) ==> t.handled == h.handled)
  {
    var ctx := ContextOf(c, h.process);
    var requests := ProcessRequests(h.handled, ctx);
    assert Noticed(h.process, Calm()) == h.process;
    if Pending(c, h) {
      TransitionsToIsAPath(ctx.state, ctx.event.value.target, ctx.parameters, map[]);
    } else {
      TransitionsToIsAPath(ctx.state, Advanced(ctx.enabled, ctx.state), ctx.parameters, map[]);
      assert requests == TransitionsTo(ctx.state, Advanced(ctx.enabled, ctx.state), ctx.parameters, map[]);
    }
    CalmDrain(h.process, c.sources, requests, 0);
  }

  lemma TicksShift(c: Config, h: Hosted, n: nat)
    ensures Ticks(c, h, n + 1) == Ticks(c, Ticked(c, h, Calm()), n)
  {
    IterateCommutes(CalmTicker(c), h, n);
  }

  /** Served and coherent stays so, one step further with every calm tick. */
  lemma {:induction false} ServedClimbs(c: Config, h: Hosted, n: nat)
    requires Coherent(h.process) && Served(h) && c.Supplied()
    ensures var t := Ticks(c, h, n);
      && Coherent(t.process) && Served(t)
      && t.process.cached == Iterate(state => Advanced(c.enabled, state), h.process.cached, n)
  {
    if n == 0 {
    } else {
      ServedClimbs(c, h, n - 1);
      CalmTick(c, Ticks(c, h, n - 1));
    }
  }

  lemma {:induction false} ClimbEnds(enabled: bool, state: LifecycleState, n: nat)
    requires Stable(state) && n >= (if !enabled then 1 else if state == Finalized then 3 else 2)
    ensures Iterate(s => Advanced(enabled, s), state, n) == if enabled then Active else Finalized
    decreases n
  {
    var up := s => Advanced(enabled, s);
    if n > 3 {
      ClimbEnds(enabled, state, n - 1);
    } else {
      assert Iterate(up, state, 1) == up(Iterate(up, state, 0));
      assert Iterate(up, state, 2) == up(Iterate(up, state, 1));
      assert n == 3 ==> Iterate(up, state, 3) == up(Iterate(up, state, 2));
    }
  }

  /** Where the device is meant to be. */
  predicate AtGoal(c: Config, p: Process) {
    p.cached == (if c.enabled then Active else Finalized) && p.alive == c.enabled
  }

  /** From a coherent, served device the goal is reached in two ticks, three from FINALIZED. */
  lemma ServedReachesGoal(c: Config, h: Hosted, n: nat)
    requires Coherent(h.process) && Served(h) && c.Supplied()
    requires n >= (if !c.enabled then 1 else if h.process.cached == Finalized then 3 else 2)
          || (n == 0 && !c.enabled && h.process.cached == Finalized)
    ensures AtGoal(c, Ticks(c, h, n).process)
  {
    ServedClimbs(c, h, n);
    if n > 0 {
      ClimbEnds(c.enabled, h.process.cached, n);
    }
  }

  /** Two calm ticks settle a coherent device: no path is pending any more at the second. */
  lemma SecondTickServes(c: Config, h: Hosted)
    requires Coherent(h.process) && c.Supplied()
    ensures var one := Ticked(c, h, Calm());
      var two := Ticked(c, one, Calm());
      && Coherent(one.process) && !Pending(c, one)
      && Coherent(two.process) && Served(two)
      && two.process.cached == Advanced(c.enabled, one.process.cached)
  {
    CalmTick(c, h);
    CalmTick(c, Ticked(c, h, Calm()));
  }

  /** Once a coherent device has no path pending, the goal is three ticks away, one when disabled. */
  lemma SettledReachesGoal(c: Config, one: Hosted, n: nat)
    requires Coherent(one.process) && !Pending(c, one) && c.Supplied() && n >= if c.enabled then 3 else 1
    ensures AtGoal(c, Ticks(c, one, n).process)
  {
    CalmTick(c, one);
    TicksShift(c, one, n - 1);
    ServedReachesGoal(c, Ticked(c, one, Calm()), n - 1);
  }

  /** Hook convergence over the real child-process machine: from any coherent stable state and any
      latest event, with no further events, the device is ACTIVE with a child held from the fourth
      drained tick on when enabled, and FINALIZED with no child from the second on when disabled. */
  lemma ProcessHookConverges(c: Config, h: Hosted, n: nat)
    requires Coherent(h.process) && c.Supplied() && n >= if c.enabled then 4 else 2
    ensures AtGoal(c, Ticks(c, h, n).process)
  {
    SecondTickServes(c, h);
    TicksShift(c, h, n - 1);
    SettledReachesGoal(c, Ticked(c, h, Calm()), n - 1);
  }

  /** The bounds cannot be lowered: an ACTIVE enabled device with an unserved finalize event needs
      four ticks, a finalized disabled device with an event for UNCONFIGURED needs two. */
  lemma ProcessBoundsAreTight()
    ensures var h := Hosted(None, Process(true, Active, map[], Some(EXIT_EVENT), 1));
      !AtGoal(Config(true, map[], {}), Ticks(Config(true, map[], {}), h, 3).process)
    ensures var g := Hosted(None, Process(false, Finalized, map[], Some(DeviceEvent(ErrorLevel, Unconfigured)), 1));
      !AtGoal(Config(false, map[], {}), Ticks(Config(false, map[], {}), g, 1).process)
  {
    var up := Config(true, map[], {});
    var h := Hosted(None, Process(true, Active, map[], Some(EXIT_EVENT), 1));
    assert TransitionsTo(Active, Finalized, map[], map[]) != [] && Pending(up, h);
    CalmTick(up, h);
    SecondTickServes(up, h);
    assert Ticks(up, h, 1) == Ticked(up, Ticks(up, h, 0), Calm());
    assert Ticks(up, h, 2) == Ticked(up, Ticks(up, h, 1), Calm());
    CalmTick(up, Ticks(up, h, 2));
    var down := Config(false, map[], {});
    var g := Hosted(None, Process(false, Finalized, map[], Some(DeviceEvent(ErrorLevel, Unconfigured)), 1));
    assert TransitionsTo(Finalized, Unconfigured, map[], map[]) != [] && Pending(down, g);
    CalmTick(down, g);
    assert Ticks(down, g, 1) == Ticked(down, Ticks(down, g, 0), Calm());
  }

  // ---------------------------------------------------------------------------
  // A dead child behind the cached state
  // ---------------------------------------------------------------------------

  /** What the unserved event asks for. */
  function Wanted(h: Hosted): LifecycleState
    requires !Served(h)
  {
    h.process.event.value.target
  }

  /** Whether calm ticks bring the device to its goal. A child that died behind INACTIVE or ACTIVE is
      brought back only by an unserved event whose path begins with stopping or cleaning up; and a
      disabled device finalizes it unless an unserved event asks for an edge that needs the child. */
  predicate Recoverable(c: Config, h: Hosted) {
    || Coherent(h.process)
    || if c.enabled then
         !Served(h) && (Wanted(h) == Finalized || (h.process.cached == Inactive && Wanted(h) == Unconfigured))
       else
         Served(h) || Wanted(h) !in (if h.process.cached == Active then {Inactive, Unconfigured} else {Active})
  }

  /** Without that, a calm tick changes nothing. */
  lemma StuckTick(c: Config, h: Hosted)
    requires Plausible(h.process) && !Recoverable(c, h)
    ensures var t := Ticked(c, h, Calm());
      t.process == h.process && !Recoverable(c, t)
  {
    var ctx := ContextOf(c, h.process);
    assert Noticed(h.process, Calm()) == h.process;
    if Pending(c, h) {
      var path := TransitionsTo(ctx.state, ctx.event.value.target, ctx.parameters, map[]);
      assert path[0] == TransitionRequest(Active, Inactive, map[])
          || path[0] == TransitionRequest(Inactive, Active, map[]);
    }
  }

  lemma {:induction false} StuckForever(c: Config, h: Hosted, n: nat)
    requires Plausible(h.process) && !Recoverable(c, h)
    ensures Ticks(c, h, n).process == h.process && !Recoverable(c, Ticks(c, h, n))
  {
    if n == 0 {
    } else {
      StuckForever(c, h, n - 1);
      StuckTick(c, Ticks(c, h, n - 1));
    }
  }

  /** With it, one calm tick makes the process coherent and leaves no path pending. */
  lemma RescueTick(c: Config, h: Hosted)
    requires Plausible(h.process) && !Coherent(h.process) && Recoverable(c, h)
    ensures var t := Ticked(c, h, Calm());
      Coherent(t.process) && !Pending(c, t)
  {
    var ctx := ContextOf(c, h.process);
    assert Noticed(h.process, Calm()) == h.process;
    var requests := ProcessRequests(h.handled, ctx);
    assert requests == [TransitionRequest(ctx.state, Finalized, map[])]
        || requests == [TransitionRequest(Inactive, Unconfigured, map[])];
    PlanStep(h.process, c.sources, requests, 0);
    var q := Performed(h.process, c.sources, requests[0], CALM_EDGES.edge).0;
    assert requests[1..] == [] && Drained(q, c.sources, [], Calm().edges, 1) == q;
  }

  lemma RescuedReachesGoal(c: Config, h: Hosted, n: nat)
    requires Plausible(h.process) && !Coherent(h.process) && Recoverable(c, h) && c.Supplied()
    requires n >= if c.enabled then 4 else 2
    ensures AtGoal(c, Ticks(c, h, n).process)
  {
    RescueTick(c, h);
    TicksShift(c, h, n - 1);
    SettledReachesGoal(c, Ticked(c, h, Calm()), n - 1);
  }

  /** Recovery, exactly. From every plausible process, whatever its cached state, its child and its
      latest event, enabled or disabled: calm ticks reach the goal if and only if the process is
      recoverable, and otherwise never change it. */
  lemma RecoversIff(c: Config, h: Hosted, n: nat)
    requires Plausible(h.process) && c.Supplied() && n >= if c.enabled then 4 else 2
    ensures AtGoal(c, Ticks(c, h, n).process) <==> Recoverable(c, h)
    ensures !Recoverable(c, h) ==> Ticks(c, h, n).process == h.process
  {
    if Coherent(h.process) {
      ProcessHookConverges(c, h, n);
    } else if Recoverable(c, h) {
      RescuedReachesGoal(c, h, n);
    } else {
      StuckForever(c, h, n);
    }
  }

  // ---------------------------------------------------------------------------
  // Any weather
  // ---------------------------------------------------------------------------

  lemma EdgePlausible(p: Process, sources: set<string>, request: TransitionRequest, env: Environment)
    requires Plausible(p)
    ensures Plausible(Performed(p, sources, request, env).0)
  {
  }

  lemma {:induction false} DrainPlausible(
      p: Process, sources: set<string>, requests: seq<TransitionRequest>, edges: nat -> EdgeWeather, at: nat)
    requires Plausible(p)
    ensures Plausible(Drained(p, sources, requests, edges, at))
    decreases |requests|
  {
    if requests == [] {
    } else {
      var q := Reaped(p, edges(at).before);
      EdgePlausible(q, sources, requests[0], edges(at).edge);
      var r := Performed(q, sources, requests[0], edges(at).edge).0;
      DrainPlausible(Reaped(r, edges(at).after), sources, requests[1..], edges, at + 1);
    }
  }

  lemma {:induction false} AlwaysPlausible(c: Config, h: Hosted, weather: seq<Weather>)
    requires Plausible(h.process)
    ensures Plausible(After(c, h, weather).process)
  {
    if weather == [] {
    } else {
      var last := |weather| - 1;
      var before := After(c, h, weather[..last]);
      AlwaysPlausible(c, h, weather[..last]);
      var p := Noticed(before.process, weather[last]);
      DrainPlausible(p, c.sources, ProcessRequests(before.handled, ContextOf(c, p)), weather[last].edges, 0);
    }
  }

  /** Recovery after anything: exits, failing edges and events from elsewhere, at any moment, and
      then calm. The goal is reached if and only if what they left behind is recoverable. */
  lemma RecoversAfterAnything(c: Config, h: Hosted, weather: seq<Weather>, n: nat)
    requires Plausible(h.process) && c.Supplied() && n >= if c.enabled then 4 else 2
    ensures AtGoal(c, Ticks(c, After(c, h, weather), n).process) <==> Recoverable(c, After(c, h, weather))
  {
    AlwaysPlausible(c, h, weather);
    RecoversIff(c, After(c, h, weather), n);
  }

  // ---------------------------------------------------------------------------
  // Exits alone never strand the device
  // ---------------------------------------------------------------------------

  predicate NotAhead(handled: Option<nat>, revision: nat) {
    handled.Some? ==> handled.value <= revision
  }

  /** A dead child behind the cached state has its exit as the latest event, unserved. */
  predicate Watched(handled: Option<nat>, p: Process) {
    && Plausible(p)
    && NotAhead(handled, p.revision)
    && (!Coherent(p) ==> p.event == Some(EXIT_EVENT) && p.revision != 0 && !Handled(handled, p.revision))
  }

  lemma ReapWatched(handled: Option<nat>, p: Process, exited: bool)
    requires Watched(handled, p)
    ensures Watched(handled, Reaped(p, exited))
  {
  }

  lemma EdgeWatched(
      handled: Option<nat>, p: Process, sources: set<string>, request: TransitionRequest, env: Environment)
    requires Watched(handled, p)
    ensures Watched(handled, Performed(p, sources, request, env).0)
  {
    ReapWatched(handled, p, env.exited);
  }

  lemma {:induction false} DrainWatched(
      handled: Option<nat>, p: Process, sources: set<string>, requests: seq<TransitionRequest>,
      edges: nat -> EdgeWeather, at: nat)
    requires Watched(handled, p)
    ensures Watched(handled, Drained(p, sources, requests, edges, at))
    decreases |requests|
  {
    if requests == [] {
    } else {
      var q := Reaped(p, edges(at).before);
      ReapWatched(handled, p, edges(at).before);
      EdgeWatched(handled, q, sources, requests[0], edges(at).edge);
      var r := Performed(q, sources, requests[0], edges(at).edge).0;
      ReapWatched(handled, r, edges(at).after);
      DrainWatched(handled, Reaped(r, edges(at).after), sources, requests[1..], edges, at + 1);
    }
  }

  /** The hook never marks an exit handled while the dead child is behind the cached state. */
  lemma HookWatched(c: Config, handled: Option<nat>, p: Process)
    requires Watched(handled, p)
    ensures Watched(ProcessHandled(handled, ContextOf(c, p)), p)
  {
    if !Coherent(p) {
      TransitionsToIsAPath(p.cached, Finalized, c.parameters, map[]);
    }
  }

  lemma {:induction false} AlwaysWatched(c: Config, h: Hosted, weather: seq<Weather>)
    requires Watched(h.handled, h.process)
    requires forall k :: 0 <= k < |weather| ==> weather[k].arriving.None?
    ensures Watched(After(c, h, weather).handled, After(c, h, weather).process)
  {
    if weather == [] {
    } else {
      var last := |weather| - 1;
      var before := After(c, h, weather[..last]);
      AlwaysWatched(c, h, weather[..last]);
      ReapWatched(before.handled, before.process, weather[last].seen);
      var p := Noticed(before.process, weather[last]);
      HookWatched(c, before.handled, p);
      DrainWatched(ProcessHandled(before.handled, ContextOf(c, p)), p, c.sources,
                   ProcessRequests(before.handled, ContextOf(c, p)), weather[last].edges, 0);
    }
  }

  /** Exits alone never strand the device: after any history of exits, failed spawns and failed
      stops, noticed at any point of any tick, calm ticks reach the goal, as long as no other event
      displaces an exit event. */
  lemma RecoversFromExits(c: Config, h: Hosted, weather: seq<Weather>, n: nat)
    requires Watched(h.handled, h.process) && c.Supplied() && n >= if c.enabled then 4 else 2
    requires forall k :: 0 <= k < |weather| ==> weather[k].arriving.None?
    ensures AtGoal(c, Ticks(c, After(c, h, weather), n).process)
  {
    AlwaysWatched(c, h, weather);
    RecoversIff(c, After(c, h, weather), n);
  }

  // ---------------------------------------------------------------------------
  // When an event counts as handled
  // ---------------------------------------------------------------------------

  /** The hook finds the target reached, or no path to it. */
  predicate Settles(ctx: HookContext) {
    && ctx.event.Some?
    && (ctx.state == ctx.event.value.target
        || TransitionsTo(ctx.state, ctx.event.value.target, ctx.parameters, map[]) == [])
  }

  /** What the hook sees at tick `k`. */
  function Seen(c: Config, h: Hosted, weather: seq<Weather>, k: nat): HookContext
    requires k < |weather|
  {
    ContextOf(c, Noticed(After(c, h, weather[..k]).process, weather[k]))
  }

  ghost predicate HasSettled(c: Config, h: Hosted, weather: seq<Weather>, revision: nat) {
    exists k :: 0 <= k < |weather| && Seen(c, h, weather, k).revision >= revision && Settles(Seen(c, h, weather, k))
  }

  lemma HasSettledGrows(c: Config, h: Hosted, weather: seq<Weather>, revision: nat)
    requires weather != []
    ensures var last := |weather| - 1;
      var ctx := Seen(c, h, weather, last);
      HasSettled(c, h, weather, revision) <==>
        HasSettled(c, h, weather[..last], revision) || (ctx.revision >= revision && Settles(ctx))
  {
    var last := |weather| - 1;
    var front := weather[..last];
    forall k | 0 <= k < last ensures Seen(c, h, front, k) == Seen(c, h, weather, k) {
      assert front[..k] == weather[..k];
    }
    if HasSettled(c, h, weather, revision) {
      var k :| 0 <= k < |weather| && Seen(c, h, weather, k).revision >= revision && Settles(Seen(c, h, weather, k));
      assert k == last || Seen(c, h, front, k) == Seen(c, h, weather, k);
    }
    if HasSettled(c, h, front, revision) {
      var k :| 0 <= k < |front| && Seen(c, h, front, k).revision >= revision && Settles(Seen(c, h, front, k));
      assert Seen(c, h, weather, k) == Seen(c, h, front, k);
    }
  }

  /** One look of the hook. */
  lemma HandledGrows(handled: Option<nat>, ctx: HookContext, revision: nat)
    requires revision > 0
    ensures Handled(ProcessHandled(handled, ctx), revision) <==>
      Handled(handled, revision) || (ctx.revision >= revision && Settles(ctx))
  {
  }

  /** Whatever exits, fails or arrives, the hook never gives up on an event early: an event counts as
      handled if and only if, at some tick since, the hook saw it or a later event with its target
      reached or without a path to it. */
  lemma {:induction false} HandledOnlyWhenSettled(c: Config, h: Hosted, weather: seq<Weather>, revision: nat)
    requires revision > 0 && !Handled(h.handled, revision)
    ensures Handled(After(c, h, weather).handled, revision) <==> HasSettled(c, h, weather, revision)
  {
    if weather == [] {
    } else {
      var last := |weather| - 1;
      HandledOnlyWhenSettled(c, h, weather[..last], revision);
      HasSettledGrows(c, h, weather, revision);
      HandledGrows(After(c, h, weather[..last]).handled, Seen(c, h, weather, last), revision);
    }
  }

  // ---------------------------------------------------------------------------
  // The standard plan on this runtime
  // ---------------------------------------------------------------------------

  /** One calm edge of a longer plan. */
  lemma PlanStep(p: Process, sources: set<string>, requests: seq<TransitionRequest>, at: nat)
    requires requests != [] && p.cached == requests[0].from
    ensures var (q, result) := Performed(p, sources, requests[0], CALM_EDGES.edge);
      Drained(p, sources, requests, Calm().edges, at)
        == if result == Success && q.cached == requests[0].target
           then Drained(q, sources, requests[1..], Calm().edges, at + 1) else q
  {
  }

  /** The last edges of every standard plan: configure, and activate if the device was active. */
  lemma ConfigureStep(p: Process, sources: set<string>, full: ParameterMap)
    requires Coherent(p) && p.cached == Unconfigured && sources <= full.Keys
    ensures var (q, result) := AfterConfigure(p, sources, full, CALM_EDGES.edge);
      && result == Success && q.cached == Inactive && q.alive
      && (q.materialized == full <==> !(p.alive && full == map[] && p.materialized != map[]))
  {
  }

  predicate Applied(p: Process, rest: LifecycleState, full: ParameterMap) {
    p.alive && p.cached == rest && p.materialized == full
  }

  /** The child that the plan would keep although it was started with something else. */
  predicate KeepsOldChild(p: Process, full: ParameterMap) {
    p.cached == Unconfigured && p.alive && full == map[] && p.materialized != map[]
  }

  lemma PlanFromFinalized(p: Process, sources: set<string>, full: ParameterMap)
    requires Coherent(p) && p.cached == Finalized && sources <= full.Keys
    ensures var q := Drained(p, sources, StandardParameterTransitions(p.cached, full), Calm().edges, 0);
      if sources == {} then Applied(q, Inactive, full) else q == p
  {
    var plan := StandardParameterTransitions(p.cached, full);
    PlanStep(p, sources, plan, 0);
    if sources == {} {
      var q := Performed(p, sources, plan[0], CALM_EDGES.edge).0;
      PlanStep(q, sources, plan[1..], 1);
      ConfigureStep(q, sources, full);
    }
  }

  lemma PlanFromUnconfigured(
      p: Process, sources: set<string>, full: ParameterMap, plan: seq<TransitionRequest>, at: nat)
    requires Coherent(p) && p.cached == Unconfigured && sources <= full.Keys
    requires plan != [] && plan[0] == TransitionRequest(Unconfigured, Inactive, full)
    requires plan[1..] == [] || plan[1..] == [TransitionRequest(Inactive, Active, map[])]
    ensures var q := Drained(p, sources, plan, Calm().edges, at);
      Applied(q, if plan[1..] == [] then Inactive else Active, full) <==> !KeepsOldChild(p, full)
  {
    ConfigureStep(p, sources, full);
    PlanStep(p, sources, plan, at);
    var q := AfterConfigure(p, sources, full, CALM_EDGES.edge).0;
    if plan[1..] != [] {
      PlanStep(q, sources, plan[1..], at + 1);
    }
  }

  lemma PlanFromAbove(p: Process, sources: set<string>, full: ParameterMap)
    requires Coherent(p) && p.cached in {Inactive, Active} && sources <= full.Keys
    ensures Applied(Drained(p, sources, StandardParameterTransitions(p.cached, full), Calm().edges, 0), p.cached, full)
  {
    var plan := StandardParameterTransitions(p.cached, full);
    PlanStep(p, sources, plan, 0);
    var q := Performed(p, sources, plan[0], CALM_EDGES.edge).0;
    if p.cached == Active {
      PlanStep(q, sources, plan[1..], 1);
      var r := Performed(q, sources, plan[1], CALM_EDGES.edge).0;
      assert plan[1..][1..] == plan[2..] && plan[2..][1..] == plan[3..];
      PlanFromUnconfigured(r, sources, full, plan[2..], 2);
    } else {
      PlanFromUnconfigured(q, sources, full, plan[1..], 1);
    }
  }

  /** The standard plan on a child process, exactly: it leaves the device at rest with a child that
      runs on the full map, if and only if it does not start from FINALIZED with parameters mapped
      from the device (its materialize edge carries an empty map), nor keeps an idle child when the
      full map is empty. From FINALIZED with mapped parameters it does nothing at all. */
  lemma StandardPlanAppliesIff(p: Process, sources: set<string>, full: ParameterMap)
    requires Coherent(p) && sources <= full.Keys
    ensures var q := Drained(p, sources, StandardParameterTransitions(p.cached, full), Calm().edges, 0);
      var starts := p.cached == Finalized ==> sources == {};
      && (Applied(q, Rest(p.cached), full) <==> starts && !KeepsOldChild(p, full))
      && (p.cached == Finalized && sources != {} ==> q == p)
  {
    match p.cached {
      case Finalized => PlanFromFinalized(p, sources, full);
      case Unconfigured =>
        var plan := StandardParameterTransitions(p.cached, full);
        assert plan == [TransitionRequest(Unconfigured, Inactive, full)];
        PlanFromUnconfigured(p, sources, full, plan, 0);
      case _ => PlanFromAbove(p, sources, full);
    }
  }
}
