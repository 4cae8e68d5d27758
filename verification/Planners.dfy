/** The lifecycle path planners of the runtimes, and the executing side of a path. */
module Planners {
  import opened Lifecycle

  /** The shared planner of the process-hosted runtimes. */
  function TransitionsTo(
      from: LifecycleState, target: LifecycleState, parameters: ParameterMap, cleanupParameters: ParameterMap)
    : seq<TransitionRequest>
  {
    if from == target then []
    else if from == Finalized && target == Unconfigured then [TransitionRequest(from, target, parameters)]
    else if target == Finalized && from in {Unconfigured, Inactive, Active} then
      [TransitionRequest(from, target, map[])]
    else if from == Unconfigured && target == Inactive then [TransitionRequest(from, target, parameters)]
    else if from == Unconfigured && target == Active then
      [TransitionRequest(from, Inactive, parameters), TransitionRequest(Inactive, target, map[])]
    else if from == Inactive && target == Unconfigured then [TransitionRequest(from, target, cleanupParameters)]
    else if from == Inactive && target == Active then [TransitionRequest(from, target, map[])]
    else if from == Active && target == Inactive then [TransitionRequest(from, target, map[])]
    else if from == Active && target == Unconfigured then
      [TransitionRequest(from, Inactive, map[]), TransitionRequest(Inactive, target, cleanupParameters)]
    else []
  }

  /** The local copy of the lifecycle adapter: it cannot materialise a finalized device. */
  function AdapterTransitionsTo(from: LifecycleState, target: LifecycleState, parameters: ParameterMap)
    : seq<TransitionRequest>
  {
    if from == target then []
    else if target == Finalized && from in {Unconfigured, Inactive, Active} then
      [TransitionRequest(from, target, map[])]
    else if from == Unconfigured && target == Inactive then [TransitionRequest(from, target, parameters)]
    else if from == Unconfigured && target == Active then
      [TransitionRequest(from, Inactive, parameters), TransitionRequest(Inactive, target, map[])]
    else if from == Inactive && target in {Unconfigured, Active} then [TransitionRequest(from, target, map[])]
    else if from == Active && target == Inactive then [TransitionRequest(from, target, map[])]
    else if from == Active && target == Unconfigured then
      [TransitionRequest(from, Inactive, map[]), TransitionRequest(Inactive, target, map[])]
    else []
  }

  /** The planner of the in-process runtimes: downwards only, one edge at a time. */
  function RecoveryRequests(from: LifecycleState, target: LifecycleState): seq<TransitionRequest> {
    var deactivate := TransitionRequest(Active, Inactive, map[]);
    var cleanup := TransitionRequest(Inactive, Unconfigured, map[]);
    var finalize := TransitionRequest(Unconfigured, Finalized, map[]);
    if target == Finalized && from == Active then [deactivate, cleanup, finalize]
    else if target == Finalized && from == Inactive then [cleanup, finalize]
    else if target == Finalized && from == Unconfigured then [finalize]
    else if from == Active && target == Inactive then [deactivate]
    else if from == Active && target == Unconfigured then [deactivate, cleanup]
    else if from == Inactive && target == Unconfigured then [cleanup]
    else []
  }

  /** Height of a stable state in the lifecycle chain. */
  function Height(state: LifecycleState): int {
    match state
    case Finalized => 0
    case Unconfigured => 1
    case Inactive => 2
    case Active => 3
    case _ => -1
  }

  /** A planned path starts at the source, is adjacent, uses supported edges only and ends at the
      target; and it exists exactly where the planner claims a route. */
  lemma TransitionsToIsAPath(
      from: LifecycleState, target: LifecycleState, parameters: ParameterMap, cleanupParameters: ParameterMap)
    ensures var path := TransitionsTo(from, target, parameters, cleanupParameters);
      && Path(from, path)
      && (path != [] ==> End(from, path) == target)
      && (path != [] <==> Stable(from) && Stable(target) && from != target
                          && (from == Finalized ==> target == Unconfigured))
  {
    var path := TransitionsTo(from, target, parameters, cleanupParameters);
    assert |path| == 2 ==> path[0].target == path[1].from;
  }

  lemma RecoveryRequestsIsAPath(from: LifecycleState, target: LifecycleState)
    ensures var path := RecoveryRequests(from, target);
      && Path(from, path)
      && (path != [] ==> End(from, path) == target)
      && (path != [] <==> Stable(from) && Stable(target) && Height(target) < Height(from))
  {
    var path := RecoveryRequests(from, target);
    assert |path| > 1 ==> path[0].target == path[1].from;
    assert |path| > 2 ==> path[1].target == path[2].from;
  }

  /** The adapter's copy differs from the shared planner at one pair of states and nowhere else. */
  lemma AdapterPlannerDiffersOnce(from: LifecycleState, target: LifecycleState, parameters: ParameterMap)
    ensures AdapterTransitionsTo(from, target, parameters) == TransitionsTo(from, target, parameters, map[])
            <==> !(from == Finalized && target == Unconfigured)
  {
  }

  /** Every edge of every planned path is one the ROS lifecycle can name (its `transition_id`). */
  predicate HasTransitionId(from: LifecycleState, target: LifecycleState) {
    || (from == Unconfigured && target == Inactive)
    || (from == Inactive && target == Unconfigured)
    || (from == Inactive && target == Active)
    || (from == Active && target == Inactive)
    || (target == Finalized && from in {Unconfigured, Inactive, Active})
  }

  lemma AdapterPathsAreNameable(from: LifecycleState, target: LifecycleState, parameters: ParameterMap)
    ensures var path := AdapterTransitionsTo(from, target, parameters);
      && Contiguous(path)
      && (forall i :: 0 <= i < |path| ==>
            && HasTransitionId(path[i].from, path[i].target)
            && (path[i].parameters != map[] ==> path[i].from == Unconfigured && path[i].target == Inactive))
      && (path != [] ==> path[0].from == from && path[|path| - 1].target == target)
  {
    var path := AdapterTransitionsTo(from, target, parameters);
    assert |path| == 2 ==> path[0].target == path[1].from;
  }
}
