/** Domain types of the lifecycle core, the standard reconfiguration planner, and the
    edge dispatch of the runtime base class. */
module Lifecycle {

  datatype Option<+T> = None | Some(value: T)

  /** What a call into a driver runtime may do: return a value or throw. */
  datatype Reply<+T> = Returned(value: T) | Threw

  /** `Unnamed` stands for enum values produced by casting a raw byte that no enumerator names. */
  datatype LifecycleState =
    | Unknown | Unconfigured | Inactive | Active | Finalized
    | Configuring | CleaningUp | ShuttingDown | Activating | Deactivating | ErrorProcessing
    | Unnamed(code: nat)

  datatype TransitionResult = Success | Failure | Error

  datatype ParameterValue =
    | BoolValue(flag: bool) | IntegerValue(number: int) | DoubleValue(quantity: real) | StringValue(text: string)
    | BoolList(flags: seq<bool>) | IntegerList(numbers: seq<int>)
    | DoubleList(quantities: seq<real>) | StringList(texts: seq<string>)

  type ParameterMap = map<string, ParameterValue>

  datatype TransitionRequest =
    TransitionRequest(from: LifecycleState, target: LifecycleState, parameters: ParameterMap)

  predicate Stable(state: LifecycleState) {
    state in {Finalized, Unconfigured, Inactive, Active}
  }

  /** Adjacent requests: each one starts where the previous one ends. */
  predicate Contiguous(requests: seq<TransitionRequest>) {
    forall i :: 0 <= i < |requests| - 1 ==> requests[i].target == requests[i + 1].from
  }

  /** The full reconfiguration path of the standard planner. */
  function StandardParameterTransitions(state: LifecycleState, parameters: ParameterMap): seq<TransitionRequest> {
    var configure := TransitionRequest(Unconfigured, Inactive, parameters);
    match state
    case Active =>
      [TransitionRequest(Active, Inactive, map[]), TransitionRequest(Inactive, Unconfigured, map[]),
       configure, TransitionRequest(Inactive, Active, map[])]
    case Inactive => [TransitionRequest(Inactive, Unconfigured, map[]), configure]
    case Finalized => [TransitionRequest(Finalized, Unconfigured, map[]), configure]
    case Unconfigured => [configure]
    case _ => []
  }

  /** The driver method an edge is dispatched to. */
  datatype Edge = Materialize | Configure | Activate | Deactivate | Cleanup | Dematerialize | Unsupported

  function Dispatch(from: LifecycleState, target: LifecycleState): Edge {
    if from == Finalized && target == Unconfigured then Materialize
    else if from == Unconfigured && target == Inactive then Configure
    else if from == Inactive && target == Active then Activate
    else if from == Active && target == Inactive then Deactivate
    else if from == Inactive && target == Unconfigured then Cleanup
    else if target == Finalized && from in {Unconfigured, Inactive, Active} then Dematerialize
    else Unsupported
  }

  /** A path a worker can execute from `from`: adjacent, starting there, every edge supported. */
  predicate Path(from: LifecycleState, requests: seq<TransitionRequest>) {
    && (|requests| > 0 ==> requests[0].from == from)
    && Contiguous(requests)
    && forall i :: 0 <= i < |requests| ==> Dispatch(requests[i].from, requests[i].target) != Unsupported
  }

  /** Where a fully executed path leaves the device. */
  function End(from: LifecycleState, requests: seq<TransitionRequest>): LifecycleState {
    if requests == [] then from else requests[|requests| - 1].target
  }

  /** Where a device that started in `state` rests once a patch has been applied. */
  function Rest(state: LifecycleState): LifecycleState {
    if state == Active then Active else Inactive
  }
}
