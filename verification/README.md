# Device manager and drivers: a verified model

A Dafny model of the hard parts of a robot's device manager: the per-device lifecycle queue with
its planners, recovery hooks and state-query protocol, and the byte-level machinery of five of its
drivers (SMIT lidar, PG100 LoRa bridge, TWS battery, CH020 IMU, Oradar lidar). `dafny verify
dfyconfig.toml` checks the whole project.

What the source changes in place is a class whose methods are proved against a pure function of
the old state; what the source promises is then proved about those functions, over every input or
every run. Concurrency is modelled by making each locked region one atomic step: a run is any
interleaving of steps, and a driver runtime is an adversary that may answer anything or throw,
except where a theorem says otherwise.

| file | what it holds |
|---|---|
| `Lifecycle.dfy`, `Planners.dfy` | lifecycle states, edges, the standard planner, the path planners |
| `DeviceQueue.dfy`, `DeviceManager.dfy` | the queue of one device and its worker; the manager in front |
| `QueueInvariants.dfy`, `QueueTrace.dfy`, `QueueHistory.dfy`, `QueueTold.dfy` | safety over every interleaving: where every change is, newest-only planning, conservation, trace shape, runtime calls |
| `QueueReplay.dfy`, `QueueCalls.dfy` | the device as its submitters' steps make it; what the runtime is asked, and what the record tells of it |
| `NewestMap.dfy` | the queue together with a runtime that honours the standard edges |
| `Hooks.dfy`, `ProcessHost.dfy`, `AdapterHook.dfy`, `HookedQueue.dfy` | the three recovery hooks over their runtimes and the queue: convergence, recovery from exits |
| `StateQuery.dfy` | the lifecycle adapter's cached state and its get_state queries |
| `Iteration.dfy`, `Streams.dfy`, `XorAlgebra.dfy` | repeated steps, chunked streams, the algebra of CRC registers |
| `Crc16.dfy`, `SerialFrame.dfy`, `Modbus.dfy` | CRC-16, the PG100 frame codec, Modbus over CAN |
| `Crc8.dfy`, `SmitProtocol.dfy`, `SmitRoundTrip.dfy` | CRC-8, the resynchronising SMIT stream parser, the round trip with a sender written from the frame layout |
| `SmitScan.dfy`, `SmitDriver.dfy` | the scan assembler; parser and assembler together, from the sensor's measurements to the scans |
| `MinTracker.dfy` | the approximate sliding minimum and the time stamps made with it |
| `PointFilter.dfy`, `Crc32.dfy` | the Oradar in-place filter, its table-driven CRC-32/MPEG-2 |
| `BatteryPoll.dfy` | the battery's poll-failure debouncer and online/offline tracker |

Where the code and its own words differ, the model follows the code:

- `QueueTold.DisabledAcceptIsNeverTold`: accepted changes are not always told to the planner. A
  change accepted while the device is disabled, or pending at a stop, is dropped from the delta, and
  enabling the device afterwards queues nothing: no later patch carries it until its key is patched
  again, although the full map handed with any later patch does. `QueueTold.IdleMeansToldIff` says exactly
  which changes these are.
- `SmitProtocol.FullCircleAngleExists`: a point angle can be exactly 360 degrees, although angles
  are documented as [0, 360) (drivers/smit_ros_driver/include/smit_ros_driver/smit_protocol.hpp:28).
- `PointFilter.LevelOneFiltersNothing`: filter level 1 asks for four flat points on a side that has
  three, so it never filters anything; its comment speaks of three.
- `SerialFrame.BufferBoundIff`: the decoder's size check is skipped on the escape branch. The
  buffer keeps to its limit exactly on byte streams in which, after no delimiter, the first content
  byte past the limit arrives escaped.
- `ProcessHost.RecoversIff`: a child process found dead behind a cached INACTIVE or ACTIVE is not
  always brought back, nor always finalized when the device is disabled: it depends on the latest
  event, as the lemma's table says for every case. `ProcessHost.RecoversFromExits`: it always is when
  no other event displaces the exit event.
- `ProcessHost.StandardPlanAppliesIff`: from FINALIZED the standard plan materializes with an empty
  map, so a patch to a finalized process with mapped parameters does nothing; and an empty full map
  keeps an idle child that was started with another one.
- `BatteryPoll.AgreementExactly`: the snapshot disagrees with the tracker exactly when the battery
  was online and a configure has failed since the last poll.

## Model

| member | source | states |
|---|---|---|
| `DeviceQueue.Device.StartQueue` | device_manager_core/src/device_manager.cpp:191-202 | a stopped queue becomes a running one with a waiting worker and empty log suffix `Started`; a running queue is left alone |
| `DeviceQueue.Device.StopQueue` | device_manager_core/src/device_manager.cpp:204-221 | stop empties both queues and the pending delta, leaves parameters, revision and whatever the worker holds, and does nothing when not running |
| `DeviceQueue.Device.Enqueue` | device_manager_core/src/device_manager.cpp:223-234 | a batch goes to the back of the queue of its priority, or is refused because the queue does not run |
| `DeviceQueue.Device.EnqueueParameterPatch` | device_manager_core/src/device_manager.cpp:236-272 | the outcome of a patch of either priority is a function of the device before it: refused; stored on a disabled device; enable-only; queued. What that function means is `QueueReplay.PatchIsStoredOrQueuedLast`, field by field, and `QueueReplay.DeviceReplaysItsPatches`, over the steps of every run |
| `QueueReplay.PatchIsStoredOrQueuedLast` | device_manager_core/src/device_manager.cpp:236-272 | one patch, of either priority: refused it changes nothing; accepted it merges, and then either the device ends disabled (new revision, no delta), or it only opens the gate (nothing else moves), or a batch with the grown delta and the new revision is last in its own queue; the other queue, worker, record and calls stand |
| `QueueReplay.SubmissionIsQueuedLast` | device_manager_core/src/device_manager.cpp:223-234 | one submission: refused without a trace, or exactly its batch last in the queue of its own priority |
| `QueueReplay.DeviceReplaysItsPatches` | device_manager_core/src/device_manager.cpp:191-272 | in every run, read off its steps: the full map is the initial one overlaid, in order, with every well-typed patch that came while the queue was open; the gate is what the last of them to name it says; the revision counts those that do more than open the gate; the log tells of exactly these |
| `QueueReplay.ArrivalsAreTakenOrQueued` | device_manager_core/src/device_manager.cpp:191-300 | in every run, read off its steps: per priority, what was dequeued since the queue was last opened or closed and what is still queued are, in order, the submissions and the queueable patches sent to it, each with its requests and revision |
| `DeviceQueue.Device.WakeUp` | device_manager_core/src/device_manager.cpp:274-300 | the worker turns to finalizing when stopping, else takes the oldest urgent batch, else the oldest normal one |
| `DeviceQueue.Device.PlanPatch` | device_manager_core/src/device_manager.cpp:337-361 | the planner is asked with the full map and the patch handed over, from the state just reported; its requests are executed next; a throw of either becomes an error record |
| `DeviceQueue.Device.ExecuteNext` | device_manager_core/src/device_manager.cpp:298-307 | one request of the batch in hand; the worker goes on only after success |
| `DeviceQueue.Device.ExecuteRequest` | device_manager_core/src/device_manager.cpp:388-450 | for any replies of the runtime: the record kept and the calls made are functions of request and replies. What they mean is `QueueCalls.StepSaysWhatIsInHand` and `QueueCalls.RecordTellsTheCalls`, told from the calls themselves |
| `QueueCalls.StepSaysWhatIsInHand` | device_manager_core/src/device_manager.cpp:298-421 | whatever step in whatever state: the transitions asked for meanwhile are the request in hand, all fields, iff the runtime reported its source; on exit one to FINALIZED from the state asked first, unless finalized; otherwise none; the planner is asked from the state reported with the full map and the patch handed over, exactly when planning |
| `QueueCalls.RuntimeIsAskedWhatIsAttempted` | device_manager_core/src/device_manager.cpp:298-421 | in every run: the requests of all request_transition calls, in order and with all fields, are those of the attempts (finalizing ones included) whose first state reply was their source; the planner calls are, in order, those of the planning events |
| `QueueCalls.CommandsAreObserved` | device_manager_core/src/device_manager.cpp:419-437 | in every run every request_transition is followed by `state()` after a report and `safe_state()` after a throw, and a `state()` that throws there by `safe_state()` |
| `QueueCalls.RecordTellsTheCalls` | device_manager_core/src/device_manager.cpp:319-450 | after every step the last record agrees with the calls of the step: request in hand; state made known last; discarded iff nothing was asked after a stale source; error iff a call threw or reported one; success iff commanded, reported and shown; superseded and unplannable patches; otherwise untouched |
| `DeviceQueue.Device.CheckRevision` | device_manager_core/src/device_manager.cpp:319-335 | only a batch carrying the latest revision is planned, and doing so clears the delta; a superseded one is recorded as discarded and touches nothing else |
| `DeviceQueue.Device.FinalizeDevice` | device_manager_core/src/device_manager.cpp:310-317 | on exit one finalize request from the state reported, unless already finalized |
| `QueueInvariants.NoChangeIsLost` | device_manager_core/src/device_manager.cpp:236-335 | in every interleaving: relative to the map at the last point where the source forgot its delta (start, disabled accept, stop), the patches handed since and the pending delta make up the full map up to `device.enable`; a non-empty delta has exactly one batch, queued or in hand, with the current revision and that delta |
| `QueueInvariants.IdleMeansHandedSince` | device_manager_core/src/device_manager.cpp:274-335 | when nothing is queued or held, every change accepted since the delta was last forgotten has been handed to the planner |
| `QueueTold.UntoldIsDroppedOrPending` | device_manager_core/src/device_manager.cpp:204-335 | in every run, without restarting the base: a change in no patch handed since is either pending or was forgotten at a disabled accept or a stop; on every key not forgotten, what was handed plus the pending delta is the full map up to `device.enable` |
| `QueueTold.IdleMeansToldIff` | device_manager_core/src/device_manager.cpp:204-335 | with nothing queued or held, the changes the planner was never told are exactly the forgotten ones, so it was told all iff none was forgotten |
| `QueueTold.DisabledAcceptIsNeverTold` | device_manager_core/src/device_manager.cpp:255-262 | a run that ends enabled and idle with a change in the full map that no patch ever carried |
| `QueueInvariants.PlannerCallsAreNewest` | device_manager_core/src/device_manager.cpp:243-268 | revisions handed to the planner strictly increase along every run; every key of a handed patch has the value of the full map handed with it, `device.enable` included, which can only be true |
| `QueueInvariants.OutstandingIsNeverNewer` | device_manager_core/src/device_manager.cpp:236-335 | in every run no batch queued or in hand carries a revision above the device's |
| `QueueHistory.HandedExactlyWhenLatest` | device_manager_core/src/device_manager.cpp:243-268 | in every run: a handed patch is that of the batch taken last, its revision is the number of revisions made so far, and the full map handed with it is the base map overlaid with every patch accepted so far, enable-only ones included; a batch is discarded only when a later revision had been made |
| `QueueInvariants.StepKeeps` | device_manager_core/src/device_manager.cpp:191-450 | every atomic step from every state keeps the joint invariant of parameters, revision, delta, queues, worker and log |
| `QueueTrace.QueuesConserveBatches` | device_manager_core/src/device_manager.cpp:204-234 | between start and stop, accepted batches per priority are the dequeued ones followed by the queued ones; nothing is dequeued while stopped; a normal batch only when every accepted urgent one already was |
| `QueueTrace.TraceIsBatchPrefixes` | device_manager_core/src/device_manager.cpp:298-450 | against an adversarial runtime the calls of execute are a concatenation of batch prefixes: call k is request k, and the worker passes it only if the runtime was in its source, reported success and showed its target |
| `QueueHistory.BatchesAreTakenOrPlanned` | device_manager_core/src/device_manager.cpp:298-361 | in every run a batch begins directly after it was taken off its queue, or directly after the planner replied with it to the patch handed over last; every execute is for the next request of the batch in progress |
| `QueueHistory.CommandsFollowTheirSource` | device_manager_core/src/device_manager.cpp:388-450 | in every run the worker's runtime calls are, in order, exactly those of its events, and every request_transition directly follows a `state()` that returned its source |
| `QueueHistory.ExitsFinalize` | device_manager_core/src/device_manager.cpp:310-317 | in every run the worker leaves with one attempt from the state reported to FINALIZED, without parameters, or with none if that state is FINALIZED |
| `QueueHistory.StepKeeps` | device_manager_core/src/device_manager.cpp:191-450 | every atomic step keeps full map, revision, worker position and call trace in agreement with the log |
| `QueueTrace.FinalizeIsLast` | device_manager_core/src/device_manager.cpp:274-317 | after the worker exits, no batch is taken, planned or executed before the next start |
| `QueueTrace.SucceededMeansHonoured` | device_manager_core/src/device_manager.cpp:414-449 | the record says "succeeded" exactly when source, report and observed target were all right |
| `QueueTrace.StepKeeps` | device_manager_core/src/device_manager.cpp:191-450 | every atomic step keeps queue conservation, segment shape and timeliness of the log |
| `NewestMap.NewestMapWins` | device_manager_core/include/device_manager_core/device_manager.hpp:107-134 | with a runtime that honours the standard edges and an enabled device, at every rest of the worker: configured exactly once per planner call, active iff started active (else inactive), last configured with the newest handed map, which is the device map up to `device.enable` when nothing waits |
| `NewestMap.StandardPathApplies` | device_manager_core/include/device_manager_core/device_manager.hpp:107-134 | the standard plan from any stable state is applicable edge by edge, configures exactly once with the given map, and ends ACTIVE iff it started there, else INACTIVE |
| `NewestMap.PerformSteps` | device_manager_core/include/device_manager_core/device_manager.hpp:167-202 | one dispatched edge of an honouring runtime, in terms of the rest of the plan |
| `NewestMap.WorkerNeverStuck` | device_manager_core/src/device_manager.cpp:274-308 | in every run the worker has a next step exactly while something is queued or in hand |
| `DeviceManager.IsContiguous` | device_manager_core/src/device_manager.cpp:452-460 | true iff every request starts where the one before it ends |
| `DeviceManager.Manager.Enqueue` | device_manager_core/src/device_manager.cpp:536-555 | the error order of the manager, the exact condition of acceptance, and that a refusal or another device sees no change |
| `DeviceManager.Manager.PatchParameters` | device_manager_core/src/device_manager.cpp:557-575 | the same for patches |
| `DeviceManager.Manager.Start` | device_manager_core/src/device_manager.cpp:499-517 | all devices start and the manager runs, or one registration fails and every device is stopped again |
| `DeviceManager.Manager.Stop` | device_manager_core/src/device_manager.cpp:519-534 | a running manager stops every device, a stopped one does nothing |
| `DeviceManager.Manager.Tick` | device_manager_core/src/device_manager.cpp:577-601 | each device gets at most the one normal batch its own hook proposed, if adjacent and non-empty; a throwing hook or a refused batch concerns no other device |
| `DeviceManager.TickPushesItsOwnBatch` | device_manager_core/src/device_manager.cpp:577-601 | a tick leaves, last in the normal queue, exactly the batch the device's own hook proposed if it is adjacent, non-empty and the queue is open, and moves nothing else |
| `Planners.TransitionsToIsAPath` | device_manager_ros/src/ros2_runtime_utils.hpp:57-105 | a planned path is adjacent, uses supported edges, ends at the target, and exists exactly between distinct stable states except upwards out of FINALIZED beyond UNCONFIGURED |
| `Planners.RecoveryRequestsIsAPath` | drivers/ch020_imu_driver/src/ch020_imu_runtime.cpp:63-96 | the in-process planner goes downwards only, one supported edge at a time, and has a path exactly for a strictly lower stable target |
| `Planners.AdapterPlannerDiffersOnce` | device_manager_ros/src/ros2_lifecycle_driver_adapter.cpp:88-130 | the adapter's copy differs from the shared planner at FINALIZED to UNCONFIGURED and nowhere else |
| `Planners.AdapterPathsAreNameable` | device_manager_ros/src/ros2_lifecycle_driver_adapter.cpp:58-130 | every edge the adapter plans has a transition id, and only configure carries parameters |
| `Hooks.ProcessHook.Tick` | device_manager_ros/src/ros2_process_device_runtime_adapter.cpp:308-346 | the event-first hook: requests and handled revision as functions of the context |
| `Hooks.InProcessHook.Tick` | drivers/ch020_imu_driver/src/ch020_imu_runtime.cpp:190-220 | the startup-first hook: requests and handled revision as functions of the context |
| `Hooks.HooksCarryTheMap` | device_manager_ros/src/ros2_process_device_runtime_adapter.cpp:308-346 | both hooks ask for a path from the state seen, with the newest map on every edge that starts or configures the device and an empty map on every other |
| `ProcessHost.ProcessRuntime.ReapChild` | device_manager_ros/src/ros2_process_device_runtime_adapter.cpp:348-399 | a child found dead is forgotten, the cached state stays, and the exit event becomes the device's latest event; see Left out for a missing event handler |
| `ProcessHost.ProcessRuntime.State` | device_manager_ros/src/ros2_process_device_runtime_adapter.cpp:171-176 | `state()` reaps first and returns the cached state, whatever became of the child |
| `ProcessHost.ProcessRuntime.MaterializeEdge` | device_manager_ros/src/ros2_process_device_runtime_adapter.cpp:178-189 | a held child is adopted as UNCONFIGURED, otherwise one is started with the mapped parameters |
| `ProcessHost.ProcessRuntime.ConfigureEdge` | device_manager_ros/src/ros2_process_device_runtime_adapter.cpp:240-259 | a changed non-empty map restarts the child, a missing child is started, and failures keep what the source keeps |
| `ProcessHost.ProcessRuntime.MoveEdge` | device_manager_ros/src/ros2_process_device_runtime_adapter.cpp:261-281 | activate and deactivate need a held child |
| `ProcessHost.ProcessRuntime.CleanupEdge` | device_manager_ros/src/ros2_process_device_runtime_adapter.cpp:283-293 | cleanup stops the child and only then reports UNCONFIGURED |
| `ProcessHost.ProcessRuntime.RequestTransition` | device_manager_core/include/device_manager_core/device_manager.hpp:167-202 | dispatch of the base class over these edges |
| `ProcessHost.CalmDrain` | device_manager_ros/src/ros2_process_device_runtime_adapter.cpp:178-299 | a path drained in calm weather from a coherent process reaches its end, coherent, with no new event |
| `ProcessHost.ProcessHookConverges` | device_manager_ros/src/ros2_process_device_runtime_adapter.cpp:308-346 | from any coherent stable state and any latest event: ACTIVE with a child held from the fourth drained tick on when enabled, FINALIZED with none from the second on when disabled |
| `ProcessHost.ProcessBoundsAreTight` | device_manager_ros/src/ros2_process_device_runtime_adapter.cpp:308-346 | four and two ticks are needed |
| `ProcessHost.HandledOnlyWhenSettled` | device_manager_ros/src/ros2_process_device_runtime_adapter.cpp:314-329 | in any weather (exits at any query or edge, failures, events from elsewhere) an event counts as handled if and only if the hook saw it or a later one with its target reached or without a path |
| `ProcessHost.RecoversIff` | device_manager_ros/src/ros2_process_device_runtime_adapter.cpp:171-346 | for every stable cached state, child held or not, latest event, enabled or disabled: calm ticks reach the goal iff the process is coherent or its unserved event leads out of the dead end as the stated table says; otherwise they never change the process |
| `ProcessHost.RecoversAfterAnything` | device_manager_ros/src/ros2_process_device_runtime_adapter.cpp:171-346 | the same after any history of exits, failing edges and events from elsewhere |
| `ProcessHost.RecoversFromExits` | device_manager_ros/src/ros2_process_device_runtime_adapter.cpp:171-399 | after any history of exits, failed spawns and failed stops, at any point of any tick, calm ticks reach the goal as long as no other event arrives |
| `ProcessHost.StandardPlanAppliesIff` | device_manager_core/include/device_manager_core/device_manager.hpp:107-134 | on a coherent child process the standard plan ends at rest on the full map iff it does not start from FINALIZED with mapped parameters (its materialize edge carries an empty map) nor keeps an idle child for an empty map; from FINALIZED with mapped parameters it does nothing |
| `Hooks.InProcessHookConverges` | drivers/ch020_imu_driver/src/ch020_imu_runtime.cpp:190-220 | over the runtime's own edges: ACTIVE from the seventh drained tick on when enabled, FINALIZED from the first on when disabled |
| `Hooks.InProcessBoundIsTight` | drivers/ch020_imu_driver/src/ch020_imu_runtime.cpp:190-220 | seven ticks are needed |
| `Hooks.DriverDrain` | drivers/ch020_imu_driver/src/ch020_imu_runtime.cpp:237-322 | a path drained over the runtime's guarded edges reaches its end when the driver opens |
| `AdapterHook.LifecycleHook.Tick` | device_manager_ros/src/ros2_lifecycle_driver_adapter.cpp:285-317 | the adapter's hook: requests and handled revision as functions of the context |
| `AdapterHook.HookCarriesTheMap` | device_manager_ros/src/ros2_lifecycle_driver_adapter.cpp:285-317 | the adapter's hook asks for a path from the state seen, with the newest map exactly on the configure edge |
| `AdapterHook.PathIsCarriedOut` | device_manager_ros/src/ros2_lifecycle_driver_adapter.cpp:213-277 | no edge of a planned path is refused by the adapter's own checks, so it ends at the target |
| `AdapterHook.StandardPlanOnNodeIff` | device_manager_core/include/device_manager_core/device_manager.hpp:107-134 | on the adapter's node the standard plan ends at rest iff it does not start from FINALIZED, where it stays |
| `AdapterHook.NodeHookConverges` | device_manager_ros/src/ros2_lifecycle_driver_adapter.cpp:285-317 | from the third drained tick on: a disabled or finalized node is where it was, a node with an unserved error event asking for FINALIZED is finalized for good, every other node is ACTIVE |
| `HookedQueue.LoopDrains` | device_manager_core/src/device_manager.cpp:298-307 | over any runtime, the queue's run of execute steps on a batch leaves the runtime where draining the batch does, the worker waiting, and queues and parameters as they were |
| `HookedQueue.ProcessTickIsTheQueue` | device_manager_core/src/device_manager.cpp:298-450 | a tick of the process hook is the queue's own batch loop on the batch the hook asked for, with one environment per request |
| `HookedQueue.InProcessTickIsTheQueue` | device_manager_core/src/device_manager.cpp:298-450 | the same for the in-process hook |
| `HookedQueue.NodeTickIsTheQueue` | device_manager_core/src/device_manager.cpp:298-450 | the same for the adapter's hook |
| `StateQuery.StateCache.RefreshState` | device_manager_ros/src/ros2_lifecycle_driver_adapter.cpp:319-375 | the cache after a refresh, and the query sent: one iff the client is ready, sends, and no query is in flight before its deadline, with the newest token and the generation of that instant |
| `StateQuery.DueRefreshReplaces` | device_manager_ros/src/ros2_lifecycle_driver_adapter.cpp:319-375 | in every reachable state: a ready refresh with no query in flight, or one past its deadline, expires the one live query and bumps the generation exactly then, and a query that is sent has a token above all earlier ones, is fresh and live; any other refresh changes and sends nothing |
| `StateQuery.RefreshThenReplyUpdates` | device_manager_ros/src/ros2_lifecycle_driver_adapter.cpp:319-375 | progress: such a refresh and a returned reply to its query leave the replied state in the cache and the next refresh due |
| `StateQuery.EveryStepSetsTheValue` | device_manager_ros/src/ros2_lifecycle_driver_adapter.cpp:181-375 | in every run each step leaves the cached value it should: a transition its goal, a fresh reply its state, anything else the old value; and after a transition no earlier query can write |
| `StateQuery.StateCache.OnReply` | device_manager_ros/src/ros2_lifecycle_driver_adapter.cpp:349-365 | what the callback of a query does to the cache, for any reply or throw |
| `StateQuery.StateCache.OnTransitionEvent` | device_manager_ros/src/ros2_lifecycle_driver_adapter.cpp:181-186 | a transition event sets the state and starts a new generation |
| `StateQuery.StateCache.OnTransitionCompleted` | device_manager_ros/src/ros2_lifecycle_driver_adapter.cpp:270-272 | a completed transition sets the observed state and starts a new generation |
| `StateQuery.GuardMeansFresh` | device_manager_ros/src/ros2_lifecycle_driver_adapter.cpp:354-357 | in every run the generation-and-token guard holds iff the reply's query is the newest and no event, completed transition or expiry came after it |
| `StateQuery.ReplyWritesIffFresh` | device_manager_ros/src/ros2_lifecycle_driver_adapter.cpp:349-365 | a reply writes the cached state iff it answers a fresh query without throwing |
| `StateQuery.ExpiredRepliesAreIgnored` | device_manager_ros/src/ros2_lifecycle_driver_adapter.cpp:327-337 | a late reply to an expired query changes neither the cache nor the in-flight flag |
| `StateQuery.AtMostOneLiveQuery` | device_manager_ros/src/ros2_lifecycle_driver_adapter.cpp:339-374 | a query is live iff it is the newest one and the in-flight flag is set |
| `Crc16.ComputeCrc` | drivers/pager100_lora_bridge/src/serial_frame.cpp:8-22 | the loops compute the CRC-16 of the whole message |
| `Crc16.CheckValue` | drivers/pager100_lora_bridge/src/serial_frame.cpp:8-22 | initial value, polynomial and reflection are those of CRC-16/MODBUS: the digits 1 to 9 give 0x4B37 |
| `Crc16.ByteStepBijective` | drivers/pager100_lora_bridge/src/serial_frame.cpp:8-22 | with the byte fixed, every register has exactly one predecessor |
| `Crc16.CheckedIffZero` | drivers/pager100_lora_bridge/src/serial_frame.cpp:113-131 | a buffer passes iff the CRC over all of it, its CRC bytes included, is zero |
| `Crc16.AppendedCrcPasses` | drivers/tws_battery_driver_ros2/src/socketcan_transport.cpp:348-353 | appending the CRC bytes makes a buffer that passes |
| `Crc16.AdjacentErrorsAreDetected` | drivers/pager100_lora_bridge/src/serial_frame.cpp:8-22 | two passing buffers of equal length never differ only within two adjacent bytes |
| `SerialFrame.EncodeFrame` | drivers/pager100_lora_bridge/src/serial_frame.cpp:39-60 | the loops produce the delimited, stuffed frame; an oversized payload is refused |
| `SerialFrame.ControlBytesOnTheWire` | drivers/pager100_lora_bridge/src/serial_frame.cpp:39-60 | a data frame with both control bytes in its payload, byte for byte on the wire |
| `SerialFrame.Decoder.FeedByte` | drivers/pager100_lora_bridge/src/serial_frame.cpp:78-111 | one byte: next decoder state and the frame it completes |
| `SerialFrame.Decoder.FinishFrame` | drivers/pager100_lora_bridge/src/serial_frame.cpp:113-137 | the length, size and CRC checks of a finished buffer |
| `SerialFrame.Decoder.Feed` | drivers/pager100_lora_bridge/src/serial_frame.cpp:62-76 | a chunk is its bytes in turn |
| `SerialFrame.ChunksDoNotMatter` | drivers/pager100_lora_bridge/src/serial_frame.cpp:62-76 | how a stream is cut into chunks changes neither frames nor final state |
| `SerialFrame.RoundTrip` | drivers/pager100_lora_bridge/src/serial_frame.cpp:39-137 | from any decoder state an encoded frame yields at most one leftover frame of earlier bytes, then exactly itself |
| `SerialFrame.StreamRoundTrip` | drivers/pager100_lora_bridge/src/serial_frame.cpp:39-137 | a fresh decoder fed any delimiter-free garbage and then any list of encoded frames, in any chunks, yields exactly that list |
| `SerialFrame.FinishedIffBody` | drivers/pager100_lora_bridge/src/serial_frame.cpp:113-137 | a buffer is accepted as a frame iff it is the unstuffed body of that frame |
| `SerialFrame.StuffedIsTransparent` | drivers/pager100_lora_bridge/src/serial_frame.cpp:27-35 | no delimiter occurs inside a stuffed body |
| `SerialFrame.CorruptedBodyIsRejected` | drivers/pager100_lora_bridge/src/serial_frame.cpp:113-131 | damage within two adjacent bytes of a body never yields a frame |
| `SerialFrame.EscapesEvadeTheLimit` | drivers/pager100_lora_bridge/src/serial_frame.cpp:92-110 | escaped bytes alone grow the buffer past any bound |
| `SerialFrame.BufferBoundIff` | drivers/pager100_lora_bridge/src/serial_frame.cpp:78-111 | from a fresh decoder the buffer stays within 69 bytes throughout a stream iff in no stretch after a delimiter the 70th unstuffed content byte arrives escaped |
| `Modbus.Assembler.Append` | drivers/tws_battery_driver_ros2/include/tws_battery_driver_ros2/modbus_response_assembler.hpp:24-50 | the assembled bytes and the status they have, for any fragment |
| `Modbus.ExchangeFrame` | drivers/tws_battery_driver_ros2/src/socketcan_transport.cpp:201-264 | an open socket gets the one request frame, of one to eight bytes; the response is the first completion of what is received, or nothing |
| `Modbus.ReadHoldingRegisters` | drivers/tws_battery_driver_ros2/src/socketcan_transport.cpp:129-199 | the request is built and written exactly once, unless no registers are asked for or the socket is closed; then all checks in order, over the exchange |
| `Modbus.BuildRequest` | drivers/tws_battery_driver_ros2/src/socketcan_transport.cpp:141-149 | eight bytes with address and count high byte first and a passing CRC |
| `Modbus.FragmentsAssemble` | drivers/tws_battery_driver_ros2/include/tws_battery_driver_ros2/modbus_response_assembler.hpp:24-87 | any split of a well-formed response into non-empty fragments is incomplete until the last and complete with it |
| `Modbus.FragmentationDoesNotMatter` | drivers/tws_battery_driver_ros2/src/socketcan_transport.cpp:219-240 | the exchange returns exactly the response for every fragmentation, whatever arrives afterwards |
| `Modbus.ExchangeIsWellFormed` | drivers/tws_battery_driver_ros2/src/socketcan_transport.cpp:219-240 | an exchange returns nothing else than a response as long as it announces |
| `Modbus.AcceptedIff` | drivers/tws_battery_driver_ros2/src/socketcan_transport.cpp:156-198 | for any response: accepted with data iff it is the reply built from that data, which exists for at most 127 registers |
| `Modbus.ReplyYieldsItsData` | drivers/tws_battery_driver_ros2/src/socketcan_transport.cpp:129-199 | end to end: a correctly built reply for 1 to 127 registers, in any fragmentation, yields exactly its data |
| `Modbus.ExceptionIff` | drivers/tws_battery_driver_ros2/src/socketcan_transport.cpp:156-168 | for any response: it ends the read with an exception code iff it is the exception reply with that code, whichever device sent it |
| `Modbus.ExceptionYieldsItsCode` | drivers/tws_battery_driver_ros2/src/socketcan_transport.cpp:129-240 | end to end: an exception reply, in any fragmentation, ends the read with its code |
| `Modbus.OversizedReadsNeverSucceed` | drivers/tws_battery_driver_ros2/src/socketcan_transport.cpp:136-192 | no response is ever accepted for zero or more than 127 registers |
| `Modbus.DamagedReplyIsRejected` | drivers/tws_battery_driver_ros2/src/socketcan_transport.cpp:334-346 | a response of equal length that differs from a reply within two adjacent bytes fails the CRC |
| `Modbus.DamagedReplyYieldsNothing` | drivers/tws_battery_driver_ros2/src/socketcan_transport.cpp:129-240 | end to end: a reply damaged within two adjacent bytes, its size byte included, yields no registers in any fragmentation, whatever arrives afterwards |
| `Crc8.ComputeCrc` | drivers/smit_ros_driver/src/smit_protocol.cpp:38-49 | the loops compute the CRC-8 of the whole message |
| `Crc8.DamagedPayloadFails` | drivers/smit_ros_driver/src/smit_protocol.cpp:86-94 | a payload that passes fails once any one of its bytes, the checksum included, is damaged |
| `SmitProtocol.DamagedFrameYieldsNothing` | drivers/smit_ros_driver/src/smit_protocol.cpp:86-107 | a frame damaged in one payload byte delivers neither points nor a configuration |
| `SmitProtocol.Protocol.Feed` | drivers/smit_ros_driver/src/smit_protocol.cpp:57-84 | guard, then the resynchronising loop: the callbacks and the leftover of one pass |
| `SmitProtocol.Protocol.ProcessFrame` | drivers/smit_ros_driver/src/smit_protocol.cpp:86-127 | the callback a frame causes, by id, length and checksum |
| `SmitProtocol.Protocol.ParsePoints` | drivers/smit_ros_driver/src/smit_protocol.cpp:129-165 | the callback of any point payload, as a function of its bytes. What that function reads is `SmitRoundTrip.MessagesArrive` |
| `SmitRoundTrip.EncodedArrives` | drivers/smit_ros_driver/src/smit_protocol.cpp:86-165 | one frame of a sender written from the layout, for any start, delta within bounds, at most 64 samples and time stamp, or any configuration: the parser delivers exactly the values sent |
| `SmitRoundTrip.MessagesArrive` | drivers/smit_ros_driver/src/smit_protocol.cpp:57-165 | the round trip: any sweeps and configurations, in frames with garbage in between and in chunks of at most 7953 bytes, arrive in order with every distance, intensity, angle, time stamp and configuration field they were sent with, and nothing else arrives |
| `SmitProtocol.ChunksDoNotMatter` | drivers/smit_ros_driver/src/smit_protocol.cpp:57-84 | chunks of at most 7953 bytes cause the callbacks of one unguarded pass over the whole stream; the leftover stays under 2048 bytes and the guard never fires |
| `SmitProtocol.GuardDropsEverything` | drivers/smit_ros_driver/src/smit_protocol.cpp:59-63 | past 10000 bytes the whole buffer is dropped, whatever it holds |
| `SmitProtocol.FramesSurviveGarbage` | drivers/smit_ros_driver/src/smit_protocol.cpp:65-83 | well-formed frames separated by garbage free of the start pair are all delivered in order, and nothing else |
| `SmitProtocol.ChunkedFramesSurvive` | drivers/smit_ros_driver/src/smit_protocol.cpp:57-84 | the same when fed in chunks of at most 7953 bytes |
| `SmitProtocol.PointAngles` | drivers/smit_ros_driver/src/smit_protocol.cpp:147-161 | exactly when and how a point angle leaves [0, 360) |
| `SmitProtocol.FullCircleAngleExists` | drivers/smit_ros_driver/src/smit_protocol.cpp:57-165 | a frame the parser accepts, checksum included, whose one point lies at 360 degrees |
| `SmitScan.InWindowIsCircular` | drivers/smit_ros_driver/src/smit_lidar_driver.cpp:35-47 | window membership, plain or wrapped, is (x - start) mod 360 <= (end - start) mod 360 |
| `SmitScan.WindowIsItsFields` | drivers/smit_ros_driver/src/smit_lidar_driver.cpp:124-152 | for any window that is not a full circle and any angle, the test made is (angle - angle_min) mod 360 <= (angle_max - angle_min) mod 360, and for angle_min <= angle_max the right side is the plain difference |
| `SmitScan.CrossingIsFloorStep` | drivers/smit_ros_driver/src/smit_lidar_driver.cpp:49-59 | the crossing test holds iff the unwrapped angle passes a multiple of the boundary, which it does at most once per point |
| `SmitScan.Assembler.AddPacket` | drivers/smit_ros_driver/src/smit_lidar_driver.cpp:113-175 | a packet is dropped without configuration, resets when bad, and otherwise is its points in turn; every scan carries the window and the configuration in force. What the scans are is `SmitScan.ScansAreTheMaximalRuns` and `SmitScan.ScansAreRevolutions`, in terms of the window's settings |
| `SmitScan.Assembler.Reset` | drivers/smit_ros_driver/src/smit_lidar_driver.cpp:89-100 | what reset clears |
| `SmitScan.PacketsDoNotMatter` | drivers/smit_ros_driver/src/smit_lidar_driver.cpp:129-173 | how a clean stream is cut into packets does not matter |
| `SmitScan.BadPacketSeparates` | drivers/smit_ros_driver/src/smit_lidar_driver.cpp:119-122 | no scan mixes points from both sides of a bad packet: what follows is assembled as by a cleared assembler |
| `SmitScan.CutsAreTheCrossings` | drivers/smit_ros_driver/src/smit_lidar_driver.cpp:133-139 | the cut points are all crossings, in order |
| `SmitScan.ScansAreRevolutions` | drivers/smit_ros_driver/src/smit_lidar_driver.cpp:129-149 | full circle (at least 359.999 degrees wide): the scans are exactly the stretches between consecutive crossings of angle_min mod 360, none empty, and with the points in progress they are the stream from the first crossing on |
| `SmitScan.ScansCountRevolutions` | drivers/smit_ros_driver/src/smit_lidar_driver.cpp:129-149 | full circle: the number of scans is one less than the multiples of angle_min mod 360 the unwrapped angle has passed, or none |
| `SmitScan.RunsAreTheMaximalRuns` | drivers/smit_ros_driver/src/smit_lidar_driver.cpp:151-173 | the listed runs are exactly the maximal in-window runs with a point outside on both sides |
| `SmitScan.ScansAreTheMaximalRuns` | drivers/smit_ros_driver/src/smit_lidar_driver.cpp:151-173 | partial window: between resets the scans are, in order, exactly the stretches of points whose angle passes the test on the window's settings, with a point that fails it on both sides, however the stream was cut into packets |
| `SmitScan.Assembler.SetWindow` | drivers/smit_ros_driver/src/smit_lidar_driver.cpp:75-80 | a new window resets the assembly and keeps the configuration |
| `SmitScan.Assembler.SetConfig` | drivers/smit_ros_driver/src/smit_lidar_driver.cpp:82-87 | a configuration lets packets through and touches nothing else |
| `SmitDriver.Driver.ReadOnce` | drivers/smit_ros_driver/src/smit_lidar_driver.cpp:327-364 | one read: the callbacks of the parser in order, each configuration kept and each packet assembled |
| `SmitDriver.ScansCarryTheLatestConfig` | drivers/smit_ros_driver/src/smit_lidar_driver.cpp:102-111 | every scan carries the window, and the speed and frequency of the configuration received last; there is none before the first |
| `SmitDriver.ScansDependOnTheStreamOnly` | drivers/smit_ros_driver/src/smit_lidar_driver.cpp:327-364 | end to end: for any byte stream in chunks of at most 7953 bytes, scans, scan in progress and leftover depend only on the stream, not on how it was read |
| `SmitDriver.MeasuredPassesAreScanned` | drivers/smit_ros_driver/src/smit_lidar_driver.cpp:113-175 | from the sensor to the scans: a configuration and any sweeps, sent as frames with garbage in between and read in any chunks of at most 7953 bytes, give exactly the passes of the measured points through a partial window, with the distances, intensities and settings sent |
| `MinTracker.CircleMinTracker.PushBack` | drivers/ch020_imu_driver/include/ch020_imu_driver/ch020_imu_runtime.hpp:28-48 | one push, on the four fields |
| `MinTracker.MinIsSandwiched` | drivers/ch020_imu_driver/include/ch020_imu_driver/ch020_imu_runtime.hpp:28-52 | for any window w >= 1 and any pushes since a reset: the minimum is at most each of the last w + 1 values and one of the last 2w |
| `MinTracker.SandwichIsTight` | drivers/ch020_imu_driver/include/ch020_imu_driver/ch020_imu_runtime.hpp:28-52 | neither bound can be improved, for any window |
| `MinTracker.StampMaker.MakeStamp` | drivers/ch020_imu_driver/src/ch020_imu_runtime.cpp:402-417 | a stamp lies in [local - 100 ms, local] |
| `MinTracker.NeverAhead` | drivers/ch020_imu_driver/src/ch020_imu_runtime.cpp:411-415 | the "too far ahead" half of the skew test is unreachable, and the tracker is reset iff the minimum lies too far behind |
| `MinTracker.StampsFollowTheSensor` | drivers/ch020_imu_driver/src/ch020_imu_runtime.cpp:402-417 | after any run of samples the next stamp is the arrival time with a reset, or the sensor time moved by an offset within the sandwich of the offsets since the last reset |
| `PointFilter.PointCloudFilter` | drivers/oradar_ros_driver/sdk/src/ord_driver.cpp:496-686 | the in-place sweep leaves at every index zero iff the filter runs and a trailing centre, judged on the original distances, reaches it; else the original |
| `PointFilter.IsTrailing` | drivers/oradar_ros_driver/sdk/src/ord_driver.cpp:654-681 | the early-exit inner loop decides whether either side has enough flat points |
| `PointFilter.LevelOneFiltersNothing` | drivers/oradar_ros_driver/sdk/src/ord_driver.cpp:534-541 | level 1 changes nothing |
| `PointFilter.LevelsTwoToFiveNeedAWholeSide` | drivers/oradar_ros_driver/sdk/src/ord_driver.cpp:542-573 | levels 2 to 5: trailing iff neither smooth nor zero and all three points of a side are flat |
| `PointFilter.LevelsTwoToFiveExactly` | drivers/oradar_ros_driver/sdk/src/ord_driver.cpp:542-684 | levels 2 to 5, distance by distance: zeroed are exactly the suspect points (near, or standing out from a neighbour by the limit of the motor speed) with a side flat throughout, and at levels 4 and 5 their two neighbours |
| `PointFilter.UnknownLevelsIgnoreAngles` | drivers/oradar_ros_driver/sdk/src/ord_driver.cpp:574-578 | levels above 5 zero every centre that is neither smooth nor zero |
| `PointFilter.FilterIsLocal` | drivers/oradar_ros_driver/sdk/src/ord_driver.cpp:624-685 | what is left at an index depends on the original distances of at most four points on either side |
| `Crc32.CalcCrc32` | drivers/oradar_ros_driver/sdk/include/ord/utils.h:47-54 | the table-driven loop computes the bit-by-bit CRC-32/MPEG-2 of every message |
| `Crc32Bits.CheckValue` | drivers/oradar_ros_driver/sdk/include/ord/utils.h:47-54 | initial value and polynomial are those of CRC-32/MPEG-2: the digits 1 to 9 give 0x0376E6E7 |
| `Crc32.EntryIsRemainder` | drivers/oradar_ros_driver/sdk/include/ord/utils.h:13-46 | each of the 256 table entries is the remainder of its index |
| `Crc32.TableStepIsByteStep` | drivers/oradar_ros_driver/sdk/include/ord/utils.h:50-52 | one table step is eight bit steps, from any register |
| `Crc32Bits.FourBytesAtOnce` | drivers/oradar_ros_driver/sdk/include/ord/utils.h:47-53 | four bytes may be taken in at once before 32 bit steps |
| `Crc32Bits.BurstsAreDetected` | drivers/oradar_ros_driver/sdk/include/ord/utils.h:12-54 | damage within four consecutive bytes always changes the CRC |
| `BatteryPoll.StatusTracker.ObserveOnline` | drivers/tws_battery_driver_ros2/include/tws_battery_driver_ros2/battery_status_transition_tracker.hpp:29-54 | what an observation while online or offline announces |
| `BatteryPoll.StatusTracker.ObserveOffline` | drivers/tws_battery_driver_ros2/include/tws_battery_driver_ros2/battery_status_transition_tracker.hpp:56-70 | offline is announced once |
| `BatteryPoll.Driver.Configure` | drivers/tws_battery_driver_ros2/src/tws_battery_driver.cpp:33-48 | a new epoch: counters cleared, snapshot and tracker kept, connection tried |
| `BatteryPoll.Driver.PollOnce` | drivers/tws_battery_driver_ros2/src/tws_battery_driver.cpp:66-98 | one poll against any answers of factory, transport and registers; it is ok iff there is a transport that is or can be linked and the read succeeds, and then it clears the failures and tells the tracker the state read |
| `BatteryPoll.Driver.PollFailed` | drivers/tws_battery_driver_ros2/src/tws_battery_driver.cpp:198-223 | the debounce of a failed poll |
| `BatteryPoll.SnapshotAgreesWithTracker` | drivers/tws_battery_driver_ros2/src/tws_battery_driver.cpp:66-98 | in every run of configure, cleanup and polls: connected implies online, the two are equal after every poll, and stay equal in an epoch once a poll has succeeded |
| `BatteryPoll.AgreementExactly` | drivers/tws_battery_driver_ros2/src/tws_battery_driver.cpp:33-133 | in every run snapshot and tracker agree, unless the battery was online and a configure has failed to link since the last poll |
| `BatteryPoll.FailedConfigureDisagrees` | drivers/tws_battery_driver_ros2/src/tws_battery_driver.cpp:110-133 | a run after which they differ |
| `BatteryPoll.OneReportPerOutage` | drivers/tws_battery_driver_ros2/src/tws_battery_driver.cpp:198-223 | between two successes exactly one failure event is reported iff the gap has three failures or a failure to connect, else none; and online is announced again exactly then |
| `BatteryPoll.FirstFailuresAreReported` | drivers/tws_battery_driver_ros2/src/tws_battery_driver.cpp:205-221 | before an epoch's first success every failure is reported except while the snapshot is still connected from before |
| `BatteryPoll.AnnouncementsChain` | drivers/tws_battery_driver_ros2/include/tws_battery_driver_ros2/battery_status_transition_tracker.hpp:29-70 | in every run announcements alternate, continue each other and are never repeated, and a listener who knows only them knows the tracker's state |

## Left out

- 64-bit wrap-around of parameter revisions, event revisions, query tokens, generations and push
  counts: they are unbounded, so a run long enough to wrap them is not covered; nor is the overflow
  of 64-bit nanosecond arithmetic in `make_stamp`.
- Real threads, mutexes and condition variables: each locked region is one atomic step. The handlers
  of the lifecycle adapter, which share atomics without a lock, are taken as atomic too.
- Clocks, deadlines and timeouts: a timeout is a step that may or may not happen. Messages and time
  stamps inside records and events are dropped.
- `DeviceManager` construction and observation: duplicate ids, null runtimes and the reading of
  snapshots. The order in which a tick or a stop visits the devices is any order.
- `ProcessHost.ProcessRuntime.ReapChild`: an event handler is always installed, as it is while the
  device is started; without one the source drops the exit event. `alive` is the child handle, not
  the child: after a failed stop the leader may already have been reaped while the handle stays.
- Events that arrive while a batch is drained take effect for the hook at its next tick; in
  `ProcessHost` those from elsewhere are placed just before it.
- ROS services, publishers, YAML and HTTP loading, process spawning and signals: an edge that needs
  them succeeds or fails as its environment says. The lifecycle adapter's set_parameters and
  change_state calls are assumed to answer in `AdapterHook`; event levels outside the four named
  ones are not modelled.
- `Hooks.InProcessHookConverges`: the driver is assumed to open; parameter decoding before it
  (`config_from`) is not modelled.
- Floating point: angles are integers of 0.0001 degree, so the rounding of float angles is not
  captured (the bounds of `delta_angle` are those its float value meets); distances and the battery's physical
  units are not scaled; the angle test of the point filter is an arbitrary predicate of two distances.
- Aliasing of queue entries and the copying of batches: queues are sequences held in fields.
- Battery register decoding, the state-of-charge filter, identity reads and their log lines.
- The Hipnuc decoder, the Oradar command and scan-block parsing, and the runtimes of the other
  drivers, which repeat shapes proved here.
