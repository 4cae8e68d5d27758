/** The manager in front of the device queues: it rejects what must never enter a queue. */
module DeviceManager {
  import opened Lifecycle
  import opened DeviceQueue
  import QueueReplay

  method IsContiguous(requests: seq<TransitionRequest>) returns (contiguous: bool)
    ensures contiguous <==> Contiguous(requests)
  {
    var index := 1;
    while index < |requests|
      invariant 1 <= index
      invariant forall i :: 0 <= i < index - 1 && i < |requests| - 1 ==> requests[i].target == requests[i + 1].from
    {
      if requests[index - 1].target != requests[index].from {
        return false;
      }
      index := index + 1;
    }
    return true;
  }

  class Manager {
    const devices: map<string, Device>
    var running: bool

    /** Every id has its own device. */
    ghost predicate Valid()
    {
      forall a, b :: a in devices && b in devices && a != b ==> devices[a] != devices[b]
    }

    constructor (devices: map<string, Device>)
      requires forall a, b :: a in devices && b in devices && a != b ==> devices[a] != devices[b]
      ensures this.devices == devices && !running && Valid()
    {
      this.devices := devices;
      running := false;
    }

    /** Accepted means: the manager and the device run, and the batch is a non-empty chain of
        adjacent requests. Every rejection leaves the device as it was. */
    method Enqueue(id: string, requests: seq<TransitionRequest>, priority: Priority) returns (result: Submission)
      modifies devices.Values
      ensures result == Accepted <==>
                && running && id in devices && requests != [] && Contiguous(requests)
                && old(devices[id].running) && !old(devices[id].stopping)
      ensures !running ==> result == NotRunning
      ensures running && id !in devices ==> result == UnknownDevice
      ensures running && id in devices && requests == [] ==> result == EmptyBatch
      ensures running && id in devices && !Contiguous(requests) ==> result == DeviceQueue.NotContiguous
      ensures id in devices ==>
                devices[id].View() ==
                  if result == Accepted then AfterSubmit(old(devices[id].View()), requests, priority)
                  else old(devices[id].View())
      ensures forall other :: other in devices.Values && (id in devices ==> other != devices[id]) ==> unchanged(other)
    {
      if !running {
        return NotRunning;
      }
      if id !in devices {
        return UnknownDevice;
      }
      if requests == [] {
        return EmptyBatch;
      }
      var contiguous := IsContiguous(requests);
      if !contiguous {
        return DeviceQueue.NotContiguous;
      }
      result := devices[id].Enqueue(requests, priority);
    }

    method PatchParameters(id: string, patch: ParameterMap, priority: Priority) returns (result: Submission)
      modifies devices.Values
      ensures !running ==> result == NotRunning
      ensures running && id !in devices ==> result == UnknownDevice
      ensures running && id in devices && patch == map[] ==> result == EmptyPatch
      ensures running && id in devices && patch != map[] ==> result == PatchResult(old(devices[id].View()), patch)
      ensures id in devices ==>
                devices[id].View() == if result == Accepted then AfterPatch(old(devices[id].View()), patch, priority)
                                      else old(devices[id].View())
      ensures forall other :: other in devices.Values && (id in devices ==> other != devices[id]) ==> unchanged(other)
    {
      if !running {
        return NotRunning;
      }
      if id !in devices {
        return UnknownDevice;
      }
      if patch == map[] {
        return EmptyPatch;
      }
      result := devices[id].EnqueueParameterPatch(patch, priority);
    }

    /** The start loop: stops at the first device whose hook cannot be registered. */
    method StartAll(failing: set<string>) returns (all: bool)
      requires Valid() && forall id :: id in devices ==> Enabled(devices[id].View(), DeviceQueue.Start)
      modifies devices.Values
      ensures all == (failing !! devices.Keys)
      ensures all ==> forall id :: id in devices ==> devices[id].View() == AfterStart(old(devices[id].View()))
    {
      var todo := devices.Keys;
      while todo != {}
        invariant todo <= devices.Keys && failing !! devices.Keys - todo
        invariant forall id :: id in devices ==>
          devices[id].View() == if id in todo then old(devices[id].View()) else AfterStart(old(devices[id].View()))
      {
        var id :| id in todo;
        if id in failing {
          return false;
        }
        devices[id].StartQueue();
        todo := todo - {id};
      }
      return true;
    }

    /** Starts every device. `failing` is the set of devices whose hook cannot be registered: at
        the first of them the start is undone, and the manager does not run. */
    method Start(failing: set<string>) returns (started: bool)
      requires Valid()
      requires !running ==> forall id :: id in devices ==> !devices[id].running && devices[id].worker == Joined
      modifies this`running, devices.Values
      ensures old(running) ==> started && running && forall id :: id in devices ==> unchanged(devices[id])
      ensures !old(running) ==> started == running == (failing !! devices.Keys)
      ensures !old(running) && started ==>
        forall id :: id in devices ==> devices[id].View() == AfterStart(old(devices[id].View()))
      ensures !started ==> forall id :: id in devices ==> !devices[id].running
    {
      if running {
        return true;
      }
      started := StartAll(failing);
      if started {
        running := true;
      } else {
        StopAll();
        forall id | id in devices ensures !devices[id].running {
          assert !devices[id].View().running;
        }
      }
    }

    method StopAll()
      requires Valid()
      modifies devices.Values
      ensures forall id :: id in devices ==> devices[id].View() == AfterStop(old(devices[id].View()))
    {
      var todo := devices.Keys;
      while todo != {}
        invariant todo <= devices.Keys
        invariant forall id :: id in devices ==>
          devices[id].View() == if id in todo then old(devices[id].View()) else AfterStop(old(devices[id].View()))
      {
        var id :| id in todo;
        devices[id].StopQueue();
        todo := todo - {id};
      }
    }

    method Stop()
      requires Valid()
      modifies this`running, devices.Values
      ensures !running
      ensures forall id :: id in devices ==>
        devices[id].View() == if old(running) then AfterStop(old(devices[id].View())) else old(devices[id].View())
    {
      if !running {
        return;
      }
      running := false;
      StopAll();
    }

    /** The share of one device in a tick; no other device is touched. */
    method TickDevice(id: string, proposed: map<string, Reply<seq<TransitionRequest>>>)
      requires Valid() && running && id in devices
      modifies devices.Values
      ensures devices[id].View() == Ticked(proposed, id, old(devices[id].View()))
      ensures forall other :: other in devices && other != id ==> unchanged(devices[other])
    {
      if id in proposed && proposed[id].Returned? && proposed[id].value != [] {
        var _ := Enqueue(id, proposed[id].value, Normal);
      }
    }

    /** One tick. `proposed` is what the hooks return: no entry for a device without a hook, and
        `Threw` for one that threw, which concerns that device alone. */
    method Tick(proposed: map<string, Reply<seq<TransitionRequest>>>)
      requires Valid()
      modifies devices.Values
      ensures forall id :: id in devices ==>
        devices[id].View() == if running then Ticked(proposed, id, old(devices[id].View())) else old(devices[id].View())
    {
      if !running {
        return;
      }
      var todo := devices.Keys;
      while todo != {}
        invariant todo <= devices.Keys
        invariant forall id :: id in devices ==>
          devices[id].View() ==
            if id in todo then old(devices[id].View()) else Ticked(proposed, id, old(devices[id].View()))
      {
        var id :| id in todo;
        TickDevice(id, proposed);
        todo := todo - {id};
      }
    }
  }

  /** A device after a tick: at most one normal batch more, the one its own hook proposed. */
  function Ticked(proposed: map<string, Reply<seq<TransitionRequest>>>, id: string, s: DeviceState): DeviceState {
    if id !in proposed || proposed[id].Threw? || proposed[id].value == [] || !Contiguous(proposed[id].value) then s
    else AfterSubmit(s, proposed[id].value, Normal)
  }

  /** A tick of a device: what its own hook proposed, if it proposed an adjacent, non-empty batch and
      the queue is open, comes last in the normal queue; and nothing else moves. */
  lemma TickPushesItsOwnBatch(proposed: map<string, Reply<seq<TransitionRequest>>>, id: string, s: DeviceState)
    ensures var t := Ticked(proposed, id, s);
      && t.normal == s.normal + (
           if id in proposed && proposed[id].Returned? && proposed[id].value != [] && Contiguous(proposed[id].value)
              && s.running && !s.stopping
           then [Batch(proposed[id].value, None, map[])] else [])
      && QueueReplay.OthersStand(s, t, Normal)
      && t.parameters == s.parameters && t.enabled == s.enabled
      && t.revision == s.revision && t.pending == s.pending
  {
    if id in proposed && proposed[id].Returned? {
      QueueReplay.SubmissionIsQueuedLast(s, proposed[id].value, Normal);
    }
    assert s.normal + [] == s.normal;
  }
}
