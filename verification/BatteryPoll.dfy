/** The TWS battery driver's polling: a debouncer of failed polls working together with a tracker
    that reports when the battery goes online or offline. */
module BatteryPoll {
  import opened Lifecycle

  const FAILURES_TO_OFFLINE := 3

  datatype Status =
    | Online(workState: nat)
    | Offline(workState: nat)
    | WorkStateChanged(before: nat, after: nat)

  /** What the environment answers to one attempt: whether the factory makes a transport, whether
      that is connected or can be, and the work state read from it, if the read succeeds. */
  datatype Attempt = Attempt(factoryOk: bool, linkUp: bool, connectOk: bool, read: Option<nat>)

  datatype Result = Result(ok: bool, reportFailure: bool, connected: bool, status: Option<Status>)

  /** The driver and its tracker as a value. */
  datatype State = State(
    hasTransport: bool, connected: bool, polledOnce: bool, failures: nat, online: bool, workState: nat)

  const INITIAL := State(false, false, false, 0, false, 0)

  // ---------------------------------------------------------------------------
  // Specification
  // ---------------------------------------------------------------------------

  predicate Links(s: State, a: Attempt) {
    (s.hasTransport || a.factoryOk) && (a.linkUp || a.connectOk)
  }

  predicate Succeeds(s: State, a: Attempt) { Links(s, a) && a.read.Some? }

  function Linked(s: State, a: Attempt): State {
    s.(hasTransport := s.hasTransport || a.factoryOk, connected := s.connected && Links(s, a))
  }

  function Seen(s: State, workState: nat): (State, Option<Status>) {
    (s.(online := true, workState := workState),
     if !s.online then Some(Online(workState))
     else if workState == s.workState then None
     else Some(WorkStateChanged(s.workState, workState)))
  }

  function Lost(s: State): (State, Option<Status>) {
    (s.(online := false), if s.online then Some(Offline(s.workState)) else None)
  }

  function Failed(s: State): (State, Result) {
    var counted := s.(failures := s.failures + 1);
    if s.connected && counted.failures < FAILURES_TO_OFFLINE then
      (counted, Result(false, false, true, None))
    else
      var (after, status) := Lost(counted.(connected := false));
      (after, Result(false, status.Some? || !s.polledOnce, false, status))
  }

  function Polled(s: State, a: Attempt): (State, Result) {
    var linked := Linked(s, a);
    if Succeeds(s, a) then
      var (after, status) := Seen(linked.(connected := true, polledOnce := true, failures := 0), a.read.value);
      (after, Result(true, false, true, status))
    else
      Failed(linked)
  }

  function Cleaned(s: State): State {
    s.(hasTransport := false, polledOnce := false, failures := 0)
  }

  function Configured(s: State, a: Attempt): State {
    Linked(Cleaned(s), a)
  }

  // ---------------------------------------------------------------------------
  // The mutable objects
  // ---------------------------------------------------------------------------

  class StatusTracker {
    var online: bool
    var workState: nat

    constructor ()
      ensures !online && workState == 0
    {
      online, workState := false, 0;
    }

    method ObserveOnline(seen: nat) returns (status: Option<Status>)
      modifies this
      ensures online && workState == seen
      ensures !old(online) ==> status == Some(Online(seen))
      ensures old(online) ==>
        status == if seen == old(workState) then None else Some(WorkStateChanged(old(workState), seen))
    {
      if !online {
        online, workState := true, seen;
        return Some(Online(seen));
      }
      if seen == workState {
        return None;
      }
      var before := workState;
      workState := seen;
      return Some(WorkStateChanged(before, seen));
    }

    method ObserveOffline() returns (status: Option<Status>)
      modifies this`online
      ensures !online
      ensures status == if old(online) then Some(Offline(workState)) else None
    {
      if !online {
        return None;
      }
      online := false;
      return Some(Offline(workState));
    }
  }

  class Driver {
    const tracker: StatusTracker
    var hasTransport: bool
    var connected: bool
    var polledOnce: bool
    var failures: nat

    ghost function View(): State
      reads this, tracker
    {
      State(hasTransport, connected, polledOnce, failures, tracker.online, tracker.workState)
    }

    constructor ()
      ensures View() == INITIAL && fresh(tracker)
    {
      tracker := new StatusTracker();
      hasTransport, connected, polledOnce, failures := false, false, false, 0;
    }

    method Configure(a: Attempt) returns (ok: bool)
      modifies this
      ensures View() == Configured(old(View()), a)
      ensures ok == Links(Cleaned(old(View())), a)
    {
      Cleanup();
      hasTransport := a.factoryOk;
      if !hasTransport {
        connected := false;
        return false;
      }
      ok := EnsureConnected(a);
    }

    /** Neither the last snapshot nor the tracker is cleared. */
    method Cleanup()
      modifies this
      ensures View() == Cleaned(old(View()))
    {
      hasTransport := false;
      polledOnce := false;
      failures := 0;
    }

    method EnsureConnected(a: Attempt) returns (ok: bool)
      modifies this`hasTransport, this`connected
      ensures View() == Linked(old(View()), a) && ok == Links(old(View()), a)
    {
      if !hasTransport {
        hasTransport := a.factoryOk;
        if !hasTransport {
          connected := false;
          return false;
        }
      }
      if a.linkUp {
        return true;
      }
      ok := a.connectOk;
      if !ok {
        connected := false;
      }
    }

    method PollOnce(a: Attempt) returns (result: Result)
      modifies this, tracker
      ensures (View(), result) == Polled(old(View()), a)
      ensures result.ok <==> (old(hasTransport) || a.factoryOk) && (a.linkUp || a.connectOk) && a.read.Some?
      ensures result.ok ==> connected && polledOnce && failures == 0
      ensures result.ok ==> tracker.online && Some(tracker.workState) == a.read
      ensures !result.ok ==> failures == old(failures) + 1 && tracker.workState == old(tracker.workState)
      ensures result.connected == connected && (result.ok ==> !result.reportFailure)
    {
      var linked := EnsureConnected(a);
      if !linked {
        result := PollFailed();
        return;
      }
      if a.read.None? {
        result := PollFailed();
        return;
      }
      polledOnce := true;
      failures := 0;
      var status := tracker.ObserveOnline(a.read.value);
      connected := true;
      return Result(true, false, true, status);
    }

    method PollFailed() returns (result: Result)
      modifies this`failures, this`connected, tracker
      ensures (View(), result) == Failed(old(View()))
    {
      failures := failures + 1;
      if connected && failures < FAILURES_TO_OFFLINE {
        return Result(false, false, connected, None);
      }
      var status := tracker.ObserveOffline();
      connected := false;
      return Result(false, status.Some? || !polledOnce, false, status);
    }
  }

  // ---------------------------------------------------------------------------
  // Runs: any mixture of configuring, cleaning up and polling
  // ---------------------------------------------------------------------------

  datatype Step = DoConfigure(attempt: Attempt) | DoCleanup | DoPoll(attempt: Attempt)

  function Next(s: State, step: Step): State {
    match step
    case DoConfigure(a) => Configured(s, a)
    case DoCleanup => Cleaned(s)
    case DoPoll(a) => Polled(s, a).0
  }

  function Told(s: State, step: Step): seq<Status> {
    if step.DoPoll? && Polled(s, step.attempt).1.status.Some? then [Polled(s, step.attempt).1.status.value] else []
  }

  function After(steps: seq<Step>): State {
    if steps == [] then INITIAL else Next(After(steps[..|steps| - 1]), steps[|steps| - 1])
  }

  /** Every status transition told so far. */
  function Statuses(steps: seq<Step>): seq<Status> {
    if steps == [] then []
    else
      var front := steps[..|steps| - 1];
      Statuses(front) + Told(After(front), steps[|steps| - 1])
  }

  /** The snapshot and the tracker agree. In every run: a connected snapshot means an online
      tracker; the two are equal after every poll; and they stay equal for the rest of the
      configure epoch once one poll has succeeded. */
  lemma {:induction false} SnapshotAgreesWithTracker(steps: seq<Step>)
    ensures var s := After(steps);
      && (s.connected ==> s.online)
      && (s.polledOnce ==> s.connected == s.online && s.hasTransport)
      && (steps != [] && steps[|steps| - 1].DoPoll? ==> s.connected == s.online)
  {
    if steps == [] {
    } else {
      SnapshotAgreesWithTracker(steps[..|steps| - 1]);
    }
  }

  /** A configure since the last poll failed to link. */
  predicate ConfigureFailed(steps: seq<Step>) {
    steps != [] &&
    var front := steps[..|steps| - 1];
    match steps[|steps| - 1]
    case DoPoll(_) => false
    case DoCleanup => ConfigureFailed(front)
    case DoConfigure(a) => ConfigureFailed(front) || !Links(Cleaned(After(front)), a)
  }

  /** Exactly when they agree: in every run, unless the battery was online and a configure has
      failed since the last poll. */
  lemma {:induction false} AgreementExactly(steps: seq<Step>)
    ensures var s := After(steps);
      s.connected == s.online <==> !(s.online && ConfigureFailed(steps))
  {
    if steps == [] {
    } else {
      AgreementExactly(steps[..|steps| - 1]);
      SnapshotAgreesWithTracker(steps[..|steps| - 1]);
      SnapshotAgreesWithTracker(steps);
    }
  }

  /** A run after which they disagree. */
  lemma FailedConfigureDisagrees()
    ensures var good, bad := Attempt(true, true, true, Some(7)), Attempt(false, false, false, None);
      var s := After([DoPoll(good), DoConfigure(bad)]);
      s.online && !s.connected
  {
    var good, bad := Attempt(true, true, true, Some(7)), Attempt(false, false, false, None);
    var steps := [DoPoll(good), DoConfigure(bad)];
    assert steps[..1] == [DoPoll(good)];
    assert steps[..1][..0] == [];
  }

  // ---------------------------------------------------------------------------
  // One failure event per outage
  // ---------------------------------------------------------------------------

  function Failures(s: State, attempts: seq<Attempt>): State {
    if attempts == [] then s else Polled(Failures(s, attempts[..|attempts| - 1]), attempts[|attempts| - 1]).0
  }

  /** An outage: polls that all fail. A transport once made stays, so failing to link then means
      failing to connect. */
  predicate AllFail(attempts: seq<Attempt>) {
    forall i :: 0 <= i < |attempts| ==> !LinkedFails(attempts[i]) ==> attempts[i].read.None?
  }

  predicate LinkedFails(a: Attempt) { !a.linkUp && !a.connectOk }

  /** Enough to call the battery offline: three failures, or one failure to connect. */
  predicate Conclusive(attempts: seq<Attempt>) {
    |attempts| >= FAILURES_TO_OFFLINE || exists i :: 0 <= i < |attempts| && LinkedFails(attempts[i])
  }

  /** The number of failure events reported during an outage. */
  function Reports(s: State, attempts: seq<Attempt>): nat {
    if attempts == [] then 0
    else
      var front := attempts[..|attempts| - 1];
      Reports(s, front) + if Polled(Failures(s, front), attempts[|attempts| - 1]).1.reportFailure then 1 else 0
  }

  lemma ConclusiveGrows(attempts: seq<Attempt>)
    requires attempts != []
    ensures var front, last := attempts[..|attempts| - 1], attempts[|attempts| - 1];
      Conclusive(attempts) <==> Conclusive(front) || LinkedFails(last) || |front| + 1 >= FAILURES_TO_OFFLINE
  {
    var front := attempts[..|attempts| - 1];
    if i :| 0 <= i < |attempts| && LinkedFails(attempts[i]) {
      assert i < |front| ==> LinkedFails(front[i]);
    }
    if i :| 0 <= i < |front| && LinkedFails(front[i]) {
      assert LinkedFails(attempts[i]);
    }
  }

  /** During an outage after a success, snapshot and tracker go offline together, at the first
      conclusive failure. */
  lemma {:induction false} OutageState(s: State, attempts: seq<Attempt>)
    requires s.hasTransport && s.connected && s.online && s.polledOnce && s.failures == 0
    requires AllFail(attempts)
    ensures var after := Failures(s, attempts);
      && after.hasTransport && after.polledOnce && after.failures == |attempts|
      && after.connected == after.online == !Conclusive(attempts)
      && after.workState == s.workState
    ensures Reports(s, attempts) == if Conclusive(attempts) then 1 else 0
  {
    if attempts == [] {
    } else {
      OutageState(s, attempts[..|attempts| - 1]);
      ConclusiveGrows(attempts);
    }
  }

  /** One failure event per outage. After any run ending in a successful poll, a stretch of failed
      polls is reported once if it has three failures or a failure to connect, and not at all
      otherwise; and the next successful poll announces the battery online exactly when the
      stretch was reported. */
  lemma OneReportPerOutage(steps: seq<Step>, attempts: seq<Attempt>, recovery: Attempt)
    requires steps != [] && steps[|steps| - 1].DoPoll?
    requires Succeeds(After(steps[..|steps| - 1]), steps[|steps| - 1].attempt)
    requires AllFail(attempts)
    ensures var s := After(steps);
      && Reports(s, attempts) == (if Conclusive(attempts) then 1 else 0)
      && (Succeeds(Failures(s, attempts), recovery) ==>
            var status := Polled(Failures(s, attempts), recovery).1.status;
            status.Some? && status.value.Online? <==> Reports(s, attempts) == 1)
  {
    OutageState(After(steps), attempts);
  }

  /** Before an epoch's first success every failed poll is reported, except those held back
      because the snapshot is still connected from the epoch before. */
  lemma {:induction false} FirstFailuresAreReported(s: State, a: Attempt, attempts: seq<Attempt>, next: Attempt)
    requires s.connected ==> s.online
    requires forall i :: 0 <= i < |attempts| ==> !Succeeds(Failures(Configured(s, a), attempts[..i]), attempts[i])
    requires !Succeeds(Failures(Configured(s, a), attempts), next)
    ensures var before := Failures(Configured(s, a), attempts);
      && !before.polledOnce && before.failures == |attempts|
      && (Polled(before, next).1.reportFailure <==>
            !(before.connected && Links(before, next) && |attempts| + 1 < FAILURES_TO_OFFLINE))
  {
    if attempts == [] {
    } else {
      var last := |attempts| - 1;
      var front := attempts[..last];
      forall i | 0 <= i < |front| ensures !Succeeds(Failures(Configured(s, a), front[..i]), front[i]) {
        assert front[..i] == attempts[..i];
      }
      FirstFailuresAreReported(s, a, front, attempts[last]);
    }
  }

  // ---------------------------------------------------------------------------
  // The announcements tell the whole story
  // ---------------------------------------------------------------------------

  /** What a listener knows from the announcements alone: the work state, while online. */
  function Known(statuses: seq<Status>): Option<nat> {
    if statuses == [] then None
    else
      match statuses[|statuses| - 1]
      case Online(workState) => Some(workState)
      case Offline(_) => None
      case WorkStateChanged(_, after) => Some(after)
  }

  /** An announcement is news, and agrees with what was announced before it. */
  predicate Fits(known: Option<nat>, status: Status) {
    match status
    case Online(_) => known == None
    case Offline(workState) => known == Some(workState)
    case WorkStateChanged(before, after) => known == Some(before) && before != after
  }

  predicate Chained(statuses: seq<Status>) {
    forall i :: 0 <= i < |statuses| ==> Fits(Known(statuses[..i]), statuses[i])
  }

  function Actual(s: State): Option<nat> {
    if s.online then Some(s.workState) else None
  }

  /** In every run online and offline alternate, every work-state change starts where the last
      announcement left off, nothing is announced twice, and a listener who knows only the
      announcements knows the tracker's state. */
  lemma {:induction false} AnnouncementsChain(steps: seq<Step>)
    ensures Chained(Statuses(steps))
    ensures Known(Statuses(steps)) == Actual(After(steps))
  {
    if steps == [] {
    } else {
      var front := steps[..|steps| - 1];
      AnnouncementsChain(front);
      ToldFits(After(front), steps[|steps| - 1]);
      ChainsFurther(Statuses(front), Told(After(front), steps[|steps| - 1]));
    }
  }

  lemma ToldFits(s: State, step: Step)
    ensures var told := Told(s, step);
      && |told| <= 1
      && (told == [] ==> Actual(Next(s, step)) == Actual(s))
      && (told != [] ==> Fits(Actual(s), told[0]) && Known(told) == Actual(Next(s, step)))
  {
  }

  lemma ChainsFurther(statuses: seq<Status>, told: seq<Status>)
    requires Chained(statuses) && |told| <= 1
    requires told != [] ==> Fits(Known(statuses), told[0])
    ensures Chained(statuses + told)
    ensures Known(statuses + told) == if told == [] then Known(statuses) else Known(told)
  {
    if told == [] {
      assert statuses + told == statuses;
    } else {
      var grown := statuses + told;
      assert grown[..|statuses|] == statuses;
      forall i | 0 <= i < |statuses| ensures Fits(Known(grown[..i]), grown[i]) {
        assert grown[..i] == statuses[..i];
      }
    }
  }
}
