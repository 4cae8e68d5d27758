/** The asynchronous state cache of the ROS lifecycle adapter: queries carry a token and the
    generation at which they were sent, and replies may arrive late. Handlers are atomic. */
module StateQuery {
  import opened Lifecycle

  /** What a handler left in the log. `Sent` carries the token; a reply answers one token. */
  datatype Event =
    | Sent(token: nat)
    | SendFailed(token: nat)
    | Expired(token: nat)
    | Replied(token: nat, reply: Reply<LifecycleState>)
    | Transitioned(goal: LifecycleState)       // a transition event of the driver
    | Completed(actual: LifecycleState)        // a change_state call that observed its result

  datatype Query = Query(token: nat, generation: nat)

  /** `queries` are the callbacks handed to the client, with what they captured. */
  datatype CacheState = CacheState(
    value: LifecycleState, generation: nat, inFlight: bool, token: nat, active: nat,
    queries: seq<Query>, log: seq<Event>)

  datatype Step =
    | Refresh(ready: bool, deadlinePassed: bool, sends: bool)
    | Reply(query: Query, reply: Lifecycle.Reply<LifecycleState>)
    | TransitionEvent(goal: LifecycleState)
    | TransitionCompleted(actual: LifecycleState)

  // ---------------------------------------------------------------------------
  // Meaning of the handlers
  // ---------------------------------------------------------------------------

  function AfterExpiry(s: CacheState): CacheState {
    s.(generation := s.generation + 1, inFlight := false, log := s.log + [Expired(s.active)])
  }

  /** Send a query; a client that throws leaves no query in flight. */
  function AfterSend(s: CacheState, sends: bool): CacheState {
    var token := s.token + 1;
    if sends then
      s.(token := token, active := token, inFlight := true,
         queries := s.queries + [Query(token, s.generation)], log := s.log + [Sent(token)])
    else
      s.(token := token, active := token, inFlight := false, log := s.log + [SendFailed(token)])
  }

  function AfterRefresh(s: CacheState, ready: bool, deadlinePassed: bool, sends: bool): CacheState {
    if !ready || (s.inFlight && !deadlinePassed) then s
    else AfterSend(if s.inFlight then AfterExpiry(s) else s, sends)
  }

  function AfterReply(s: CacheState, query: Query, reply: Lifecycle.Reply<LifecycleState>): CacheState {
    var current := s.generation == query.generation && s.active == query.token;
    s.(value := if reply.Returned? && current then reply.value else s.value,
       inFlight := s.inFlight && s.active != query.token,
       log := s.log + [Replied(query.token, reply)])
  }

  function AfterTransition(s: CacheState, goal: LifecycleState, e: Event): CacheState {
    s.(generation := s.generation + 1, value := goal, log := s.log + [e])
  }

  /** A reply needs a query that was sent and not answered before; it may have expired. */
  ghost predicate Enabled(s: CacheState, step: Step) {
    match step
    case Reply(query, _) => query in s.queries && !Answered(s.log, query.token)
    case _ => true
  }

  function Next(s: CacheState, step: Step): CacheState {
    match step
    case Refresh(ready, deadlinePassed, sends) => AfterRefresh(s, ready, deadlinePassed, sends)
    case Reply(query, reply) => AfterReply(s, query, reply)
    case TransitionEvent(goal) => AfterTransition(s, goal, Transitioned(goal))
    case TransitionCompleted(actual) => AfterTransition(s, actual, Completed(actual))
  }

  const INITIAL := CacheState(Unknown, 0, false, 0, 0, [], [])

  ghost predicate Runs(s: CacheState, steps: seq<Step>)
    decreases |steps|
  {
    steps == [] || (Enabled(s, steps[0]) && Runs(Next(s, steps[0]), steps[1..]))
  }

  function Reached(s: CacheState, steps: seq<Step>): CacheState
    decreases |steps|
  {
    if steps == [] then s else Reached(Next(s, steps[0]), steps[1..])
  }

  // ---------------------------------------------------------------------------
  // The mutable cache
  // ---------------------------------------------------------------------------

  class StateCache {
    var value: LifecycleState
    var generation: nat
    var queryInFlight: bool
    var queryToken: nat
    var activeQueryToken: nat
    ghost var queries: seq<Query>
    ghost var log: seq<Event>

    ghost function View(): CacheState
      reads this
    {
      CacheState(value, generation, queryInFlight, queryToken, activeQueryToken, queries, log)
    }

    constructor ()
      ensures View() == INITIAL
    {
      value, generation, queryInFlight, queryToken, activeQueryToken := Unknown, 0, false, 0, 0;
      queries, log := [], [];
    }

    /** `sent` is the callback registered with the client, if the client did not throw. */
    method RefreshState(ready: bool, deadlinePassed: bool, sends: bool) returns (sent: Option<Query>)
      modifies this
      ensures View() == AfterRefresh(old(View()), ready, deadlinePassed, sends)
      ensures sent.Some? <==> ready && (!old(queryInFlight) || deadlinePassed) && sends
      ensures sent.Some? ==> sent.value == Query(activeQueryToken, generation) && queries == old(queries) + [sent.value]
      ensures sent.None? ==> queries == old(queries)
    {
      if !ready {
        return None;
      }
      if queryInFlight {
        if !deadlinePassed {
          return None;
        }
        log := log + [Expired(activeQueryToken)];
        generation := generation + 1;
        queryInFlight := false;
      }
      queryInFlight := true;
      queryToken := queryToken + 1;
      activeQueryToken := queryToken;
      var capturedGeneration := generation;
      if sends {
        var query := Query(activeQueryToken, capturedGeneration);
        queries, log := queries + [query], log + [Sent(activeQueryToken)];
        return Some(query);
      }
      log := log + [SendFailed(activeQueryToken)];
      queryInFlight := false;
      return None;
    }

    method OnReply(query: Query, reply: Lifecycle.Reply<LifecycleState>)
      modifies this
      ensures View() == AfterReply(old(View()), query, reply)
    {
      if reply.Returned? && generation == query.generation && activeQueryToken == query.token {
        value := reply.value;
      }
      if activeQueryToken == query.token {
        queryInFlight := false;
      }
      log := log + [Replied(query.token, reply)];
    }

    method OnTransitionEvent(goal: LifecycleState)
      modifies this
      ensures View() == AfterTransition(old(View()), goal, Transitioned(goal))
    {
      generation := generation + 1;
      value := goal;
      log := log + [Transitioned(goal)];
    }

    /** The tail of `request_transition`, once the follow-up get_state has answered. */
    method OnTransitionCompleted(actual: LifecycleState, target: LifecycleState) returns (result: TransitionResult)
      modifies this
      ensures View() == AfterTransition(old(View()), actual, Completed(actual))
      ensures result == if actual == target then Success else Failure
    {
      generation := generation + 1;
      value := actual;
      log := log + [Completed(actual)];
      return if actual == target then Success else Failure;
    }
  }

  // ---------------------------------------------------------------------------
  // Reading the log
  // ---------------------------------------------------------------------------

  predicate Invalidates(e: Event) {
    e.Transitioned? || e.Completed? || e.Expired?
  }

  ghost predicate Answered(log: seq<Event>, token: nat) {
    exists i :: 0 <= i < |log| && log[i].Replied? && log[i].token == token
  }

  function CountInvalidations(log: seq<Event>): nat {
    if log == [] then 0
    else CountInvalidations(log[..|log| - 1]) + if Invalidates(log[|log| - 1]) then 1 else 0
  }

  /** A query attempt: it took a new token, whether the client sent it or threw. */
  predicate Tokened(e: Event) {
    e.Sent? || e.SendFailed?
  }

  /** Token `token` was sent at index `i`. */
  ghost predicate SentAt(log: seq<Event>, i: int, token: nat) {
    0 <= i < |log| && log[i] == Sent(token)
  }

  ghost predicate NoInvalidationAfter(log: seq<Event>, i: int) {
    forall j :: 0 <= i < j < |log| ==> !Invalidates(log[j])
  }

  ghost predicate NoSendAfter(log: seq<Event>, i: int) {
    forall j :: 0 <= i < j < |log| ==> !Tokened(log[j])
  }

  /** The query is the newest one and nothing has invalidated it since it was sent. */
  ghost predicate Fresh(log: seq<Event>, token: nat) {
    exists i :: SentAt(log, i, token) && NoSendAfter(log, i) && NoInvalidationAfter(log, i)
  }

  /** Sent, not answered and not expired. */
  ghost predicate Live(log: seq<Event>, token: nat) {
    && (exists i :: SentAt(log, i, token))
    && !Answered(log, token)
    && !(exists i :: 0 <= i < |log| && log[i] == Expired(token))
  }

  // ---------------------------------------------------------------------------
  // The invariant
  // ---------------------------------------------------------------------------

  /** A registered callback was sent at some index, with the generation of that instant. */
  ghost predicate QueryOk(log: seq<Event>, query: Query, i: int) {
    SentAt(log, i, query.token) && query.generation == CountInvalidations(log[..i])
  }

  ghost predicate TokensOk(log: seq<Event>, top: nat) {
    && (forall i :: 0 <= i < |log| && Tokened(log[i]) ==> log[i].token <= top)
    && (forall i, j :: 0 <= i < j < |log| && Tokened(log[i]) && Tokened(log[j]) ==> log[i].token < log[j].token)
    && (forall i :: 0 <= i < |log| && log[i].Replied? ==> log[i].token <= top)
    && (forall i :: 0 <= i < |log| && log[i].Expired? ==> log[i].token <= top)
  }

  /** The newest attempt is the one with the active token. */
  ghost predicate NewestAttempt(log: seq<Event>, token: nat) {
    token > 0 ==> exists i :: 0 <= i < |log| && Tokened(log[i]) && log[i].token == token
  }

  /** Only the newest query can be live. */
  ghost predicate OldAreDead(log: seq<Event>, top: nat) {
    forall i :: 0 <= i < |log| && log[i].Sent? && log[i].token < top ==> !Live(log, log[i].token)
  }

  ghost predicate QueriesOk(log: seq<Event>, queries: seq<Query>) {
    forall q :: q in queries ==> exists i :: QueryOk(log, q, i)
  }

  ghost predicate Inv(s: CacheState) {
    && s.generation == CountInvalidations(s.log)
    && QueriesOk(s.log, s.queries)
    && TokensOk(s.log, s.token)
    && s.active == s.token
    && NewestAttempt(s.log, s.token)
    && (s.inFlight <==> Live(s.log, s.token))
    && OldAreDead(s.log, s.token)
  }

  // ---------------------------------------------------------------------------
  // Preservation
  // ---------------------------------------------------------------------------

  lemma CountGrows(log: seq<Event>, e: Event)
    ensures CountInvalidations(log + [e]) == CountInvalidations(log) + if Invalidates(e) then 1 else 0
  {
    assert (log + [e])[..|log|] == log;
  }

  lemma {:induction false} CountSplit(log: seq<Event>, i: nat)
    requires i <= |log|
    ensures CountInvalidations(log[..i]) <= CountInvalidations(log)
    ensures CountInvalidations(log[..i]) == CountInvalidations(log)
            <==> forall j :: i <= j < |log| ==> !Invalidates(log[j])
  {
    if i < |log| {
      var prefix := log[..|log| - 1];
      CountSplit(prefix, i);
      assert prefix[..i] == log[..i];
      assert forall j :: i <= j < |prefix| ==> prefix[j] == log[j];
    } else {
      assert log[..i] == log;
    }
  }

  lemma QueriesGrow(log: seq<Event>, queries: seq<Query>, e: Event)
    requires QueriesOk(log, queries)
    ensures QueriesOk(log + [e], queries)
  {
    forall q | q in queries ensures exists i :: QueryOk(log + [e], q, i) {
      var i :| QueryOk(log, q, i);
      assert (log + [e])[..i] == log[..i];
      assert QueryOk(log + [e], q, i);
    }
  }

  lemma TokensGrow(log: seq<Event>, top: nat, e: Event, top': nat)
    requires TokensOk(log, top) && top <= top'
    requires Tokened(e) ==> top < e.token <= top'
    requires e.Replied? || e.Expired? ==> e.token <= top'
    ensures TokensOk(log + [e], top')
  {
  }

  lemma AttemptStays(log: seq<Event>, token: nat, e: Event)
    requires NewestAttempt(log, token)
    ensures NewestAttempt(log + [e], token)
  {
    if token > 0 {
      var i :| 0 <= i < |log| && Tokened(log[i]) && log[i].token == token;
      assert (log + [e])[i] == log[i];
    }
  }

  /** One more event revives no older query. */
  lemma OldStayDead(log: seq<Event>, top: nat, e: Event, top': nat)
    requires OldAreDead(log, top) && TokensOk(log, top) && top <= top'
    requires Tokened(e) ==> e.token == top' > top
    requires top' > top ==> !Live(log, top)
    requires forall i :: 0 <= i < |log| && Tokened(log[i]) ==> log[i].token <= top
    ensures OldAreDead(log + [e], top')
  {
    var longer := log + [e];
    forall i | 0 <= i < |longer| && longer[i].Sent? && longer[i].token < top' ensures !Live(longer, longer[i].token) {
      assert i < |log| && longer[i] == log[i];
      LiveGrows(log, e, longer[i].token);
    }
  }

  /** Liveness of a token after one more event. */
  lemma LiveGrows(log: seq<Event>, e: Event, token: nat)
    ensures Live(log + [e], token) <==>
            (Live(log, token) || (e == Sent(token) && !Answered(log, token)
                                  && !(exists i :: 0 <= i < |log| && log[i] == Expired(token))))
            && !(e.Replied? && e.token == token) && e != Expired(token)
  {
    var longer := log + [e];
    assert longer[|log|] == e;
    assert forall i :: 0 <= i < |log| ==> longer[i] == log[i];
    if i :| SentAt(log, i, token) { assert SentAt(longer, i, token); }
    if i :| SentAt(longer, i, token) { assert i < |log| ==> SentAt(log, i, token); }
    if e == Sent(token) { assert SentAt(longer, |log|, token); }
    if Answered(log, token) {
      var i :| 0 <= i < |log| && log[i].Replied? && log[i].token == token;
      assert longer[i].Replied? && longer[i].token == token;
    }
    if i :| 0 <= i < |log| && log[i] == Expired(token) { assert longer[i] == Expired(token); }
  }

  /** A token above every token used so far is unanswered and unexpired. */
  lemma FreshTokenIsClean(log: seq<Event>, top: nat, token: nat)
    requires TokensOk(log, top) && top < token
    ensures !Answered(log, token) && !Live(log, token)
    ensures !(exists i :: 0 <= i < |log| && log[i] == Expired(token))
  {
    if i :| SentAt(log, i, token) {
      assert Tokened(log[i]);
    }
  }

  /** What every event that takes no new token keeps. */
  lemma EventKeeps(s: CacheState, e: Event)
    requires Inv(s) && !Tokened(e)
    requires e.Replied? || e.Expired? ==> e.token <= s.token
    ensures var log := s.log + [e];
      && CountInvalidations(log) == s.generation + (if Invalidates(e) then 1 else 0)
      && QueriesOk(log, s.queries) && TokensOk(log, s.token) && NewestAttempt(log, s.token)
      && OldAreDead(log, s.token)
      && (Live(log, s.token) <==> s.inFlight && !(e.Replied? && e.token == s.token) && e != Expired(s.token))
  {
    CountGrows(s.log, e);
    QueriesGrow(s.log, s.queries, e);
    TokensGrow(s.log, s.token, e, s.token);
    AttemptStays(s.log, s.token, e);
    OldStayDead(s.log, s.token, e, s.token);
    LiveGrows(s.log, e, s.token);
  }

  lemma TransitionKeeps(s: CacheState, goal: LifecycleState, e: Event)
    requires Inv(s) && (e.Transitioned? || e.Completed?)
    ensures Inv(AfterTransition(s, goal, e))
  {
    EventKeeps(s, e);
  }

  lemma ReplyKeeps(s: CacheState, query: Query, reply: Lifecycle.Reply<LifecycleState>)
    requires Inv(s) && Enabled(s, Reply(query, reply))
    ensures Inv(AfterReply(s, query, reply))
  {
    var at :| QueryOk(s.log, query, at);
    assert Tokened(s.log[at]);
    EventKeeps(s, Replied(query.token, reply));
  }

  /** The in-flight query runs into its deadline: afterwards nothing is live. */
  lemma ExpiryKeeps(s: CacheState)
    requires Inv(s)
    ensures Inv(AfterExpiry(s)) && !AfterExpiry(s).inFlight
  {
    EventKeeps(s, Expired(s.active));
  }

  /** The newest attempt is live exactly if the client really sent it. */
  lemma NewTokenLives(log: seq<Event>, top: nat, e: Event)
    requires TokensOk(log, top) && Tokened(e) && e.token == top + 1
    ensures Live(log + [e], e.token) <==> e.Sent?
    ensures NewestAttempt(log + [e], e.token)
    ensures TokensOk(log + [e], e.token)
  {
    FreshTokenIsClean(log, top, e.token);
    LiveGrows(log, e, e.token);
    TokensGrow(log, top, e, e.token);
    assert (log + [e])[|log|] == e;
  }

  lemma SendKeeps(s: CacheState, sends: bool)
    requires Inv(s) && !s.inFlight
    ensures Inv(AfterSend(s, sends))
  {
    var token := s.token + 1;
    var e := if sends then Sent(token) else SendFailed(token);
    NewTokenLives(s.log, s.token, e);
    CountGrows(s.log, e);
    QueriesGrow(s.log, s.queries, e);
    OldStayDead(s.log, s.token, e, token);
    if sends {
      QueryRegistered(s.log, s.queries, Query(token, s.generation));
    }
  }

  lemma QueryRegistered(log: seq<Event>, queries: seq<Query>, query: Query)
    requires QueriesOk(log + [Sent(query.token)], queries) && query.generation == CountInvalidations(log)
    ensures QueriesOk(log + [Sent(query.token)], queries + [query])
  {
    var longer := log + [Sent(query.token)];
    assert longer[..|log|] == log;
    assert QueryOk(longer, query, |log|);
  }

  lemma StepKeeps(s: CacheState, step: Step)
    requires Inv(s) && Enabled(s, step)
    ensures Inv(Next(s, step))
  {
    match step
    case Refresh(ready, deadlinePassed, sends) =>
      if ready && (!s.inFlight || deadlinePassed) {
        if s.inFlight {
          ExpiryKeeps(s);
          SendKeeps(AfterExpiry(s), sends);
        } else {
          SendKeeps(s, sends);
        }
      }
    case Reply(query, reply) => ReplyKeeps(s, query, reply);
    case TransitionEvent(goal) => TransitionKeeps(s, goal, Transitioned(goal));
    case TransitionCompleted(actual) => TransitionKeeps(s, actual, Completed(actual));
  }

  lemma {:induction false} RunKeeps(s: CacheState, steps: seq<Step>)
    requires Inv(s) && Runs(s, steps)
    ensures Inv(Reached(s, steps))
    decreases |steps|
  {
    if steps == [] {
    } else {
      StepKeeps(s, steps[0]);
      RunKeeps(Next(s, steps[0]), steps[1..]);
    }
  }

  // ---------------------------------------------------------------------------
  // Main results
  // ---------------------------------------------------------------------------

  /** The token and generation test is exactly freshness: it passes if and only if the query is
      the newest one and no transition event, completed transition or expiry came after it. */
  lemma GuardMeansFresh(s: CacheState, query: Query)
    requires Inv(s) && query in s.queries
    ensures s.generation == query.generation && s.active == query.token <==> Fresh(s.log, query.token)
  {
    var at :| QueryOk(s.log, query, at);
    CountSplit(s.log, at);
    assert Tokened(s.log[at]);
    var newest :| 0 <= newest < |s.log| && Tokened(s.log[newest]) && s.log[newest].token == s.token;
    if s.generation == query.generation && s.active == query.token {
      forall j | at < j < |s.log| ensures !Tokened(s.log[j]) {}
      assert NoSendAfter(s.log, at) && NoInvalidationAfter(s.log, at);
    }
    if Fresh(s.log, query.token) {
      var i :| SentAt(s.log, i, query.token) && NoSendAfter(s.log, i) && NoInvalidationAfter(s.log, i);
      assert i == at;
      assert newest <= at;
    }
  }

  /** A get_state reply writes the cached state exactly when it answers a fresh query. */
  lemma ReplyWritesIffFresh(steps: seq<Step>, query: Query, state: LifecycleState)
    requires Runs(INITIAL, steps) && Enabled(Reached(INITIAL, steps), Reply(query, Returned(state)))
    ensures var s := Reached(INITIAL, steps);
      AfterReply(s, query, Returned(state)).value == if Fresh(s.log, query.token) then state else s.value
  {
    RunKeeps(INITIAL, steps);
    GuardMeansFresh(Reached(INITIAL, steps), query);
  }

  /** A query expires only after it was sent. */
  ghost predicate ExpiriesFollow(log: seq<Event>) {
    forall i, j :: 0 <= i < |log| && 0 <= j < |log| && log[i].Expired? && log[j] == Sent(log[i].token) ==> j < i
  }

  /** A new token has not expired yet, and an expiry comes after everything before it. */
  lemma ExpiriesGrow(log: seq<Event>, e: Event, top: nat)
    requires ExpiriesFollow(log) && TokensOk(log, top) && (e.Sent? ==> e.token > top)
    ensures ExpiriesFollow(log + [e])
  {
  }

  lemma StepExpiries(s: CacheState, step: Step)
    requires Inv(s) && ExpiriesFollow(s.log) && Enabled(s, step)
    ensures ExpiriesFollow(Next(s, step).log)
  {
    match step {
      case Refresh(ready, deadlinePassed, sends) =>
        if ready && (!s.inFlight || deadlinePassed) {
          var idle := if s.inFlight then AfterExpiry(s) else s;
          ExpiryKeeps(s);
          ExpiriesGrow(s.log, Expired(s.active), s.token);
          ExpiriesGrow(idle.log, if sends then Sent(s.token + 1) else SendFailed(s.token + 1), s.token);
        }
      case Reply(query, reply) => ExpiriesGrow(s.log, Replied(query.token, reply), s.token);
      case TransitionEvent(goal) => ExpiriesGrow(s.log, Transitioned(goal), s.token);
      case TransitionCompleted(actual) => ExpiriesGrow(s.log, Completed(actual), s.token);
    }
  }

  lemma {:induction false} ExpiriesFollowInRuns(s: CacheState, steps: seq<Step>)
    requires Inv(s) && ExpiriesFollow(s.log) && Runs(s, steps)
    ensures ExpiriesFollow(Reached(s, steps).log)
    decreases |steps|
  {
    if steps == [] {
    } else {
      StepKeeps(s, steps[0]);
      StepExpiries(s, steps[0]);
      ExpiriesFollowInRuns(Next(s, steps[0]), steps[1..]);
    }
  }

  /** A late reply to an expired query changes neither the cache nor the in-flight flag. */
  lemma ExpiredRepliesAreIgnored(steps: seq<Step>, query: Query, reply: Lifecycle.Reply<LifecycleState>)
    requires Runs(INITIAL, steps) && Enabled(Reached(INITIAL, steps), Reply(query, reply))
    requires Expired(query.token) in Reached(INITIAL, steps).log
    ensures var s := Reached(INITIAL, steps);
      var t := AfterReply(s, query, reply);
      t.value == s.value && t.inFlight == s.inFlight && t.generation == s.generation
  {
    RunKeeps(INITIAL, steps);
    ExpiriesFollowInRuns(INITIAL, steps);
    var s := Reached(INITIAL, steps);
    GuardMeansFresh(s, query);
    var at :| QueryOk(s.log, query, at);
    var expiry :| 0 <= expiry < |s.log| && s.log[expiry] == Expired(query.token);
    assert !Live(s.log, query.token);
    assert at < expiry;
    assert Invalidates(s.log[expiry]);
  }

  lemma OnlyNewestLives(s: CacheState, token: nat)
    requires Inv(s)
    ensures Live(s.log, token) <==> s.inFlight && token == s.active
  {
    if Live(s.log, token) {
      var i :| SentAt(s.log, i, token);
      assert Tokened(s.log[i]);
    }
  }

  /** At most one outstanding query is ever live: it is the newest one, and it is live exactly
      while the in-flight flag is set. */
  lemma AtMostOneLiveQuery(steps: seq<Step>, token: nat)
    requires Runs(INITIAL, steps)
    ensures var s := Reached(INITIAL, steps);
      Live(s.log, token) <==> s.inFlight && token == s.active
  {
    RunKeeps(INITIAL, steps);
    OnlyNewestLives(Reached(INITIAL, steps), token);
  }

  /** A refresh that finds no query in flight, or one past its deadline. */
  predicate Due(s: CacheState, ready: bool, deadlinePassed: bool) {
    ready && (!s.inFlight || deadlinePassed)
  }

  /** The state after a due refresh: what is in flight expires, which invalidates it, and then a new
      attempt is made, with a token above every earlier one. */
  ghost predicate Replaces(s: CacheState, t: CacheState, sends: bool) {
    && t.log == (if s.inFlight then s.log + [Expired(s.active)] else s.log)
                + [if sends then Sent(t.token) else SendFailed(t.token)]
    && t.generation == (if s.inFlight then s.generation + 1 else s.generation)
    && (forall i :: 0 <= i < |s.log| && Tokened(s.log[i]) ==> s.log[i].token < t.token)
    && t.queries == (if sends then s.queries + [Query(t.token, t.generation)] else s.queries)
    && t.inFlight == sends && t.value == s.value
  }

  lemma NewestIsFresh(s: CacheState, t: CacheState)
    requires Replaces(s, t, true)
    ensures Fresh(t.log, t.token)
  {
    var last := |t.log| - 1;
    assert SentAt(t.log, last, t.token) && NoSendAfter(t.log, last) && NoInvalidationAfter(t.log, last);
  }

  lemma AttemptReplaces(s: CacheState, deadlinePassed: bool, sends: bool)
    requires Inv(s) && Due(s, true, deadlinePassed)
    ensures Replaces(s, AfterRefresh(s, true, deadlinePassed, sends), sends)
  {
    var t := AfterRefresh(s, true, deadlinePassed, sends);
    assert t.token == s.token + 1;
  }

  /** What lives after a replacement. */
  lemma ReplacedLives(s: CacheState, t: CacheState, sends: bool)
    requires Inv(s) && Inv(t) && Replaces(s, t, sends)
    ensures s.inFlight ==> Live(s.log, s.active) && !Live(t.log, s.active)
    ensures sends ==> Fresh(t.log, t.token) && Live(t.log, t.token)
    ensures !sends ==> forall token: nat :: !Live(t.log, token)
  {
    if sends {
      NewestIsFresh(s, t);
    }
    forall token: nat ensures Live(t.log, token) <==> t.inFlight && token == t.active {
      OnlyNewestLives(t, token);
    }
    if s.inFlight {
      OnlyNewestLives(s, s.active);
      var i :| SentAt(s.log, i, s.active);
      assert Tokened(s.log[i]);
    }
  }

  /** The live query is given up and the new one, if sent, takes its place. */
  ghost predicate Succeeds(s: CacheState, t: CacheState, sends: bool) {
    && Replaces(s, t, sends)
    && (s.inFlight ==> Live(s.log, s.active) && !Live(t.log, s.active))
    && (sends ==> Fresh(t.log, t.token) && Live(t.log, t.token))
    && (!sends ==> forall token: nat :: !Live(t.log, token))
  }

  lemma RefreshSucceeds(s: CacheState, deadlinePassed: bool, sends: bool)
    requires Inv(s) && Due(s, true, deadlinePassed)
    ensures Succeeds(s, AfterRefresh(s, true, deadlinePassed, sends), sends)
  {
    StepKeeps(s, Refresh(true, deadlinePassed, sends));
    AttemptReplaces(s, deadlinePassed, sends);
    ReplacedLives(s, AfterRefresh(s, true, deadlinePassed, sends), sends);
  }

  /** A lost reply does not block the cache. In every reachable state: a refresh that is due makes
      the one live query, if there is one, expire, and bumps the generation exactly then; if the
      client sends, the new query is the newest of all, fresh and live. A refresh that is not due
      changes nothing and sends nothing. */
  lemma DueRefreshReplaces(steps: seq<Step>, ready: bool, deadlinePassed: bool, sends: bool)
    requires Runs(INITIAL, steps)
    ensures var s := Reached(INITIAL, steps);
      var t := Next(s, Refresh(ready, deadlinePassed, sends));
      if Due(s, ready, deadlinePassed) then Succeeds(s, t, sends) else t == s
  {
    RunKeeps(INITIAL, steps);
    if Due(Reached(INITIAL, steps), ready, deadlinePassed) {
      RefreshSucceeds(Reached(INITIAL, steps), deadlinePassed, sends);
    }
  }

  /** Progress: a due refresh that is sent, and a reply to it, leave the replied state in the cache
      and nothing in flight, so that the next refresh is due again. */
  lemma RefreshThenReplyUpdates(steps: seq<Step>, deadlinePassed: bool, state: LifecycleState)
    requires Runs(INITIAL, steps) && Due(Reached(INITIAL, steps), true, deadlinePassed)
    ensures var t := Next(Reached(INITIAL, steps), Refresh(true, deadlinePassed, true));
      var query := Query(t.token, t.generation);
      var u := AfterReply(t, query, Returned(state));
      && Enabled(t, Reply(query, Returned(state)))
      && u.value == state && !u.inFlight && Due(u, true, false)
  {
    DueRefreshReplaces(steps, true, deadlinePassed, true);
    var t := Next(Reached(INITIAL, steps), Refresh(true, deadlinePassed, true));
    assert t.queries[|t.queries| - 1] == Query(t.token, t.generation);
  }

  /** What a step makes of the cached value: a transition sets it, a reply does if it answers a fresh
      query, and a refresh never does. */
  ghost function Cached(s: CacheState, step: Step): LifecycleState {
    match step
    case TransitionEvent(goal) => goal
    case TransitionCompleted(actual) => actual
    case Reply(query, Returned(state)) => if Fresh(s.log, query.token) then state else s.value
    case _ => s.value
  }

  lemma InvalidatedIsStale(log: seq<Event>, e: Event, token: nat)
    requires Invalidates(e)
    ensures !Fresh(log + [e], token)
  {
    assert (log + [e])[|log|] == e;
  }

  /** The cached value in every run: each step leaves what it should, and after a transition no query
      sent before can write it any more. */
  lemma EveryStepSetsTheValue(steps: seq<Step>, step: Step)
    requires Runs(INITIAL, steps) && Enabled(Reached(INITIAL, steps), step)
    ensures var s := Reached(INITIAL, steps);
      var t := Next(s, step);
      && t.value == Cached(s, step)
      && (step.TransitionEvent? || step.TransitionCompleted? ==> forall token: nat :: !Fresh(t.log, token))
  {
    var s := Reached(INITIAL, steps);
    match step
    case Reply(query, reply) =>
      if reply.Returned? {
        ReplyWritesIffFresh(steps, query, reply.value);
      }
    case Refresh(_, _, _) =>
    case TransitionEvent(goal) =>
      forall token: nat ensures !Fresh(Next(s, step).log, token) {
        InvalidatedIsStale(s.log, Transitioned(goal), token);
      }
    case TransitionCompleted(actual) =>
      forall token: nat ensures !Fresh(Next(s, step).log, token) {
        InvalidatedIsStale(s.log, Completed(actual), token);
      }
  }
}
