/** What an instance receives, and how the router reads it off the log. */
module Polling {
  import opened Events

  /** The wire name of an event type. */
  function TypeName(kind: Kind): (name: string) {
    match kind
    case ComponentFailed => "component.failed"
    case ComponentBackoff => "component.backoff"
    case ComponentRecovered => "component.recovered"
    case CognitionResourceExhausted => "cognition.resource-exhausted"
    case OperatorJobControl => "operator.job-control"
    case OperatorAttemptReconciled => "operator.attempt-reconciled"
    case ObservationReceived => "observation.received"
    case PolicyDecision => "policy.decision"
    case CredentialEnrollmentRequested => "credential.enrollment.requested"
    case ActivityAttempted => "activity.attempted"
    case ActivityUnknown => "activity.unknown"
    case CapabilityDenied => "capability.denied"
    case CapabilityTimedOut => "capability.timed-out"
    case CapabilityCancelled => "capability.cancelled"
    case StreamClosed => "stream.closed"
    case AgentFailed => "agent.failed"
    case CredentialEnrollmentStarted => "credential.enrollment.started"
    case HttpRequestReceived => "http.request.received"
    case HttpResponseRequested => "http.response.requested"
    case CapabilityRequested => "capability.requested"
    case ModelRequested => "model.requested"
    case CapabilityOutput => "capability.output"
    case CapabilityCompleted => "capability.completed"
    case CapabilityFailed => "capability.failed"
    case ModelStream => "model.stream"
    case ModelCompleted => "model.completed"
    case ModelFailed => "model.failed"
    case CognitionCheckpoint => "cognition.checkpoint"
    case CognitionJobUpdated => "cognition.job-updated"
    case CognitionObservationAssociated => "cognition.observation-associated"
    case CognitionCancelRequested => "cognition.cancel-requested"
    case CognitionCompleted => "cognition.completed"
    case CognitionFailed => "cognition.failed"
    case MemoryRemembered => "memory.remembered"
    case MemorySuperseded => "memory.superseded"
    case MemoryForgotten => "memory.forgotten"
    case CodeCloseRequested => "code.close-requested"
    case CodeClosed => "code.closed"
    case CodeEvaluateRequested => "code.evaluate-requested"
    case CodeYielded => "code.yielded"
    case CodeResumed => "code.resumed"
    case CodeCompleted => "code.completed"
    case CodeFailed => "code.failed"
    case TimerSet => "timer.set"
    case TimerCancel => "timer.cancel"
    case TimerFired => "timer.fired"
    case ScheduleUpdated => "schedule.updated"
  }

  datatype Subscriptions = Subscriptions(
    wholeStream: bool,
    eventTypes: seq<string>,
    capabilities: seq<string>,
    models: seq<string>
  )

  datatype Registration = Registration(instance: string, subscriptions: Subscriptions)

  datatype RouterError = UnknownInstance(instance: string)

  /** An exact name, a `prefix.*` wildcard, or `*`. */
  predicate MatchesPattern(pattern: string, name: string) {
    if pattern == "*" then true
    else if |pattern| >= 2 && pattern[|pattern| - 2..] == ".*" then
      var prefix := pattern[..|pattern| - 2];
      prefix <= name && |name| > |prefix| && name[|prefix|] == '.'
    else pattern == name
  }

  predicate Accepts(s: Subscriptions, e: Event) {
    || s.wholeStream
    || (exists i :: 0 <= i < |s.eventTypes| && MatchesPattern(s.eventTypes[i], TypeName(e.request.kind)))
    || (TypeName(e.request.kind) == "capability.requested"
        && Field(e, "capability").Some? && Field(e, "capability").value in s.capabilities)
    || (TypeName(e.request.kind) == "model.requested"
        && Field(e, "model").Some? && Field(e, "model").value in s.models)
  }

  /** A fired timer belongs to the instance that set it. */
  predicate OwnsTimer(log: Log, instance: string, e: Event) {
    if TypeName(e.request.kind) != "timer.fired" then true
    else if Field(e, "requestEventId").None? then false
    else
      var set_ := WithId(log, Field(e, "requestEventId").value);
      set_.Some? && TypeName(set_.value.request.kind) == "timer.set" && set_.value.request.actor.id == instance
  }

  /** The event is a fired timer that names a timer the instance set. */
  ghost predicate OwnTimer(log: Log, instance: string, e: Event) {
    exists x :: x in log && x.request.kind.TimerSet? && x.request.actor.id == instance && Field(e, "requestEventId") == Some(x.id)
  }

  /** What an instance is entitled to receive, by event kind. */
  ghost predicate Entitled(log: Log, r: Registration, e: Event) {
    && (|| r.subscriptions.wholeStream
        || (exists pattern :: pattern in r.subscriptions.eventTypes && MatchesPattern(pattern, TypeName(e.request.kind)))
        || (e.request.kind.CapabilityRequested? && exists c :: c in r.subscriptions.capabilities && Field(e, "capability") == Some(c))
        || (e.request.kind.ModelRequested? && exists m :: m in r.subscriptions.models && Field(e, "model") == Some(m)))
    && (e.request.kind.TimerFired? ==> OwnTimer(log, r.instance, e))
  }

  lemma ReceivesMeans(log: Log, r: Registration, e: Event)
    requires Valid(log)
    ensures Receives(log, r)(e) <==> Entitled(log, r, e)
  {
    OnlyRequestsRequest(e.request.kind);
    OnlyModelRequests(e.request.kind);
    OnlyFiredFires(e.request.kind);
    if e.request.kind.TimerFired? {
      TimerMeans(log, r.instance, e);
    }
  }

  lemma TimerMeans(log: Log, instance: string, e: Event)
    requires Valid(log) && e.request.kind.TimerFired?
    ensures OwnsTimer(log, instance, e) <==> OwnTimer(log, instance, e)
  {
    OnlyFiredFires(e.request.kind);
    var id := Field(e, "requestEventId");
    if id.Some? && WithId(log, id.value).Some? {
      var x := WithId(log, id.value).value;
      OnlySetSets(x.request.kind);
      forall y | y in log && y.id == id.value
        ensures y == x
      {
        IdsUnique(log, x, y);
      }
    }
  }

  /** What the instance receives: the specification both poll branches meet. */
  function Receives(log: Log, r: Registration): (want: Event -> bool) {
    (e: Event) => Accepts(r.subscriptions, e) && OwnsTimer(log, r.instance, e)
  }

  function Lookup(registrations: seq<Registration>, instance: string): (r: Option<Registration>)
    ensures r.Some? ==> r.value in registrations && r.value.instance == instance
    ensures r.None? <==> forall x :: x in registrations ==> x.instance != instance
  {
    if registrations == [] then None
    else if registrations[0].instance == instance then Some(registrations[0])
    else Lookup(registrations[1..], instance)
  }

  /** Everything the indexed query asks for by name. */
  function QueriedTypes(s: Subscriptions): (types: seq<string>) {
    s.eventTypes
    + (if s.capabilities != [] then ["capability.requested"] else [])
    + (if s.models != [] then ["model.requested"] else [])
  }

  predicate Wildcard(s: Subscriptions) {
    s.wholeStream || exists i :: 0 <= i < |QueriedTypes(s)| && '*' in QueriedTypes(s)[i]
  }

  /** Reads the next events the instance receives. */
  method Poll(log: Log, registrations: seq<Registration>, instance: string, checkpoint: nat, limit: nat)
    returns (result: Result<seq<Event>, RouterError>)
    requires Valid(log)
    ensures result.Err? <==> Lookup(registrations, instance).None?
    ensures result.Ok? ==>
              result.value == Page(log, checkpoint, Receives(log, Lookup(registrations, instance).value), limit)
    ensures result.Ok? ==> forall e :: e in result.value ==>
              e in log && checkpoint < e.sequence && Entitled(log, Lookup(registrations, instance).value, e)
  {
    var found := Lookup(registrations, instance);
    if found.None? {
      return Err(UnknownInstance(instance));
    }
    var types := QueriedTypes(found.value.subscriptions);
    var wildcard := Wildcard(found.value.subscriptions);
    if !wildcard && types == [] {
      NothingReceived(log, found.value, checkpoint);
      PolledEntitled(log, found.value, checkpoint, limit);
      return Ok([]);
    }
    var queried := (e: Event) => wildcard || TypeName(e.request.kind) in types;
    QueryCovers(log, found.value, queried);
    var matched := PollPages(log, queried, Receives(log, found.value), checkpoint, limit);
    PolledEntitled(log, found.value, checkpoint, limit);
    return Ok(matched);
  }

  lemma PolledEntitled(log: Log, r: Registration, checkpoint: nat, limit: nat)
    requires Valid(log)
    ensures forall e :: e in Page(log, checkpoint, Receives(log, r), limit) ==>
              e in log && checkpoint < e.sequence && Entitled(log, r, e)
  {
    var all := Rest(log, checkpoint, Receives(log, r));
    forall e | e in Page(log, checkpoint, Receives(log, r), limit)
      ensures e in log && checkpoint < e.sequence && Entitled(log, r, e)
    {
      assert e in all;
      RangeMember(log, checkpoint, |log|, Receives(log, r), e);
      ReceivesMeans(log, r, e);
    }
  }

  /** The page loop: whatever the query returns is filtered again, until the limit or the end. */
  method PollPages(log: Log, queried: Event -> bool, receives: Event -> bool, checkpoint: nat, limit: nat)
    returns (matched: seq<Event>)
    requires Gapless(log)
    requires forall e :: receives(e) ==> queried(e)
    ensures matched == Page(log, checkpoint, receives, limit)
  {
    ghost var all := Rest(log, checkpoint, receives);
    var after := checkpoint;
    matched := [];
    while |matched| < limit
      invariant |matched| <= limit
      invariant matched + Rest(log, after, receives) == all || (|matched| == limit && matched <= all)
      decreases if after <= |log| then |log| - after else 0, limit - |matched|
    {
      var page := Page(log, after, queried, limit);
      PageSplits(log, after, queried, limit);
      if page == [] {
        Refilter(log, after, |log|, queried, receives);
        break;
      }
      ghost var rest := Rest(log, Last(page), receives);
      Refilter(log, after, Last(page), queried, receives);
      RangeSplit(log, after, Last(page), |log|, receives);
      TakeGrows(matched, Select(page, receives), rest, limit);
      after := Last(page);
      matched := Fill(matched, page, receives, limit);
    }
  }

  lemma TakeGrows(matched: seq<Event>, more: seq<Event>, rest: seq<Event>, limit: nat)
    ensures var grown := Take(matched + more, limit);
            || grown + rest == matched + (more + rest)
            || (|grown| == limit && grown <= matched + (more + rest))
  {
    var grown := Take(matched + more, limit);
    assert (matched + more) + rest == matched + (more + rest);
    assert matched + more == grown + (matched + more)[|grown|..];
  }

  /** Adds the received events of one page, stopping at the limit. */
  method Fill(before: seq<Event>, page: seq<Event>, receives: Event -> bool, limit: nat) returns (matched: seq<Event>)
    requires |before| < limit
    ensures matched == Take(before + Select(page, receives), limit)
  {
    matched := before;
    for i := 0 to |page|
      invariant matched == before + Range(page, 0, i, receives)
      invariant |matched| < limit
    {
      RangeStep(page, 0, i, receives);
      if receives(page[i]) {
        matched := matched + [page[i]];
        if |matched| == limit {
          RangeSplit(page, 0, i + 1, |page|, receives);
          return;
        }
      }
    }
  }

  /** The indexed query, or the sequential read, misses nothing the instance receives. */
  lemma QueryCovers(log: Log, r: Registration, queried: Event -> bool)
    requires forall e :: queried(e) <==> Wildcard(r.subscriptions) || TypeName(e.request.kind) in QueriedTypes(r.subscriptions)
    ensures forall e :: Receives(log, r)(e) ==> queried(e)
  {
    var s := r.subscriptions;
    forall e | Receives(log, r)(e) && !Wildcard(s)
      ensures TypeName(e.request.kind) in QueriedTypes(s)
    {
      var name := TypeName(e.request.kind);
      if i :| 0 <= i < |s.eventTypes| && MatchesPattern(s.eventTypes[i], name) {
        assert QueriedTypes(s)[i] == s.eventTypes[i];
        LiteralPattern(s.eventTypes[i], name);
      }
    }
  }

  lemma NothingReceived(log: Log, r: Registration, checkpoint: nat)
    requires !Wildcard(r.subscriptions) && QueriedTypes(r.subscriptions) == []
    ensures Rest(log, checkpoint, Receives(log, r)) == []
  {
    var received := Rest(log, checkpoint, Receives(log, r));
    if received != [] {
      RangeMember(log, checkpoint, |log|, Receives(log, r), received[0]);
    }
  }

  /** A pattern without `*` matches only itself. */
  lemma LiteralPattern(pattern: string, name: string)
    requires '*' !in pattern
    ensures MatchesPattern(pattern, name) <==> pattern == name
  {
    assert |pattern| >= 2 ==> pattern[|pattern| - 2..][1] == pattern[|pattern| - 1];
  }

  /** A single star matches every name. */
  lemma StarPattern(name: string)
    ensures MatchesPattern("*", name)
  {
  }

  /** A `prefix.*` pattern matches exactly the names below that segment. */
  lemma WildcardPattern(prefix: string, name: string)
    ensures MatchesPattern(prefix + ".*", name) <==> exists rest :: name == prefix + "." + rest
  {
    var pattern := prefix + ".*";
    assert pattern[|pattern| - 2..] == ".*";
    assert pattern[..|pattern| - 2] == prefix;
    if prefix <= name && |name| > |prefix| && name[|prefix|] == '.' {
      var rest := name[|prefix| + 1..];
      assert name == prefix + "." + rest;
    }
  }

  /** Type names are told apart by their kinds. */
  lemma OnlyRequestsRequest(kind: Kind)
    ensures TypeName(kind) == "capability.requested" <==> kind.CapabilityRequested?
  {
  }

  lemma OnlyModelRequests(kind: Kind)
    ensures TypeName(kind) == "model.requested" <==> kind.ModelRequested?
  {
  }

  lemma OnlyFiredFires(kind: Kind)
    ensures TypeName(kind) == "timer.fired" <==> kind.TimerFired?
  {
  }

  lemma OnlySetSets(kind: Kind)
    ensures TypeName(kind) == "timer.set" <==> kind.TimerSet?
  {
  }
}
