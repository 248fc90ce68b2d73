/** Resolution of a request's authority along its causation chain. */
module Origins {
  import opened Events
  import opened Authority

  const CHAIN_LIMIT := 4096

  /** An event together with the stream it is stored in. */
  datatype Stored = Stored(stream: string, event: Event)

  /** `get` over every stream. */
  type Store = map<string, Stored>

  /** What a derived observation promises about the observation it came from. */
  datatype Promise = Promise(origin: string, value: Json)

  predicate SameOrigin(a: Json, b: Json) {
    && a.At("provider") == b.At("provider")
    && a.At("externalSenderId") == b.At("externalSenderId")
    && a.At("conversationId") == b.At("conversationId")
    && (Trusted(a) <==> Trusted(b))
  }

  predicate Keeps(promise: Option<Promise>, e: Event, value: Json) {
    promise.Some? ==> e.id == promise.value.origin && SameOrigin(value, promise.value.value)
  }

  /** What one turn of the loop finds at an event. */
  datatype Look = Done(result: Result<Authority, OriginError>) | Climb(parent: Stored, promise: Option<Promise>)

  function LookAt(config: Config, store: Store, at: Stored, promise: Option<Promise>): (l: Look) {
    if at.stream != config.agent.id then Done(Err(OtherAgent))
    else if !at.event.request.kind.ObservationReceived? then Parent(store, at.event, promise)
    else
      var connector := ConnectorOf(config.connectors, at.event.request.actor);
      if connector.None? then Done(Err(UnrecognizedConnector))
      else if !at.event.request.payload.Doc? then Done(Err(InvalidObservation))
      else
        var value := at.event.request.payload.value;
        if !Keeps(promise, at.event, value) then Done(Err(ChangesOrigin))
        else if !connector.value.inheritsOrigin then Done(Issue(config, at.event))
        else if !value.At("originEventId").Str? then Done(Err(NeedsOriginId))
        else Parent(store, at.event, Some(Promise(value.At("originEventId").s, value)))
  }

  function Parent(store: Store, e: Event, promise: Option<Promise>): (l: Look) {
    if e.request.causation.None? then Done(Err(NoOrigin))
    else if e.request.causation.value !in store then Done(Err(NotFound))
    else
      var parent := store[e.request.causation.value];
      if parent.event.sequence >= e.sequence then Done(Err(InvalidChain)) else Climb(parent, promise)
  }

  function ResolveFrom(config: Config, store: Store, at: Stored, promise: Option<Promise>, turns: nat): (r: Result<Authority, OriginError>)
    decreases turns
  {
    if turns == 0 then Err(ChainTooLong)
    else
      match LookAt(config, store, at, promise)
      case Done(result) => result
      case Climb(parent, next) => ResolveFrom(config, store, parent, next, turns - 1)
  }

  /** The bounded walk from a request to its root observation. */
  method Resolve(config: Config, store: Store, event: Stored) returns (r: Result<Authority, OriginError>)
    ensures r == ResolveFrom(config, store, event, None, CHAIN_LIMIT)
  {
    var origin := event;
    var inherited := None;
    for turn := 0 to CHAIN_LIMIT
      invariant ResolveFrom(config, store, origin, inherited, CHAIN_LIMIT - turn) ==
                ResolveFrom(config, store, event, None, CHAIN_LIMIT)
    {
      match LookAt(config, store, origin, inherited) {
        case Done(result) => return result;
        case Climb(parent, next) => origin, inherited := parent, next;
      }
    }
    return Err(ChainTooLong);
  }

  // What a successful resolution says about the log.

  /** Each event of the chain is caused by the next, older one. */
  ghost predicate Caused(store: Store, chain: seq<Stored>) {
    forall i, j :: 0 <= i && j == i + 1 < |chain| ==> CausedBy(store, chain[i].event, chain[j])
  }

  ghost predicate CausedBy(store: Store, e: Event, parent: Stored) {
    && e.request.causation.Some? && e.request.causation.value in store
    && parent == store[e.request.causation.value] && parent.event.sequence < e.sequence
  }

  predicate IsObservation(s: Stored) {
    s.event.request.kind.ObservationReceived?
  }

  function ValueOf(s: Stored): (v: Json) {
    if s.event.request.payload.Doc? then s.event.request.payload.value else Null
  }

  predicate Inherits(config: Config, s: Stored) {
    var c := ConnectorOf(config.connectors, s.event.request.actor);
    c.Some? && c.value.inheritsOrigin
  }

  /** The first observation at or after a position of the chain. */
  function FirstObservation(chain: seq<Stored>, i: nat): (j: nat)
    requires i < |chain| && IsObservation(chain[|chain| - 1])
    ensures i <= j < |chain| && IsObservation(chain[j]) && forall k :: i <= k < j ==> !IsObservation(chain[k])
    decreases |chain| - i
  {
    if IsObservation(chain[i]) then i else FirstObservation(chain, i + 1)
  }

  /** Two payloads agree on provider, sender and conversation, and both or neither say they are untrusted. */
  ghost predicate Agrees(a: Payload, b: Payload) {
    && a.Doc? && b.Doc?
    && (forall name :: name in {"provider", "externalSenderId", "conversationId"} ==> a.value.At(name) == b.value.At(name))
    && (SaysUntrusted(a) <==> SaysUntrusted(b))
  }

  lemma AgreesMeans(a: Payload, b: Payload)
    requires a.Doc? && b.Doc?
    ensures SameOrigin(a.value, b.value) <==> Agrees(a, b)
  {
    TrustedMeans(a);
    TrustedMeans(b);
    assert Agrees(a, b) ==> "provider" in {"provider", "externalSenderId", "conversationId"};
  }

  /** A derived observation names the next observation of the chain as its origin and agrees with it. */
  ghost predicate Derives(config: Config, chain: seq<Stored>, i: nat)
    requires i < |chain| - 1 && IsObservation(chain[|chain| - 1])
  {
    var origin := chain[FirstObservation(chain, i + 1)];
    && chain[i].event.request.payload.Doc? && Inherits(config, chain[i])
    && ValueOf(chain[i]).At("originEventId") == Str(origin.event.id)
    && Agrees(origin.event.request.payload, chain[i].event.request.payload)
  }

  /** The root issues fresh authority: a readable observation of a connector that does not inherit. */
  ghost predicate IsRoot(config: Config, s: Stored) {
    && IsObservation(s) && s.event.request.payload.Doc? && !Inherits(config, s)
    && ConnectorOf(config.connectors, s.event.request.actor).Some?
  }

  /**
    A causation chain from an event to a root observation, with every
    observation in between derived from the next.
  */
  ghost predicate Chain(config: Config, store: Store, chain: seq<Stored>) {
    && chain != [] && Caused(store, chain) && IsRoot(config, chain[|chain| - 1])
    && OwnStream(config, chain) && AllDerived(config, chain)
  }

  ghost predicate OwnStream(config: Config, chain: seq<Stored>) {
    forall i :: 0 <= i < |chain| ==> chain[i].stream == config.agent.id
  }

  ghost predicate AllDerived(config: Config, chain: seq<Stored>)
    requires chain != [] && IsObservation(chain[|chain| - 1])
  {
    forall i {:trigger Derives(config, chain, i)} ::
      0 <= i < |chain| - 1 && IsObservation(chain[i]) ==> Derives(config, chain, i)
  }

  /** The walk's open promise is kept by the first observation it meets. */
  ghost predicate KeepsPromise(chain: seq<Stored>, promise: Option<Promise>)
    requires chain != [] && IsObservation(chain[|chain| - 1])
  {
    var first := chain[FirstObservation(chain, 0)];
    Keeps(promise, first.event, ValueOf(first))
  }

  lemma {:induction false} FirstShifts(at: Stored, rest: seq<Stored>, i: nat)
    requires i < |rest| && IsObservation(rest[|rest| - 1])
    ensures FirstObservation([at] + rest, i + 1) == FirstObservation(rest, i) + 1
    decreases |rest| - i
  {
    if !IsObservation(rest[i]) {
      FirstShifts(at, rest, i + 1);
    }
  }

  /** What it takes for the walk to go on from `at` to `parent`. */
  ghost predicate Climbs(config: Config, store: Store, at: Stored, promise: Option<Promise>, parent: Stored, next: Option<Promise>) {
    && at.stream == config.agent.id && CausedBy(store, at.event, parent)
    && if IsObservation(at) then
         && at.event.request.payload.Doc? && Inherits(config, at) && Keeps(promise, at.event, ValueOf(at))
         && ValueOf(at).At("originEventId").Str?
         && next == Some(Promise(ValueOf(at).At("originEventId").s, ValueOf(at)))
       else next == promise
  }

  lemma ClimbMeaning(config: Config, store: Store, at: Stored, promise: Option<Promise>, parent: Stored, next: Option<Promise>)
    ensures LookAt(config, store, at, promise) == Climb(parent, next) <==> Climbs(config, store, at, promise, parent, next)
  {
  }

  lemma RootLook(config: Config, store: Store, root: Stored, promise: Option<Promise>)
    requires IsRoot(config, root) && root.stream == config.agent.id && Keeps(promise, root.event, ValueOf(root))
    ensures LookAt(config, store, root, promise) == Done(Issue(config, root.event))
  {
  }

  lemma DerivesShifts(config: Config, at: Stored, rest: seq<Stored>, i: nat)
    requires i < |rest| - 1 && IsObservation(rest[|rest| - 1])
    ensures Derives(config, [at] + rest, i + 1) <==> Derives(config, rest, i)
  {
    FirstShifts(at, rest, i + 1);
  }

  lemma CausedShifts(store: Store, at: Stored, rest: seq<Stored>)
    requires rest != []
    ensures Caused(store, [at] + rest) <==> CausedBy(store, at.event, rest[0]) && Caused(store, rest)
  {
    var chain := [at] + rest;
    assert forall i :: 0 <= i < |rest| ==> rest[i] == chain[i + 1];
    if Caused(store, chain) {
      assert CausedBy(store, chain[0].event, chain[1]);
      forall i | 0 <= i < |rest| - 1
        ensures CausedBy(store, rest[i].event, rest[i + 1])
      {
        assert CausedBy(store, chain[i + 1].event, chain[i + 2]);
      }
    }
  }

  lemma DerivedShifts(config: Config, at: Stored, rest: seq<Stored>)
    requires rest != [] && IsObservation(rest[|rest| - 1])
    ensures AllDerived(config, [at] + rest) <==>
              AllDerived(config, rest) && (IsObservation(at) ==> Derives(config, [at] + rest, 0))
  {
    var chain := [at] + rest;
    forall i | 0 <= i < |rest| - 1
      ensures rest[i] == chain[i + 1] && (Derives(config, chain, i + 1) <==> Derives(config, rest, i))
    {
      DerivesShifts(config, at, rest, i);
    }
    if AllDerived(config, rest) && (IsObservation(at) ==> Derives(config, chain, 0)) {
      forall i | 0 <= i < |chain| - 1 && IsObservation(chain[i])
        ensures Derives(config, chain, i)
      {
        assert i > 0 ==> chain[i] == rest[i - 1];
      }
    }
  }

  lemma OwnShifts(config: Config, at: Stored, rest: seq<Stored>)
    ensures OwnStream(config, [at] + rest) <==> at.stream == config.agent.id && OwnStream(config, rest)
  {
    var chain := [at] + rest;
    assert chain[0] == at && forall i :: 0 <= i < |rest| ==> rest[i] == chain[i + 1];
  }

  lemma ChainShifts(config: Config, store: Store, at: Stored, rest: seq<Stored>)
    requires rest != [] && IsObservation(rest[|rest| - 1])
    ensures Chain(config, store, [at] + rest) <==>
              && Chain(config, store, rest) && CausedBy(store, at.event, rest[0]) && at.stream == config.agent.id
              && (IsObservation(at) ==> Derives(config, [at] + rest, 0))
  {
    CausedShifts(store, at, rest);
    OwnShifts(config, at, rest);
    DerivedShifts(config, at, rest);
    assert ([at] + rest)[|rest|] == rest[|rest| - 1];
  }

  lemma ExtendChain(config: Config, store: Store, at: Stored, rest: seq<Stored>, promise: Option<Promise>, next: Option<Promise>)
    requires Chain(config, store, rest) && KeepsPromise(rest, next)
    requires Climbs(config, store, at, promise, rest[0], next)
    ensures Chain(config, store, [at] + rest) && KeepsPromise([at] + rest, promise)
  {
    FirstShifts(at, rest, 0);
    ChainShifts(config, store, at, rest);
    if IsObservation(at) {
      var first := FirstObservation(rest, 0);
      assert first < |rest| - 1 ==> Derives(config, rest, first);
      AgreesMeans(rest[first].event.request.payload, at.event.request.payload);
    }
  }

  /** A successful resolution has found a chain, and returns what its root issues. */
  lemma {:induction false} ResolveSound(config: Config, store: Store, at: Stored, promise: Option<Promise>, turns: nat)
    returns (chain: seq<Stored>)
    requires ResolveFrom(config, store, at, promise, turns).Ok?
    ensures Chain(config, store, chain) && chain[0] == at && |chain| <= turns && KeepsPromise(chain, promise)
    ensures Issue(config, chain[|chain| - 1].event) == ResolveFrom(config, store, at, promise, turns)
    decreases turns
  {
    match LookAt(config, store, at, promise)
    case Done(result) =>
      chain := [at];
    case Climb(parent, next) =>
      var rest := ResolveSound(config, store, parent, next, turns - 1);
      chain := [at] + rest;
      ClimbMeaning(config, store, at, promise, parent, next);
      ExtendChain(config, store, at, rest, promise, next);
  }

  lemma ResolveClimbs(config: Config, store: Store, at: Stored, promise: Option<Promise>, parent: Stored, next: Option<Promise>, turns: nat)
    requires Climbs(config, store, at, promise, parent, next)
    ensures ResolveFrom(config, store, at, promise, turns + 1) == ResolveFrom(config, store, parent, next, turns)
  {
    ClimbMeaning(config, store, at, promise, parent, next);
  }

  lemma ResolveRoot(config: Config, store: Store, chain: seq<Stored>, promise: Option<Promise>, turns: nat)
    requires Chain(config, store, chain) && KeepsPromise(chain, promise) && |chain| == 1
    ensures ResolveFrom(config, store, chain[0], promise, turns + 1) == Issue(config, chain[0].event)
  {
    RootLook(config, store, chain[0], promise);
  }

  /** Conversely, resolution returns what the root of any such chain issues. */
  lemma {:induction false} ResolveComplete(config: Config, store: Store, chain: seq<Stored>, promise: Option<Promise>, turns: nat)
    requires Chain(config, store, chain) && KeepsPromise(chain, promise) && |chain| <= turns
    ensures ResolveFrom(config, store, chain[0], promise, turns) == Issue(config, chain[|chain| - 1].event)
    decreases turns
  {
    if |chain| == 1 {
      ResolveRoot(config, store, chain, promise, turns - 1);
    } else {
      var rest, next := Unlink(config, store, chain, promise);
      ResolveClimbs(config, store, chain[0], promise, rest[0], next, turns - 1);
      ResolveComplete(config, store, rest, next, turns - 1);
    }
  }

  lemma Unlink(config: Config, store: Store, chain: seq<Stored>, promise: Option<Promise>)
    returns (rest: seq<Stored>, next: Option<Promise>)
    requires Chain(config, store, chain) && KeepsPromise(chain, promise) && |chain| > 1
    ensures Chain(config, store, rest) && KeepsPromise(rest, next)
    ensures |rest| == |chain| - 1 && rest[|rest| - 1] == chain[|chain| - 1]
    ensures Climbs(config, store, chain[0], promise, rest[0], next)
  {
    rest := chain[1..];
    assert chain == [chain[0]] + rest;
    next := ChainClimbs(config, store, chain[0], rest, promise);
  }

  lemma ChainClimbs(config: Config, store: Store, at: Stored, rest: seq<Stored>, promise: Option<Promise>)
    returns (next: Option<Promise>)
    requires rest != [] && Chain(config, store, [at] + rest) && KeepsPromise([at] + rest, promise)
    ensures Climbs(config, store, at, promise, rest[0], next) && Chain(config, store, rest) && KeepsPromise(rest, next)
  {
    assert ([at] + rest)[|rest|] == rest[|rest| - 1];
    ChainShifts(config, store, at, rest);
    FirstShifts(at, rest, 0);
    if IsObservation(at) {
      AgreesMeans(rest[FirstObservation(rest, 0)].event.request.payload, at.event.request.payload);
    }
    next := if IsObservation(at) then Some(Promise(ValueOf(at).At("originEventId").s, ValueOf(at))) else promise;
  }

  /** Every observation on the chain carries the root's provider, sender, conversation and trust. */
  lemma {:induction false} CarriesRoot(config: Config, store: Store, chain: seq<Stored>, i: nat)
    requires Chain(config, store, chain) && i < |chain| && IsObservation(chain[i])
    ensures Agrees(chain[|chain| - 1].event.request.payload, chain[i].event.request.payload)
    decreases |chain| - i
  {
    if i < |chain| - 1 {
      var origin := FirstObservation(chain, i + 1);
      CarriesRoot(config, store, chain, origin);
      assert Derives(config, chain, i);
    }
  }

  /**
    Origin resolution: `Resolve` succeeds with authority `a` exactly when some
    causation chain of at most 4096 events of the agent's own stream reaches a
    root observation that issues `a`.
  */
  lemma ResolveMeaning(config: Config, store: Store, event: Stored, a: Authority)
    ensures ResolveFrom(config, store, event, None, CHAIN_LIMIT) == Ok(a) <==>
              exists chain: seq<Stored> :: Chain(config, store, chain) && chain[0] == event && |chain| <= 4096
                && Issues(config, chain[|chain| - 1].event, a)
  {
    if ResolveFrom(config, store, event, None, CHAIN_LIMIT) == Ok(a) {
      var chain := ResolveSound(config, store, event, None, CHAIN_LIMIT);
      IssueMeans(config, chain[|chain| - 1].event, a);
    }
    forall chain: seq<Stored> | Chain(config, store, chain) && chain[0] == event && |chain| <= CHAIN_LIMIT
                                && Issues(config, chain[|chain| - 1].event, a)
      ensures ResolveFrom(config, store, event, None, CHAIN_LIMIT) == Ok(a)
    {
      ResolveComplete(config, store, chain, None, CHAIN_LIMIT);
      IssueMeans(config, chain[|chain| - 1].event, a);
    }
  }

  /** Extending the log does not change a resolved authority. */
  lemma ResolveStable(config: Config, store: Store, longer: Store, event: Stored)
    requires forall id :: id in store ==> id in longer && longer[id] == store[id]
    requires ResolveFrom(config, store, event, None, CHAIN_LIMIT).Ok?
    ensures ResolveFrom(config, longer, event, None, CHAIN_LIMIT) == ResolveFrom(config, store, event, None, CHAIN_LIMIT)
  {
    var chain := ResolveSound(config, store, event, None, CHAIN_LIMIT);
    assert Caused(longer, chain);
    ResolveComplete(config, longer, chain, None, CHAIN_LIMIT);
  }
}
