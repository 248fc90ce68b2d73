/**
  Admission of effects: any number of hosts call `admit_attempt` on one log,
  read it page by page, crash and retry. A request reaches a provider's
  `handle` only through an admitted call.
*/
module Admission {
  import opened Events
  import Decimal

  const PAGE := 100

  /** One `admit_attempt` call in progress on some host. */
  datatype Call = Call(
    request: Event,
    provider: string,
    inherent: bool,     // the provider declares the capability inherently idempotent
    delivering: bool,   // false for a quarantine, which ignores the answer
    stage: Stage
  )

  datatype Stage =
    | Scanning(after: nat)
    | Claiming
    | ReportUnknown
    | ReportFailed
    | Admitted(claim: Option<nat>)

  /** One call of a provider's `handle`. */
  datatype Handle = Handle(request: string, provider: string, claim: Option<nat>)

  datatype State = State(
    log: Log,
    calls: map<nat, Call>,
    nextClaim: nat,           // process, time and counter make every claim new
    declared: set<string>,    // requests some call found declared inherent
    handled: seq<Handle>
  )

  datatype Step =
    | Begin(call: nat, request: Event, provider: string, idempotency: map<string, string>, delivering: bool)
    | Scan(call: nat)
    | Claim(call: nat, now: int)
    | Report(call: nat, now: int)
    | Deliver(call: nat)
    | Return(call: nat)                     // the call ends, or its host crashes
    | Write(entry: Request, now: int)        // anyone else writes to the log

  predicate NeedsAdmission(kind: Kind) {
    kind.CapabilityRequested? || kind.ModelRequested? || kind.CodeEvaluateRequested?
  }

  function AttemptKey(request: Event): (key: string) {
    "attempt:" + request.id
  }

  function IsAttempt(): (want: Event -> bool) {
    (e: Event) => e.request.kind.ActivityAttempted?
  }

  predicate Inherent(request: Event, idempotency: map<string, string>) {
    var capability := Field(request, "capability");
    capability.Some? && capability.value in idempotency && idempotency[capability.value] == "inherent"
  }

  function AttemptRequest(call: Call, claim: nat): (r: Request) {
    HostEvent(call.request, ActivityAttempted, map["admissionClaim" := Str(Decimal.Render(claim))], AttemptKey(call.request))
  }

  function UnknownRequest(call: Call): (r: Request) {
    HostEvent(call.request, ActivityUnknown, map["requestEventId" := Str(call.request.id)], "unknown:" + call.request.id)
  }

  function FailedRequest(call: Call): (r: Request) {
    var kind := if call.request.request.kind.ModelRequested? then ModelFailed
                else if call.request.request.kind.CodeEvaluateRequested? then CodeFailed
                else CapabilityFailed;
    HostEvent(call.request, kind, map["requestEventId" := Str(call.request.id), "code" := Str("outcome-unknown")],
              "interrupted:" + call.request.id)
  }

  function ClaimOf(e: Event): (claim: Option<string>) {
    Field(e, "admissionClaim")
  }

  /** No stored claim is one that a later call will use. */
  ghost predicate Unclaimed(claim: Option<string>, next: nat) {
    forall n: nat :: n >= next ==> claim != Some(Decimal.Render(n))
  }

  ghost predicate Enabled(s: State, step: Step)
    requires Valid(s.log)
  {
    match step
    case Begin(c, request, _, _, _) => c !in s.calls && request in s.log && NeedsAdmission(request.request.kind)
    case Scan(c) => c in s.calls && s.calls[c].stage.Scanning?
    case Claim(c, _) => c in s.calls && s.calls[c].stage.Claiming?
    case Report(c, _) => c in s.calls && (s.calls[c].stage.ReportUnknown? || s.calls[c].stage.ReportFailed?)
    case Deliver(c) => c in s.calls && s.calls[c].stage.Admitted? && s.calls[c].delivering
    case Return(c) => c in s.calls
    case Write(request, _) => Unclaimed(Field(Event("", 0, 0, request), "admissionClaim"), s.nextClaim)
  }

  /** One page of the attempt scan. */
  function Scanned(log: Log, call: Call): (stage: Stage)
    requires call.stage.Scanning?
  {
    var page := Page(log, call.stage.after, IsAttempt(), PAGE);
    if page == [] then Claiming
    else if exists i :: 0 <= i < |page| && page[i].request.causation == Some(call.request.id) then
      if call.inherent then Admitted(None) else ReportUnknown
    else Scanning(Last(page))
  }

  ghost function Next(s: State, step: Step): (t: State)
    requires Valid(s.log) && Enabled(s, step)
  {
    match step
    case Begin(c, request, provider, idempotency, delivering) =>
      var inherent := Inherent(request, idempotency);
      s.(calls := s.calls[c := Call(request, provider, inherent, delivering, Scanning(0))],
         declared := if inherent then s.declared + {request.id} else s.declared)
    case Scan(c) =>
      s.(calls := s.calls[c := s.calls[c].(stage := Scanned(s.log, s.calls[c]))])
    case Claim(c, now) =>
      var call := s.calls[c];
      var a := Events.Append(s.log, AttemptRequest(call, s.nextClaim), now);
      var mine := ClaimOf(a.event) == Some(Decimal.Render(s.nextClaim));
      s.(log := a.log, nextClaim := s.nextClaim + 1,
         calls := if mine then s.calls[c := call.(stage := Admitted(Some(s.nextClaim)))] else s.calls - {c})
    case Report(c, now) =>
      var call := s.calls[c];
      if call.stage.ReportUnknown? then
        s.(log := Events.Append(s.log, UnknownRequest(call), now).log,
           calls := s.calls[c := call.(stage := ReportFailed)])
      else
        s.(log := Events.Append(s.log, FailedRequest(call), now).log, calls := s.calls - {c})
    case Deliver(c) =>
      var call := s.calls[c];
      s.(calls := s.calls - {c}, handled := s.handled + [Handle(call.request.id, call.provider, call.stage.claim)])
    case Return(c) => s.(calls := s.calls - {c})
    case Write(request, now) => s.(log := Events.Append(s.log, request, now).log)
  }

  ghost predicate Init(s: State) {
    && Valid(s.log) && s.calls == map[] && s.handled == [] && s.declared == {}
    && forall e :: e in s.log ==> Unclaimed(ClaimOf(e), s.nextClaim)
  }

  /** The log records `claim` as the one admitted for the request. */
  ghost predicate Holds(log: Log, request: string, claim: nat) {
    exists e :: e in log && Attempts(e, request)
      && e.request.key == Some("attempt:" + request) && ClaimOf(e) == Some(Decimal.Render(claim))
  }

  /** The event records an attempt at the request. */
  predicate Attempts(e: Event, request: string) {
    e.request.kind.ActivityAttempted? && e.request.causation == Some(request)
  }

  ghost predicate Inv(s: State) {
    && Valid(s.log)
    && (forall e :: e in s.log ==> Unclaimed(ClaimOf(e), s.nextClaim))
    && (forall c :: c in s.calls ==> CallInv(s, s.calls[c]))
    && (forall i :: 0 <= i < |s.handled| ==> HandleInv(s, s.handled[i]))
    && (forall i, j :: 0 <= i < j < |s.handled| ==> Differ(s.handled[i].claim, s.handled[j].claim))
    && (forall c, i :: c in s.calls && 0 <= i < |s.handled| && s.calls[c].stage.Admitted? ==>
          Differ(s.calls[c].stage.claim, s.handled[i].claim))
    && (forall c, d :: c in s.calls && d in s.calls && c != d && s.calls[c].stage.Admitted? && s.calls[d].stage.Admitted? ==>
          Differ(s.calls[c].stage.claim, s.calls[d].stage.claim))
  }

  predicate Differ(a: Option<nat>, b: Option<nat>) {
    a.Some? ==> a != b
  }

  ghost predicate CallInv(s: State, call: Call) {
    && (call.inherent ==> call.request.id in s.declared)
    && (call.stage.Admitted? ==> HandleInv(s, Handle(call.request.id, call.provider, call.stage.claim)))
  }

  ghost predicate HandleInv(s: State, h: Handle) {
    if h.claim.Some? then h.claim.value < s.nextClaim && Holds(s.log, h.request, h.claim.value)
    else h.request in s.declared && exists e :: e in s.log && Attempts(e, h.request)
  }

  lemma HandleKept(s: State, t: State, h: Handle)
    requires HandleInv(s, h) && s.log <= t.log && s.nextClaim <= t.nextClaim && s.declared <= t.declared
    ensures HandleInv(t, h)
  {
    assert forall e :: e in s.log ==> e in t.log;
  }

  /** A stored event without a future claim keeps the log unclaimed. */
  lemma AppendUnclaimed(log: Log, request: Request, now: int, next: nat)
    requires Valid(log) && forall e :: e in log ==> Unclaimed(ClaimOf(e), next)
    requires Unclaimed(Field(Event("", 0, 0, request), "admissionClaim"), next)
    ensures forall e :: e in Events.Append(log, request, now).log ==> Unclaimed(ClaimOf(e), next)
  {
    var a := Events.Append(log, request, now);
    assert ClaimOf(a.event) == Field(a.event, "admissionClaim");
  }

  /** The claim is held by no other call in progress and no past handle. */
  ghost predicate Unheld(s: State, c: nat, claim: Option<nat>) {
    && (forall i :: 0 <= i < |s.handled| ==> Differ(claim, s.handled[i].claim))
    && (forall d :: d in s.calls && d != c && s.calls[d].stage.Admitted? ==> Differ(claim, s.calls[d].stage.claim) && Differ(s.calls[d].stage.claim, claim))
  }

  lemma SetCall(s: State, c: nat, call: Call)
    requires Inv(s) && CallInv(s, call) && (call.stage.Admitted? ==> Unheld(s, c, call.stage.claim))
    ensures Inv(s.(calls := s.calls[c := call]))
  {
    var t := s.(calls := s.calls[c := call]);
    forall d | d in t.calls
      ensures CallInv(t, t.calls[d])
    {
      assert d != c ==> CallInv(s, s.calls[d]);
    }
  }

  lemma DropCall(s: State, c: nat)
    requires Inv(s)
    ensures Inv(s.(calls := s.calls - {c}))
  {
    var t := s.(calls := s.calls - {c});
    forall d | d in t.calls
      ensures CallInv(t, t.calls[d])
    {
      assert CallInv(s, s.calls[d]);
    }
  }

  /** More log, more claims used, more declared: what was known stays true. */
  lemma Grow(s: State, t: State)
    requires Inv(s) && Valid(t.log) && s.log <= t.log && s.nextClaim <= t.nextClaim && s.declared <= t.declared
    requires t.calls == s.calls && t.handled == s.handled
    requires forall e :: e in t.log ==> Unclaimed(ClaimOf(e), t.nextClaim)
    ensures Inv(t)
  {
    forall h | HandleInv(s, h)
      ensures HandleInv(t, h)
    {
      HandleKept(s, t, h);
    }
    forall d | d in t.calls
      ensures CallInv(t, t.calls[d])
    {
      assert CallInv(s, s.calls[d]);
    }
  }

  lemma ClaimUsed(log: Log, call: Call, n: nat, now: int)
    requires Valid(log) && forall e :: e in log ==> Unclaimed(ClaimOf(e), n)
    ensures forall e :: e in Events.Append(log, AttemptRequest(call, n), now).log ==> Unclaimed(ClaimOf(e), n + 1)
  {
    var a := Events.Append(log, AttemptRequest(call, n), now);
    forall m: nat | m > n
      ensures Decimal.Render(n) != Decimal.Render(m)
    {
      if Decimal.Render(n) == Decimal.Render(m) {
        Decimal.RenderInjective(n, m);
      }
    }
    forall e | e in a.log
      ensures Unclaimed(ClaimOf(e), n + 1)
    {
      assert e in log || e == a.event;
    }
  }

  /** A claim the log returns was stored, under the attempt's key. */
  lemma ClaimHeld(log: Log, call: Call, n: nat, now: int)
    requires Valid(log) && forall e :: e in log ==> ClaimOf(e) != Some(Decimal.Render(n))
    requires ClaimOf(Events.Append(log, AttemptRequest(call, n), now).event) == Some(Decimal.Render(n))
    ensures Holds(Events.Append(log, AttemptRequest(call, n), now).log, call.request.id, n)
  {
    var a := Events.Append(log, AttemptRequest(call, n), now);
    assert a.event in a.log && a.log != log;
  }

  /** A new claim is held by nobody yet. */
  lemma NewClaimUnheld(s: State, c: nat)
    requires Inv(s)
    ensures Unheld(s, c, Some(s.nextClaim))
  {
    forall d | d in s.calls && s.calls[d].stage.Admitted?
      ensures s.calls[d].stage.claim != Some(s.nextClaim)
    {
      assert CallInv(s, s.calls[d]);
    }
  }

  lemma AdmitCall(s: State, t: State, c: nat)
    requires Inv(s) && Inv(t) && c in s.calls && t == s.(log := t.log, nextClaim := s.nextClaim + 1)
    requires Holds(t.log, s.calls[c].request.id, s.nextClaim)
    ensures Inv(t.(calls := t.calls[c := s.calls[c].(stage := Admitted(Some(s.nextClaim)))]))
  {
    var call := s.calls[c].(stage := Admitted(Some(s.nextClaim)));
    NewClaimUnheld(s, c);
    assert Unheld(t, c, Some(s.nextClaim)) && CallInv(t, t.calls[c]);
    SetCall(t, c, call);
  }

  lemma ClaimStep(s: State, c: nat, now: int)
    requires Inv(s) && Enabled(s, Claim(c, now))
    ensures Inv(Next(s, Claim(c, now)))
  {
    var n, call := s.nextClaim, s.calls[c];
    var a := Events.Append(s.log, AttemptRequest(call, n), now);
    var t := s.(log := a.log, nextClaim := n + 1);
    ClaimUsed(s.log, call, n, now);
    Grow(s, t);
    var u := ClaimShape(s, c, now, t);
    if ClaimOf(a.event) == Some(Decimal.Render(n)) {
      ClaimHeld(s.log, call, n, now);
      AdmitCall(s, t, c);
    } else {
      DropCall(t, c);
    }
  }

  lemma ClaimShape(s: State, c: nat, now: int, t: State) returns (u: State)
    requires Valid(s.log) && Enabled(s, Claim(c, now))
    requires t == s.(log := Events.Append(s.log, AttemptRequest(s.calls[c], s.nextClaim), now).log, nextClaim := s.nextClaim + 1)
    ensures u == Next(s, Claim(c, now))
    ensures u == if ClaimOf(Events.Append(s.log, AttemptRequest(s.calls[c], s.nextClaim), now).event) == Some(Decimal.Render(s.nextClaim))
                 then t.(calls := t.calls[c := s.calls[c].(stage := Admitted(Some(s.nextClaim)))]) else t.(calls := t.calls - {c})
  {
    u := Next(s, Claim(c, now));
  }

  lemma LogStep(s: State, request: Request, now: int)
    requires Inv(s) && Unclaimed(Field(Event("", 0, 0, request), "admissionClaim"), s.nextClaim)
    ensures Inv(s.(log := Events.Append(s.log, request, now).log))
  {
    AppendUnclaimed(s.log, request, now, s.nextClaim);
    Grow(s, s.(log := Events.Append(s.log, request, now).log));
  }

  lemma ReportStep(s: State, c: nat, now: int)
    requires Inv(s) && Enabled(s, Report(c, now))
    ensures Inv(Next(s, Report(c, now)))
  {
    var call := s.calls[c];
    var entry := if call.stage.ReportUnknown? then UnknownRequest(call) else FailedRequest(call);
    LogStep(s, entry, now);
    var t := s.(log := Events.Append(s.log, entry, now).log);
    if call.stage.ReportUnknown? {
      assert CallInv(t, call);
      SetCall(t, c, call.(stage := ReportFailed));
    } else {
      DropCall(t, c);
    }
  }

  lemma ScanStep(s: State, c: nat)
    requires Inv(s) && Enabled(s, Scan(c))
    ensures Inv(Next(s, Scan(c)))
  {
    var call := s.calls[c];
    var page := Page(s.log, call.stage.after, IsAttempt(), PAGE);
    assert CallInv(s, call);
    if i :| 0 <= i < |page| && page[i].request.causation == Some(call.request.id) {
      PageGap(s.log, call.stage.after, IsAttempt(), PAGE, i);
      assert page[i] in s.log && Attempts(page[i], call.request.id);
    }
    SetCall(s, c, call.(stage := Scanned(s.log, call)));
  }

  lemma DeliverStep(s: State, c: nat)
    requires Inv(s) && Enabled(s, Deliver(c))
    ensures Inv(Next(s, Deliver(c)))
  {
    var call := s.calls[c];
    assert CallInv(s, call);
    DropCall(s, c);
    var t := s.(calls := s.calls - {c});
    Handled(t, Handle(call.request.id, call.provider, call.stage.claim));
  }

  lemma Handled(s: State, h: Handle)
    requires Inv(s) && HandleInv(s, h)
    requires forall i :: 0 <= i < |s.handled| ==> Differ(s.handled[i].claim, h.claim) && Differ(h.claim, s.handled[i].claim)
    requires forall d :: d in s.calls && s.calls[d].stage.Admitted? ==> Differ(s.calls[d].stage.claim, h.claim)
    ensures Inv(s.(handled := s.handled + [h]))
  {
    var t := s.(handled := s.handled + [h]);
    forall d | d in t.calls
      ensures CallInv(t, t.calls[d])
    {
      assert CallInv(s, s.calls[d]);
    }
    forall i | 0 <= i < |t.handled|
      ensures HandleInv(t, t.handled[i])
    {
      assert i < |s.handled| ==> HandleInv(s, s.handled[i]);
    }
  }

  lemma BeginStep(s: State, c: nat, request: Event, provider: string, idempotency: map<string, string>, delivering: bool)
    requires Inv(s)
    requires Enabled(s, Begin(c, request, provider, idempotency, delivering))
    ensures Inv(Next(s, Begin(c, request, provider, idempotency, delivering)))
  {
    var inherent := Inherent(request, idempotency);
    var t := s.(declared := if inherent then s.declared + {request.id} else s.declared);
    Grow(s, t);
    SetCall(t, c, Call(request, provider, inherent, delivering, Scanning(0)));
  }

  /** Every step keeps the invariant. */
  lemma StepKeeps(s: State, step: Step)
    requires Inv(s) && Enabled(s, step)
    ensures Inv(Next(s, step))
  {
    match step
    case Begin(c, request, provider, idempotency, delivering) => BeginStep(s, c, request, provider, idempotency, delivering);
    case Scan(c) => ScanStep(s, c);
    case Claim(c, now) => ClaimStep(s, c, now);
    case Report(c, now) => ReportStep(s, c, now);
    case Deliver(c) => DeliverStep(s, c);
    case Return(c) => DropCall(s, c);
    case Write(request, now) => LogStep(s, request, now);
  }

  /** The states along one interleaving of hosts, crashes and other writers. */
  ghost predicate IsRun(states: seq<State>, steps: seq<Step>) {
    && |states| == |steps| + 1 && Init(states[0])
    && forall i {:trigger steps[i]} :: 0 <= i < |steps| ==>
         Valid(states[i].log) && Enabled(states[i], steps[i]) && states[i + 1] == Next(states[i], steps[i])
  }

  lemma {:induction false} RunKeeps(states: seq<State>, steps: seq<Step>, n: nat)
    requires IsRun(states, steps) && n <= |steps|
    ensures Inv(states[n])
  {
    if n > 0 {
      RunKeeps(states, steps, n - 1);
      StepKeeps(states[n - 1], steps[n - 1]);
    }
  }

  /** The declarations map the request's capability to the word that allows repeats. */
  ghost predicate SaysInherent(request: Event, idempotency: map<string, string>) {
    exists capability :: Field(request, "capability") == Some(capability)
      && capability in idempotency && idempotency[capability] == "inherent"
  }

  lemma InherentSays(request: Event, idempotency: map<string, string>)
    ensures Inherent(request, idempotency) <==> SaysInherent(request, idempotency)
  {
  }

  lemma StepDeclares(s: State, step: Step, id: string)
    requires Valid(s.log) && Enabled(s, step) && id in Next(s, step).declared && id !in s.declared
    ensures step.Begin? && step.request.id == id && SaysInherent(step.request, step.idempotency)
  {
    if step.Begin? {
      InherentSays(step.request, step.idempotency);
    }
  }

  /** What counts as declared was said so by a call of the run. */
  lemma {:induction false} DeclaredWasSaid(states: seq<State>, steps: seq<Step>, n: nat, id: string) returns (k: nat)
    requires IsRun(states, steps) && n <= |steps| && id in states[n].declared
    ensures k < n && steps[k].Begin? && steps[k].request.id == id && SaysInherent(steps[k].request, steps[k].idempotency)
  {
    k := n - 1;
    var step := steps[k];
    if id in states[k].declared {
      k := DeclaredWasSaid(states, steps, k, id);
    } else {
      StepDeclares(states[k], step, id);
    }
  }

  /**
    At most once: in every interleaving, a request that no call's declarations
    say is inherently idempotent is handled at most one time.
  */
  lemma AtMostOnce(states: seq<State>, steps: seq<Step>, n: nat, i: nat, j: nat)
    requires IsRun(states, steps) && n <= |steps|
    requires i < |states[n].handled| && j < |states[n].handled|
    requires states[n].handled[i].request == states[n].handled[j].request
    requires forall k :: 0 <= k < n && steps[k].Begin? && steps[k].request.id == states[n].handled[i].request ==>
               !SaysInherent(steps[k].request, steps[k].idempotency)
    ensures i == j
  {
    RunKeeps(states, steps, n);
    var s := states[n];
    var a, b := s.handled[i], s.handled[j];
    if a.request in s.declared {
      var k := DeclaredWasSaid(states, steps, n, a.request);
    }
    assert HandleInv(s, a) && HandleInv(s, b);
    var e :| e in s.log && Attempts(e, a.request) && e.request.key == Some("attempt:" + a.request) && ClaimOf(e) == Some(Decimal.Render(a.claim.value));
    var f :| f in s.log && Attempts(f, b.request) && f.request.key == Some("attempt:" + b.request) && ClaimOf(f) == Some(Decimal.Render(b.claim.value));
    assert e == f;
    Decimal.RenderInjective(a.claim.value, b.claim.value);
    assert !Differ(a.claim, b.claim);
  }

  // A call that comes after an attempt.

  ghost predicate HasKey(log: Log, key: string) {
    exists e :: e in log && e.request.key == Some(key)
  }

  /**
    A call for a request the log has attempted at `x`: it looks for that. Once
    found, an inherently idempotent request is admitted without a claim, and
    any other is reported.
  */
  ghost predicate Repeating(s: State, c: nat, request: Event, x: nat) {
    && c in s.calls && s.calls[c].request == request
    && x < |s.log| && Attempts(s.log[x], request.id)
    && match s.calls[c].stage
       case Scanning(after) => after <= x
       case Admitted(claim) => s.calls[c].inherent && claim == None
       case ReportUnknown => !s.calls[c].inherent
       case ReportFailed => !s.calls[c].inherent && HasKey(s.log, "unknown:" + request.id)
       case Claiming => false
  }

  /** How the failure of an interrupted request is typed. */
  predicate FailureOf(request: Kind, failure: Kind) {
    match request
    case ModelRequested => failure == ModelFailed
    case CodeEvaluateRequested => failure == CodeFailed
    case _ => failure == CapabilityFailed
  }

  /** The entry answers the request by failing it, under the key of an interrupted attempt. */
  predicate Interrupts(entry: Request, request: Event) {
    && entry.causation == Some(request.id) && FailureOf(request.request.kind, entry.kind)
    && entry.payload == Doc(Obj(map["requestEventId" := Str(request.id), "code" := Str("outcome-unknown")]))
    && entry.key == Some("interrupted:" + request.id)
  }

  lemma RepeatScans(s: State, c: nat, request: Event, x: nat)
    requires Inv(s) && Repeating(s, c, request, x) && s.calls[c].stage.Scanning?
    ensures Repeating(Next(s, Scan(c)), c, request, x)
  {
    var after := s.calls[c].stage.after;
    var page := Page(s.log, after, IsAttempt(), PAGE);
    PageSplits(s.log, after, IsAttempt(), PAGE);
    RangeMember(s.log, after, |s.log|, IsAttempt(), s.log[x]);
    if page != [] && Last(page) > x {
      RangeMember(s.log, after, Last(page), IsAttempt(), s.log[x]);
    }
  }

  /** What a report stores, unless its key was used before. */
  lemma Reported(s: State, c: nat, now: int)
    requires Valid(s.log) && Enabled(s, Report(c, now))
    ensures var call, log := s.calls[c], Next(s, Report(c, now)).log;
            if call.stage.ReportUnknown? then HasKey(log, "unknown:" + call.request.id)
            else HasKey(log, "interrupted:" + call.request.id) && (log == s.log || Interrupts(log[|s.log|].request, call.request))
  {
    var call := s.calls[c];
    var entry := if call.stage.ReportUnknown? then UnknownRequest(call) else FailedRequest(call);
    var a := Events.Append(s.log, entry, now);
    assert a.event in a.log && a.event.request.key == entry.key;
    assert a.log == Next(s, Report(c, now)).log;
  }

  lemma StepGrows(s: State, step: Step)
    requires Valid(s.log) && Enabled(s, step)
    ensures s.log <= Next(s, step).log
  {
  }

  /** A step of the run that does not end the call keeps it a repeat. */
  lemma RepeatStep(s: State, step: Step, c: nat, request: Event, x: nat)
    requires Inv(s) && Enabled(s, step) && Repeating(s, c, request, x) && c in Next(s, step).calls
    ensures Repeating(Next(s, step), c, request, x)
  {
    if step == Scan(c) {
      RepeatScans(s, c, request, x);
    } else {
      var t := Next(s, step);
      StepGrows(s, step);
      assert t.log[x] == s.log[x] && forall e :: e in s.log ==> e in t.log;
      if step.Report? && step.call == c {
        Reported(s, c, step.now);
      } else {
        assert t.calls[c] == s.calls[c];
      }
    }
  }

  /** What the call's end, other than a crash, means for a repeat. */
  ghost predicate EndsRepeat(s: State, t: State, c: nat, request: Event)
    requires c in s.calls
  {
    if s.calls[c].inherent then
      t.handled == s.handled + [Handle(request.id, s.calls[c].provider, None)]
    else
      && t.handled == s.handled && HasKey(t.log, "unknown:" + request.id) && HasKey(t.log, "interrupted:" + request.id)
      && (t.log == s.log || (|t.log| == |s.log| + 1 && Interrupts(t.log[|s.log|].request, request)))
  }

  lemma RepeatEnds(s: State, step: Step, c: nat, request: Event, x: nat)
    requires Inv(s) && Enabled(s, step) && Repeating(s, c, request, x) && c !in Next(s, step).calls && step != Return(c)
    ensures EndsRepeat(s, Next(s, step), c, request)
  {
    StepGrows(s, step);
    assert forall e :: e in s.log ==> e in Next(s, step).log;
    if step.Report? {
      Reported(s, c, step.now);
    }
  }

  /** The call that `begin` started is a repeat, and remembers what its declarations say. */
  ghost predicate RepeatOf(s: State, begin: Step, x: nat)
    requires begin.Begin?
  {
    && Repeating(s, begin.call, begin.request, x)
    && (s.calls[begin.call].inherent <==> SaysInherent(begin.request, begin.idempotency))
  }

  lemma RepeatBegins(s: State, step: Step, x: nat)
    requires Valid(s.log) && Enabled(s, step) && step.Begin?
    requires x < |s.log| && Attempts(s.log[x], step.request.id)
    ensures RepeatOf(Next(s, step), step, x)
  {
    InherentSays(step.request, step.idempotency);
  }

  lemma RepeatGoesOn(s: State, step: Step, begin: Step, x: nat)
    requires Inv(s) && Enabled(s, step) && begin.Begin? && RepeatOf(s, begin, x) && begin.call in Next(s, step).calls
    ensures RepeatOf(Next(s, step), begin, x)
  {
    RepeatStep(s, step, begin.call, begin.request, x);
    SameCall(s, step, begin.call);
  }

  lemma SameCall(s: State, step: Step, c: nat)
    requires Valid(s.log) && Enabled(s, step) && c in s.calls && c in Next(s, step).calls
    ensures Next(s, step).calls[c].inherent == s.calls[c].inherent
  {
  }

  /** In every run, a call for a request that was attempted before never claims. */
  lemma {:induction false} RepeatRuns(states: seq<State>, steps: seq<Step>, b: nat, n: nat, x: nat)
    requires IsRun(states, steps) && b < n <= |steps| && steps[b].Begin?
    requires x < |states[b].log| && Attempts(states[b].log[x], steps[b].request.id)
    requires forall k :: b < k <= n ==> steps[b].call in states[k].calls
    ensures RepeatOf(states[n], steps[b], x)
    decreases n
  {
    if n == b + 1 {
      RepeatBegins(states[b], steps[b], x);
    } else {
      RepeatRuns(states, steps, b, n - 1, x);
      RunKeeps(states, steps, n - 1);
      RepeatGoesOn(states[n - 1], steps[n - 1], steps[b], x);
    }
  }

  /**
    Unless its host ends it, such a call runs the request again when its
    declarations say the request is inherent, and otherwise stores the attempt
    as unknown and the request as failed, without running it.
  */
  lemma RepeatRunEnds(states: seq<State>, steps: seq<Step>, b: nat, n: nat, x: nat)
    requires IsRun(states, steps) && b < n < |steps| && steps[b].Begin?
    requires x < |states[b].log| && Attempts(states[b].log[x], steps[b].request.id)
    requires forall k :: b < k <= n ==> steps[b].call in states[k].calls
    requires steps[b].call !in states[n + 1].calls && steps[n] != Return(steps[b].call)
    ensures steps[b].call in states[n].calls && EndsRepeat(states[n], states[n + 1], steps[b].call, steps[b].request)
  {
    RepeatRuns(states, steps, b, n, x);
    RunKeeps(states, steps, n);
    RepeatEnds(states[n], steps[n], steps[b].call, steps[b].request, x);
  }

  /** No effect without a record: whatever was handled has its attempt in the log. */
  lemma HandledWasRecorded(states: seq<State>, steps: seq<Step>, n: nat, i: nat)
    requires IsRun(states, steps) && n <= |steps| && i < |states[n].handled|
    ensures exists e :: e in states[n].log && Attempts(e, states[n].handled[i].request)
  {
    RunKeeps(states, steps, n);
    assert HandleInv(states[n], states[n].handled[i]);
  }
}
