/**
  The authority gate and the delivery pass, as steps of any number of runners
  over one log: gate requests in order, scan for a provider's next authorized
  request, record a result or an attempt, and only then move the provider's
  cursor. Covers providers that subscribe through their capabilities.
*/
module Dispatch {
  import opened Events
  import Projection
  import Admission
  import Polling

  /** Capabilities each installed provider answers. */
  type Providers = map<string, seq<string>>

  predicate IsRequest(e: Event) {
    e.request.kind.CapabilityRequested?
  }

  predicate Offers(providers: Providers, provider: string, e: Event) {
    && IsRequest(e) && provider in providers
    && Field(e, "capability").Some? && Field(e, "capability").value in providers[provider]
  }

  /** What polling accepts for a provider that subscribes only through its capabilities. */
  lemma OffersIsAccepted(providers: Providers, provider: string, e: Event)
    requires provider in providers
    ensures Offers(providers, provider, e) <==>
              Polling.Accepts(Polling.Subscriptions(false, [], providers[provider], []), e)
  {
    Polling.OnlyRequestsRequest(e.request.kind);
  }

  /** The ten kinds of answer a request can get. */
  lemma AnswerKinds(kind: Kind)
    ensures Projection.IsAnswer(kind) <==>
              kind in {CodeCompleted, CodeFailed, CodeYielded, ModelCompleted, ModelFailed,
                       CapabilityCompleted, CapabilityFailed, CapabilityDenied, CapabilityTimedOut, CapabilityCancelled}
  {
  }

  /** The effects that need admission. */
  lemma AdmissionKinds(kind: Kind)
    ensures Admission.NeedsAdmission(kind) <==> kind in {CapabilityRequested, ModelRequested, CodeEvaluateRequested}
  {
  }

  function Decisions(request: string): (want: Event -> bool) {
    (e: Event) => e.request.kind.PolicyDecision? && e.request.causation == Some(request)
  }

  /** The gate's recorded decision: the first one counts. */
  function Decision(log: Log, request: string): (d: Option<Event>) {
    var found := Select(log, Decisions(request));
    if found == [] then None else Some(found[0])
  }

  /** `authorized_for`. */
  predicate AuthorizedFor(log: Log, request: string, provider: string) {
    Decision(log, request).Some? && Field(Decision(log, request).value, "provider") == Some(provider)
  }

  /** `result_for(..).is_some()`. */
  predicate Answered(log: Log, request: string) {
    exists e :: e in log && Projection.Answers(e, request)
  }

  predicate Attempted(log: Log, request: string) {
    exists e :: e in log && Admission.Attempts(e, request)
  }

  datatype Position =
    | Idle
    | Denying(request: Event)
    | Scanning(provider: string, at: nat)
    | Selected(provider: string, request: Event, seen: nat)    // `seen`: the log's length when it was chosen
    | Marked(provider: string, request: Event)

  /** `checkpoints` are the cursors its instances read or wrote last. */
  datatype Runner = Runner(gatedThrough: nat, checkpoints: map<string, nat>, position: Position)

  /** One call of a provider's `handle`, made again for an inherently idempotent request or on a new attempt. */
  datatype Handling = Handling(provider: string, request: Event, seen: nat, again: bool)

  datatype State = State(log: Log, cursors: map<string, nat>, runners: map<nat, Runner>, handled: seq<Handling>)

  datatype Verdict =
    | Refuse                                // no authority, or no capability name
    | Decide(provider: Option<string>)      // `route_request`, with or without a provider

  /** What admission leaves behind before the cursor may move. */
  datatype Mark =
    | Expired
    | DeniedLate
    | Attempt
    | AlreadyAttempted(inherent: bool)      // handled again only if the capability is inherently idempotent

  datatype Step =
    | Start(runner: nat)
    | Crash(runner: nat)
    | Install(runner: nat, provider: string)
    | Gate(runner: nat, verdict: Verdict, now: int)
    | Deny(runner: nat, now: int)
    | BeginPass(runner: nat, provider: string)
    | Examine(runner: nat)
    | GiveUp(runner: nat)
    | Record(runner: nat, mark: Mark, now: int)
    | Handoff(runner: nat, worker: nat)     // the delivery goes on in a worker while its runner gates and scans
    | Collect(runner: nat, worker: nat)
    | Move(runner: nat)
    | Write(entry: Request, now: int)

  function DecisionRequest(q: Event, provider: Option<string>): (r: Request) {
    HostEvent(q, PolicyDecision, map["provider" := if provider.Some? then Str(provider.value) else Null], "policy:" + q.id)
  }

  function DenialRequest(q: Event): (r: Request) {
    HostEvent(q, CapabilityDenied, map["requestEventId" := Str(q.id)], "denied:" + q.id)
  }

  function MarkRequest(q: Event, mark: Mark): (r: Request)
    requires !mark.AlreadyAttempted?
  {
    match mark
    case Expired => HostEvent(q, CapabilityTimedOut, map["requestEventId" := Str(q.id)], "expired:" + q.id)
    case DeniedLate => DenialRequest(q)
    case Attempt => HostEvent(q, ActivityAttempted, map["requestEventId" := Str(q.id)], "attempt:" + q.id)
  }

  /** Host keys name host records; a plugin may propose no decision. */
  ghost predicate KeysHonest(r: Request) {
    && (forall id :: r.key == Some("policy:" + id) ==> r.kind.PolicyDecision? && r.causation == Some(id))
    && (forall id :: r.key == Some("denied:" + id) || r.key == Some("expired:" + id) ==>
          Projection.IsAnswer(r.kind) && r.causation == Some(id))
    && (forall id :: r.key == Some("attempt:" + id) ==> r.kind.ActivityAttempted? && r.causation == Some(id))
  }

  function Cursor(cursors: map<string, nat>, provider: string): (c: nat) {
    if provider in cursors then cursors[provider] else 0
  }

  function NextRequest(log: Log, after: nat): (page: seq<Event>) {
    Page(log, after, (e: Event) => IsRequest(e), 1)
  }

  function NextOffered(providers: Providers, log: Log, provider: string, after: nat): (page: seq<Event>) {
    Page(log, after, (e: Event) => Offers(providers, provider, e), 1)
  }

  ghost predicate Enabled(providers: Providers, s: State, step: Step) {
    match step
    case Start(r) => r !in s.runners
    case Crash(r) => r in s.runners
    case Install(r, p) => r in s.runners && s.runners[r].position.Idle? && p in providers
    case Gate(r, verdict, _) => r in s.runners && s.runners[r].position.Idle? && CanGate(providers, s, r, verdict)
    case Deny(r, _) => r in s.runners && s.runners[r].position.Denying?
    case BeginPass(r, p) => r in s.runners && s.runners[r].position.Idle? && p in s.runners[r].checkpoints
    case Examine(r) => r in s.runners && s.runners[r].position.Scanning?
    case GiveUp(r) => r in s.runners && !s.runners[r].position.Denying?
    case Record(r, mark, _) =>
      && r in s.runners && s.runners[r].position.Selected?
      && (mark.AlreadyAttempted? ==> Attempted(s.log, s.runners[r].position.request.id))
    case Handoff(r, w) => r in s.runners && s.runners[r].position.Marked? && w !in s.runners
    case Collect(r, w) =>
      r != w && r in s.runners && w in s.runners && s.runners[r].position.Idle? && s.runners[w].position.Idle?
    case Move(r) => r in s.runners && s.runners[r].position.Marked?
    case Write(entry, _) => KeysHonest(entry) && !entry.kind.PolicyDecision?
  }

  /** There is a request to gate, and a chosen provider is a candidate for it. */
  predicate CanGate(providers: Providers, s: State, r: nat, verdict: Verdict)
    requires r in s.runners
  {
    var page := NextRequest(s.log, s.runners[r].gatedThrough);
    && page != []
    && (verdict.Decide? && verdict.provider.Some? ==> Offers(providers, verdict.provider.value, page[0]))
  }

  function With(s: State, runner: nat, m: Runner): (t: State) {
    s.(runners := s.runners[runner := m])
  }

  function Gated(s: State, r: nat, verdict: Verdict, now: int): (t: State)
    requires Valid(s.log) && r in s.runners && NextRequest(s.log, s.runners[r].gatedThrough) != []
  {
    var q := NextRequest(s.log, s.runners[r].gatedThrough)[0];
    var m := s.runners[r].(gatedThrough := q.sequence);
    if Answered(s.log, q.id) then With(s, r, m)
    else if verdict.Refuse? then With(s, r, m.(position := Denying(q)))
    else
      With(s.(log := Append(s.log, DecisionRequest(q, verdict.provider), now).log), r,
           m.(position := if verdict.provider.Some? then Idle else Denying(q)))
  }

  function Examined(providers: Providers, log: Log, p: string, at: nat): (position: Position) {
    var page := NextOffered(providers, log, p, at);
    if page == [] then Idle
    else if AuthorizedFor(log, page[0].id, p) && !Answered(log, page[0].id) then Selected(p, page[0], |log|)
    else Scanning(p, page[0].sequence)
  }

  /** Admission: the call whose attempt is stored, or an inherently idempotent repeat, goes on to `handle`. */
  function Recorded(s: State, r: nat, mark: Mark, now: int): (t: State)
    requires Valid(s.log) && r in s.runners && s.runners[r].position.Selected?
  {
    var p, q, seen := s.runners[r].position.provider, s.runners[r].position.request, s.runners[r].position.seen;
    var log := if mark.AlreadyAttempted? then s.log else Append(s.log, MarkRequest(q, mark), now).log;
    var handles := (mark.Attempt? && log != s.log) || (mark.AlreadyAttempted? && mark.inherent);
    With(s.(log := log, handled := if handles then s.handled + [Handling(p, q, seen, mark.AlreadyAttempted? && mark.inherent)] else s.handled), r,
         s.runners[r].(position := Marked(p, q)))
  }

  /** The store's compare-and-set: only a runner that read the current cursor moves it. */
  function Moved(s: State, r: nat): (t: State)
    requires r in s.runners && s.runners[r].position.Marked?
  {
    var m := s.runners[r];
    var p, to := m.position.provider, m.position.request.sequence;
    if p in m.checkpoints && Cursor(s.cursors, p) == m.checkpoints[p] && to >= Cursor(s.cursors, p) then
      With(s.(cursors := s.cursors[p := to]), r, m.(position := Idle, checkpoints := m.checkpoints[p := to]))
    else With(s, r, m.(position := Idle))
  }

  function HandedOff(s: State, r: nat, w: nat): (t: State)
    requires r in s.runners && s.runners[r].position.Marked?
  {
    var m := s.runners[r];
    var p := m.position.provider;
    With(With(s, r, m.(position := Idle, checkpoints := m.checkpoints - {p})), w,
         Runner(0, map x | x in m.checkpoints && x == p :: m.checkpoints[x], m.position))
  }

  ghost function Next(providers: Providers, s: State, step: Step): (t: State)
    requires Valid(s.log) && Enabled(providers, s, step)
    ensures Valid(t.log) && s.log <= t.log
  {
    match step
    case Start(r) => With(s, r, Runner(0, map[], Idle))
    case Crash(r) => s.(runners := s.runners - {r})
    case Install(r, p) =>
      With(s, r, s.runners[r].(checkpoints := s.runners[r].checkpoints[p := Cursor(s.cursors, p)]))
    case Gate(r, verdict, now) => Gated(s, r, verdict, now)
    case Deny(r, now) =>
      With(s.(log := Append(s.log, DenialRequest(s.runners[r].position.request), now).log), r, s.runners[r].(position := Idle))
    case BeginPass(r, p) => With(s, r, s.runners[r].(position := Scanning(p, s.runners[r].checkpoints[p])))
    case Examine(r) =>
      With(s, r, s.runners[r].(position := Examined(providers, s.log, s.runners[r].position.provider, s.runners[r].position.at)))
    case GiveUp(r) => With(s, r, s.runners[r].(position := Idle))
    case Record(r, mark, now) => Recorded(s, r, mark, now)
    case Handoff(r, w) => HandedOff(s, r, w)
    case Collect(r, w) =>
      s.(runners := (s.runners - {w})[r := s.runners[r].(checkpoints := s.runners[r].checkpoints + s.runners[w].checkpoints)])
    case Move(r) => Moved(s, r)
    case Write(entry, now) => s.(log := Append(s.log, entry, now).log)
  }

  const START := State([], map[], map[], [])

  /** Where a sequence of steps leads, if each is possible. */
  ghost function Execute(providers: Providers, s: State, steps: seq<Step>): (t: Option<State>)
    requires Valid(s.log)
    ensures t.Some? ==> Valid(t.value.log)
    decreases |steps|
  {
    if steps == [] then Some(s)
    else if Enabled(providers, s, steps[0]) then Execute(providers, Next(providers, s, steps[0]), steps[1..])
    else None
  }

  ghost predicate Leads(providers: Providers, s: State, t: State) {
    Valid(s.log) && exists steps :: Execute(providers, s, steps) == Some(t)
  }

  ghost predicate Reachable(providers: Providers, s: State) {
    Leads(providers, START, s)
  }

  // Facts that only grow with the log.

  lemma DecisionStable(log: Log, longer: Log, request: string)
    requires log <= longer && Decision(log, request).Some?
    ensures Decision(longer, request) == Decision(log, request)
  {
    RangeSplit(longer, 0, |log|, |longer|, Decisions(request));
    assert log[..|log|] == longer[..|log|];
    RangeStable(log, longer, 0, |log|, Decisions(request));
  }

  lemma DecisionNew(log: Log, e: Event, request: string)
    ensures !Decisions(request)(e) ==> Decision(log + [e], request) == Decision(log, request)
    ensures Decisions(request)(e) && Decision(log, request).None? ==> Decision(log + [e], request) == Some(e)
  {
    RangeStep(log + [e], 0, |log|, Decisions(request));
    assert log[..|log|] == (log + [e])[..|log|];
    RangeStable(log, log + [e], 0, |log|, Decisions(request));
  }

  lemma DecisionMember(log: Log, request: string)
    ensures Decision(log, request).Some? <==> exists d :: d in log && Decisions(request)(d)
    ensures Decision(log, request).Some? ==> Decision(log, request).value in log && Decisions(request)(Decision(log, request).value)
  {
    var found := Select(log, Decisions(request));
    if found != [] {
      RangeMember(log, 0, |log|, Decisions(request), found[0]);
    }
    forall d | d in log && Decisions(request)(d)
      ensures found != []
    {
      RangeMember(log, 0, |log|, Decisions(request), d);
    }
  }

  ghost predicate Settled(log: Log, q: Event) {
    Decision(log, q.id).Some? || Answered(log, q.id)
  }

  /** The request has a terminal result or an attempt. */
  ghost predicate Finished(log: Log, q: Event) {
    Answered(log, q.id) || Attempted(log, q.id)
  }

  lemma Monotone(log: Log, longer: Log, q: Event, p: string)
    requires log <= longer
    ensures Finished(log, q) ==> Finished(longer, q)
    ensures Settled(log, q) ==> Settled(longer, q)
    ensures AuthorizedFor(log, q.id, p) ==> AuthorizedFor(longer, q.id, p)
  {
    assert forall e :: e in log ==> e in longer;
    if Decision(log, q.id).Some? {
      DecisionStable(log, longer, q.id);
    }
  }

  // What holds in every state of every run.

  ghost predicate LogInv(providers: Providers, log: Log) {
    && Valid(log)
    && (forall e :: e in log ==> KeysHonest(e.request))
    && (forall d :: d in log && d.request.kind.PolicyDecision? ==> Decides(providers, log, d))
    && (forall q, later :: q in log && later in log && IsRequest(q) && Decision(log, later.id).Some? ==>
          q.sequence < later.sequence ==> Settled(log, q))
  }

  /** A decision names a request of the log, and a provider that offers it. */
  ghost predicate Decides(providers: Providers, log: Log, d: Event) {
    exists q :: q in log && IsRequest(q) && d.request.causation == Some(q.id)
      && (Field(d, "provider").Some? ==> Offers(providers, Field(d, "provider").value, q))
  }

  /** Gating covers a prefix of the requests. */
  ghost predicate GateInv(log: Log, m: Runner) {
    && m.gatedThrough <= |log|
    && forall q :: q in log && IsRequest(q) && q.sequence <= m.gatedThrough ==>
         Settled(log, q) || m.position == Denying(q)
  }

  ghost predicate PositionInv(log: Log, m: Runner) {
    match m.position
    case Idle => true
    case Denying(e) => e in log
    case Scanning(p, at) => p in m.checkpoints && at <= |log|
    case Selected(p, e, seen) => p in m.checkpoints && ChosenInv(log, Handling(p, e, seen, false))
    case Marked(p, e) => p in m.checkpoints && e in log && AuthorizedFor(log, e.id, p) && Finished(log, e)
  }

  /** The request was authorized for the provider, and had no result yet, when it was chosen. */
  ghost predicate ChosenInv(log: Log, h: Handling) {
    && h.request in log && AuthorizedFor(log, h.request.id, h.provider)
    && h.seen <= |log| && AuthorizedFor(log[..h.seen], h.request.id, h.provider) && !Answered(log[..h.seen], h.request.id)
  }

  ghost predicate RunnerInv(s: State, m: Runner) {
    && GateInv(s.log, m) && PositionInv(s.log, m)
    && forall p :: p in m.checkpoints ==> m.checkpoints[p] <= Cursor(s.cursors, p)
  }

  /** A cursor stands at the start, or at a decided request. */
  ghost predicate CursorInv(log: Log, cursor: nat) {
    cursor == 0 || exists e :: e in log && e.sequence == cursor && Decision(log, e.id).Some?
  }

  ghost predicate Inv(providers: Providers, s: State) {
    && LogInv(providers, s.log)
    && (forall r :: r in s.runners ==> RunnerInv(s, s.runners[r]))
    && (forall p :: CursorInv(s.log, Cursor(s.cursors, p)))
    && (forall i :: 0 <= i < |s.handled| ==> ChosenInv(s.log, s.handled[i]) && Attempted(s.log, s.handled[i].request.id))
  }

  // Preservation.

  lemma HostKeyHonest(q: Event, kind: Kind, fields: map<string, Json>, prefix: string)
    requires || (prefix == "policy:" && kind.PolicyDecision?)
             || (prefix == "denied:" && kind.CapabilityDenied?)
             || (prefix == "expired:" && kind.CapabilityTimedOut?)
             || (prefix == "attempt:" && kind.ActivityAttempted?)
    ensures KeysHonest(HostEvent(q, kind, fields, prefix + q.id))
  {
    var key := prefix + q.id;
    assert key[0] == prefix[0] && key[|prefix|..] == q.id;
    forall other: string, id: string | other + id == key && other in {"policy:", "denied:", "expired:", "attempt:"}
      ensures other == prefix && id == q.id
    {
      assert (other + id)[0] == other[0];
      assert (other + id)[|other|..] == id;
    }
  }

  lemma AppendedLast(log: Log, e: Event)
    requires Valid(log + [e])
    ensures e.sequence == |log| + 1 && forall q :: q in log ==> q.sequence <= |log| && q.id != e.id
  {
    var longer := log + [e];
    assert longer[|log|] == e;
    forall q | q in log
      ensures q.sequence <= |log| && q.id != e.id
    {
      var i :| 0 <= i < |log| && log[i] == q;
      assert longer[i] == q;
      if q.id == e.id {
        IdsUnique(longer, q, e);
      }
    }
  }

  /** Nothing in the log decides an event that is only now appended. */
  lemma FreshUndecided(providers: Providers, log: Log, e: Event)
    requires LogInv(providers, log) && Valid(log + [e])
    requires e.request.kind.PolicyDecision? ==> Decides(providers, log, e)
    ensures Decision(log + [e], e.id).None?
  {
    var longer := log + [e];
    AppendedLast(log, e);
    DecisionMember(longer, e.id);
  }

  lemma KeepLog(providers: Providers, log: Log, e: Event)
    requires LogInv(providers, log) && Valid(log + [e]) && KeysHonest(e.request)
    requires e.request.kind.PolicyDecision? ==> Decides(providers, log, e)
    requires forall q, later :: q in log && later in log && Decisions(later.id)(e) && IsRequest(q) && q.sequence < later.sequence ==> Settled(log, q)
    ensures LogInv(providers, log + [e])
  {
    var longer := log + [e];
    forall d | d in longer && d.request.kind.PolicyDecision?
      ensures Decides(providers, longer, d)
    {
      assert Decides(providers, log, d);
      var q :| q in log && IsRequest(q) && d.request.causation == Some(q.id)
        && (Field(d, "provider").Some? ==> Offers(providers, Field(d, "provider").value, q));
      assert q in longer;
    }
    FreshUndecided(providers, log, e);
    forall q, later | q in longer && later in longer && IsRequest(q) && Decision(longer, later.id).Some? && q.sequence < later.sequence
      ensures Settled(longer, q)
    {
      assert later in log;
      AppendedLast(log, e);
      assert q in log;
      DecisionNew(log, e, later.id);
      assert Settled(log, q);
      Monotone(log, longer, q, "");
    }
  }

  lemma KeepChosen(log: Log, longer: Log, h: Handling)
    requires log <= longer && ChosenInv(log, h)
    ensures ChosenInv(longer, h)
  {
    Monotone(log, longer, h.request, h.provider);
    assert log[..h.seen] == longer[..h.seen];
  }

  lemma KeepRunner(s: State, e: Event, m: Runner)
    requires RunnerInv(s, m) && Valid(s.log + [e])
    ensures RunnerInv(s.(log := s.log + [e]), m)
  {
    var longer := s.log + [e];
    AppendedLast(s.log, e);
    forall q | q in longer && IsRequest(q) && q.sequence <= m.gatedThrough
      ensures Settled(longer, q) || m.position == Denying(q)
    {
      assert q in s.log;
      Monotone(s.log, longer, q, "");
    }
    if m.position.Selected? {
      KeepChosen(s.log, longer, Handling(m.position.provider, m.position.request, m.position.seen, false));
    } else if m.position.Marked? {
      Monotone(s.log, longer, m.position.request, m.position.provider);
    }
  }

  lemma KeepCursor(log: Log, longer: Log, cursor: nat)
    requires log <= longer && CursorInv(log, cursor)
    ensures CursorInv(longer, cursor)
  {
    if cursor > 0 {
      var e :| e in log && e.sequence == cursor && Decision(log, e.id).Some?;
      DecisionStable(log, longer, e.id);
      assert e in longer;
    }
  }

  lemma KeepHandled(log: Log, longer: Log, h: Handling)
    requires log <= longer && ChosenInv(log, h) && Attempted(log, h.request.id)
    ensures ChosenInv(longer, h) && Attempted(longer, h.request.id)
  {
    KeepChosen(log, longer, h);
    assert forall e :: e in log ==> e in longer;
  }

  /** One more event keeps everything said about runners, cursors and calls. */
  lemma LogGrows(providers: Providers, s: State, e: Event)
    requires Inv(providers, s) && LogInv(providers, s.log + [e])
    ensures Inv(providers, s.(log := s.log + [e]))
  {
    var t := s.(log := s.log + [e]);
    forall r | r in s.runners
      ensures RunnerInv(t, s.runners[r])
    {
      KeepRunner(s, e, s.runners[r]);
    }
    forall p
      ensures CursorInv(t.log, Cursor(s.cursors, p))
    {
      KeepCursor(s.log, t.log, Cursor(s.cursors, p));
    }
    forall i | 0 <= i < |s.handled|
      ensures ChosenInv(t.log, s.handled[i]) && Attempted(t.log, s.handled[i].request.id)
    {
      KeepHandled(s.log, t.log, s.handled[i]);
    }
  }

  /** Any event that is not a decision may be appended at any time. */
  lemma WriteKeeps(providers: Providers, s: State, entry: Request, now: int)
    requires Inv(providers, s) && KeysHonest(entry) && !entry.kind.PolicyDecision?
    ensures Inv(providers, s.(log := Append(s.log, entry, now).log))
  {
    var a := Append(s.log, entry, now);
    if a.log != s.log {
      KeepLog(providers, s.log, a.event);
      LogGrows(providers, s, a.event);
    }
  }

  lemma SetRunner(providers: Providers, s: State, r: nat, m: Runner)
    requires Inv(providers, s) && RunnerInv(s, m)
    ensures Inv(providers, With(s, r, m))
  {
    var t := With(s, r, m);
    forall o | o in t.runners
      ensures RunnerInv(t, t.runners[o])
    {
      assert t.runners[o] == m || (o in s.runners && t.runners[o] == s.runners[o]);
    }
  }

  lemma NextIsRequest(log: Log, after: nat)
    requires Gapless(log) && NextRequest(log, after) != []
    ensures var q := NextRequest(log, after)[0];
            q in log && IsRequest(q) && after < q.sequence <= |log| && log[q.sequence - 1] == q
  {
    PageGap(log, after, (e: Event) => IsRequest(e), 1, 0);
  }

  /** The gate takes requests in order: before the next one there is only what it has gated. */
  lemma GatedBefore(log: Log, longer: Log, after: nat, x: Event)
    requires Gapless(log) && Gapless(longer) && log <= longer && NextRequest(log, after) != []
    requires x in longer && IsRequest(x) && x.sequence <= NextRequest(log, after)[0].sequence
    ensures x.sequence <= after || x == NextRequest(log, after)[0]
  {
    var want := (e: Event) => IsRequest(e);
    PageGap(log, after, want, 1, 0);
    var next := NextRequest(log, after)[0].sequence;
    var i :| 0 <= i < |longer| && longer[i] == x;
    assert log[i] == x;
    RangeMember(log, after, next - 1, want, x);
  }

  /** What the gate's runner may append: the decision on its next request. */
  lemma DecisionFits(providers: Providers, log: Log, m: Runner, q: Event, provider: Option<string>, now: int)
    requires LogInv(providers, log) && GateInv(log, m) && m.position.Idle? && NextRequest(log, m.gatedThrough) == [q]
    requires provider.Some? ==> Offers(providers, provider.value, q)
    ensures LogInv(providers, Append(log, DecisionRequest(q, provider), now).log)
  {
    var a := Append(log, DecisionRequest(q, provider), now);
    NextIsRequest(log, m.gatedThrough);
    HostKeyHonest(q, PolicyDecision, DecisionRequest(q, provider).payload.value.fields, "policy:");
    if a.log != log {
      assert Field(a.event, "provider") == provider;
      assert Decides(providers, log, a.event);
      forall before, later | before in log && later in log && Decisions(later.id)(a.event) && IsRequest(before) && before.sequence < later.sequence
        ensures Settled(log, before)
      {
        IdsUnique(log, later, q);
        GatedBefore(log, log, m.gatedThrough, before);
      }
      KeepLog(providers, log, a.event);
    }
  }

  /** A recorded decision is there afterwards, whoever recorded it. */
  lemma DecisionLands(providers: Providers, log: Log, q: Event, provider: Option<string>, now: int)
    requires LogInv(providers, log)
    ensures var a := Append(log, DecisionRequest(q, provider), now).log;
            && Decision(a, q.id).Some?
            && (Decision(log, q.id).None? ==> Field(Decision(a, q.id).value, "provider") == provider)
  {
    var a := Append(log, DecisionRequest(q, provider), now);
    DecisionMember(a.log, q.id);
    if a.log == log {
      assert KeysHonest(a.event.request);
    } else {
      DecisionNew(log, a.event, q.id);
      assert Field(a.event, "provider") == provider;
    }
  }

  lemma DecideKeeps(providers: Providers, s: State, r: nat, provider: Option<string>, now: int)
    requires Inv(providers, s) && r in s.runners && s.runners[r].position.Idle? && CanGate(providers, s, r, Decide(provider))
    ensures var q := NextRequest(s.log, s.runners[r].gatedThrough)[0];
            var a := Append(s.log, DecisionRequest(q, provider), now);
            Inv(providers, s.(log := a.log)) && Decision(a.log, q.id).Some?
  {
    var m := s.runners[r];
    var q := NextRequest(s.log, m.gatedThrough)[0];
    var a := Append(s.log, DecisionRequest(q, provider), now);
    assert RunnerInv(s, m) && NextRequest(s.log, m.gatedThrough) == [q];
    DecisionFits(providers, s.log, m, q, provider, now);
    DecisionLands(providers, s.log, q, provider, now);
    if a.log != s.log {
      LogGrows(providers, s, a.event);
    }
  }

  lemma AdvanceGate(providers: Providers, s: State, before: Log, r: nat, position: Position)
    requires Inv(providers, s) && Gapless(before) && before <= s.log && r in s.runners
    requires s.runners[r].position.Idle? && NextRequest(before, s.runners[r].gatedThrough) != []
    requires var q := NextRequest(before, s.runners[r].gatedThrough)[0];
             (position.Idle? && Settled(s.log, q)) || position == Denying(q)
    ensures var q := NextRequest(before, s.runners[r].gatedThrough)[0];
            Inv(providers, With(s, r, s.runners[r].(gatedThrough := q.sequence, position := position)))
  {
    var m := s.runners[r];
    var q := NextRequest(before, m.gatedThrough)[0];
    NextIsRequest(before, m.gatedThrough);
    assert RunnerInv(s, m);
    forall x | x in s.log && IsRequest(x) && x.sequence <= q.sequence
      ensures Settled(s.log, x) || position == Denying(x)
    {
      GatedBefore(before, s.log, m.gatedThrough, x);
    }
    SetRunner(providers, s, r, m.(gatedThrough := q.sequence, position := position));
  }

  lemma GateKeeps(providers: Providers, s: State, r: nat, verdict: Verdict, now: int)
    requires Inv(providers, s) && Enabled(providers, s, Gate(r, verdict, now))
    ensures Inv(providers, Gated(s, r, verdict, now))
  {
    var m := s.runners[r];
    var q := NextRequest(s.log, m.gatedThrough)[0];
    if Answered(s.log, q.id) {
      AdvanceGate(providers, s, s.log, r, Idle);
    } else if verdict.Refuse? {
      AdvanceGate(providers, s, s.log, r, Denying(q));
    } else {
      DecideKeeps(providers, s, r, verdict.provider, now);
      var log := Append(s.log, DecisionRequest(q, verdict.provider), now).log;
      AdvanceGate(providers, s.(log := log), s.log, r, if verdict.provider.Some? then Idle else Denying(q));
    }
  }

  lemma DenyKeeps(providers: Providers, s: State, r: nat, now: int)
    requires Inv(providers, s) && Enabled(providers, s, Deny(r, now))
    ensures Inv(providers, Next(providers, s, Deny(r, now)))
  {
    var q := s.runners[r].position.request;
    HostKeyHonest(q, CapabilityDenied, DenialRequest(q).payload.value.fields, "denied:");
    WriteKeeps(providers, s, DenialRequest(q), now);
    var a := Append(s.log, DenialRequest(q), now);
    assert KeysHonest(a.event.request);
    assert Projection.Answers(a.event, q.id);
    var t := s.(log := a.log);
    assert RunnerInv(t, t.runners[r]);
    SetRunner(providers, t, r, t.runners[r].(position := Idle));
  }

  lemma ExamineKeeps(providers: Providers, s: State, r: nat)
    requires Inv(providers, s) && Enabled(providers, s, Examine(r))
    ensures Inv(providers, Next(providers, s, Examine(r)))
  {
    var m := s.runners[r];
    var p, at := m.position.provider, m.position.at;
    assert RunnerInv(s, m);
    if NextOffered(providers, s.log, p, at) != [] {
      PageGap(s.log, at, (e: Event) => Offers(providers, p, e), 1, 0);
      assert s.log[..|s.log|] == s.log;
    }
    SetRunner(providers, s, r, m.(position := Examined(providers, s.log, p, at)));
  }

  /** What admission stores finishes the request. */
  lemma MarkFinishes(providers: Providers, s: State, q: Event, mark: Mark, now: int)
    requires Inv(providers, s) && !mark.AlreadyAttempted?
    ensures var log := Append(s.log, MarkRequest(q, mark), now).log;
            Inv(providers, s.(log := log)) && Finished(log, q) && (mark.Attempt? ==> Attempted(log, q.id))
  {
    var entry := MarkRequest(q, mark);
    var prefix := match mark case Expired => "expired:" case DeniedLate => "denied:" case _ => "attempt:";
    HostKeyHonest(q, entry.kind, entry.payload.value.fields, prefix);
    WriteKeeps(providers, s, entry, now);
    var a := Append(s.log, entry, now);
    assert a.event in a.log && KeysHonest(a.event.request);
    assert Projection.Answers(a.event, q.id) || Admission.Attempts(a.event, q.id);
  }

  lemma AddHandled(providers: Providers, s: State, h: Handling)
    requires Inv(providers, s) && ChosenInv(s.log, h) && Attempted(s.log, h.request.id)
    ensures Inv(providers, s.(handled := s.handled + [h]))
  {
    var t := s.(handled := s.handled + [h]);
    forall r | r in t.runners
      ensures RunnerInv(t, t.runners[r])
    {
      assert RunnerInv(s, s.runners[r]);
    }
  }

  lemma RecordKeeps(providers: Providers, s: State, r: nat, mark: Mark, now: int)
    requires Inv(providers, s) && Enabled(providers, s, Record(r, mark, now))
    ensures Inv(providers, Recorded(s, r, mark, now))
  {
    var m := s.runners[r];
    var p, q, seen := m.position.provider, m.position.request, m.position.seen;
    var t := s;
    if !mark.AlreadyAttempted? {
      MarkFinishes(providers, s, q, mark, now);
      t := s.(log := Append(s.log, MarkRequest(q, mark), now).log);
    }
    assert RunnerInv(t, t.runners[r]);
    if Recorded(s, r, mark, now).handled != s.handled {
      AddHandled(providers, t, Handling(p, q, seen, mark.AlreadyAttempted? && mark.inherent));
      t := t.(handled := s.handled + [Handling(p, q, seen, mark.AlreadyAttempted? && mark.inherent)]);
    }
    MarkedKeeps(providers, t, r, p, q);
  }

  lemma MarkedKeeps(providers: Providers, s: State, r: nat, p: string, q: Event)
    requires Inv(providers, s) && r in s.runners && RunnerInv(s, s.runners[r]) && Finished(s.log, q)
    requires s.runners[r].position.Selected? && s.runners[r].position.provider == p && s.runners[r].position.request == q
    ensures Inv(providers, With(s, r, s.runners[r].(position := Marked(p, q))))
  {
    SetRunner(providers, s, r, s.runners[r].(position := Marked(p, q)));
  }

  lemma CursorMoves(providers: Providers, s: State, p: string, to: nat)
    requires Inv(providers, s) && Cursor(s.cursors, p) <= to && CursorInv(s.log, to)
    ensures Inv(providers, s.(cursors := s.cursors[p := to]))
  {
    var t := s.(cursors := s.cursors[p := to]);
    forall o | o in t.runners
      ensures RunnerInv(t, t.runners[o])
    {
      assert RunnerInv(s, s.runners[o]);
    }
    forall x
      ensures CursorInv(t.log, Cursor(t.cursors, x))
    {
      assert CursorInv(s.log, Cursor(s.cursors, x));
    }
  }

  lemma MoveKeeps(providers: Providers, s: State, r: nat)
    requires Inv(providers, s) && Enabled(providers, s, Move(r))
    ensures Inv(providers, Moved(s, r))
  {
    var m := s.runners[r];
    var p, e := m.position.provider, m.position.request;
    assert RunnerInv(s, m);
    if Cursor(s.cursors, p) == m.checkpoints[p] && e.sequence >= Cursor(s.cursors, p) {
      CursorMoves(providers, s, p, e.sequence);
      var t := s.(cursors := s.cursors[p := e.sequence]);
      assert RunnerInv(t, m);
      SetRunner(providers, t, r, m.(position := Idle, checkpoints := m.checkpoints[p := e.sequence]));
    } else {
      SetRunner(providers, s, r, m.(position := Idle));
    }
  }

  lemma HandoffKeeps(providers: Providers, s: State, r: nat, w: nat)
    requires Inv(providers, s) && Enabled(providers, s, Handoff(r, w))
    ensures Inv(providers, HandedOff(s, r, w))
  {
    var m := s.runners[r];
    var p := m.position.provider;
    assert RunnerInv(s, m);
    var left := m.(position := Idle, checkpoints := m.checkpoints - {p});
    SetRunner(providers, s, r, left);
    SetRunner(providers, With(s, r, left), w, Runner(0, map x | x in m.checkpoints && x == p :: m.checkpoints[x], m.position));
  }

  lemma CollectKeeps(providers: Providers, s: State, r: nat, w: nat)
    requires Inv(providers, s) && Enabled(providers, s, Collect(r, w))
    ensures Inv(providers, Next(providers, s, Collect(r, w)))
  {
    var m, o := s.runners[r], s.runners[w];
    assert RunnerInv(s, m) && RunnerInv(s, o);
    SetRunner(providers, s.(runners := s.runners - {w}), r, m.(checkpoints := m.checkpoints + o.checkpoints));
  }

  /** Every step of every run keeps the invariant. */
  lemma StepKeeps(providers: Providers, s: State, step: Step)
    requires Inv(providers, s) && Enabled(providers, s, step)
    ensures Inv(providers, Next(providers, s, step))
  {
    match step
    case Gate(r, verdict, now) => GateKeeps(providers, s, r, verdict, now);
    case Deny(r, now) => DenyKeeps(providers, s, r, now);
    case Examine(r) => ExamineKeeps(providers, s, r);
    case Record(r, mark, now) => RecordKeeps(providers, s, r, mark, now);
    case Handoff(r, w) => HandoffKeeps(providers, s, r, w);
    case Collect(r, w) => CollectKeeps(providers, s, r, w);
    case Move(r) => MoveKeeps(providers, s, r);
    case Write(entry, now) => WriteKeeps(providers, s, entry, now);
    case Install(r, p) =>
      assert RunnerInv(s, s.runners[r]);
      SetRunner(providers, s, r, s.runners[r].(checkpoints := s.runners[r].checkpoints[p := Cursor(s.cursors, p)]));
    case BeginPass(r, p) => BeginKeeps(providers, s, r, p);
    case GiveUp(r) =>
      assert RunnerInv(s, s.runners[r]);
      SetRunner(providers, s, r, s.runners[r].(position := Idle));
    case Start(r) => SetRunner(providers, s, r, Runner(0, map[], Idle));
    case Crash(r) =>
  }

  lemma BeginKeeps(providers: Providers, s: State, r: nat, p: string)
    requires Inv(providers, s) && Enabled(providers, s, BeginPass(r, p))
    ensures Inv(providers, Next(providers, s, BeginPass(r, p)))
  {
    var m := s.runners[r];
    assert RunnerInv(s, m) && CursorInv(s.log, Cursor(s.cursors, p));
    assert Cursor(s.cursors, p) <= |s.log|;
    SetRunner(providers, s, r, m.(position := Scanning(p, m.checkpoints[p])));
  }

  lemma {:induction false} RunKeeps(providers: Providers, s: State, steps: seq<Step>)
    requires Inv(providers, s) && Execute(providers, s, steps).Some?
    ensures Inv(providers, Execute(providers, s, steps).value)
    decreases |steps|
  {
    if steps != [] {
      StepKeeps(providers, s, steps[0]);
      RunKeeps(providers, Next(providers, s, steps[0]), steps[1..]);
    }
  }

  lemma ReachableKeeps(providers: Providers, s: State)
    requires Reachable(providers, s)
    ensures Inv(providers, s)
  {
    var steps :| Execute(providers, START, steps) == Some(s);
    RunKeeps(providers, START, steps);
  }

  /**
    Whatever runs was let through: a handled request is authorized for that
    provider, was so when it was chosen, and had neither a denial nor any other
    result then.
  */
  lemma HandledWasAuthorized(providers: Providers, s: State, i: nat)
    requires Reachable(providers, s) && i < |s.handled|
    ensures var h := s.handled[i];
            && h.request in s.log && Offers(providers, h.provider, h.request) && AuthorizedFor(s.log, h.request.id, h.provider)
            && h.seen <= |s.log| && AuthorizedFor(s.log[..h.seen], h.request.id, h.provider)
            && !Answered(s.log[..h.seen], h.request.id) && Attempted(s.log, h.request.id)
            && exists d :: d in s.log && d.request.kind.PolicyDecision? && d.request.causation == Some(h.request.id)
                 && Field(d, "provider") == Some(h.provider)
  {
    ReachableKeeps(providers, s);
    DecisionMember(s.log, s.handled[i].request.id);
    AuthorizedIsOffered(providers, s.log, s.handled[i].request, s.handled[i].provider);
  }

  /** What is authorized for a provider is something it offers. */
  lemma AuthorizedIsOffered(providers: Providers, log: Log, q: Event, p: string)
    requires LogInv(providers, log) && q in log && AuthorizedFor(log, q.id, p)
    ensures Offers(providers, p, q)
  {
    DecisionMember(log, q.id);
    var d := Decision(log, q.id).value;
    assert Decides(providers, log, d);
    var x :| x in log && IsRequest(x) && d.request.causation == Some(x.id)
      && (Field(d, "provider").Some? ==> Offers(providers, Field(d, "provider").value, x));
    IdsUnique(log, x, q);
  }

  /** The runner owes the request a denial, or it has a result. */
  ghost predicate Awaits(s: State, r: nat, q: Event) {
    Answered(s.log, q.id) || (r in s.runners && s.runners[r].position == Denying(q))
  }

  lemma DenialLands(log: Log, q: Event, now: int)
    requires Valid(log) && forall e :: e in log ==> KeysHonest(e.request)
    ensures Answered(Append(log, DenialRequest(q), now).log, q.id)
  {
    var a := Append(log, DenialRequest(q), now);
    HostKeyHonest(q, CapabilityDenied, DenialRequest(q).payload.value.fields, "denied:");
    assert a.event in a.log && KeysHonest(a.event.request);
    assert Projection.Answers(a.event, q.id);
  }

  lemma AwaitsKept(providers: Providers, s: State, step: Step, r: nat, q: Event)
    requires Inv(providers, s) && Enabled(providers, s, step) && Awaits(s, r, q) && step != Crash(r)
    ensures Awaits(Next(providers, s, step), r, q)
  {
    if Answered(s.log, q.id) {
      assert forall e :: e in s.log ==> e in Next(providers, s, step).log;
    } else if step.Deny? && step.runner == r {
      DenialLands(s.log, q, step.now);
    } else {
      DenyingStays(providers, s, step, r);
    }
  }

  /** Nothing but its own denial, or a crash, takes a runner away from denying. */
  lemma DenyingStays(providers: Providers, s: State, step: Step, r: nat)
    requires Valid(s.log) && Enabled(providers, s, step) && r in s.runners && s.runners[r].position.Denying?
    requires step != Crash(r) && !(step.Deny? && step.runner == r)
    ensures r in Next(providers, s, step).runners && Next(providers, s, step).runners[r] == s.runners[r]
  {
  }

  lemma {:induction false} AwaitsRun(providers: Providers, s: State, steps: seq<Step>, r: nat, q: Event)
    requires Inv(providers, s) && Execute(providers, s, steps).Some? && Awaits(s, r, q) && Crash(r) !in steps
    ensures Awaits(Execute(providers, s, steps).value, r, q)
    decreases |steps|
  {
    if steps != [] {
      AwaitsKept(providers, s, steps[0], r, q);
      StepKeeps(providers, s, steps[0]);
      AwaitsRun(providers, Next(providers, s, steps[0]), steps[1..], r, q);
    }
  }

  lemma RefusalAwaits(providers: Providers, s: State, r: nat, verdict: Verdict, now: int)
    requires Valid(s.log) && Enabled(providers, s, Gate(r, verdict, now)) && (verdict.Refuse? || verdict.provider.None?)
    ensures Awaits(Next(providers, s, Gate(r, verdict, now)), r, NextRequest(s.log, s.runners[r].gatedThrough)[0])
  {
  }

  /**
    What is refused is answered: once a runner takes up a request that nothing
    may provide, it stands at denying it until the request has a result.
  */
  lemma RefusedIsDenied(providers: Providers, s: State, r: nat, verdict: Verdict, now: int, steps: seq<Step>)
    requires Reachable(providers, s) && Enabled(providers, s, Gate(r, verdict, now)) && Crash(r) !in steps
    requires verdict.Refuse? || verdict.provider.None?
    requires Execute(providers, Next(providers, s, Gate(r, verdict, now)), steps).Some?
    ensures Awaits(Execute(providers, Next(providers, s, Gate(r, verdict, now)), steps).value, r,
                   NextRequest(s.log, s.runners[r].gatedThrough)[0])
  {
    var gate := Gate(r, verdict, now);
    ReachableKeeps(providers, s);
    StepKeeps(providers, s, gate);
    RefusalAwaits(providers, s, r, verdict, now);
    AwaitsRun(providers, Next(providers, s, gate), steps, r, NextRequest(s.log, s.runners[r].gatedThrough)[0]);
  }

  // At most once.

  ghost predicate AttemptKept(log: Log, id: string) {
    exists e :: e in log && e.request.key == Some("attempt:" + id)
  }

  ghost predicate Once(s: State) {
    && (forall i :: 0 <= i < |s.handled| && !s.handled[i].again ==> AttemptKept(s.log, s.handled[i].request.id))
    && forall i, j :: 0 <= i < j < |s.handled| && !s.handled[i].again && !s.handled[j].again ==>
         s.handled[i].request.id != s.handled[j].request.id
  }

  lemma HandledGrows(providers: Providers, s: State, step: Step)
    requires Valid(s.log) && Enabled(providers, s, step)
    ensures var t := Next(providers, s, step);
            || t.handled == s.handled
            || exists h :: t.handled == s.handled + [h]
                 && (!h.again ==> !AttemptKept(s.log, h.request.id) && AttemptKept(t.log, h.request.id))
  {
    if step.Record? && Next(providers, s, step).handled != s.handled {
      var m, t := s.runners[step.runner].position, Next(providers, s, step);
      var h := Handling(m.provider, m.request, m.seen, step.mark.AlreadyAttempted? && step.mark.inherent);
      assert t.handled == s.handled + [h];
      if step.mark.Attempt? {
        var a := Append(s.log, MarkRequest(m.request, step.mark), step.now);
        assert t.log == a.log && a.event in a.log && a.event.request.key == Some("attempt:" + m.request.id);
      }
    }
  }

  lemma OnceKept(providers: Providers, s: State, step: Step)
    requires Valid(s.log) && Enabled(providers, s, step) && Once(s)
    ensures Once(Next(providers, s, step))
  {
    var t := Next(providers, s, step);
    HandledGrows(providers, s, step);
    assert forall e :: e in s.log ==> e in t.log;
    assert forall id :: AttemptKept(s.log, id) ==> AttemptKept(t.log, id);
  }

  lemma {:induction false} OnceRun(providers: Providers, s: State, steps: seq<Step>)
    requires Valid(s.log) && Once(s) && Execute(providers, s, steps).Some?
    ensures Once(Execute(providers, s, steps).value)
    decreases |steps|
  {
    if steps != [] {
      OnceKept(providers, s, steps[0]);
      OnceRun(providers, Next(providers, s, steps[0]), steps[1..]);
    }
  }

  /** Two calls of `handle` for one request: at least one of them repeats an inherently idempotent request. */
  lemma HandledOnce(providers: Providers, s: State, i: nat, j: nat)
    requires Reachable(providers, s) && i < j < |s.handled| && s.handled[i].request.id == s.handled[j].request.id
    ensures s.handled[i].again || s.handled[j].again
  {
    var steps :| Execute(providers, START, steps) == Some(s);
    OnceRun(providers, START, steps);
  }
}
