/**
  Backing off from failing input. A component that exhausts its resources on
  one event retries it alone, and at the third failure the event is deferred
  and the cursor moves past it.
*/
module Deferral {
  import opened Events
  import opened Health
  import DerivedKeys

  const MAX_I64 := 0x7fff_ffff_ffff_ffff
  const MAX_DELAY := 60000

  function Doubled(n: nat): (r: nat)
    ensures r >= 1
  {
    if n == 0 then 1 else 2 * Doubled(n - 1)
  }

  /** How long a component waits after its n-th failure. */
  function Delay(failures: nat): (ms: nat) {
    Least(1000 * Doubled(Least(if failures == 0 then 0 else failures - 1, 6)), MAX_DELAY)
  }

  function RetryAt(now: int, failures: nat): (at: int) {
    if now + Delay(failures) > MAX_I64 then MAX_I64 else now + Delay(failures)
  }

  lemma {:induction false} DoubledGrows(a: nat, b: nat)
    requires a <= b
    ensures Doubled(a) <= Doubled(b)
  {
    if a < b {
      DoubledGrows(a, b - 1);
    }
  }

  /** Every delay lies between one second and one minute, and more failures never wait less. */
  lemma DelayBounds(a: nat, b: nat)
    requires a <= b
    ensures 1000 <= Delay(a) <= Delay(b) <= MAX_DELAY
  {
    DoubledGrows(Least(if a == 0 then 0 else a - 1, 6), Least(if b == 0 then 0 else b - 1, 6));
  }

  /** The first wait is one second; each further failure doubles it, up to one minute. */
  lemma DelayDoubles(failures: nat)
    requires failures >= 1
    ensures Delay(1) == 1000
    ensures Delay(failures + 1) == if 2 * Delay(failures) <= 60000 then 2 * Delay(failures) else 60000
  {
    var n := Least(failures - 1, 6);
    if n == 6 {
      assert Doubled(6) == 2 * Doubled(5) == 4 * Doubled(4) == 8 * Doubled(3) == 16 * Doubled(2) == 64;
    } else {
      assert Doubled(n + 1) == 2 * Doubled(n);
    }
  }

  function HealthRequest(agent: string, kind: Kind, fields: map<string, Json>): (r: Request) {
    Request(kind, Doc(Obj(fields)), Principal(Node, agent), None, None, None, None)
  }

  function BackoffRequest(agent: string, id: string, request: Option<string>, failures: nat, at: int): (r: Request) {
    HealthRequest(agent, ComponentBackoff,
      map["instanceId" := Str(id), "requestEventId" := if request.Some? then Str(request.value) else Null,
          "failures" := Int(failures), "retryAtMs" := Int(at)])
  }

  function Listed(batch: seq<Event>): (items: seq<Json>)
    ensures |items| == |batch|
    ensures forall i :: 0 <= i < |batch| ==> items[i] == Str(batch[i].id)
  {
    seq(|batch|, i requires 0 <= i < |batch| => Str(batch[i].id))
  }

  function RecoveredRequest(agent: string, id: string, batch: seq<Event>): (r: Request) {
    HealthRequest(agent, ComponentRecovered, map["instanceId" := Str(id), "requestEventIds" := Arr(Listed(batch))])
  }

  function FailedRequest(agent: string, id: string): (r: Request) {
    HealthRequest(agent, ComponentFailed, map["instanceId" := Str(id), "reason" := Str("resource-exhausted")])
  }

  /** An operator's, or a restarted session's, recovery lists no requests. */
  function ResetRequest(actor: Principal, id: string): (r: Request) {
    Request(ComponentRecovered, Doc(Obj(map["instanceId" := Str(id)])), actor, None, None, None, None)
  }

  function DeferredRequest(agent: string, id: string, source: Event): (r: Request) {
    Request(CognitionResourceExhausted, Doc(Obj(map["instanceId" := Str(id), "requestEventId" := Str(source.id)])),
      Principal(Node, agent), source.request.activity, source.request.correlation, Some(source.id),
      Some(DeferralKey(id, source.id)))
  }

  const DEFERRAL_KEYS := "cognition-resource-exhausted:"

  function DeferralKey(id: string, request: string): (key: string) {
    DEFERRAL_KEYS + id + ":" + request
  }

  /** Keys with this prefix are the host's own. */
  predicate IsDeferralKey(key: Option<string>) {
    key.Some? && DEFERRAL_KEYS <= key.value
  }

  // One failed delivery.

  datatype Host = Host(log: Log, cursors: map<string, nat>, health: Health)

  function Cursor(cursors: map<string, nat>, id: string): (c: nat) {
    if id in cursors then cursors[id] else 0
  }

  function Request0(batch: seq<Event>, resource: bool): (id: Option<string>) {
    if resource && batch != [] then Some(batch[0].id) else None
  }

  function Failures(h: Health, key: Key, resource: bool): (n: nat) {
    if key in h.backoff then Least(h.backoff[key].failures + 1, if resource then REQUEST_CAP else COMPONENT_CAP) else 1
  }

  predicate GivesUp(h: Health, id: string, batch: seq<Event>) {
    Failures(h, KeyFor(id, Request0(batch, true)), true) >= 3 && |batch| <= 1
  }

  function Reduce(h: Health, id: string, resource: bool): (r: Health) {
    if resource then h.(reduced := h.reduced + {id}) else h
  }

  function GivenUp(agent: string, s: Host, id: string, batch: seq<Event>, key: Key, now: int): (r: Host)
    requires Valid(s.log)
    ensures Valid(r.log) && s.log <= r.log
  {
    var quiet := s.health.(backoff := s.health.backoff - {key});
    if batch == [] then
      Host(Append(s.log, FailedRequest(agent, id), now).log, s.cursors, quiet.(failed := s.health.failed + {id}))
    else
      Host(Append(s.log, DeferredRequest(agent, id, batch[0]), now).log, s.cursors[id := batch[0].sequence], quiet)
  }

  /** The log, cursors and health after `defer_delivery`. */
  function Defer(agent: string, s: Host, id: string, batch: seq<Event>, resource: bool, now: int): (r: Host)
    requires Valid(s.log)
    ensures Valid(r.log) && s.log <= r.log
  {
    var key := KeyFor(id, Request0(batch, resource));
    var failures := Failures(s.health, key, resource);
    var health := Reduce(s.health, id, resource);
    if resource && GivesUp(s.health, id, batch) then GivenUp(agent, s.(health := health), id, batch, key, now)
    else
      var at := RetryAt(now, failures);
      Host(Append(s.log, BackoffRequest(agent, id, Request0(batch, resource), failures, at), now).log, s.cursors,
           health.(backoff := health.backoff[key := Backoff(failures, at)]))
  }

  class Agent {
    const agent: string
    var log: Log
    var cursors: map<string, nat>
    var backoff: map<Key, Backoff>
    var reduced: set<string>
    var failed: set<string>

    constructor (agent: string, log: Log, cursors: map<string, nat>)
      ensures this.agent == agent && Now() == Host(log, cursors, HEALTHY)
    {
      this.agent, this.log, this.cursors := agent, log, cursors;
      backoff, reduced, failed := map[], {}, {};
    }

    ghost function Now(): (s: Host)
      reads this
    {
      Host(log, cursors, Health(backoff, reduced, failed))
    }

    method DeferDelivery(id: string, batch: seq<Event>, resource: bool, now: int)
      requires Valid(log)
      modifies this
      ensures Now() == Defer(agent, old(Now()), id, batch, resource, now)
    {
      var request := Request0(batch, resource);
      var key := KeyFor(id, request);
      var failures := 1;
      if key in backoff {
        failures := Least(backoff[key].failures + 1, if resource then REQUEST_CAP else COMPONENT_CAP);
      }
      if resource {
        reduced := reduced + {id};
      }
      if resource && failures >= 3 && |batch| <= 1 {
        GiveUp(id, batch, key, now);
        return;
      }
      var at := RetryAt(now, failures);
      log := Append(log, BackoffRequest(agent, id, request, failures, at), now).log;
      backoff := backoff[key := Backoff(failures, at)];
    }

    /** Withdraws a component that fails without input, or defers the one event it fails on. */
    method GiveUp(id: string, batch: seq<Event>, key: Key, now: int)
      requires Valid(log) && |batch| <= 1
      modifies this
      ensures Now() == GivenUp(agent, old(Now()), id, batch, key, now)
    {
      if batch == [] {
        log := Append(log, FailedRequest(agent, id), now).log;
        failed := failed + {id};
      } else {
        // one commit: the deferral event and the cursor
        log, cursors := Append(log, DeferredRequest(agent, id, batch[0]), now).log, cursors[id := batch[0].sequence];
      }
      backoff := backoff - {key};
    }
  }

  // Whole runs of one host: failures, crashes, restarts and recoveries in any order.

  /** Failures of one delivery head since it last succeeded or was reset. */
  datatype Tally = Tally(all: nat, lost: nat)    // `lost`: the host crashed before recording the failure

  datatype State = State(
    host: Host,
    through: nat,          // health read so far by this process
    started: bool,         // this process has caught up once
    tally: map<Key, Tally>
  )

  datatype Step =
    | Refresh
    | Fail(id: string, batch: seq<Event>, resource: bool, pinned: bool, now: int)
    | FailAndCrash(id: string, batch: seq<Event>, moved: bool)
    | Crash
    | Succeed(id: string, batch: seq<Event>, to: Option<nat>, now: int)
    | Advance(id: string, checkpoint: nat)             // answered, expired or foreign requests are skipped
    | Reset(id: string, actor: Principal, now: int)
    | Write(entry: Request, now: int)

  function Start(): (s: State) {
    State(Host([], map[], HEALTHY), 0, false, map[])
  }

  /** Events of the log beyond the cursor, in order. */
  ghost predicate Pending(s: State, id: string, batch: seq<Event>) {
    && (forall i :: 0 <= i < |batch| ==> batch[i] in s.host.log)
    && (batch != [] ==> Cursor(s.host.cursors, id) < batch[0].sequence <= batch[|batch| - 1].sequence)
  }

  /** A reduced instance is polled one event at a time. */
  predicate Fits(s: State, id: string, batch: seq<Event>) {
    id in s.host.health.reduced ==> |batch| <= 1
  }

  ghost predicate Enabled(agent: string, s: State, step: Step) {
    match step
    case Refresh => true
    case Fail(id, batch, resource, _, _) => s.started && Pending(s, id, batch) && Fits(s, id, batch)
    case FailAndCrash(id, batch, _) => s.started && Pending(s, id, batch) && Fits(s, id, batch) && batch != []
    case Crash => true
    case Succeed(id, batch, to, _) =>
      s.started && Pending(s, id, batch) && (to.Some? ==> Cursor(s.host.cursors, id) <= to.value)
    case Advance(id, to) => Cursor(s.host.cursors, id) <= to
    case Reset(_, actor, _) => Trusted(agent, actor)
    case Write(entry, _) =>
      && !entry.kind.CognitionResourceExhausted? && !IsDeferralKey(entry.key)
      && !(Trusted(agent, entry.actor) && (entry.kind.ComponentBackoff? || entry.kind.ComponentRecovered?))
  }

  function TallyOf(s: State, key: Key): (t: Tally) {
    if key in s.tally then s.tally[key] else Tally(0, 0)
  }

  function Count(s: State, key: Key, lost: nat): (tally: map<Key, Tally>) {
    s.tally[key := Tally(TallyOf(s, key).all + 1, TallyOf(s, key).lost + lost)]
  }

  /** `restart_after_resource`: a pinned session cannot be resumed, so its batch is skipped. */
  function Restarted(h: Host, id: string, batch: seq<Event>, moved: bool): (r: Host) {
    if moved && batch != [] then h.(cursors := h.cursors[id := batch[|batch| - 1].sequence]) else h
  }

  predicate Backing(h: Health, id: string, batch: seq<Event>) {
    Whole(id) in h.backoff || exists i :: 0 <= i < |batch| && Head(id, batch[i].id) in h.backoff
  }

  predicate InBatch(key: Key, id: string, batch: seq<Event>) {
    key.id == id && (key.Whole? || exists i :: 0 <= i < |batch| && batch[i].id == key.request)
  }

  /** `recovered`. */
  function Recovered(agent: string, h: Host, id: string, batch: seq<Event>, now: int): (r: Host)
    requires Valid(h.log)
    ensures Valid(r.log) && h.log <= r.log
  {
    if !Backing(h.health, id, batch) then h
    else
      h.(log := Append(h.log, RecoveredRequest(agent, id, batch), now).log,
         health := h.health.(backoff := map key | key in h.health.backoff && !InBatch(key, id, batch) :: h.health.backoff[key]))
  }

  function Next(agent: string, s: State, step: Step): (t: State)
    requires Valid(s.host.log) && s.through <= |s.host.log|
    ensures Valid(t.host.log) && t.through <= |t.host.log|
  {
    match step
    case Refresh =>
      State(s.host.(health := Fold(agent, s.host.health, s.host.log, s.through, |s.host.log|)), |s.host.log|, true, s.tally)
    case Fail(id, batch, resource, pinned, now) =>
      s.(host := Defer(agent, Restarted(s.host, id, batch, resource && pinned), id, batch, resource, now),
         tally := if resource && batch != [] then Count(s, Head(id, batch[0].id), 0) else s.tally)
    case FailAndCrash(id, batch, moved) =>
      var h := Restarted(s.host, id, batch, moved);
      State(h.(health := HEALTHY), 0, false, if batch != [] then Count(s, Head(id, batch[0].id), 1) else s.tally)
    case Crash => State(s.host.(health := HEALTHY), 0, false, s.tally)
    case Succeed(id, batch, to, now) =>
      var h := Recovered(agent, s.host, id, batch, now);
      s.(host := if to.Some? then h.(cursors := h.cursors[id := to.value]) else h,
         tally := map key | key in s.tally && !InBatch(key, id, batch) :: s.tally[key])
    case Advance(id, to) => s.(host := s.host.(cursors := s.host.cursors[id := to]))
    case Reset(id, actor, now) =>
      s.(host := s.host.(log := Append(s.host.log, ResetRequest(actor, id), now).log),
         tally := map key | key in s.tally && key.id != id :: s.tally[key])
    case Write(entry, now) => s.(host := s.host.(log := Append(s.host.log, entry, now).log))
  }

  /** The health a replay of the whole log gives. */
  function Replayed(agent: string, log: Log): (h: Health) {
    Fold(agent, HEALTHY, log, 0, |log|)
  }

  function N(h: Health, key: Key): (n: nat) {
    if key in h.backoff then h.backoff[key].failures else 0
  }

  /** The failures of a head that were recorded. */
  function Recorded(s: State, key: Key): (n: int) {
    TallyOf(s, key).all - TallyOf(s, key).lost
  }

  /** The cursor is past the event the key names. */
  ghost predicate Passed(h: Host, key: Key)
    requires key.Head?
  {
    exists e :: e in h.log && e.id == key.request && e.sequence <= Cursor(h.cursors, key.id)
  }

  /** The event records the deferral of a component's input, under that deferral's own key. */
  predicate Defers(x: Event, id: string, request: string) {
    && x.request.kind.CognitionResourceExhausted? && x.request.causation == Some(request)
    && Field(x, "instanceId") == Some(id) && Field(x, "requestEventId") == Some(request)
    && ':' !in request && x.request.key == Some(DeferralKey(id, request))
  }

  ghost predicate DeferralLogged(log: Log, key: Key)
    requires key.Head?
  {
    exists x :: x in log && Defers(x, key.id, key.request)
  }

  ghost predicate HeadKept(agent: string, s: State, key: Key)
    requires key.Head?
  {
    && N(s.host.health, key) <= 2 && N(Replayed(agent, s.host.log), key) <= 2
    && (!Passed(s.host, key) ==>
          && Recorded(s, key) <= N(Replayed(agent, s.host.log), key)
          && (s.started ==> Recorded(s, key) <= N(s.host.health, key)))
    && Recorded(s, key) <= 3 && (Recorded(s, key) == 3 ==> DeferralLogged(s.host.log, key))
  }

  /** The event defers a component's input that its cursor has passed. */
  ghost predicate Named(h: Host, x: Event) {
    && Field(x, "instanceId").Some? && Field(x, "requestEventId").Some?
    && Defers(x, Field(x, "instanceId").value, Field(x, "requestEventId").value)
    && Passed(h, Head(Field(x, "instanceId").value, Field(x, "requestEventId").value))
  }

  predicate LooksDeferred(x: Event) {
    x.request.kind.CognitionResourceExhausted? || IsDeferralKey(x.request.key)
  }

  /** A deferral is stored only together with the cursor's advance. */
  ghost predicate Together(h: Host) {
    forall x :: x in h.log && LooksDeferred(x) ==> Named(h, x)
  }

  ghost predicate Inv(agent: string, s: State) {
    && Valid(s.host.log) && s.through <= |s.host.log| && Reduced(s.host.health) && Together(s.host)
    && (!s.started ==> s.host.health == HEALTHY && s.through == 0)
    && forall key: Key :: key.Head? ==> HeadKept(agent, s, key)
  }

  // What each step keeps.

  lemma ReplayGrows(agent: string, log: Log, e: Event)
    ensures Replayed(agent, log + [e]) == Absorb(agent, Replayed(agent, log), e)
  {
    FoldStable(agent, HEALTHY, log, log + [e], 0, |log|);
    assert (log + [e])[|log|] == e;
  }

  lemma PassedStays(h: Host, r: Host, key: Key)
    requires key.Head? && Passed(h, key) && h.log <= r.log
    requires Cursor(h.cursors, key.id) <= Cursor(r.cursors, key.id)
    ensures Passed(r, key)
  {
    var e :| e in h.log && e.id == key.request && e.sequence <= Cursor(h.cursors, key.id);
    assert e in r.log;
  }

  lemma TogetherStays(h: Host, r: Host)
    requires Together(h) && h.log <= r.log
    requires forall id :: Cursor(h.cursors, id) <= Cursor(r.cursors, id)
    requires forall x :: x in r.log && x !in h.log ==> !LooksDeferred(x)
    ensures Together(r)
  {
    forall x | x in r.log && LooksDeferred(x)
      ensures Named(r, x)
    {
      assert Named(h, x);
      PassedStays(h, r, Head(Field(x, "instanceId").value, Field(x, "requestEventId").value));
    }
  }

  lemma RefreshKeeps(agent: string, s: State)
    requires Inv(agent, s)
    ensures Inv(agent, Next(agent, s, Refresh))
  {
    var t := Next(agent, s, Refresh);
    FoldReduced(agent, s.host.health, s.host.log, s.through, |s.host.log|);
    forall key: Key | key.Head?
      ensures HeadKept(agent, t, key)
    {
      FoldEntry(agent, s.host.health, s.host.log, s.through, |s.host.log|, key);
      assert HeadKept(agent, s, key);
      assert Passed(s.host, key) <==> Passed(t.host, key);
    }
    assert Together(t.host);
  }

  /** A process that ends forgets its health; the log and the cursors stay. */
  lemma CrashKeeps(agent: string, s: State, cursors: map<string, nat>, tally: map<Key, Tally>)
    requires Inv(agent, s) && forall id :: Cursor(s.host.cursors, id) <= Cursor(cursors, id)
    requires forall key: Key :: Recorded(s.(tally := tally), key) == Recorded(s, key)
    ensures Inv(agent, State(Host(s.host.log, cursors, HEALTHY), 0, false, tally))
  {
    var t := State(Host(s.host.log, cursors, HEALTHY), 0, false, tally);
    TogetherStays(s.host, t.host);
    forall key: Key | key.Head?
      ensures HeadKept(agent, t, key)
    {
      assert HeadKept(agent, s, key) && Recorded(t, key) == Recorded(s, key);
      if Passed(s.host, key) {
        PassedStays(s.host, t.host, key);
      }
    }
  }

  /** One head after a step that grows the log and the cursors but leaves its entry and its count. */
  lemma HeadStays(agent: string, s: State, t: State, key: Key)
    requires key.Head? && HeadKept(agent, s, key) && s.host.log <= t.host.log && s.started == t.started
    requires Cursor(s.host.cursors, key.id) <= Cursor(t.host.cursors, key.id)
    requires Entry(t.host.health, key) == Entry(s.host.health, key)
    requires Entry(Replayed(agent, t.host.log), key) == Entry(Replayed(agent, s.host.log), key)
    requires Recorded(t, key) == Recorded(s, key)
    ensures HeadKept(agent, t, key)
  {
    if Passed(s.host, key) {
      PassedStays(s.host, t.host, key);
    }
  }

  /** One head whose count starts again. */
  lemma HeadCleared(agent: string, t: State, key: Key)
    requires key.Head? && Recorded(t, key) == 0
    requires N(t.host.health, key) <= 2 && N(Replayed(agent, t.host.log), key) <= 2
    ensures HeadKept(agent, t, key)
  {
  }

  /** An appended event changes the entries it decides and no other. */
  lemma AppendEntry(agent: string, log: Log, request: Request, now: int, key: Key)
    requires Valid(log)
    ensures var a := Append(log, request, now);
            Entry(Replayed(agent, a.log), key) ==
              if a.log == log || !Decides(agent, a.event, key) then Entry(Replayed(agent, log), key)
              else if a.event.request.kind.ComponentBackoff? then Some(Logged(a.event)) else None
  {
    var a := Append(log, request, now);
    if a.log != log {
      ReplayGrows(agent, log, a.event);
      AbsorbEntry(agent, Replayed(agent, log), a.event, key);
    }
  }

  /** What one host step does to health and counts: it decides the entries and the counts of some keys only. */
  ghost predicate Moves(s: State, t: State, decided: Key -> bool, entry: Option<Backoff>, counted: int) {
    && t.started == s.started && t.through == s.through
    && (forall key :: Entry(t.host.health, key) == if decided(key) then entry else Entry(s.host.health, key))
    && (forall key :: Recorded(t, key) == if !decided(key) then Recorded(s, key) else if counted == 0 then 0 else Recorded(s, key) + counted)
  }

  lemma AdvanceKeeps(agent: string, s: State, id: string, to: nat)
    requires Inv(agent, s) && Cursor(s.host.cursors, id) <= to
    ensures Inv(agent, s.(host := s.host.(cursors := s.host.cursors[id := to])))
  {
    var t := s.(host := s.host.(cursors := s.host.cursors[id := to]));
    TogetherStays(s.host, t.host);
    forall key: Key | key.Head?
      ensures HeadKept(agent, t, key)
    {
      assert HeadKept(agent, s, key);
      HeadStays(agent, s, t, key);
    }
  }

  lemma WriteKeeps(agent: string, s: State, entry: Request, now: int)
    requires Inv(agent, s) && Enabled(agent, s, Write(entry, now))
    ensures Inv(agent, Next(agent, s, Write(entry, now)))
  {
    var t := Next(agent, s, Write(entry, now));
    TogetherStays(s.host, t.host);
    forall key: Key | key.Head?
      ensures HeadKept(agent, t, key)
    {
      assert HeadKept(agent, s, key);
      AppendEntry(agent, s.host.log, entry, now, key);
      HeadStays(agent, s, t, key);
    }
  }

  lemma ResetKeeps(agent: string, s: State, id: string, actor: Principal, now: int)
    requires Inv(agent, s) && Trusted(agent, actor)
    ensures Inv(agent, Next(agent, s, Reset(id, actor, now)))
  {
    var t := Next(agent, s, Reset(id, actor, now));
    TogetherStays(s.host, t.host);
    forall key: Key | key.Head?
      ensures HeadKept(agent, t, key)
    {
      assert HeadKept(agent, s, key);
      AppendEntry(agent, s.host.log, ResetRequest(actor, id), now, key);
      if key.id == id {
        HeadCleared(agent, t, key);
      } else {
        HeadStays(agent, s, t, key);
      }
    }
  }

  lemma SucceedMoves(agent: string, s: State, id: string, batch: seq<Event>, now: int) returns (t: State)
    requires Inv(agent, s) && Backing(s.host.health, id, batch)
    ensures t == Next(agent, s, Succeed(id, batch, None, now)) && Moves(s, t, key => InBatch(key, id, batch), None, 0)
    ensures t.host.log == Append(s.host.log, RecoveredRequest(agent, id, batch), now).log && t.host.cursors == s.host.cursors
    ensures t.host.health.reduced == s.host.health.reduced
  {
    t := Next(agent, s, Succeed(id, batch, None, now));
  }

  lemma RecoveryKeeps(agent: string, s: State, t: State, id: string, batch: seq<Event>, now: int)
    requires Inv(agent, s) && Moves(s, t, key => InBatch(key, id, batch), None, 0) && s.started
    requires t.host.log == Append(s.host.log, RecoveredRequest(agent, id, batch), now).log && t.host.cursors == s.host.cursors
    requires t.host.health.reduced == s.host.health.reduced
    ensures Inv(agent, t)
  {
    TogetherStays(s.host, t.host);
    ReducedStays(s.host.health, t.host.health);
    forall key: Key | key.Head?
      ensures HeadKept(agent, t, key)
    {
      assert HeadKept(agent, s, key);
      AppendEntry(agent, s.host.log, RecoveredRequest(agent, id, batch), now, key);
      RecoveryClears(agent, id, batch, key, Append(s.host.log, RecoveredRequest(agent, id, batch), now).event);
      if InBatch(key, id, batch) {
        HeadCleared(agent, t, key);
      } else {
        HeadStays(agent, s, t, key);
      }
    }
  }

  lemma ReducedStays(h: Health, r: Health)
    requires Reduced(h) && h.reduced <= r.reduced
    requires forall key: Key :: Entry(r, key).Some? ==> Entry(h, key).Some? || key.id in r.reduced
    ensures Reduced(r)
  {
    forall key: Key | key in r.backoff && key.Head?
      ensures key.id in r.reduced
    {
      assert Entry(r, key).Some?;
    }
  }

  /** A success that nothing was backing off from only forgets counts. */
  lemma QuietKeeps(agent: string, s: State, id: string, batch: seq<Event>, now: int)
    requires Inv(agent, s) && !Backing(s.host.health, id, batch)
    ensures Inv(agent, Next(agent, s, Succeed(id, batch, None, now)))
  {
    var t := Next(agent, s, Succeed(id, batch, None, now));
    forall key: Key | key.Head?
      ensures HeadKept(agent, t, key)
    {
      assert HeadKept(agent, s, key);
      if InBatch(key, id, batch) {
        HeadCleared(agent, t, key);
      } else {
        HeadStays(agent, s, t, key);
      }
    }
  }

  lemma SucceedKeeps(agent: string, s: State, id: string, batch: seq<Event>, now: int)
    requires Inv(agent, s) && s.started
    ensures Inv(agent, Next(agent, s, Succeed(id, batch, None, now)))
  {
    if Backing(s.host.health, id, batch) {
      var t := SucceedMoves(agent, s, id, batch, now);
      RecoveryKeeps(agent, s, t, id, batch, now);
    } else {
      QuietKeeps(agent, s, id, batch, now);
    }
  }

  /** The recovery event clears, on replay, what the host clears in memory. */
  lemma RecoveryClears(agent: string, id: string, batch: seq<Event>, key: Key, e: Event)
    requires e.request == RecoveredRequest(agent, id, batch)
    ensures Decides(agent, e, key) <==> InBatch(key, id, batch)
  {
    var items := Listed(batch);
    assert e.request.payload.value.At("requestEventIds") == Arr(items);
    if key.Head? && Str(key.request) in items {
      var i :| 0 <= i < |items| && items[i] == Str(key.request);
      assert batch[i].id == key.request;
    }
    if key.Head? && InBatch(key, id, batch) {
      var i :| 0 <= i < |batch| && batch[i].id == key.request;
      assert items[i] == Str(key.request);
    }
  }

  /** A failure that backs off: its event, replayed, gives what the host keeps in memory. */
  lemma BackoffLogged(agent: string, id: string, request: Option<string>, failures: nat, at: int, key: Key, e: Event)
    requires e.request == BackoffRequest(agent, id, request, failures, at)
    requires failures <= if request.Some? then REQUEST_CAP else COMPONENT_CAP
    ensures Decides(agent, e, key) <==> key == KeyFor(id, request)
    ensures Logged(e) == Backoff(failures, at)
  {
  }

  /** The head of a failed batch has no more recorded failures than the host remembers. */
  ghost predicate Due(s: State, id: string, batch: seq<Event>) {
    && s.started && Fits(s, id, batch)
    && (batch != [] ==>
          && batch[0] in s.host.log
          && Recorded(s, Head(id, batch[0].id)) <= N(s.host.health, Head(id, batch[0].id))
          && (|batch| == 1 ==> Cursor(s.host.cursors, id) <= batch[0].sequence))
  }

  lemma PendingIsDue(agent: string, s: State, id: string, batch: seq<Event>)
    requires Inv(agent, s) && s.started && Pending(s, id, batch) && Fits(s, id, batch)
    ensures Due(s, id, batch)
  {
    if batch != [] {
      var key := Head(id, batch[0].id);
      assert HeadKept(agent, s, key);
      if Passed(s.host, key) {
        var e :| e in s.host.log && e.id == key.request && e.sequence <= Cursor(s.host.cursors, id);
        IdsUnique(s.host.log, e, batch[0]);
      }
    }
  }

  lemma HeadCounted(agent: string, s: State, t: State, key: Key, failures: nat)
    requires key.Head? && HeadKept(agent, s, key) && Recorded(s, key) < failures <= 2
    requires N(t.host.health, key) == failures && N(Replayed(agent, t.host.log), key) == failures
    requires Recorded(t, key) == Recorded(s, key) + 1
    ensures HeadKept(agent, t, key)
  {
  }

  lemma BackoffMoves(agent: string, s: State, id: string, batch: seq<Event>, resource: bool, now: int)
    returns (t: State, entry: Request, failures: nat)
    requires Inv(agent, s) && !(resource && GivesUp(s.host.health, id, batch))
    ensures t == Next(agent, s, Fail(id, batch, resource, false, now)) && failures == Failures(s.host.health, KeyFor(id, Request0(batch, resource)), resource)
    ensures entry == BackoffRequest(agent, id, Request0(batch, resource), failures, RetryAt(now, failures))
    ensures var mine := KeyFor(id, Request0(batch, resource));
            && t.started == s.started && t.through == s.through
            && (forall key :: Entry(t.host.health, key) == if key == mine then Some(Backoff(failures, RetryAt(now, failures))) else Entry(s.host.health, key))
            && (forall key: Key :: key.Head? ==> Recorded(t, key) == Recorded(s, key) + if key == mine then 1 else 0)
    ensures t.host.log == Append(s.host.log, entry, now).log && t.host.cursors == s.host.cursors
    ensures t.host.health.reduced == if resource then s.host.health.reduced + {id} else s.host.health.reduced
  {
    t := Next(agent, s, Fail(id, batch, resource, false, now));
    failures := Failures(s.host.health, KeyFor(id, Request0(batch, resource)), resource);
    entry := BackoffRequest(agent, id, Request0(batch, resource), failures, RetryAt(now, failures));
  }

  lemma BackoffKeeps(agent: string, s: State, id: string, batch: seq<Event>, resource: bool, now: int)
    requires Inv(agent, s) && Due(s, id, batch) && !(resource && GivesUp(s.host.health, id, batch))
    ensures Inv(agent, Next(agent, s, Fail(id, batch, resource, false, now)))
  {
    var t, entry, failures := BackoffMoves(agent, s, id, batch, resource, now);
    BackedOffKeeps(agent, s, t, id, Request0(batch, resource), failures, entry, now);
  }

  lemma BackedOffKeeps(agent: string, s: State, t: State, id: string, request: Option<string>, failures: nat, entry: Request, now: int)
    requires Inv(agent, s) && s.started && t.started && t.through == s.through
    requires failures <= if request.Some? then 2 else COMPONENT_CAP
    requires request.Some? ==> Recorded(s, Head(id, request.value)) < failures && id in t.host.health.reduced
    requires entry == BackoffRequest(agent, id, request, failures, RetryAt(now, failures))
    requires forall key :: Entry(t.host.health, key) ==
               if key == KeyFor(id, request) then Some(Backoff(failures, RetryAt(now, failures))) else Entry(s.host.health, key)
    requires forall key: Key :: key.Head? ==> Recorded(t, key) == Recorded(s, key) + if key == KeyFor(id, request) then 1 else 0
    requires t.host.log == Append(s.host.log, entry, now).log && t.host.cursors == s.host.cursors
    requires s.host.health.reduced <= t.host.health.reduced
    ensures Inv(agent, t)
  {
    TogetherStays(s.host, t.host);
    forall key: Key | key.Head?
      ensures HeadKept(agent, t, key) && (key in t.host.health.backoff ==> key.id in t.host.health.reduced)
    {
      assert HeadKept(agent, s, key) && Entry(t.host.health, key).Some? == (key in t.host.health.backoff);
      AppendEntry(agent, s.host.log, entry, now, key);
      BackoffLogged(agent, id, request, failures, RetryAt(now, failures), key, Append(s.host.log, entry, now).event);
      if key == KeyFor(id, request) {
        HeadCounted(agent, s, t, key, failures);
      } else {
        assert Entry(s.host.health, key) == Entry(t.host.health, key);
        HeadStays(agent, s, t, key);
      }
    }
  }

  lemma WithdrawKeeps(agent: string, s: State, id: string, now: int)
    requires Inv(agent, s) && GivesUp(s.host.health, id, [])
    ensures Inv(agent, Next(agent, s, Fail(id, [], true, false, now)))
  {
    var t := Next(agent, s, Fail(id, [], true, false, now));
    TogetherStays(s.host, t.host);
    forall key: Key | key.Head?
      ensures HeadKept(agent, t, key)
    {
      assert HeadKept(agent, s, key);
      AppendEntry(agent, s.host.log, FailedRequest(agent, id), now, key);
      HeadStays(agent, s, t, key);
    }
  }

  /** What the third failure changes: the log and the cursor together, and one key's entry and count. */
  ghost predicate Deferring(agent: string, s: State, t: State, id: string, source: Event, now: int)
    requires Valid(s.host.log)
  {
    && t.started == s.started && t.through == s.through
    && (forall key :: Entry(t.host.health, key) == if key == Head(id, source.id) then None else Entry(s.host.health, key))
    && (forall key :: Recorded(t, key) == Recorded(s, key) + if key == Head(id, source.id) then 1 else 0)
    && t.host.log == Append(s.host.log, DeferredRequest(agent, id, source), now).log
    && t.host.cursors == s.host.cursors[id := source.sequence]
    && t.host.health.reduced == s.host.health.reduced + {id}
  }

  lemma DeferMoves(agent: string, s: State, id: string, source: Event, now: int) returns (t: State)
    requires Inv(agent, s) && GivesUp(s.host.health, id, [source])
    ensures t == Next(agent, s, Fail(id, [source], true, false, now)) && Deferring(agent, s, t, id, source, now)
  {
    t := Next(agent, s, Fail(id, [source], true, false, now));
  }

  /** The third failure stores the deferral and moves the cursor, in one commit. */
  lemma DeferKeeps(agent: string, s: State, id: string, source: Event, now: int)
    requires Inv(agent, s) && Due(s, id, [source]) && GivesUp(s.host.health, id, [source])
    ensures Inv(agent, Next(agent, s, Fail(id, [source], true, false, now)))
  {
    var t := DeferMoves(agent, s, id, source, now);
    assert Passed(t.host, Head(id, source.id));
    DeferredTogether(agent, s.host, t.host, id, source, now);
    ReducedStays(s.host.health, t.host.health);
    forall key: Key | key.Head?
      ensures HeadKept(agent, t, key)
    {
      DeferredHead(agent, s, t, id, source, now, key);
    }
  }

  lemma DeferredHead(agent: string, s: State, t: State, id: string, source: Event, now: int, key: Key)
    requires Inv(agent, s) && Due(s, id, [source]) && Deferring(agent, s, t, id, source, now) && key.Head?
    ensures HeadKept(agent, t, key)
  {
    assert HeadKept(agent, s, key);
    AppendEntry(agent, s.host.log, DeferredRequest(agent, id, source), now, key);
    if key == Head(id, source.id) {
      DeferralStored(agent, s.host, id, source, now);
      assert source in t.host.log && Entry(t.host.health, key) == None;
      HeadDeferred(agent, s, t, key);
    } else {
      HeadStays(agent, s, t, key);
    }
  }

  lemma DeferralStored(agent: string, h: Host, id: string, source: Event, now: int)
    requires Valid(h.log) && Together(h) && source in h.log
    ensures DeferralLogged(Append(h.log, DeferredRequest(agent, id, source), now).log, Head(id, source.id))
  {
    var a := Append(h.log, DeferredRequest(agent, id, source), now);
    PlainId(h.log, source);
    if a.log == h.log {
      var x := a.event;
      assert x.request.key.value == DEFERRAL_KEYS + (id + ":" + source.id);
      assert Named(h, x);
      var i, r := Field(x, "instanceId").value, Field(x, "requestEventId").value;
      DerivedKeys.SplitLast(DEFERRAL_KEYS + i, r, DEFERRAL_KEYS + id, source.id);
      assert (DEFERRAL_KEYS + i)[|DEFERRAL_KEYS|..] == i && (DEFERRAL_KEYS + id)[|DEFERRAL_KEYS|..] == id;
    } else {
      assert Defers(a.event, id, source.id);
    }
  }

  lemma PlainId(log: Log, e: Event)
    requires Valid(log) && e in log
    ensures ':' !in e.id
  {
    var i :| 0 <= i < |log| && log[i] == e;
    assert e.id == IdAt(i + 1);
  }

  lemma HeadDeferred(agent: string, s: State, t: State, key: Key)
    requires key.Head? && HeadKept(agent, s, key) && Recorded(s, key) <= N(s.host.health, key)
    requires N(t.host.health, key) == 0 && N(Replayed(agent, t.host.log), key) == N(Replayed(agent, s.host.log), key)
    requires Recorded(t, key) == Recorded(s, key) + 1 && Passed(t.host, key) && DeferralLogged(t.host.log, key)
    ensures HeadKept(agent, t, key)
  {
  }

  lemma DeferredTogether(agent: string, h: Host, r: Host, id: string, source: Event, now: int)
    requires Valid(h.log) && Together(h) && source in h.log && Passed(r, Head(id, source.id))
    requires r.log == Append(h.log, DeferredRequest(agent, id, source), now).log
    requires forall id :: Cursor(h.cursors, id) <= Cursor(r.cursors, id)
    ensures Together(r)
  {
    forall x | x in r.log && LooksDeferred(x)
      ensures Named(r, x)
    {
      if x in h.log {
        assert Named(h, x);
        PassedStays(h, r, Head(Field(x, "instanceId").value, Field(x, "requestEventId").value));
      } else {
        assert x.request == DeferredRequest(agent, id, source);
        PlainId(h.log, source);
      }
    }
  }

  lemma FailKeeps(agent: string, s: State, id: string, batch: seq<Event>, resource: bool, now: int)
    requires Inv(agent, s) && Due(s, id, batch)
    ensures Inv(agent, Next(agent, s, Fail(id, batch, resource, false, now)))
  {
    if !(resource && GivesUp(s.host.health, id, batch)) {
      BackoffKeeps(agent, s, id, batch, resource, now);
    } else if batch == [] {
      WithdrawKeeps(agent, s, id, now);
    } else {
      assert batch == [batch[0]];
      DeferKeeps(agent, s, id, batch[0], now);
    }
  }

  /** A pinned failure is a skip of the batch followed by an ordinary failure. */
  lemma PinnedSkips(agent: string, s: State, moved: State, id: string, batch: seq<Event>, now: int)
    requires Valid(s.host.log) && s.through <= |s.host.log| && batch != []
    requires moved == s.(host := s.host.(cursors := s.host.cursors[id := batch[|batch| - 1].sequence]))
    ensures Next(agent, s, Fail(id, batch, true, true, now)) == Next(agent, moved, Fail(id, batch, true, false, now))
  {
    assert Restarted(s.host, id, batch, true) == moved.host == Restarted(moved.host, id, batch, false);
    assert Count(s, Head(id, batch[0].id), 0) == Count(moved, Head(id, batch[0].id), 0);
  }

  lemma PinnedFailKeeps(agent: string, s: State, id: string, batch: seq<Event>, now: int)
    requires Inv(agent, s) && Enabled(agent, s, Fail(id, batch, true, true, now)) && batch != []
    ensures Inv(agent, Next(agent, s, Fail(id, batch, true, true, now)))
  {
    var moved := s.(host := s.host.(cursors := s.host.cursors[id := batch[|batch| - 1].sequence]));
    PendingIsDue(agent, s, id, batch);
    AdvanceKeeps(agent, s, id, batch[|batch| - 1].sequence);
    assert Due(moved, id, batch);
    FailKeeps(agent, moved, id, batch, true, now);
    PinnedSkips(agent, s, moved, id, batch, now);
  }

  lemma FailStepKeeps(agent: string, s: State, id: string, batch: seq<Event>, resource: bool, pinned: bool, now: int)
    requires Inv(agent, s) && Enabled(agent, s, Fail(id, batch, resource, pinned, now))
    ensures Inv(agent, Next(agent, s, Fail(id, batch, resource, pinned, now)))
  {
    if resource && pinned && batch != [] {
      PinnedFailKeeps(agent, s, id, batch, now);
    } else {
      PendingIsDue(agent, s, id, batch);
      FailKeeps(agent, s, id, batch, resource, now);
    }
  }

  lemma CrashStepKeeps(agent: string, s: State, step: Step)
    requires Inv(agent, s) && Enabled(agent, s, step) && (step.FailAndCrash? || step.Crash?)
    ensures Inv(agent, Next(agent, s, step))
  {
    if step.Crash? {
      CrashKeeps(agent, s, s.host.cursors, s.tally);
    } else {
      var cursors := Restarted(s.host, step.id, step.batch, step.moved).cursors;
      CrashKeeps(agent, s, cursors, Count(s, Head(step.id, step.batch[0].id), 1));
    }
  }

  lemma SucceedStepKeeps(agent: string, s: State, id: string, batch: seq<Event>, to: Option<nat>, now: int)
    requires Inv(agent, s) && Enabled(agent, s, Succeed(id, batch, to, now))
    ensures Inv(agent, Next(agent, s, Succeed(id, batch, to, now)))
  {
    SucceedKeeps(agent, s, id, batch, now);
    if to.Some? {
      AdvanceKeeps(agent, Next(agent, s, Succeed(id, batch, None, now)), id, to.value);
    }
  }

  lemma StepKeeps(agent: string, s: State, step: Step)
    requires Inv(agent, s) && Enabled(agent, s, step)
    ensures Inv(agent, Next(agent, s, step))
  {
    match step
    case Refresh => RefreshKeeps(agent, s);
    case Fail(id, batch, resource, pinned, now) => FailStepKeeps(agent, s, id, batch, resource, pinned, now);
    case FailAndCrash(_, _, _) => CrashStepKeeps(agent, s, step);
    case Crash => CrashStepKeeps(agent, s, step);
    case Succeed(id, batch, to, now) => SucceedStepKeeps(agent, s, id, batch, to, now);
    case Advance(id, to) => AdvanceKeeps(agent, s, id, to);
    case Reset(id, actor, now) => ResetKeeps(agent, s, id, actor, now);
    case Write(entry, now) => WriteKeeps(agent, s, entry, now);
  }

  /** Taking one step after the other, for any way to take one. */
  function Iterate(move: (State, Step) -> Option<State>, s: State, steps: seq<Step>): (r: Option<State>) {
    if steps == [] then Some(s)
    else
      var before := Iterate(move, s, steps[..|steps| - 1]);
      if before.Some? then move(before.value, steps[|steps| - 1]) else None
  }

  lemma {:induction false} IterateKeeps(move: (State, Step) -> Option<State>, s: State, steps: seq<Step>, fine: State -> bool)
    requires fine(s) && forall x, step :: fine(x) && move(x, step).Some? ==> fine(move(x, step).value)
    ensures Iterate(move, s, steps).Some? ==> fine(Iterate(move, s, steps).value)
  {
    if steps != [] {
      IterateKeeps(move, s, steps[..|steps| - 1], fine);
    }
  }

  lemma IterateOn(move: (State, Step) -> Option<State>, s: State, steps: seq<Step>, t: State, step: Step)
    requires Iterate(move, s, steps) == Some(t)
    ensures Iterate(move, s, steps + [step]) == move(t, step)
  {
    var more := steps + [step];
    assert more[..|more| - 1] == steps;
  }

  ghost function Moving(agent: string): (move: (State, Step) -> Option<State>) {
    (s: State, step: Step) =>
      if Valid(s.host.log) && s.through <= |s.host.log| && Enabled(agent, s, step) then Some(Next(agent, s, step)) else None
  }

  /** The state after a run, or nothing if some step could not be taken. */
  ghost function Execute(agent: string, steps: seq<Step>): (s: Option<State>)
    ensures s.Some? ==> Valid(s.value.host.log) && s.value.through <= |s.value.host.log|
  {
    IterateKeeps(Moving(agent), Start(), steps, (s: State) => Valid(s.host.log) && s.through <= |s.host.log|);
    Iterate(Moving(agent), Start(), steps)
  }

  lemma RunKeeps(agent: string, steps: seq<Step>)
    requires Execute(agent, steps).Some?
    ensures Inv(agent, Execute(agent, steps).value)
  {
    StartKept(agent);
    forall s, step | Inv(agent, s) && Moving(agent)(s, step).Some?
      ensures Inv(agent, Moving(agent)(s, step).value)
    {
      StepKeeps(agent, s, step);
    }
    IterateKeeps(Moving(agent), Start(), steps, (s: State) => Inv(agent, s));
  }

  lemma StartKept(agent: string)
    ensures Inv(agent, Start())
  {
  }

  /**
    Poison input cannot block: over every run, a head event has at most three
    failures beyond those whose host crashed before recording them, and at the
    third the deferral is in the log and the cursor is past the event.
  */
  lemma PoisonCannotBlock(agent: string, steps: seq<Step>, key: Key)
    requires Execute(agent, steps).Some? && key.Head?
    ensures var s := Execute(agent, steps).value;
            && TallyOf(s, key).all <= 3 + TallyOf(s, key).lost
            && (TallyOf(s, key).all == 3 + TallyOf(s, key).lost ==> DeferralLogged(s.host.log, key) && Passed(s.host, key))
            && Together(s.host)
  {
    RunKeeps(agent, steps);
    assert HeadKept(agent, Execute(agent, steps).value, key);
  }

  /** A failure that is not the last: what is stored, and when the component is tried again. */
  lemma RetryStored(agent: string, h: Host, id: string, batch: seq<Event>, resource: bool, now: int)
    requires Valid(h.log) && !(resource && GivesUp(h.health, id, batch)) && now + 60000 <= MAX_I64
    ensures var key := if resource && batch != [] then Head(id, batch[0].id) else Whole(id);
            var r := Defer(agent, h, id, batch, resource, now);
            var cap := if resource then 3 else 32;
            && key in r.health.backoff
            && r.health.backoff[key].failures == (if key !in h.health.backoff then 1
                                                  else if h.health.backoff[key].failures < cap then h.health.backoff[key].failures + 1 else cap)
            && r.health.backoff[key].until == now + Delay(r.health.backoff[key].failures)
            && now + 1000 <= r.health.backoff[key].until <= now + 60000
            && |r.log| == |h.log| + 1 && r.log[|h.log|].request.kind.ComponentBackoff?
            && Number(r.log[|h.log|], "retryAtMs") == Some(r.health.backoff[key].until)
            && Number(r.log[|h.log|], "failures") == Some(r.health.backoff[key].failures)
  {
    var key := KeyFor(id, Request0(batch, resource));
    var failures := Failures(h.health, key, resource);
    DelayBounds(failures, failures);
  }

  // Not before the third failure: what memory counts, the log tells.

  /** The event records the n-th failure of a head. */
  predicate Records(agent: string, e: Event, key: Key, n: nat) {
    Decides(agent, e, key) && e.request.kind.ComponentBackoff? && Logged(e).failures == n
  }

  ghost predicate ToldOf(agent: string, log: Log, key: Key, n: nat, before: nat) {
    exists e :: e in log && e.sequence <= before && Records(agent, e, key, n)
  }

  ghost predicate RememberedTold(agent: string, s: State) {
    forall key: Key :: key.Head? && key in s.host.health.backoff ==>
      ToldOf(agent, s.host.log, key, s.host.health.backoff[key].failures, |s.host.log|)
  }

  ghost predicate LogTold(agent: string, log: Log) {
    forall e, key: Key :: key.Head? && e in log && e.sequence > 0 && Records(agent, e, key, Logged(e).failures) && Logged(e).failures >= 2 ==>
      ToldOf(agent, log, key, Logged(e).failures - 1, e.sequence - 1)
  }

  ghost predicate Told(agent: string, s: State) {
    RememberedTold(agent, s) && LogTold(agent, s.host.log)
  }

  lemma ToldStays(agent: string, log: Log, longer: Log, key: Key, n: nat, before: nat, after: nat)
    requires ToldOf(agent, log, key, n, before) && log <= longer && before <= after
    ensures ToldOf(agent, longer, key, n, after)
  {
    var e :| e in log && e.sequence <= before && Records(agent, e, key, n);
    assert e in longer;
  }

  /** An entry that catching up adds is told by the log. */
  lemma {:induction false} FoldTold(agent: string, h: Health, log: Log, lo: nat, hi: nat, key: Key)
    requires lo <= hi <= |log| && Gapless(log)
    ensures var entry := Entry(Fold(agent, h, log, lo, hi), key);
            entry.Some? ==> entry == Entry(h, key) || ToldOf(agent, log, key, entry.value.failures, |log|)
    decreases hi
  {
    if lo < hi {
      FoldTold(agent, h, log, lo, hi - 1, key);
      AbsorbEntry(agent, Fold(agent, h, log, lo, hi - 1), log[hi - 1], key);
      if Decides(agent, log[hi - 1], key) && log[hi - 1].request.kind.ComponentBackoff? {
        assert log[hi - 1] in log && Records(agent, log[hi - 1], key, Logged(log[hi - 1]).failures);
      }
    }
  }

  /** One more event that records no head, and no new entry. */
  lemma ToldGrows(agent: string, s: State, t: State, request: Request, now: int)
    requires Valid(s.host.log) && Told(agent, s) && t.host.log == Append(s.host.log, request, now).log
    requires !(request.kind.ComponentBackoff? && Trusted(agent, request.actor) && Field(Event("", 0, 0, request), "requestEventId").Some?)
    requires forall key: Key :: key.Head? && key in t.host.health.backoff ==> Entry(t.host.health, key) == Entry(s.host.health, key)
    ensures Told(agent, t)
  {
    var a := Append(s.host.log, request, now);
    LogToldGrows(agent, s.host.log, a.log, a.event);
    forall key: Key | key.Head? && key in t.host.health.backoff
      ensures ToldOf(agent, t.host.log, key, t.host.health.backoff[key].failures, |t.host.log|)
    {
      assert Entry(t.host.health, key).Some?;
      ToldStays(agent, s.host.log, t.host.log, key, t.host.health.backoff[key].failures, |s.host.log|, |t.host.log|);
    }
  }

  lemma LogToldGrows(agent: string, log: Log, longer: Log, e: Event)
    requires LogTold(agent, log) && (longer == log || longer == log + [e])
    requires longer == log || forall key: Key :: key.Head? ==> !Records(agent, e, key, Logged(e).failures)
    ensures LogTold(agent, longer)
  {
    forall x, key: Key | key.Head? && x in longer && x.sequence > 0 && Records(agent, x, key, Logged(x).failures) && Logged(x).failures >= 2
      ensures ToldOf(agent, longer, key, Logged(x).failures - 1, x.sequence - 1)
    {
      assert x in log;
      ToldStays(agent, log, longer, key, Logged(x).failures - 1, x.sequence - 1, x.sequence - 1);
    }
  }

  lemma ToldRefresh(agent: string, s: State)
    requires Inv(agent, s) && Told(agent, s)
    ensures Told(agent, Next(agent, s, Refresh))
  {
    var t := Next(agent, s, Refresh);
    forall key: Key | key.Head? && key in t.host.health.backoff
      ensures ToldOf(agent, t.host.log, key, t.host.health.backoff[key].failures, |t.host.log|)
    {
      assert Entry(t.host.health, key) == Some(t.host.health.backoff[key]);
      FoldTold(agent, s.host.health, s.host.log, s.through, |s.host.log|, key);
    }
  }

  lemma ToldSucceed(agent: string, s: State, id: string, batch: seq<Event>, now: int)
    requires Inv(agent, s) && Told(agent, s)
    ensures Told(agent, Next(agent, s, Succeed(id, batch, None, now)))
  {
    if Backing(s.host.health, id, batch) {
      var t := SucceedMoves(agent, s, id, batch, now);
      ToldGrows(agent, s, t, RecoveredRequest(agent, id, batch), now);
    }
  }

  lemma ToldBackoff(agent: string, s: State, id: string, batch: seq<Event>, resource: bool, now: int)
    requires Inv(agent, s) && Told(agent, s) && !(resource && GivesUp(s.host.health, id, batch))
    ensures Told(agent, Next(agent, s, Fail(id, batch, resource, false, now)))
  {
    var t, entry, failures := BackoffMoves(agent, s, id, batch, resource, now);
    var request := Request0(batch, resource);
    if request.None? {
      assert forall key: Key :: key.Head? ==> Entry(t.host.health, key) == Entry(s.host.health, key);
      ToldGrows(agent, s, t, entry, now);
    } else {
      assert HeadKept(agent, s, Head(id, request.value));
      ToldHead(agent, s, t, id, request.value, failures, RetryAt(now, failures), now);
    }
  }

  lemma ToldHead(agent: string, s: State, t: State, id: string, request: string, failures: nat, at: int, now: int)
    requires Valid(s.host.log) && Told(agent, s) && failures <= 3
    requires failures == if Head(id, request) in s.host.health.backoff then s.host.health.backoff[Head(id, request)].failures + 1 else 1
    requires t.host.log == Append(s.host.log, BackoffRequest(agent, id, Some(request), failures, at), now).log
    requires forall key :: Entry(t.host.health, key) == if key == Head(id, request) then Some(Backoff(failures, at)) else Entry(s.host.health, key)
    ensures Told(agent, t)
  {
    var e := Append(s.host.log, BackoffRequest(agent, id, Some(request), failures, at), now).event;
    assert t.host.log == s.host.log + [e] && e.sequence == |t.host.log|;
    forall key: Key
      ensures Decides(agent, e, key) <==> key == Head(id, request)
      ensures Logged(e) == Backoff(failures, at)
    {
      BackoffLogged(agent, id, Some(request), failures, at, key, e);
    }
    assert Records(agent, e, Head(id, request), failures) && e in t.host.log;
    forall key: Key | key.Head? && key in t.host.health.backoff
      ensures ToldOf(agent, t.host.log, key, t.host.health.backoff[key].failures, |t.host.log|)
    {
      assert Entry(t.host.health, key) == Some(t.host.health.backoff[key]);
      if key != Head(id, request) {
        ToldStays(agent, s.host.log, t.host.log, key, t.host.health.backoff[key].failures, |s.host.log|, |t.host.log|);
      }
    }
    ToldNext(agent, s.host, e, id, request, failures);
  }

  lemma ToldNext(agent: string, h: Host, e: Event, id: string, request: string, failures: nat)
    requires LogTold(agent, h.log) && e.sequence == |h.log| + 1 && Logged(e).failures == failures
    requires forall key: Key :: Decides(agent, e, key) <==> key == Head(id, request)
    requires failures >= 2 ==> ToldOf(agent, h.log, Head(id, request), failures - 1, |h.log|)
    ensures LogTold(agent, h.log + [e])
  {
    var longer := h.log + [e];
    forall x, key: Key | key.Head? && x in longer && x.sequence > 0 && Records(agent, x, key, Logged(x).failures) && Logged(x).failures >= 2
      ensures ToldOf(agent, longer, key, Logged(x).failures - 1, x.sequence - 1)
    {
      ToldStays(agent, h.log, longer, key, Logged(x).failures - 1, x.sequence - 1, x.sequence - 1);
    }
  }

  lemma ToldGiveUp(agent: string, s: State, id: string, batch: seq<Event>, now: int)
    requires Inv(agent, s) && Told(agent, s) && GivesUp(s.host.health, id, batch)
    ensures Told(agent, Next(agent, s, Fail(id, batch, true, false, now)))
  {
    if batch == [] {
      ToldGrows(agent, s, Next(agent, s, Fail(id, batch, true, false, now)), FailedRequest(agent, id), now);
    } else {
      assert batch == [batch[0]];
      var t := DeferMoves(agent, s, id, batch[0], now);
      assert forall key :: key in t.host.health.backoff ==> Entry(t.host.health, key).Some?;
      ToldGrows(agent, s, t, DeferredRequest(agent, id, batch[0]), now);
    }
  }

  lemma ToldFail(agent: string, s: State, id: string, batch: seq<Event>, resource: bool, now: int)
    requires Inv(agent, s) && Told(agent, s)
    ensures Told(agent, Next(agent, s, Fail(id, batch, resource, false, now)))
  {
    if resource && GivesUp(s.host.health, id, batch) {
      ToldGiveUp(agent, s, id, batch, now);
    } else {
      ToldBackoff(agent, s, id, batch, resource, now);
    }
  }

  lemma ToldStep(agent: string, s: State, step: Step)
    requires Inv(agent, s) && Told(agent, s) && Enabled(agent, s, step)
    ensures Told(agent, Next(agent, s, step))
  {
    match step
    case Refresh => ToldRefresh(agent, s);
    case Fail(id, batch, resource, pinned, now) =>
      if resource && pinned && batch != [] {
        var moved := s.(host := s.host.(cursors := s.host.cursors[id := batch[|batch| - 1].sequence]));
        AdvanceKeeps(agent, s, id, batch[|batch| - 1].sequence);
        ToldFail(agent, moved, id, batch, true, now);
        PinnedSkips(agent, s, moved, id, batch, now);
      } else {
        ToldFail(agent, s, id, batch, resource, now);
      }
    case FailAndCrash(_, _, _) =>
    case Crash =>
    case Succeed(id, batch, to, now) => ToldSucceed(agent, s, id, batch, now);
    case Advance(_, _) =>
    case Reset(id, actor, now) => ToldGrows(agent, s, Next(agent, s, step), ResetRequest(actor, id), now);
    case Write(entry, now) => ToldGrows(agent, s, Next(agent, s, step), entry, now);
  }

  lemma ToldRun(agent: string, steps: seq<Step>)
    requires Execute(agent, steps).Some?
    ensures Told(agent, Execute(agent, steps).value)
  {
    StartKept(agent);
    forall s, step | Inv(agent, s) && Told(agent, s) && Moving(agent)(s, step).Some?
      ensures Inv(agent, Moving(agent)(s, step).value) && Told(agent, Moving(agent)(s, step).value)
    {
      StepKeeps(agent, s, step);
      ToldStep(agent, s, step);
    }
    IterateKeeps(Moving(agent), Start(), steps, (s: State) => Inv(agent, s) && Told(agent, s));
  }

  /** The event says that the component failed on the input, for the n-th time in a row. */
  predicate SaysFailed(e: Event, id: string, request: string, n: nat) {
    && e.request.kind.ComponentBackoff? && Field(e, "instanceId") == Some(id) && Field(e, "requestEventId") == Some(request)
    && Logged(e).failures == n
  }

  /**
    Nothing is deferred early: in every run, when a failure stores a deferral,
    the log already holds the first and then the second failure on that input.
  */
  lemma DeferredAtThird(agent: string, steps: seq<Step>, id: string, batch: seq<Event>, resource: bool, pinned: bool, now: int)
    requires Execute(agent, steps).Some?
    ensures var s := Execute(agent, steps).value;
            Enabled(agent, s, Fail(id, batch, resource, pinned, now))
            && StoresDeferral(s.host.log, Next(agent, s, Fail(id, batch, resource, pinned, now)).host.log) ==>
              resource && |batch| == 1 && FailedTwice(s.host.log, id, batch[0].id)
  {
    var s := Execute(agent, steps).value;
    if Enabled(agent, s, Fail(id, batch, resource, pinned, now))
        && StoresDeferral(s.host.log, Next(agent, s, Fail(id, batch, resource, pinned, now)).host.log) {
      RunKeeps(agent, steps);
      ToldRun(agent, steps);
      DeferralNeeds(agent, Restarted(s.host, id, batch, resource && pinned), id, batch, resource, now);
      TwoTold(agent, s, id, batch[0].id);
    }
  }

  /** A deferral is stored that was not there. */
  ghost predicate StoresDeferral(before: Log, after: Log) {
    exists x :: x in after && x !in before && x.request.kind.CognitionResourceExhausted?
  }

  ghost predicate FailedTwice(log: Log, id: string, request: string) {
    exists e, f :: e in log && f in log && e.sequence < f.sequence && SaysFailed(e, id, request, 1) && SaysFailed(f, id, request, 2)
  }

  lemma TwoTold(agent: string, s: State, id: string, request: string)
    requires Inv(agent, s) && Told(agent, s) && N(s.host.health, Head(id, request)) >= 2
    ensures FailedTwice(s.host.log, id, request)
  {
    var key := Head(id, request);
    assert HeadKept(agent, s, key);
    assert ToldOf(agent, s.host.log, key, 2, |s.host.log|);
    var f :| f in s.host.log && f.sequence <= |s.host.log| && Records(agent, f, key, 2);
    assert ToldOf(agent, s.host.log, key, 1, f.sequence - 1);
    var e :| e in s.host.log && e.sequence <= f.sequence - 1 && Records(agent, e, key, 1);
    assert SaysFailed(e, id, request, 1) && SaysFailed(f, id, request, 2);
  }

  lemma DeferralNeeds(agent: string, h: Host, id: string, batch: seq<Event>, resource: bool, now: int)
    requires Valid(h.log) && StoresDeferral(h.log, Defer(agent, h, id, batch, resource, now).log)
    ensures resource && |batch| == 1 && N(h.health, Head(id, batch[0].id)) >= 2
  {
  }

  // Why unrecorded failures are counted apart: they have no bound.

  const INPUT := Request(ObservationReceived, Malformed, Principal(External, ""), None, None, None, None)

  /** The only event of a log. */
  ghost predicate Alone(e: Event) {
    Valid([e]) && e.request == INPUT && e.sequence == 1
  }

  /** After `n` failures on `e` whose host crashed each time before recording anything, and a restart. */
  function Crashed(e: Event, id: string, n: nat): (s: State) {
    State(Host([e], map[], HEALTHY), 1, true, if n == 0 then map[] else map[Head(id, e.id) := Tally(n, n)])
  }

  /** The same, before the restarted host has read its health. */
  function Restarting(e: Event, id: string, n: nat): (s: State) {
    State(Host([e], map[], HEALTHY), 0, false, map[Head(id, e.id) := Tally(n, n)])
  }

  lemma OneMoreCrash(agent: string, e: Event, id: string, n: nat)
    requires Alone(e)
    ensures var fail := FailAndCrash(id, [e], false);
            Enabled(agent, Crashed(e, id, n), fail) && Next(agent, Crashed(e, id, n), fail) == Restarting(e, id, n + 1)
  {
    assert [e][0] == e && e in [e];
  }

  lemma OneMoreRestart(agent: string, e: Event, id: string, n: nat)
    requires Alone(e) && n > 0
    ensures Enabled(agent, Restarting(e, id, n), Refresh) && Next(agent, Restarting(e, id, n), Refresh) == Crashed(e, id, n)
  {
    NothingToRead(agent, e);
  }

  lemma NothingToRead(agent: string, e: Event)
    requires Alone(e)
    ensures Fold(agent, HEALTHY, [e], 0, 1) == HEALTHY
  {
    assert Fold(agent, HEALTHY, [e], 0, 0) == HEALTHY;
  }

  lemma CrashOnce(agent: string, e: Event, id: string, n: nat)
    requires Alone(e)
    ensures Moving(agent)(Crashed(e, id, n), FailAndCrash(id, [e], false)) == Some(Restarting(e, id, n + 1))
    ensures Moving(agent)(Restarting(e, id, n + 1), Refresh) == Some(Crashed(e, id, n + 1))
  {
    OneMoreCrash(agent, e, id, n);
    OneMoreRestart(agent, e, id, n + 1);
  }

  lemma WriteFirst(agent: string, e: Event, read: State)
    requires Append([], INPUT, 0).log == [e] && read == State(Host([e], map[], HEALTHY), 0, false, map[])
    ensures Moving(agent)(Start(), Write(INPUT, 0)) == Some(read)
  {
    assert Enabled(agent, Start(), Write(INPUT, 0));
    assert Next(agent, Start(), Write(INPUT, 0)) == read;
  }

  lemma ReadFirst(agent: string, e: Event, id: string, read: State)
    requires Alone(e) && read == State(Host([e], map[], HEALTHY), 0, false, map[])
    ensures Moving(agent)(read, Refresh) == Some(Crashed(e, id, 0))
  {
    NothingToRead(agent, e);
    assert Next(agent, read, Refresh) == Crashed(e, id, 0);
  }

  lemma IterateTwice(move: (State, Step) -> Option<State>, s: State, steps: seq<Step>, t: State, a: Step, u: State, b: Step, v: State)
    returns (more: seq<Step>)
    requires Iterate(move, s, steps) == Some(t) && move(t, a) == Some(u) && move(u, b) == Some(v)
    ensures Iterate(move, s, more) == Some(v)
  {
    IterateOn(move, s, steps, t, a);
    IterateOn(move, s, steps + [a], u, b);
    more := steps + [a] + [b];
  }

  /** Whatever move takes a step of the series to its next one reaches all of it. */
  lemma {:induction false} CrashOn(move: (State, Step) -> Option<State>, s: State, e: Event, id: string, start: seq<Step>, n: nat)
    returns (steps: seq<Step>)
    requires Iterate(move, s, start) == Some(Crashed(e, id, 0)) && Crashes(move, e, id)
    ensures Iterate(move, s, steps) == Some(Crashed(e, id, n))
  {
    steps := start;
    if n > 0 {
      steps := CrashOn(move, s, e, id, start, n - 1);
      assert CrashesOnce(move, e, id, n - 1);
      steps := IterateTwice(move, s, steps, Crashed(e, id, n - 1), FailAndCrash(id, [e], false), Restarting(e, id, n), Refresh, Crashed(e, id, n));
    }
  }

  ghost predicate CrashesOnce(move: (State, Step) -> Option<State>, e: Event, id: string, n: nat) {
    && move(Crashed(e, id, n), FailAndCrash(id, [e], false)) == Some(Restarting(e, id, n + 1))
    && move(Restarting(e, id, n + 1), Refresh) == Some(Crashed(e, id, n + 1))
  }

  ghost predicate Crashes(move: (State, Step) -> Option<State>, e: Event, id: string) {
    forall n: nat :: CrashesOnce(move, e, id, n)
  }

  lemma CrashRun(agent: string, e: Event, id: string, n: nat) returns (steps: seq<Step>)
    requires Alone(e) && Append([], INPUT, 0).log == [e]
    ensures Iterate(Moving(agent), Start(), steps) == Some(Crashed(e, id, n))
  {
    var read := State(Host([e], map[], HEALTHY), 0, false, map[]);
    WriteFirst(agent, e, read);
    ReadFirst(agent, e, id, read);
    steps := IterateTwice(Moving(agent), Start(), [], Start(), Write(INPUT, 0), read, Refresh, Crashed(e, id, 0));
    CrashesAll(agent, e, id);
    steps := CrashOn(Moving(agent), Start(), e, id, steps, n);
  }

  lemma CrashesAll(agent: string, e: Event, id: string)
    requires Alone(e)
    ensures Crashes(Moving(agent), e, id)
  {
    forall n: nat
      ensures CrashesOnce(Moving(agent), e, id, n)
    {
      CrashOnce(agent, e, id, n);
    }
  }

  /** For every n there is a run in which one input of the log fails n times and the cursor is not past it. */
  lemma UnrecordedFailuresUnbounded(agent: string, id: string, n: nat) returns (steps: seq<Step>, e: Event)
    ensures Execute(agent, steps).Some?
    ensures var s := Execute(agent, steps).value;
            e in s.host.log && Cursor(s.host.cursors, id) < e.sequence && TallyOf(s, Head(id, e.id)) == Tally(n, n)
  {
    e := Append([], INPUT, 0).event;
    assert Append([], INPUT, 0).log == [] + [e] == [e];
    steps := CrashRun(agent, e, id, n);
    assert e in Crashed(e, id, n).host.log;
  }
}
