/**
  The event log every other module reads and writes: event values, the append
  contract (gapless sequences, one event per deduplication key) and the paged
  reads the host loops over.
*/
module Events {
  import Decimal

  datatype Option<+T> = None | Some(value: T)

  datatype Result<+T, +E> = Ok(value: T) | Err(error: E)

  datatype PrincipalKind = Human | Agent | Node | Component | External

  datatype Principal = Principal(kind: PrincipalKind, id: string)

  datatype Json =
    | Null
    | Bool(b: bool)
    | Int(n: int)
    | Str(s: string)
    | Arr(items: seq<Json>)
    | Obj(fields: map<string, Json>)
  {
    /** `value[key]`: a missing key and a non-object both read as null. */
    function At(key: string): (v: Json) {
      if Obj? && key in fields then fields[key] else Null
    }

    /** `value.get(key)`. */
    function Get(key: string): (v: Option<Json>) {
      if Obj? && key in fields then Some(fields[key]) else None
    }

    /** `value.as_str()`. */
    function AsStr(): (v: Option<string>) {
      if Str? then Some(s) else None
    }
  }

  /** Inline JSON, inline bytes that do not parse, or a blob reference. */
  datatype Payload = Doc(value: Json) | Malformed | Blob

  /** The closed vocabulary of event types. */
  datatype Kind =
    | ComponentFailed | ComponentBackoff | ComponentRecovered
    | CognitionResourceExhausted | OperatorJobControl | OperatorAttemptReconciled
    | ObservationReceived | PolicyDecision | CredentialEnrollmentRequested
    | ActivityAttempted | ActivityUnknown
    | CapabilityDenied | CapabilityTimedOut | CapabilityCancelled
    | StreamClosed | AgentFailed
    | CredentialEnrollmentStarted | HttpRequestReceived | HttpResponseRequested
    | CapabilityRequested | ModelRequested
    | CapabilityOutput | CapabilityCompleted | CapabilityFailed
    | ModelStream | ModelCompleted | ModelFailed
    | CognitionCheckpoint | CognitionJobUpdated | CognitionObservationAssociated
    | CognitionCancelRequested | CognitionCompleted | CognitionFailed
    | MemoryRemembered | MemorySuperseded | MemoryForgotten
    | CodeCloseRequested | CodeClosed | CodeEvaluateRequested | CodeYielded
    | CodeResumed | CodeCompleted | CodeFailed
    | TimerSet | TimerCancel | TimerFired | ScheduleUpdated

  /** An event before the store assigns ordering and identity. */
  datatype Request = Request(
    kind: Kind,
    payload: Payload,
    actor: Principal,
    activity: Option<string>,
    correlation: Option<string>,
    causation: Option<string>,
    key: Option<string>
  )

  datatype Event = Event(id: string, sequence: nat, recordedAt: int, request: Request)

  /** One agent's stream. */
  type Log = seq<Event>

  /** Reads one string field out of an event's JSON payload. */
  function Field(e: Event, name: string): (v: Option<string>) {
    if e.request.payload.Doc? then e.request.payload.value.At(name).AsStr() else None
  }

  /** Reads one integer field out of an event's JSON payload. */
  function Number(e: Event, name: string): (v: Option<int>) {
    if e.request.payload.Doc? && e.request.payload.value.At(name).Int?
    then Some(e.request.payload.value.At(name).n) else None
  }

  /** A field is read from an object's own member of that name, and only if it is a string. */
  lemma FieldMeans(e: Event, name: string, text: string)
    ensures Field(e, name) == Some(text) <==>
              exists fields :: e.request.payload == Doc(Obj(fields)) && name in fields && fields[name] == Str(text)
  {
    if Field(e, name) == Some(text) {
      var fields := e.request.payload.value.fields;
      assert e.request.payload == Doc(Obj(fields)) && name in fields && fields[name] == Str(text);
    }
  }

  lemma NumberMeans(e: Event, name: string, n: int)
    ensures Number(e, name) == Some(n) <==>
              exists fields :: e.request.payload == Doc(Obj(fields)) && name in fields && fields[name] == Int(n)
  {
    if Number(e, name) == Some(n) {
      var fields := e.request.payload.value.fields;
      assert e.request.payload == Doc(Obj(fields)) && name in fields && fields[name] == Int(n);
    }
  }

  /** The identifier the store assigns; only its uniqueness matters. */
  function IdAt(sequence: nat): (id: string) {
    Decimal.Render(sequence)
  }

  ghost predicate Gapless(log: Log) {
    forall i :: 0 <= i < |log| ==> log[i].sequence == i + 1
  }

  ghost predicate Valid(log: Log) {
    && Gapless(log)
    && (forall i :: 0 <= i < |log| ==> log[i].id == IdAt(i + 1))
    && (forall i, j :: 0 <= i < j < |log| && log[i].request.key.Some? ==>
          log[i].request.key != log[j].request.key)
  }

  /** The event stored under a deduplication key. */
  function WithKey(log: Log, key: string): (e: Option<Event>)
    ensures e.Some? ==> e.value in log && e.value.request.key == Some(key)
    ensures e.None? <==> forall x :: x in log ==> x.request.key != Some(key)
  {
    if log == [] then None
    else if log[0].request.key == Some(key) then Some(log[0])
    else WithKey(log[1..], key)
  }

  /** `get`: the event carrying an identifier. */
  function WithId(log: Log, id: string): (e: Option<Event>)
    ensures e.Some? ==> e.value in log && e.value.id == id
    ensures e.None? <==> forall x :: x in log ==> x.id != id
  {
    if log == [] then None
    else if log[0].id == id then Some(log[0])
    else WithId(log[1..], id)
  }

  datatype Appended = Appended(log: Log, event: Event)

  /**
    Atomically assigns the next gapless sequence, or returns the original
    event for a repeated deduplication key.
  */
  function Append(log: Log, request: Request, now: int): (r: Appended)
    requires Valid(log)
    ensures Valid(r.log)
    ensures log <= r.log && r.event in r.log
    ensures request.key.Some? ==> r.event.request.key == request.key
    ensures r.log == log <==> request.key.Some? && WithKey(log, request.key.value).Some?
    ensures r.log != log ==> r.log == log + [r.event] && r.event.request == request && r.event.recordedAt == now
    ensures r.log == log ==> WithKey(log, request.key.value) == Some(r.event)
  {
    if request.key.Some? && WithKey(log, request.key.value).Some? then
      Appended(log, WithKey(log, request.key.value).value)
    else
      var e := Event(IdAt(|log| + 1), |log| + 1, now, request);
      Appended(log + [e], e)
  }

  /** An event the host writes about another one, under a key of its own. */
  function HostEvent(source: Event, kind: Kind, fields: map<string, Json>, key: string): (r: Request) {
    Request(kind, Doc(Obj(fields)), Principal(Node, "host"), source.request.activity,
            source.request.correlation, Some(source.id), Some(key))
  }

  function Least(a: nat, b: nat): (r: nat) {
    if a <= b then a else b
  }

  /** Two events of one log with the same identifier are the same event. */
  lemma IdsUnique(log: Log, a: Event, b: Event)
    requires Valid(log) && a in log && b in log && a.id == b.id
    ensures a == b
  {
    Decimal.RenderInjective(a.sequence, b.sequence);
  }

  // Paged reads.

  /** Events at positions `lo` to `hi` that satisfy `want`, in order. */
  function Range(s: seq<Event>, lo: nat, hi: nat, want: Event -> bool): (r: seq<Event>)
    requires lo <= hi <= |s|
    decreases hi - lo
  {
    if lo == hi then []
    else if want(s[lo]) then [s[lo]] + Range(s, lo + 1, hi, want)
    else Range(s, lo + 1, hi, want)
  }

  function Select(s: seq<Event>, want: Event -> bool): (r: seq<Event>) {
    Range(s, 0, |s|, want)
  }

  /** Wanted events with a sequence above `after`; sequences are gapless. */
  function Rest(log: Log, after: nat, want: Event -> bool): (r: seq<Event>) {
    if after <= |log| then Range(log, after, |log|, want) else []
  }

  function Take<T>(s: seq<T>, n: nat): (r: seq<T>) {
    if n <= |s| then s[..n] else s
  }

  /** `query` and `read`: the first `limit` wanted events after a sequence. */
  function Page(log: Log, after: nat, want: Event -> bool, limit: nat): (r: seq<Event>) {
    Take(Rest(log, after, want), limit)
  }

  lemma {:induction false} RangeSplit(s: seq<Event>, lo: nat, mid: nat, hi: nat, want: Event -> bool)
    requires lo <= mid <= hi <= |s|
    ensures Range(s, lo, hi, want) == Range(s, lo, mid, want) + Range(s, mid, hi, want)
    decreases mid - lo
  {
    if lo < mid {
      RangeSplit(s, lo + 1, mid, hi, want);
    }
  }

  lemma {:induction false} RangeMember(s: seq<Event>, lo: nat, hi: nat, want: Event -> bool, e: Event)
    requires lo <= hi <= |s|
    ensures e in Range(s, lo, hi, want) <==> want(e) && exists i :: lo <= i < hi && s[i] == e
    decreases hi - lo
  {
    if lo < hi {
      RangeMember(s, lo + 1, hi, want, e);
    }
  }

  lemma RangeStep(s: seq<Event>, lo: nat, i: nat, want: Event -> bool)
    requires lo <= i < |s|
    ensures Range(s, lo, i + 1, want) == Range(s, lo, i, want) + (if want(s[i]) then [s[i]] else [])
  {
    RangeSplit(s, lo, i, i + 1, want);
  }

  /** A range reads only the positions it names. */
  lemma {:induction false} RangeStable(s: seq<Event>, t: seq<Event>, lo: nat, hi: nat, want: Event -> bool)
    requires lo <= hi <= |s| && hi <= |t| && s[..hi] == t[..hi]
    ensures Range(s, lo, hi, want) == Range(t, lo, hi, want)
    decreases hi - lo
  {
    if lo < hi {
      assert s[lo] == s[..hi][lo] == t[lo];
      RangeStable(s, t, lo + 1, hi, want);
    }
  }

  /** Filtering a wider selection again gives the narrow one. */
  lemma {:induction false} Refilter(s: seq<Event>, lo: nat, hi: nat, wide: Event -> bool, narrow: Event -> bool)
    requires forall e :: narrow(e) ==> wide(e)
    requires hi <= |s|
    ensures lo <= hi ==> Select(Range(s, lo, hi, wide), narrow) == Range(s, lo, hi, narrow)
    decreases hi - lo
  {
    if lo < hi {
      Refilter(s, lo + 1, hi, wide, narrow);
      var tail := Range(s, lo + 1, hi, wide);
      if wide(s[lo]) {
        SelectCons(s[lo], tail, narrow);
      }
    }
  }

  lemma SelectCons(e: Event, tail: seq<Event>, want: Event -> bool)
    ensures Select([e] + tail, want) == (if want(e) then [e] else []) + Select(tail, want)
  {
    RangeShift([e] + tail, tail, 0, want);
  }

  lemma {:induction false} RangeShift(s: seq<Event>, tail: seq<Event>, lo: nat, want: Event -> bool)
    requires s != [] && s[1..] == tail && lo <= |tail|
    ensures Range(s, lo + 1, |s|, want) == Range(tail, lo, |tail|, want)
    decreases |tail| - lo
  {
    if lo < |tail| {
      RangeShift(s, tail, lo + 1, want);
    }
  }

  /** Position just past the n-th wanted event. */
  lemma {:induction false} RangeCut(s: seq<Event>, lo: nat, want: Event -> bool, n: nat) returns (m: nat)
    requires lo <= |s| && 0 < n <= |Range(s, lo, |s|, want)|
    ensures lo < m <= |s| && s[m - 1] == Range(s, lo, |s|, want)[n - 1]
    ensures Range(s, lo, m, want) == Range(s, lo, |s|, want)[..n]
    ensures Range(s, m, |s|, want) == Range(s, lo, |s|, want)[n..]
    decreases |s| - lo
  {
    if want(s[lo]) && n == 1 {
      m := lo + 1;
      assert Range(s, lo, m, want) == [s[lo]] + Range(s, m, m, want);
    } else {
      m := RangeCut(s, lo + 1, want, if want(s[lo]) then n - 1 else n);
    }
  }

  /** The sequence of a page's last event. */
  function Last(page: seq<Event>): (sequence: nat)
    requires page != []
  {
    page[|page| - 1].sequence
  }

  /**
    A nonempty page is exactly the wanted part of the stretch it covers, the
    rest lies beyond its last event, and the position moves forward.
  */
  lemma PageSplits(log: Log, after: nat, want: Event -> bool, limit: nat)
    requires Gapless(log) && limit > 0
    ensures var page := Page(log, after, want, limit);
            if page == [] then Rest(log, after, want) == []
            else
              && after < Last(page) <= |log| && log[Last(page) - 1] == page[|page| - 1]
              && page == Range(log, after, Last(page), want)
              && Rest(log, after, want) == page + Rest(log, Last(page), want)
  {
    var page := Page(log, after, want, limit);
    if page != [] {
      var m := RangeCut(log, after, want, |page|);
    }
  }

  /** Where the i-th event of a page follows on: the start, or its predecessor. */
  function Before(page: seq<Event>, after: nat, i: nat): (sequence: nat)
    requires i <= |page|
  {
    if i == 0 then after else page[i - 1].sequence
  }

  /** Between two neighbours of a page there is nothing wanted. */
  lemma PageGap(log: Log, after: nat, want: Event -> bool, limit: nat, i: nat)
    requires Gapless(log) && i < |Page(log, after, want, limit)|
    ensures var page := Page(log, after, want, limit);
            && Before(page, after, i) < page[i].sequence <= |log|
            && log[page[i].sequence - 1] == page[i] && want(page[i])
            && Range(log, Before(page, after, i), page[i].sequence - 1, want) == []
  {
    var page := Page(log, after, want, limit);
    var at, next := after, page[i].sequence;
    if i > 0 {
      at := RangeCut(log, after, want, i);
    }
    var m := RangeCut(log, at, want, 1);
    RangeStep(log, at, m - 1, want);
    RangeMember(log, at, m, want, page[i]);
  }
}
