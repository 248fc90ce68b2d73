/** The router's incremental view of results, jobs and pending observations. */
module Projection {
  import opened Events

  datatype View = View(
    results: map<string, string>,
    jobs: map<(string, string), (int, string)>,
    observations: map<string, set<string>>
  )

  const EMPTY := View(map[], map[], map[])

  predicate IsCognition(kind: Kind) {
    kind.CognitionCheckpoint? || kind.CognitionJobUpdated? || kind.CognitionObservationAssociated?
  }

  /** Kinds the projection records as the answer to a request. */
  predicate IsAnswer(kind: Kind) {
    || kind.CodeCompleted? || kind.CodeFailed? || kind.CodeYielded?
    || kind.ModelCompleted? || kind.ModelFailed?
    || kind.CapabilityCompleted? || kind.CapabilityFailed? || kind.CapabilityDenied?
    || kind.CapabilityTimedOut? || kind.CapabilityCancelled?
  }

  function Queried(): (want: Event -> bool) {
    (e: Event) => IsCognition(e.request.kind) || IsAnswer(e.request.kind)
  }

  /** An answer names its request by causation or by payload. */
  predicate Answers(e: Event, request: string) {
    IsAnswer(e.request.kind) && (e.request.causation == Some(request) || Field(e, "requestEventId") == Some(request))
  }

  /** A cognition event whose payload does not parse: `refresh` reports it. */
  predicate Unreadable(e: Event) {
    IsCognition(e.request.kind) && e.request.payload.Malformed?
  }

  ghost predicate Readable(log: Log, lo: nat, hi: nat)
    requires hi <= |log|
  {
    forall i :: lo <= i < hi ==> !Unreadable(log[i])
  }

  function NoteResult(results: map<string, string>, request: Option<string>, id: string): (r: map<string, string>) {
    if request.Some? && request.value !in results then results[request.value := id] else results
  }

  /** `as_i64().unwrap_or(-1)`. */
  function Revision(v: Json): (n: int) {
    if v.Int? && -0x8000_0000_0000_0000 <= v.n < 0x8000_0000_0000_0000 then v.n else -1
  }

  function NoteJob(v: View, actor: string, job: Json): (r: View) {
    if job.At("id").Str? then
      var status := if job.At("status").Str? then job.At("status").s else "";
      v.(jobs := v.jobs[(actor, job.At("id").s) := (Revision(job.At("revision")), status)])
    else v
  }

  function NoteObservation(v: View, actor: string, observation: Json): (r: View) {
    if observation.At("id").Str? then
      var pending := if actor in v.observations then v.observations[actor] else {};
      var id := observation.At("id").s;
      v.(observations := v.observations[actor :=
        if observation.At("status") == Str("pending") then pending + {id} else pending - {id}])
    else v
  }

  function ApplyCognition(v: View, e: Event): (r: View) {
    if !e.request.payload.Doc? || !e.request.actor.kind.Component? then v
    else if e.request.kind.CognitionJobUpdated? then
      NoteJob(v, e.request.actor.id, e.request.payload.value.At("job"))
    else if e.request.kind.CognitionObservationAssociated? then
      NoteObservation(v, e.request.actor.id, e.request.payload.value.At("observation"))
    else v
  }

  /** The effect of one event on a view; an event of another kind has none. */
  function Apply(v: View, e: Event): (r: View) {
    if IsCognition(e.request.kind) then ApplyCognition(v, e)
    else if IsAnswer(e.request.kind) then
      v.(results := NoteResult(NoteResult(v.results, e.request.causation, e.id), Field(e, "requestEventId"), e.id))
    else v
  }

  /** The view computed from scratch. */
  function Fold(s: seq<Event>): (v: View) {
    if s == [] then EMPTY else Apply(Fold(s[..|s| - 1]), s[|s| - 1])
  }

  /** The first event that answers a request. */
  function Earliest(log: Log, request: string): (e: Option<Event>) {
    var answers := Select(log, (e: Event) => Answers(e, request));
    if answers == [] then None else Some(answers[0])
  }

  class DispatchProjection {
    var through: nat
    var results: map<string, string>
    var jobs: map<(string, string), (int, string)>
    var observations: map<string, set<string>>

    function Seen(): (v: View)
      reads this
    {
      View(results, jobs, observations)
    }

    /** The view equals the fold of everything up to `through`. */
    ghost predicate Current(log: Log)
      reads this
    {
      through <= |log| && Seen() == Fold(log[..through])
    }

    constructor ()
      ensures through == 0 && Seen() == EMPTY
    {
      through, results, jobs, observations := 0, map[], map[], map[];
    }

    /**
      Catches up with the log. An unreadable cognition event ends the call
      with an error, but `through` has already passed it.
    */
    method Refresh(log: Log, pageSize: nat) returns (ok: bool)
      requires Gapless(log) && Current(log)
      modifies this
      ensures Current(log) && old(through) <= through
      ensures ok ==> Seen() == Fold(log) && Readable(log, old(through), |log|)
      ensures !ok ==> old(through) < through && Readable(log, old(through), through - 1) && Unreadable(log[through - 1])
    {
      var size := if pageSize == 0 then 1 else pageSize;
      ok := true;
      while ok
        invariant Current(log) && old(through) <= through
        invariant ok ==> Readable(log, old(through), through)
        invariant !ok ==> old(through) < through && Readable(log, old(through), through - 1) && Unreadable(log[through - 1])
        decreases ok, |log| - through
      {
        var page := Page(log, through, Queried(), size);
        PageSplits(log, through, Queried(), size);
        if page == [] {
          FoldIgnores(log, through, |log|);
          assert log[..|log|] == log;
          return;
        }
        ok := AbsorbPage(log, page, size);
      }
    }

    method AbsorbPage(log: Log, page: seq<Event>, size: nat) returns (ok: bool)
      requires Gapless(log) && Current(log)
      requires page == Page(log, through, Queried(), size) && page != []
      modifies this
      ensures Current(log) && old(through) < through
      ensures ok ==> Readable(log, old(through), through)
      ensures !ok ==> Readable(log, old(through), through - 1) && Unreadable(log[through - 1])
    {
      for i := 0 to |page|
        invariant Current(log) && old(through) <= through
        invariant through == Before(page, old(through), i)
        invariant i > 0 ==> old(through) < through
        invariant Readable(log, old(through), through)
      {
        NextInPage(log, old(through), size, i);
        ok := Absorb(page[i]);
        if !ok {
          return;
        }
      }
      ok := true;
    }

    method Absorb(event: Event) returns (ok: bool)
      requires Queried()(event)
      modifies this
      ensures through == event.sequence && Seen() == Apply(old(Seen()), event)
      ensures ok <==> !Unreadable(event)
    {
      through := event.sequence;
      if IsCognition(event.request.kind) {
        if event.request.payload.Malformed? {
          return false;
        }
        UpdateCognition(event);
      } else {
        results := NoteResult(results, event.request.causation, event.id);
        results := NoteResult(results, Field(event, "requestEventId"), event.id);
      }
      return true;
    }

    method UpdateCognition(event: Event)
      modifies this`jobs, this`observations
      ensures Seen() == ApplyCognition(old(Seen()), event)
    {
      if event.request.payload.Doc? && event.request.actor.kind.Component? {
        var value := event.request.payload.value;
        if event.request.kind.CognitionJobUpdated? {
          jobs := NoteJob(Seen(), event.request.actor.id, value.At("job")).jobs;
        } else if event.request.kind.CognitionObservationAssociated? {
          observations := NoteObservation(Seen(), event.request.actor.id, value.At("observation")).observations;
        }
      }
    }

    /** The terminal result of a request: the earliest event that names it. */
    method ResultFor(log: Log, request: string) returns (ok: bool, result: Option<Event>)
      requires Valid(log) && Current(log)
      modifies this
      ensures Current(log)
      ensures ok ==> result == Earliest(log, request)
    {
      result := None;
      ok := Refresh(log, 1000);
      if ok {
        FoldResults(log, request);
        if request in results {
          result := WithId(log, results[request]);
          var first := Earliest(log, request).value;
          RangeMember(log, 0, |log|, (e: Event) => Answers(e, request), first);
          IdsUnique(log, result.value, first);
        }
      }
    }
  }

  /** Appending to the log keeps a projection current up to its position. */
  lemma StaysCurrent(p: DispatchProjection, log: Log, longer: Log)
    requires p.Current(log) && log <= longer
    ensures p.Current(longer)
  {
    assert longer[..p.through] == log[..p.through];
  }

  lemma {:induction false} FoldIgnores(log: Log, lo: nat, hi: nat)
    requires lo <= hi <= |log| && Range(log, lo, hi, Queried()) == []
    ensures Fold(log[..lo]) == Fold(log[..hi])
    ensures Readable(log, lo, hi)
    decreases hi - lo
  {
    if lo < hi {
      RangeStep(log, lo, hi - 1, Queried());
      assert log[..hi][..hi - 1] == log[..hi - 1];
      FoldIgnores(log, lo, hi - 1);
    }
  }

  /** Between two events of a page the fold does not move. */
  lemma NextInPage(log: Log, start: nat, size: nat, i: nat)
    requires Gapless(log) && i < |Page(log, start, Queried(), size)|
    ensures var page := Page(log, start, Queried(), size);
            var at := Before(page, start, i);
            && at < page[i].sequence <= |log| && page[i] == log[page[i].sequence - 1] && Queried()(page[i])
            && Fold(log[..page[i].sequence]) == Apply(Fold(log[..at]), page[i])
            && Readable(log, at, page[i].sequence - 1)
  {
    PageGap(log, start, Queried(), size, i);
    var page := Page(log, start, Queried(), size);
    var next := page[i].sequence;
    FoldIgnores(log, Before(page, start, i), next - 1);
    assert log[..next][..next - 1] == log[..next - 1];
  }

  /** The recorded result of a request is the earliest event naming it. */
  lemma {:induction false} FoldResults(log: Log, request: string)
    ensures request in Fold(log).results <==> Earliest(log, request).Some?
    ensures request in Fold(log).results ==> Fold(log).results[request] == Earliest(log, request).value.id
  {
    if log != [] {
      var n := |log| - 1;
      var answers := (e: Event) => Answers(e, request);
      FoldResults(log[..n], request);
      RangeStep(log, 0, n, answers);
      RangeStable(log, log[..n], 0, n, answers);
    }
  }

  /** Once set, a result never changes. */
  lemma ResultStable(log: Log, more: seq<Event>, request: string)
    requires Earliest(log, request).Some?
    ensures Earliest(log + more, request) == Earliest(log, request)
    ensures request in Fold(log).results && request in Fold(log + more).results
    ensures Fold(log + more).results[request] == Fold(log).results[request]
  {
    var answers := (e: Event) => Answers(e, request);
    RangeSplit(log + more, 0, |log|, |log + more|, answers);
    assert (log + more)[..|log|] == log == log[..|log|];
    RangeStable(log, log + more, 0, |log|, answers);
    FoldResults(log, request);
    FoldResults(log + more, request);
  }

  /** The last association by `actor` that names the observation. */
  ghost function LastAssociation(log: Log, actor: string, id: string): (e: Option<Event>) {
    var said := Select(log, (e: Event) => Associates(e, actor, id));
    if said == [] then None else Some(said[|said| - 1])
  }

  predicate Associates(e: Event, actor: string, id: string) {
    && e.request.kind.CognitionObservationAssociated? && e.request.payload.Doc?
    && e.request.actor == Principal(Component, actor)
    && e.request.payload.value.At("observation").At("id") == Str(id)
  }

  predicate SaysPending(e: Event) {
    e.request.payload.Doc? && e.request.payload.value.At("observation").At("status") == Str("pending")
  }

  predicate Pending(v: View, actor: string, id: string) {
    actor in v.observations && id in v.observations[actor]
  }

  lemma ApplyPending(v: View, e: Event, actor: string, id: string)
    ensures Pending(Apply(v, e), actor, id) <==>
              if Associates(e, actor, id) then SaysPending(e) else Pending(v, actor, id)
  {
  }

  /** An observation is pending exactly when the last word about it says so. */
  lemma {:induction false} FoldPending(log: Log, actor: string, id: string)
    ensures Pending(Fold(log), actor, id) <==>
              LastAssociation(log, actor, id).Some? && SaysPending(LastAssociation(log, actor, id).value)
  {
    if log != [] {
      var n := |log| - 1;
      var about := (e: Event) => Associates(e, actor, id);
      FoldPending(log[..n], actor, id);
      ApplyPending(Fold(log[..n]), log[n], actor, id);
      RangeStep(log, 0, n, about);
      RangeStable(log, log[..n], 0, n, about);
    }
  }

  predicate UpdatesJob(e: Event, actor: string, id: string) {
    && e.request.kind.CognitionJobUpdated? && e.request.payload.Doc?
    && e.request.actor == Principal(Component, actor)
    && e.request.payload.value.At("job").At("id") == Str(id)
  }

  /** The last update of a job by `actor`. */
  ghost function LastUpdate(log: Log, actor: string, id: string): (e: Option<Event>) {
    var updates := Select(log, (e: Event) => UpdatesJob(e, actor, id));
    if updates == [] then None else Some(updates[|updates| - 1])
  }

  function Reported(e: Event): (entry: (int, string))
    requires e.request.payload.Doc?
  {
    var job := e.request.payload.value.At("job");
    (if job.At("revision").Int? && -0x8000_0000_0000_0000 <= job.At("revision").n <= 0x7fff_ffff_ffff_ffff then job.At("revision").n else -1,
     if job.At("status").Str? then job.At("status").s else "")
  }

  /** The revision admission is checked against is the one last reported. */
  lemma {:induction false} FoldJobs(log: Log, actor: string, id: string)
    ensures (actor, id) in Fold(log).jobs <==> LastUpdate(log, actor, id).Some?
    ensures LastUpdate(log, actor, id).Some? ==>
              && LastUpdate(log, actor, id).value.request.payload.Doc?
              && Fold(log).jobs[(actor, id)] == Reported(LastUpdate(log, actor, id).value)
  {
    if log != [] {
      var n := |log| - 1;
      var about := (e: Event) => UpdatesJob(e, actor, id);
      FoldJobs(log[..n], actor, id);
      RangeStep(log, 0, n, about);
      RangeStable(log, log[..n], 0, n, about);
    }
  }
}
