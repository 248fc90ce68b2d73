/** Failing the interpreter sessions a trapped provider has lost. */
module Sessions {
  import opened Events

  const PAGE := 100

  function SessionEvents(): (want: Event -> bool) {
    (e: Event) => e.request.kind.CodeYielded? || e.request.kind.CodeCompleted? || e.request.kind.CodeFailed?
  }

  /** The provider left the session open, waiting. */
  predicate Yields(e: Event, provider: string, session: string) {
    e.request.kind.CodeYielded? && Field(e, "sessionId") == Some(session) && e.request.actor.id == provider
  }

  predicate Ends(e: Event, session: string) {
    (e.request.kind.CodeCompleted? || e.request.kind.CodeFailed?) && Field(e, "sessionId") == Some(session)
  }

  /** The event at `i` is the provider's last yield of the session, and nothing has ended it since. */
  ghost predicate Open(log: Log, upTo: nat, provider: string, session: string, i: nat)
    requires upTo <= |log|
  {
    && i < upTo && Yields(log[i], provider, session)
    && forall j :: i < j < upTo ==> !Yields(log[j], provider, session) && !Ends(log[j], session)
  }

  predicate IsStart(e: Event) {
    e.request.kind.CodeEvaluateRequested? || e.request.kind.CodeResumed?
  }

  /** The session an event belongs to. */
  function SessionOf(e: Event): (session: string) {
    if Field(e, "sessionId").Some? then Field(e, "sessionId").value else "default"
  }

  /** The event evaluates or resumes the session; one that names none is for "default". */
  predicate Starts(e: Event, session: string) {
    && (e.request.kind.CodeEvaluateRequested? || e.request.kind.CodeResumed?)
    && (Field(e, "sessionId") == Some(session) || (Field(e, "sessionId") == None && session == "default"))
  }

  /** The batch's last evaluation or resumption of the session. */
  ghost predicate LastStart(batch: seq<Event>, upTo: nat, session: string, j: nat)
    requires upTo <= |batch|
  {
    j < upTo && Starts(batch[j], session) && forall k :: j < k < upTo ==> !Starts(batch[k], session)
  }

  ghost predicate Overridden(batch: seq<Event>, session: string) {
    exists j: nat :: LastStart(batch, |batch|, session, j)
  }

  /** A lost session and the event to blame: the batch's start if it has one, else the open yield. */
  ghost predicate Lost(log: Log, provider: string, batch: seq<Event>, session: string, source: Event) {
    if Overridden(batch, session) then exists j: nat :: LastStart(batch, |batch|, session, j) && batch[j] == source
    else exists i: nat :: Open(log, |log|, provider, session, i) && log[i] == source
  }

  function LostKey(id: string): (key: string) {
    "session-lost:" + id
  }

  function FailureFields(source: Event, session: string, resource: Option<Json>): (fields: map<string, Json>) {
    var fields := map["requestEventId" := Str(source.id), "sessionId" := Str(session), "code" := Str("outcome-unknown")];
    if resource.None? then fields
    else fields["resourceError" := resource.value]["effectStatus" := Str("outcome-unknown")]
  }

  function Failure(source: Event, session: string, resource: Option<Json>): (r: Request) {
    HostEvent(source, CodeFailed, FailureFields(source, session, resource), LostKey(source.id))
  }

  ghost predicate Reported(log: Log, source: Event) {
    exists x :: x in log && x.request.key == Some(LostKey(source.id))
  }

  /** The event records the loss of a session that was lost and not yet reported. */
  ghost predicate Blames(x: Event, before: Log, provider: string, batch: seq<Event>, resource: Option<Json>, source: Event) {
    && Lost(before, provider, batch, SessionOf(source), source) && !Reported(before, source)
    && x.request == Failure(source, SessionOf(source), resource)
  }

  /** What one call adds to the log: the report of each lost session, and nothing else. */
  ghost predicate Reports(before: Log, after: Log, provider: string, batch: seq<Event>, resource: Option<Json>) {
    && before <= after && Valid(after)
    && (forall x :: x in after[|before|..] ==> exists source :: Blames(x, before, provider, batch, resource, source))
    && (forall s, source :: Lost(before, provider, batch, s, source) ==> Reported(after, source))
  }

  // Reading the open sessions.

  function Entry(pending: map<string, Event>, session: string): (e: Option<Event>) {
    if session in pending then Some(pending[session]) else None
  }

  ghost predicate At(log: Log, upTo: nat, e: Event)
    requires upTo <= |log|
  {
    0 < e.sequence <= upTo && log[e.sequence - 1] == e
  }

  /** The entry tells whether the session is open after the first `upTo` events, and since when. */
  ghost predicate Tells(log: Log, upTo: nat, provider: string, session: string, entry: Option<Event>)
    requires upTo <= |log|
  {
    if entry.Some? then At(log, upTo, entry.value) && Open(log, upTo, provider, session, entry.value.sequence - 1)
    else forall i: nat :: !Open(log, upTo, provider, session, i)
  }

  ghost predicate Tracks(log: Log, upTo: nat, provider: string, pending: map<string, Event>)
    requires upTo <= |log|
  {
    forall s :: Tells(log, upTo, provider, s, Entry(pending, s))
  }

  function Next(pending: map<string, Event>, provider: string, e: Event): (r: map<string, Event>) {
    if Field(e, "sessionId").None? then pending
    else if e.request.kind.CodeYielded? then
      if e.request.actor.id == provider then pending[Field(e, "sessionId").value := e] else pending
    else pending - {Field(e, "sessionId").value}
  }

  lemma TellsOn(log: Log, from: nat, upTo: nat, provider: string, session: string, entry: Option<Event>)
    requires from <= upTo <= |log| && Tells(log, from, provider, session, entry)
    requires forall j :: from <= j < upTo ==> !Yields(log[j], provider, session) && !Ends(log[j], session)
    ensures Tells(log, upTo, provider, session, entry)
  {
    forall i: nat | entry.None?
      ensures !Open(log, upTo, provider, session, i)
    {
      assert !Open(log, from, provider, session, i);
    }
  }

  lemma TracksGap(log: Log, from: nat, upTo: nat, provider: string, pending: map<string, Event>)
    requires from <= upTo <= |log| && Tracks(log, from, provider, pending)
    requires Range(log, from, upTo, SessionEvents()) == []
    ensures Tracks(log, upTo, provider, pending)
  {
    forall j | from <= j < upTo
      ensures !SessionEvents()(log[j])
    {
      RangeMember(log, from, upTo, SessionEvents(), log[j]);
    }
    forall s
      ensures Tells(log, upTo, provider, s, Entry(pending, s))
    {
      TellsOn(log, from, upTo, provider, s, Entry(pending, s));
    }
  }

  lemma TracksStep(log: Log, upTo: nat, provider: string, pending: map<string, Event>)
    requires Gapless(log) && upTo < |log| && Tracks(log, upTo, provider, pending) && SessionEvents()(log[upTo])
    ensures Tracks(log, upTo + 1, provider, Next(pending, provider, log[upTo]))
  {
    var next, end := Next(pending, provider, log[upTo]), upTo + 1;
    forall s
      ensures Tells(log, end, provider, s, Entry(next, s))
    {
      if !Yields(log[upTo], provider, s) && !Ends(log[upTo], s) {
        assert Entry(next, s) == Entry(pending, s);
        TellsOn(log, upTo, end, provider, s, Entry(pending, s));
      }
    }
  }

  /** Pages through the log and keeps the open sessions of the provider. */
  method OpenSessions(log: Log, provider: string) returns (pending: map<string, Event>)
    requires Gapless(log)
    ensures Tracks(log, |log|, provider, pending)
  {
    pending := map[];
    var after := 0;
    while true
      invariant after <= |log| && Tracks(log, after, provider, pending)
      decreases |log| - after
    {
      var page := Page(log, after, SessionEvents(), PAGE);
      PageSplits(log, after, SessionEvents(), PAGE);
      if page == [] {
        TracksGap(log, after, |log|, provider, pending);
        return;
      }
      pending := ReadPage(log, after, provider, pending);
      after := Last(page);
    }
  }

  method ReadPage(log: Log, after: nat, provider: string, before: map<string, Event>) returns (pending: map<string, Event>)
    requires Gapless(log) && after <= |log| && Tracks(log, after, provider, before)
    requires Page(log, after, SessionEvents(), PAGE) != []
    ensures var end := Last(Page(log, after, SessionEvents(), PAGE));
            end <= |log| && Tracks(log, end, provider, pending)
  {
    var page := Page(log, after, SessionEvents(), PAGE);
    pending := before;
    for i := 0 to |page|
      invariant Before(page, after, i) <= |log| && Tracks(log, Before(page, after, i), provider, pending)
    {
      PageGap(log, after, SessionEvents(), PAGE, i);
      TracksGap(log, Before(page, after, i), page[i].sequence - 1, provider, pending);
      TracksStep(log, page[i].sequence - 1, provider, pending);
      pending := Next(pending, provider, page[i]);
    }
  }

  /** Evaluations and resumptions of the trapped batch take the place of older yields. */
  method Overlay(open: map<string, Event>, batch: seq<Event>) returns (pending: map<string, Event>)
    ensures forall s, j: nat :: LastStart(batch, |batch|, s, j) ==> Entry(pending, s) == Some(batch[j])
    ensures forall s :: !Overridden(batch, s) ==> Entry(pending, s) == Entry(open, s)
  {
    pending := open;
    for i := 0 to |batch|
      invariant forall s, j: nat :: LastStart(batch, i, s, j) ==> Entry(pending, s) == Some(batch[j])
      invariant forall s :: (forall j :: 0 <= j < i ==> !Starts(batch[j], s)) ==> Entry(pending, s) == Entry(open, s)
    {
      ghost var done := i + 1;
      if IsStart(batch[i]) {
        pending := pending[SessionOf(batch[i]) := batch[i]];
      }
      forall s, j: nat | LastStart(batch, done, s, j)
        ensures Entry(pending, s) == Some(batch[j])
      {
        if j < i {
          assert LastStart(batch, i, s, j);
        }
      }
    }
    forall s | !Overridden(batch, s)
      ensures forall j :: 0 <= j < |batch| ==> !Starts(batch[j], s)
    {
      StartMakesLast(batch, s);
    }
  }

  lemma {:induction false} FindLast(batch: seq<Event>, upTo: nat, session: string, j: nat) returns (last: nat)
    requires j < upTo <= |batch| && Starts(batch[j], session)
    ensures LastStart(batch, upTo, session, last)
    decreases upTo
  {
    if Starts(batch[upTo - 1], session) {
      last := upTo - 1;
    } else {
      last := FindLast(batch, upTo - 1, session, j);
    }
  }

  lemma StartMakesLast(batch: seq<Event>, session: string)
    ensures Overridden(batch, session) <==> exists j :: 0 <= j < |batch| && Starts(batch[j], session)
  {
    if j :| 0 <= j < |batch| && Starts(batch[j], session) {
      var last := FindLast(batch, |batch|, session, j);
    }
  }

  /** A lost session has one event to blame, which names the session. */
  lemma LostOnce(log: Log, provider: string, batch: seq<Event>, session: string, source: Event, other: Event)
    requires Lost(log, provider, batch, session, source) && Lost(log, provider, batch, session, other)
    ensures source == other && SessionOf(source) == session
  {
  }

  method LostSessions(log: Log, provider: string, batch: seq<Event>) returns (pending: map<string, Event>)
    requires Gapless(log)
    ensures forall s, source :: Lost(log, provider, batch, s, source) <==> Entry(pending, s) == Some(source)
  {
    var open := OpenSessions(log, provider);
    pending := Overlay(open, batch);
    forall s, source
      ensures Lost(log, provider, batch, s, source) <==> Entry(pending, s) == Some(source)
    {
      EntryIsLost(log, provider, batch, open, pending, s, source);
    }
  }

  lemma EntryIsLost(log: Log, provider: string, batch: seq<Event>, open: map<string, Event>, pending: map<string, Event>,
                    s: string, source: Event)
    requires Tells(log, |log|, provider, s, Entry(open, s))
    requires forall j: nat :: LastStart(batch, |batch|, s, j) ==> Entry(pending, s) == Some(batch[j])
    requires !Overridden(batch, s) ==> Entry(pending, s) == Entry(open, s)
    ensures Lost(log, provider, batch, s, source) <==> Entry(pending, s) == Some(source)
  {
  }

  class Router {
    var log: Log

    constructor (log: Log)
      ensures this.log == log
    {
      this.log := log;
    }

    /** Records one `code.failed` for the source of each lost session. */
    method FailSessions(provider: string, batch: seq<Event>, resource: Option<Json>, now: int)
      requires Valid(log)
      modifies this
      ensures Reports(old(log), log, provider, batch, resource)
    {
      var before := log;
      var pending := LostSessions(log, provider, batch);
      var todo := pending.Keys;
      while todo != {}
        invariant todo <= pending.Keys && before <= log && Valid(log)
        invariant forall x :: x in log[|before|..] ==> exists source :: Blames(x, before, provider, batch, resource, source)
        invariant forall s :: s in pending.Keys - todo ==> Reported(log, pending[s])
        decreases |todo|
      {
        var session :| session in todo;
        var source := pending[session];
        assert Entry(pending, session) == Some(source);
        LostOnce(before, provider, batch, session, source, source);
        ReportOne(before, log, provider, batch, resource, source, now);
        log := Append(log, Failure(source, session, resource), now).log;
        todo := todo - {session};
      }
    }
  }

  lemma ReportOne(before: Log, log: Log, provider: string, batch: seq<Event>, resource: Option<Json>, source: Event, now: int)
    requires Valid(log) && before <= log && Lost(before, provider, batch, SessionOf(source), source)
    requires forall x :: x in log[|before|..] ==> exists source :: Blames(x, before, provider, batch, resource, source)
    ensures var after := Append(log, Failure(source, SessionOf(source), resource), now).log;
            && before <= after && Valid(after) && Reported(after, source)
            && (forall x :: x in after[|before|..] ==> exists source :: Blames(x, before, provider, batch, resource, source))
  {
    var a := Append(log, Failure(source, SessionOf(source), resource), now);
    assert a.event in a.log && a.event.request.key == Some(LostKey(source.id));
    if a.log != log {
      assert !Reported(before, source) by {
        forall x | x in before
          ensures x.request.key != Some(LostKey(source.id))
        {
          assert x in log;
        }
      }
      assert Blames(a.event, before, provider, batch, resource, source);
      assert a.log[|before|..] == log[|before|..] + [a.event];
    }
  }

  // What the reports mean.

  /** A report ends the session it names and leaves every other session as it was. */
  lemma ReportsTouchOnlyLost(before: Log, after: Log, provider: string, batch: seq<Event>, resource: Option<Json>, x: Event, session: string)
    requires Reports(before, after, provider, batch, resource) && x in after[|before|..]
    ensures Ends(x, session) ==> exists source :: Lost(before, provider, batch, session, source)
    ensures !Yields(x, provider, session)
  {
    var source :| Blames(x, before, provider, batch, resource, source);
    assert Field(x, "sessionId") == Some(SessionOf(source));
  }

  /** A session still lost afterwards was lost, for the same reason, before. */
  lemma LostBefore(before: Log, after: Log, provider: string, batch: seq<Event>, resource: Option<Json>, session: string, source: Event)
    requires Reports(before, after, provider, batch, resource) && Lost(after, provider, batch, session, source)
    ensures Lost(before, provider, batch, session, source)
  {
    if !Overridden(batch, session) {
      var i: nat :| Open(after, |after|, provider, session, i) && after[i] == source;
      if i >= |before| {
        assert after[i] == after[|before|..][i - |before|];
        ReportsTouchOnlyLost(before, after, provider, batch, resource, after[i], session);
      }
      assert forall j :: 0 <= j < |before| ==> before[j] == after[j];
      assert Open(before, |before|, provider, session, i);
    }
  }

  /** A second identical call leaves the log unchanged. */
  lemma SecondCallIdle(before: Log, after: Log, again: Log, provider: string, batch: seq<Event>, resource: Option<Json>)
    requires Reports(before, after, provider, batch, resource) && Reports(after, again, provider, batch, resource)
    ensures again == after
  {
    if again != after {
      var x := again[|after|];
      assert again[|after|..][0] == x && x in again[|after|..];
      var source :| Blames(x, after, provider, batch, resource, source);
      LostBefore(before, after, provider, batch, resource, SessionOf(source), source);
    }
  }

  /** The entry says, under the source's own key, that its session failed and that its effects are unknown. */
  predicate SaysLost(entry: Request, source: Event, session: string, resource: Option<Json>) {
    && entry.kind.CodeFailed? && entry.causation == Some(source.id) && entry.key == Some("session-lost:" + source.id)
    && entry.activity == source.request.activity && entry.correlation == source.request.correlation
    && match resource
       case None =>
         entry.payload == Doc(Obj(map["requestEventId" := Str(source.id), "sessionId" := Str(session), "code" := Str("outcome-unknown")]))
       case Some(error) =>
         entry.payload == Doc(Obj(map["requestEventId" := Str(source.id), "sessionId" := Str(session), "code" := Str("outcome-unknown"),
                                      "resourceError" := error, "effectStatus" := Str("outcome-unknown")]))
  }

  lemma FailureSays(source: Event, session: string, resource: Option<Json>)
    ensures SaysLost(Failure(source, session, resource), source, session, resource)
  {
    if resource.Some? {
      assert FailureFields(source, session, resource) ==
        map["requestEventId" := Str(source.id), "sessionId" := Str(session), "code" := Str("outcome-unknown"),
            "resourceError" := resource.value, "effectStatus" := Str("outcome-unknown")];
    }
  }

  /** Each source is reported by exactly one event, and by this call unless it was before. */
  lemma ReportedOnce(before: Log, after: Log, provider: string, batch: seq<Event>, resource: Option<Json>, session: string, source: Event)
    requires Reports(before, after, provider, batch, resource) && Lost(before, provider, batch, session, source)
    requires Valid(before) && forall i :: 0 <= i < |batch| ==> batch[i] in before
    ensures exists x :: x in after && x.request.key == Some(LostKey(source.id))
              && (forall y :: y in after && y.request.key == x.request.key ==> y == x)
              && (!Reported(before, source) ==> SaysLost(x.request, source, session, resource))
  {
    FailureSays(source, session, resource);
    var x :| x in after && x.request.key == Some(LostKey(source.id));
    forall y | y in after && y.request.key == x.request.key
      ensures y == x
    {
      SameKey(after, x, y);
    }
    if !Reported(before, source) {
      NewReport(before, after, provider, batch, resource, session, source, x);
    }
  }

  lemma SameKey(log: Log, x: Event, y: Event)
    requires Valid(log) && x in log && y in log && x.request.key.Some? && x.request.key == y.request.key
    ensures x == y
  {
    var i :| 0 <= i < |log| && log[i] == x;
    var j :| 0 <= j < |log| && log[j] == y;
  }

  lemma NewReport(before: Log, after: Log, provider: string, batch: seq<Event>, resource: Option<Json>, session: string, source: Event, x: Event)
    requires Reports(before, after, provider, batch, resource) && Lost(before, provider, batch, session, source)
    requires Valid(before) && forall i :: 0 <= i < |batch| ==> batch[i] in before
    requires x in after && x.request.key == Some(LostKey(source.id)) && x !in before
    ensures x.request == Failure(source, session, resource)
  {
    var j :| 0 <= j < |after| && after[j] == x;
    assert j >= |before| && after[|before|..][j - |before|] == x && x in after[|before|..];
    var other :| Blames(x, before, provider, batch, resource, other);
    LostKeyNames(other.id, source.id);
    LostIsStored(before, provider, batch, SessionOf(other), other);
    LostIsStored(before, provider, batch, session, source);
    IdsUnique(before, other, source);
    LostOnce(before, provider, batch, session, source, source);
  }

  lemma LostIsStored(log: Log, provider: string, batch: seq<Event>, session: string, source: Event)
    requires Lost(log, provider, batch, session, source) && forall i :: 0 <= i < |batch| ==> batch[i] in log
    ensures source in log
  {
  }

  /** Such a key is written only here, so it marks a later end of the source's session. */
  ghost predicate Honest(log: Log) {
    forall i, j :: 0 <= i < |log| && 0 <= j < |log| && log[j].request.key == Some(LostKey(log[i].id)) ==>
      i < j && Ends(log[j], SessionOf(log[i]))
  }

  /** After a restart, which has no batch, the provider has no open session left. */
  lemma NoneLeftOpen(before: Log, after: Log, provider: string, resource: Option<Json>, session: string, source: Event)
    requires Reports(before, after, provider, [], resource) && Honest(before)
    ensures !Lost(after, provider, [], session, source)
  {
    if Lost(after, provider, [], session, source) {
      LostBefore(before, after, provider, [], resource, session, source);
      var i: nat :| Open(after, |after|, provider, session, i) && after[i] == source;
      var j :| 0 <= j < |after| && after[j].request.key == Some(LostKey(source.id));
      LateReport(before, after, provider, resource, i, j);
    }
  }

  lemma LateReport(before: Log, after: Log, provider: string, resource: Option<Json>, i: nat, j: nat)
    requires Reports(before, after, provider, [], resource) && Honest(before)
    requires i < |before| && j < |after| && after[j].request.key == Some(LostKey(after[i].id))
    ensures i < j && Ends(after[j], SessionOf(after[i]))
  {
    if j < |before| {
      assert after[i] == before[i] && after[j] == before[j];
    } else {
      assert after[|before|..][j - |before|] == after[j] && after[j] in after[|before|..];
      var source := ReportNames(before, after, provider, resource, after[j]);
      LostKeyNames(source.id, after[i].id);
      IdsUnique(after, source, after[i]);
    }
  }

  lemma LostKeyNames(a: string, b: string)
    requires LostKey(a) == LostKey(b)
    ensures a == b
  {
    assert LostKey(a)[|"session-lost:"|..] == a && LostKey(b)[|"session-lost:"|..] == b;
  }

  /** A new report names an event of the log, and ends its session. */
  lemma ReportNames(before: Log, after: Log, provider: string, resource: Option<Json>, x: Event) returns (source: Event)
    requires Reports(before, after, provider, [], resource) && x in after[|before|..]
    ensures source in after && x.request.key == Some(LostKey(source.id)) && Ends(x, SessionOf(source))
  {
    source :| Blames(x, before, provider, [], resource, source);
    assert !Overridden([], SessionOf(source));
    var k: nat :| Open(before, |before|, provider, SessionOf(source), k) && before[k] == source;
    assert after[k] == source;
    assert Field(x, "sessionId") == Some(SessionOf(source));
  }
}
