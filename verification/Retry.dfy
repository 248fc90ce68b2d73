/**
  Deliveries of one event with crashes anywhere: between eager appends, before
  the atomic commit, and between the commit and its acknowledgement.
*/
module Retry {
  import opened Events
  import opened DerivedKeys

  datatype Mutation = Set(key: string, value: string) | Delete(key: string)

  /** What a handler does with one event. `eager` is appended while it runs. */
  datatype Outcome = Outcome(eager: seq<Request>, events: seq<Request>, mutations: seq<Mutation>, advance: bool)

  /** A deterministic guest: which events it takes, and what it does with them. */
  datatype Guest = Guest(
    instance: string,
    origin: string,     // the event its authority stems from, and the cause of what it appends while it runs
    accepts: Event -> bool,
    handle: (Event, map<string, string>) -> Outcome
  )

  /** What survives a crash. */
  datatype Durable = Durable(log: Log, state: map<string, string>, cursor: nat)

  function Mutated(state: map<string, string>, mutations: seq<Mutation>): (s: map<string, string>) {
    if mutations == [] then state
    else
      var m := mutations[|mutations| - 1];
      var before := Mutated(state, mutations[..|mutations| - 1]);
      match m
      case Set(k, v) => before[k := v]
      case Delete(k) => before - {k}
  }

  /** `events.append`: refused without an idempotency key. */
  function Put(log: Log, request: Request): (r: Log)
    requires Valid(log)
    ensures Valid(r)
  {
    if request.key.None? then log else Append(log, request, 0).log
  }

  lemma PutGrows(log: Log, request: Request)
    requires Valid(log)
    ensures log <= Put(log, request)
  {
  }

  /** Appending one request after the other, for any way to append. */
  function Fold(put: (Log, Request) -> Log, log: Log, requests: seq<Request>, n: nat): (r: Log)
    requires n <= |requests|
  {
    if n == 0 then log else put(Fold(put, log, requests, n - 1), requests[n - 1])
  }

  lemma {:induction false} FoldSame(put: (Log, Request) -> Log, log: Log, requests: seq<Request>, others: seq<Request>, n: nat)
    requires n <= |requests| && n <= |others| && forall i :: 0 <= i < n ==> requests[i] == others[i]
    ensures Fold(put, log, requests, n) == Fold(put, log, others, n)
  {
    if n > 0 {
      FoldSame(put, log, requests, others, n - 1);
    }
  }

  lemma {:induction false} FoldJoins(put: (Log, Request) -> Log, log: Log, mid: Log, requests: seq<Request>, more: seq<Request>, all: seq<Request>, n: nat)
    requires n <= |more| && all == requests + more && mid == Fold(put, log, requests, |requests|)
    ensures Fold(put, log, all, |requests| + n) == Fold(put, mid, more, n)
  {
    if n == 0 {
      FoldSame(put, log, all, requests, |requests|);
    } else {
      FoldJoins(put, log, mid, requests, more, all, n - 1);
      assert all[|requests| + n - 1] == more[n - 1];
    }
  }

  lemma {:induction false} FoldKeeps(put: (Log, Request) -> Log, log: Log, requests: seq<Request>, n: nat, fine: Log -> bool)
    requires n <= |requests| && fine(log) && forall l, i: nat :: fine(l) && i < |requests| ==> fine(put(l, requests[i]))
    ensures fine(Fold(put, log, requests, n))
  {
    if n > 0 {
      FoldKeeps(put, log, requests, n - 1, fine);
    }
  }

  lemma {:induction false} FoldGrows(put: (Log, Request) -> Log, log: Log, requests: seq<Request>, i: nat, n: nat)
    requires i <= n <= |requests| && forall l, r :: l <= put(l, r)
    ensures Fold(put, log, requests, i) <= Fold(put, log, requests, n)
    decreases n
  {
    if i < n {
      FoldGrows(put, log, requests, i, n - 1);
      PrefixTrans(Fold(put, log, requests, i), Fold(put, log, requests, n - 1), Fold(put, log, requests, n));
    }
  }

  lemma PrefixTrans(a: Log, b: Log, c: Log)
    requires a <= b && b <= c
    ensures a <= c
  {
  }

  ghost function Putting(): (put: (Log, Request) -> Log) {
    (log: Log, request: Request) => if Valid(log) then Put(log, request) else log
  }

  lemma {:induction false} FoldValid(log: Log, requests: seq<Request>, n: nat)
    requires Valid(log) && n <= |requests|
    ensures Valid(Fold(Putting(), log, requests, n))
  {
    if n > 0 {
      FoldValid(log, requests, n - 1);
    }
  }

  /** The first `n` requests, in order. */
  ghost function PutAll(log: Log, requests: seq<Request>, n: nat): (r: Log)
    requires Valid(log) && n <= |requests|
    ensures Valid(r)
  {
    FoldValid(log, requests, n);
    Fold(Putting(), log, requests, n)
  }

  lemma PutAllStep(log: Log, requests: seq<Request>, n: nat)
    requires Valid(log) && 0 < n <= |requests|
    ensures PutAll(log, requests, n) == Put(PutAll(log, requests, n - 1), requests[n - 1])
  {
  }

  lemma PutAllNone(log: Log, requests: seq<Request>)
    requires Valid(log)
    ensures PutAll(log, requests, 0) == log
  {
  }

  lemma PutAllGrows(log: Log, requests: seq<Request>, i: nat, n: nat)
    requires Valid(log) && i <= n <= |requests|
    ensures PutAll(log, requests, i) <= PutAll(log, requests, n)
  {
    forall l, r
      ensures l <= Putting()(l, r)
    {
      if Valid(l) {
        PutGrows(l, r);
      }
    }
    FoldGrows(Putting(), log, requests, i, n);
  }

  /** The host stamps actor, cause and a derived key. */
  function Stamped(g: Guest, cause: Event, cursor: nat, proposals: seq<Request>): (r: seq<Request>)
    ensures |r| == |proposals|
    ensures forall i :: 0 <= i < |r| ==>
              r[i].key == if proposals[i].key.Some? then proposals[i].key else Some(DerivedKey(Handle, g.instance, cursor, i))
  {
    seq(|proposals|, i requires 0 <= i < |proposals| =>
      proposals[i].(
        actor := Principal(Component, g.instance),
        causation := if proposals[i].causation.Some? then proposals[i].causation else Some(cause.id),
        key := if proposals[i].key.Some? then proposals[i].key else Some(DerivedKey(Handle, g.instance, cursor, i))))
  }

  /** The same for appends made while the handler runs, which keep the key they came with. */
  function Eager(g: Guest, o: Outcome): (r: seq<Request>)
    ensures |r| == |o.eager| && forall i :: 0 <= i < |r| ==> r[i].key == o.eager[i].key
  {
    seq(|o.eager|, i requires 0 <= i < |o.eager| =>
      o.eager[i].(
        actor := Principal(Component, g.instance),
        causation := if o.eager[i].causation.Some? then o.eager[i].causation else Some(g.origin)))
  }

  /** `DeliveryCommit::validate`: a batch may not repeat a key. */
  ghost predicate Committable(requests: seq<Request>) {
    forall i, j :: 0 <= i < j < |requests| ==> requests[i].key != requests[j].key
  }

  function NextInput(g: Guest, d: Durable): (page: seq<Event>) {
    Page(d.log, d.cursor, g.accepts, 1)
  }

  function OutcomeAt(g: Guest, d: Durable): (o: Outcome)
    requires NextInput(g, d) != []
  {
    g.handle(NextInput(g, d)[0], d.state)
  }

  function FinalRequests(g: Guest, d: Durable): (r: seq<Request>)
    requires NextInput(g, d) != []
  {
    Stamped(g, NextInput(g, d)[0], d.cursor, OutcomeAt(g, d).events)
  }

  /** The atomic commit of events, state and cursor. */
  ghost function Commit(g: Guest, d: Durable, e: Event, o: Outcome): (r: Durable)
    requires Valid(d.log)
    ensures Valid(r.log)
  {
    var requests := Stamped(g, e, d.cursor, o.events);
    Durable(PutAll(d.log, requests, |requests|), Mutated(d.state, o.mutations), if o.advance then e.sequence else d.cursor)
  }

  /** One delivery without a crash. */
  ghost function Deliver(g: Guest, d: Durable): (r: Durable)
    requires Valid(d.log) && NextInput(g, d) != []
    ensures Valid(r.log)
  {
    var o := OutcomeAt(g, d);
    Commit(g, d.(log := PutAll(d.log, Eager(g, o), |o.eager|)), NextInput(g, d)[0], o)
  }

  /** Doing something `n` times, if it works each time. */
  function Iterate(step: Durable -> Option<Durable>, d: Durable, n: nat): (r: Option<Durable>) {
    if n == 0 then Some(d)
    else
      var before := Iterate(step, d, n - 1);
      if before.Some? then step(before.value) else None
  }

  lemma {:induction false} IterateBefore(step: Durable -> Option<Durable>, d: Durable, k: nat, n: nat)
    requires k <= n && Iterate(step, d, n).Some?
    ensures Iterate(step, d, k).Some?
    decreases n
  {
    if k < n {
      IterateBefore(step, d, k, n - 1);
    }
  }

  lemma {:induction false} IterateGrows(step: Durable -> Option<Durable>, d: Durable, k: nat, n: nat)
    requires forall x: Durable :: step(x).Some? ==> x.log <= step(x).value.log
    requires k <= n && Iterate(step, d, n).Some? && Iterate(step, d, k).Some?
    ensures Iterate(step, d, k).value.log <= Iterate(step, d, n).value.log
    decreases n
  {
    if k < n {
      IterateGrows(step, d, k, n - 1);
      PrefixTrans(Iterate(step, d, k).value.log, Iterate(step, d, n - 1).value.log, Iterate(step, d, n).value.log);
    }
  }

  lemma {:induction false} IterateValid(step: Durable -> Option<Durable>, d: Durable, n: nat)
    requires Valid(d.log) && forall x: Durable :: Valid(x.log) && step(x).Some? ==> Valid(step(x).value.log)
    ensures Iterate(step, d, n).Some? ==> Valid(Iterate(step, d, n).value.log)
  {
    if n > 0 {
      IterateValid(step, d, n - 1);
    }
  }

  ghost predicate Deliverable(g: Guest, d: Durable) {
    Valid(d.log) && NextInput(g, d) != [] && Committable(FinalRequests(g, d))
  }

  ghost function Delivering(g: Guest): (step: Durable -> Option<Durable>) {
    (d: Durable) => if Deliverable(g, d) then Some(Deliver(g, d)) else None
  }

  /** `n` deliveries without a crash, if they all go through. */
  ghost function Ideal(g: Guest, d: Durable, n: nat): (r: Option<Durable>)
    requires Valid(d.log)
    ensures r.Some? ==> Valid(r.value.log)
  {
    IterateValid(Delivering(g), d, n);
    Iterate(Delivering(g), d, n)
  }

  lemma IdealNext(g: Guest, d: Durable, n: nat, before: Durable)
    requires Valid(d.log) && Ideal(g, d, n) == Some(before)
    ensures Ideal(g, d, n + 1) == if Deliverable(g, before) then Some(Deliver(g, before)) else None
  {
  }

  lemma IdealNone(g: Guest, d: Durable)
    requires Valid(d.log)
    ensures Ideal(g, d, 0) == Some(d)
  {
  }

  // Runs with crashes.

  /** A handler at work: `done` of its eager appends have happened. */
  datatype Worker = Worker(event: Event, outcome: Outcome, done: nat)

  datatype Run = Run(durable: Durable, worker: Option<Worker>, commits: nat)

  datatype Step = Begin | AppendEagerly | Finish | Crash

  ghost predicate Enabled(g: Guest, r: Run, step: Step) {
    match step
    case Begin => r.worker.None? && NextInput(g, r.durable) != []
    case AppendEagerly => r.worker.Some? && r.worker.value.done < |r.worker.value.outcome.eager|
    case Finish =>
      && r.worker.Some? && r.worker.value.done == |r.worker.value.outcome.eager|
      && Committable(Stamped(g, r.worker.value.event, r.durable.cursor, r.worker.value.outcome.events))
    case Crash => true
  }

  ghost function Next(g: Guest, r: Run, step: Step): (s: Run)
    requires Valid(r.durable.log) && Enabled(g, r, step)
    ensures Valid(s.durable.log)
  {
    match step
    case Begin =>
      r.(worker := Some(Worker(NextInput(g, r.durable)[0], OutcomeAt(g, r.durable), 0)))
    case AppendEagerly =>
      var w := r.worker.value;
      Run(r.durable.(log := Put(r.durable.log, Eager(g, w.outcome)[w.done])), Some(w.(done := w.done + 1)), r.commits)
    case Finish =>
      Run(Commit(g, r.durable, r.worker.value.event, r.worker.value.outcome), None, r.commits + 1)
    case Crash => r.(worker := None)
  }

  /** The run stands where `d` stood, up to some eager appends of the next delivery. */
  ghost predicate Ahead(g: Guest, d: Durable, r: Run, n: nat)
    requires Valid(d.log)
  {
    && r.durable.state == d.state && r.durable.cursor == d.cursor
    && if NextInput(g, d) == [] then r.durable.log == d.log && r.worker.None?
       else
         && n <= |OutcomeAt(g, d).eager| && r.durable.log == PutAll(d.log, Eager(g, OutcomeAt(g, d)), n)
         && (r.worker.Some? ==> r.worker == Some(Worker(NextInput(g, d)[0], OutcomeAt(g, d), r.worker.value.done)) && r.worker.value.done <= n)
  }

  ghost predicate Holds(log: Log, key: string) {
    exists x :: x in log && x.request.key == Some(key)
  }

  lemma PutHolds(log: Log, request: Request, key: string)
    requires Valid(log) && (Holds(log, key) || request.key == Some(key))
    ensures Holds(Put(log, request), key)
  {
    if request.key != Some(key) {
      var x :| x in log && x.request.key == Some(key);
      assert x in Put(log, request);
    }
  }

  lemma {:induction false} Kept(log: Log, requests: seq<Request>, i: nat, n: nat)
    requires Valid(log) && i < n <= |requests| && requests[i].key.Some?
    ensures Holds(PutAll(log, requests, n), requests[i].key.value)
    decreases n
  {
    if i < n - 1 {
      Kept(log, requests, i, n - 1);
    }
    PutAllStep(log, requests, n);
    PutHolds(PutAll(log, requests, n - 1), requests[n - 1], requests[i].key.value);
  }

  /** Appending again what is already there changes nothing. */
  lemma PutAgain(log: Log, requests: seq<Request>, i: nat, n: nat)
    requires Valid(log) && i < n <= |requests|
    ensures Put(PutAll(log, requests, n), requests[i]) == PutAll(log, requests, n)
  {
    if requests[i].key.Some? {
      Kept(log, requests, i, n);
      PutHeld(PutAll(log, requests, n), requests[i]);
    }
  }

  lemma PutHeld(log: Log, request: Request)
    requires Valid(log) && request.key.Some? && Holds(log, request.key.value)
    ensures Put(log, request) == log
  {
  }

  /** A waiting input stays the next one while the log grows. */
  lemma InputStable(g: Guest, d: Durable, longer: Log)
    requires d.log <= longer && NextInput(g, d) != []
    ensures NextInput(g, d.(log := longer)) == NextInput(g, d)
  {
    RangeSplit(longer, d.cursor, |d.log|, |longer|, g.accepts);
    assert d.log[..|d.log|] == longer[..|d.log|];
    RangeStable(d.log, longer, d.cursor, |d.log|, g.accepts);
  }

  lemma AheadKeeps(g: Guest, d: Durable, r: Run, n: nat)
    requires Valid(d.log) && Ahead(g, d, r, n)
    ensures d.log <= r.durable.log
  {
    if NextInput(g, d) != [] {
      PutAllNone(d.log, Eager(g, OutcomeAt(g, d)));
      PutAllGrows(d.log, Eager(g, OutcomeAt(g, d)), 0, n);
    }
  }

  /** A run that has just committed stands exactly where the crash-free run stands. */
  lemma AheadOfItself(g: Guest, d: Durable, r: Run)
    requires Valid(d.log) && r.durable == d && r.worker.None?
    ensures Ahead(g, d, r, 0)
  {
    if NextInput(g, d) != [] {
      PutAllNone(d.log, Eager(g, OutcomeAt(g, d)));
    }
  }

  lemma BeginAhead(g: Guest, d: Durable, r: Run, n: nat)
    requires Valid(d.log) && Valid(r.durable.log) && Enabled(g, r, Begin) && Ahead(g, d, r, n)
    ensures Ahead(g, d, Next(g, r, Begin), n)
  {
    if NextInput(g, d) != [] {
      AheadKeeps(g, d, r, n);
      InputStable(g, d, r.durable.log);
      assert d.(log := r.durable.log) == r.durable;
    }
  }

  /** Doing the next eager append, or doing it again, keeps the log a prefix of the eager appends. */
  lemma EagerStep(log: Log, requests: seq<Request>, done: nat, n: nat) returns (m: nat)
    requires Valid(log) && done <= n <= |requests| && done < |requests|
    ensures m == (if done < n then n else n + 1) && m <= |requests|
    ensures Put(PutAll(log, requests, n), requests[done]) == PutAll(log, requests, m)
  {
    if done < n {
      PutAgain(log, requests, done, n);
      m := n;
    } else {
      PutAllStep(log, requests, n + 1);
      m := n + 1;
    }
  }

  lemma AppendAhead(g: Guest, d: Durable, r: Run, n: nat) returns (m: nat)
    requires Valid(d.log) && Valid(r.durable.log) && Enabled(g, r, AppendEagerly) && Ahead(g, d, r, n)
    ensures Ahead(g, d, Next(g, r, AppendEagerly), m)
  {
    var w, eager := r.worker.value, Eager(g, OutcomeAt(g, d));
    m := EagerStep(d.log, eager, w.done, n);
    var s := Run(r.durable.(log := PutAll(d.log, eager, m)), Some(w.(done := w.done + 1)), r.commits);
    assert Next(g, r, AppendEagerly) == s;
  }

  /** Finishing lands exactly where the delivery without a crash lands. */
  lemma FinishLands(g: Guest, d: Durable, r: Run, n: nat)
    requires Valid(d.log) && Valid(r.durable.log) && Enabled(g, r, Finish) && Ahead(g, d, r, n)
    ensures NextInput(g, d) != [] && Committable(FinalRequests(g, d))
    ensures Next(g, r, Finish) == Run(Deliver(g, d), None, r.commits + 1)
  {
    var e, o := NextInput(g, d)[0], OutcomeAt(g, d);
    assert r.worker == Some(Worker(e, o, |o.eager|)) && n == |o.eager|;
    var mid := d.(log := PutAll(d.log, Eager(g, o), n));
    assert r.durable == mid;
    assert Next(g, r, Finish).durable == Commit(g, mid, e, o);
  }

  lemma StepTracks(g: Guest, start: Durable, r: Run, step: Step, d: Durable, n: nat) returns (next: Durable, m: nat)
    requires Valid(start.log) && Valid(r.durable.log) && Enabled(g, r, step)
    requires Ideal(g, start, r.commits) == Some(d) && Ahead(g, d, r, n)
    ensures Ideal(g, start, Next(g, r, step).commits) == Some(next) && Ahead(g, next, Next(g, r, step), m)
    ensures step.Finish? ==> next == Next(g, r, step).durable
  {
    next, m := d, n;
    match step
    case Begin => BeginAhead(g, d, r, n);
    case AppendEagerly => m := AppendAhead(g, d, r, n);
    case Finish =>
      FinishLands(g, d, r, n);
      IdealNext(g, start, r.commits, d);
      next, m := Deliver(g, d), 0;
      AheadOfItself(g, next, Next(g, r, step));
    case Crash =>
  }

  /** Where a sequence of steps leads, if each is possible. */
  ghost function Execute(g: Guest, start: Durable, steps: seq<Step>): (r: Option<Run>)
    requires Valid(start.log)
    ensures r.Some? ==> Valid(r.value.durable.log)
  {
    if steps == [] then Some(Run(start, None, 0))
    else
      var n := |steps| - 1;
      var before := Execute(g, start, steps[..n]);
      if before.Some? && Enabled(g, before.value, steps[n]) then Some(Next(g, before.value, steps[n])) else None
  }

  lemma {:induction false} RunTracks(g: Guest, start: Durable, steps: seq<Step>) returns (d: Durable, ahead: nat)
    requires Valid(start.log) && Execute(g, start, steps).Some?
    ensures Ideal(g, start, Execute(g, start, steps).value.commits) == Some(d)
    ensures Ahead(g, d, Execute(g, start, steps).value, ahead)
    ensures steps != [] && steps[|steps| - 1].Finish? ==> d == Execute(g, start, steps).value.durable
  {
    if steps == [] {
      d, ahead := start, 0;
      IdealNone(g, start);
      AheadOfItself(g, start, Execute(g, start, steps).value);
    } else {
      var n := |steps| - 1;
      d, ahead := RunTracks(g, start, steps[..n]);
      d, ahead := StepTracks(g, start, Execute(g, start, steps[..n]).value, steps[n], d, ahead);
    }
  }

  /**
    Crash-retry equivalence: right after its k-th commit, a run that crashed
    any number of times has the log, state and cursor of the run that never
    crashed.
  */
  lemma CrashRetryEquivalence(g: Guest, start: Durable, steps: seq<Step>)
    requires Valid(start.log) && steps != [] && steps[|steps| - 1].Finish?
    requires Execute(g, start, steps).Some?
    ensures var r := Execute(g, start, steps).value;
            Ideal(g, start, r.commits) == Some(r.durable)
  {
    var d, ahead := RunTracks(g, start, steps);
  }

  // Each proposal once.

  /** What one delivery proposes, in the order a crash-free run appends it. */
  function Proposals(g: Guest, d: Durable): (r: seq<Request>)
    requires NextInput(g, d) != []
  {
    Eager(g, OutcomeAt(g, d)) + FinalRequests(g, d)
  }

  /** A delivery's log is the log before it with its proposals appended. */
  lemma DeliverPutsAll(g: Guest, d: Durable)
    requires Valid(d.log) && NextInput(g, d) != []
    ensures Deliver(g, d).log == PutAll(d.log, Proposals(g, d), |Proposals(g, d)|)
  {
    DeliverLog(g, d);
    PutAllJoins(d.log, Eager(g, OutcomeAt(g, d)), FinalRequests(g, d), Proposals(g, d));
  }

  lemma PutAllJoins(log: Log, requests: seq<Request>, more: seq<Request>, all: seq<Request>)
    requires Valid(log) && all == requests + more
    ensures PutAll(log, all, |all|) == PutAll(PutAll(log, requests, |requests|), more, |more|)
  {
    FoldJoins(Putting(), log, PutAll(log, requests, |requests|), requests, more, all, |more|);
  }

  lemma DeliverLog(g: Guest, d: Durable)
    requires Valid(d.log) && NextInput(g, d) != []
    ensures var eager, final := Eager(g, OutcomeAt(g, d)), FinalRequests(g, d);
            Deliver(g, d).log == PutAll(PutAll(d.log, eager, |eager|), final, |final|)
  {
  }

  lemma DeliverGrows(g: Guest, d: Durable)
    requires Valid(d.log) && NextInput(g, d) != []
    ensures d.log <= Deliver(g, d).log
  {
    DeliverPutsAll(g, d);
    PutAllNone(d.log, Proposals(g, d));
    PutAllGrows(d.log, Proposals(g, d), 0, |Proposals(g, d)|);
  }

  /** The key is in the log once; its event is the request itself unless the key was there `before`. */
  ghost predicate StoredOnce(log: Log, before: Log, request: Request)
    requires request.key.Some?
  {
    exists e :: e in log && e.request.key == request.key
      && (forall x :: x in log && x.request.key == request.key ==> x == e)
      && (!Holds(before, request.key.value) ==> e.request == request)
  }

  lemma PutStores(log: Log, request: Request) returns (e: Event)
    requires Valid(log) && request.key.Some?
    ensures e in Put(log, request) && e.request.key == request.key
    ensures !Holds(log, request.key.value) ==> e.request == request
  {
    e := Append(log, request, 0).event;
  }

  lemma StoredFinally(log: Log, requests: seq<Request>, i: nat, longer: Log)
    requires Valid(log) && i < |requests| && requests[i].key.Some? && Valid(longer)
    requires PutAll(log, requests, |requests|) <= longer
    ensures StoredOnce(longer, PutAll(log, requests, i), requests[i])
  {
    var before := PutAll(log, requests, i);
    var e := PutStores(before, requests[i]);
    PutAllGrows(log, requests, i + 1, |requests|);
    assert e in longer;
    forall x | x in longer && x.request.key == requests[i].key
      ensures x == e
    {
      SameKey(longer, x, e);
    }
  }

  lemma SameKey(log: Log, x: Event, e: Event)
    requires Valid(log) && x in log && e in log && e.request.key.Some? && x.request.key == e.request.key
    ensures x == e
  {
    var i :| 0 <= i < |log| && log[i] == x;
    var j :| 0 <= j < |log| && log[j] == e;
  }

  /** Fewer deliveries without a crash go through as well, and the log only grows. */
  lemma IdealGrows(g: Guest, d: Durable, k: nat, n: nat) returns (at: Durable)
    requires Valid(d.log) && k < n && Ideal(g, d, n).Some?
    ensures Ideal(g, d, k) == Some(at) && Deliverable(g, at) && Deliver(g, at).log <= Ideal(g, d, n).value.log
  {
    IterateBefore(Delivering(g), d, k + 1, n);
    IterateBefore(Delivering(g), d, k, n);
    at := Ideal(g, d, k).value;
    IdealNext(g, d, k, at);
    forall x | Delivering(g)(x).Some?
      ensures x.log <= Delivering(g)(x).value.log
    {
      DeliverGrows(g, x);
    }
    IterateGrows(Delivering(g), d, k + 1, n);
  }

  /**
    Over every run with crashes anywhere: each proposal of each committed
    delivery, eager or final, is in the log exactly once, and as proposed
    unless its key was taken before.
  */
  lemma ProposedOnce(g: Guest, start: Durable, steps: seq<Step>, k: nat, i: nat)
    requires Valid(start.log) && Execute(g, start, steps).Some? && k < Execute(g, start, steps).value.commits
    ensures Ideal(g, start, k).Some? && NextInput(g, Ideal(g, start, k).value) != []
    ensures var d := Ideal(g, start, k).value;
            var proposals := Proposals(g, d);
            i < |proposals| && proposals[i].key.Some? ==>
              StoredOnce(Execute(g, start, steps).value.durable.log, PutAll(d.log, proposals, i), proposals[i])
  {
    var r := Execute(g, start, steps).value;
    var last, ahead := RunTracks(g, start, steps);
    var d := IdealGrows(g, start, k, r.commits);
    DeliverPutsAll(g, d);
    AheadKeeps(g, last, r, ahead);
    PrefixTrans(Deliver(g, d).log, last.log, r.durable.log);
    if i < |Proposals(g, d)| && Proposals(g, d)[i].key.Some? {
      StoredFinally(d.log, Proposals(g, d), i, r.durable.log);
    }
  }

  // What a commit means for the cursor, the state and the log.

  /** The first accepted event beyond the cursor. */
  ghost predicate FirstBeyond(g: Guest, d: Durable, e: Event) {
    && e in d.log && g.accepts(e) && d.cursor < e.sequence
    && forall x :: x in d.log && g.accepts(x) && d.cursor < x.sequence ==> e.sequence <= x.sequence
  }

  lemma InputIsFirst(g: Guest, d: Durable)
    requires Valid(d.log) && NextInput(g, d) != []
    ensures FirstBeyond(g, d, NextInput(g, d)[0])
  {
    PageGap(d.log, d.cursor, g.accepts, 1, 0);
    var e := NextInput(g, d)[0];
    forall x | x in d.log && g.accepts(x) && d.cursor < x.sequence
      ensures e.sequence <= x.sequence
    {
      if x.sequence < e.sequence {
        RangeMember(d.log, d.cursor, e.sequence - 1, g.accepts, x);
      }
    }
  }

  lemma FirstStays(g: Guest, d: Durable, longer: Log, e: Event)
    requires FirstBeyond(g, d, e) && Valid(d.log) && Valid(longer) && d.log <= longer
    ensures FirstBeyond(g, d.(log := longer), e)
  {
    forall x | x in longer && g.accepts(x) && d.cursor < x.sequence
      ensures e.sequence <= x.sequence
    {
      var i :| 0 <= i < |longer| && longer[i] == x;
      var k :| 0 <= k < |d.log| && d.log[k] == e;
      assert longer[k] == e;
      if i < |d.log| {
        assert d.log[i] == x;
      }
    }
  }

  /** At any point of any run, the handler at work has the first accepted event beyond the cursor, and the stored state. */
  lemma WorkerMeans(g: Guest, start: Durable, steps: seq<Step>)
    requires Valid(start.log) && Execute(g, start, steps).Some?
    ensures var r := Execute(g, start, steps).value;
            r.worker.Some? ==>
              && FirstBeyond(g, r.durable, r.worker.value.event)
              && r.worker.value.outcome == g.handle(r.worker.value.event, r.durable.state)
  {
    var r := Execute(g, start, steps).value;
    var d, ahead := RunTracks(g, start, steps);
    if r.worker.Some? {
      InputIsFirst(g, d);
      AheadKeeps(g, d, r, ahead);
      FirstStays(g, d, r.durable.log, NextInput(g, d)[0]);
      assert d.(log := r.durable.log) == r.durable;
    }
  }

  function Lookup(state: map<string, string>, key: string): (value: Option<string>) {
    if key in state then Some(state[key]) else None
  }

  /** The last mutation that names the key decides; without one the key keeps its value. */
  ghost predicate Decides(mutations: seq<Mutation>, key: string, before: Option<string>, after: Option<string>) {
    || ((forall i :: 0 <= i < |mutations| ==> mutations[i].key != key) && after == before)
    || exists i :: 0 <= i < |mutations| && mutations[i].key == key
         && (forall j :: i < j < |mutations| ==> mutations[j].key != key)
         && after == match mutations[i] case Set(_, value) => Some(value) case Delete(_) => None
  }

  lemma DecidesOn(mutations: seq<Mutation>, m: Mutation, key: string, before: Option<string>, after: Option<string>)
    requires Decides(mutations, key, before, after) && m.key != key
    ensures Decides(mutations + [m], key, before, after)
  {
    var more := mutations + [m];
    if forall i :: 0 <= i < |mutations| ==> mutations[i].key != key {
      assert forall i :: 0 <= i < |more| ==> more[i].key != key;
    } else {
      var i :| 0 <= i < |mutations| && mutations[i].key == key
        && (forall j :: i < j < |mutations| ==> mutations[j].key != key)
        && after == match mutations[i] case Set(_, value) => Some(value) case Delete(_) => None;
      assert more[i] == mutations[i];
    }
  }

  lemma {:induction false} MutatedMeans(state: map<string, string>, mutations: seq<Mutation>, key: string)
    ensures Decides(mutations, key, Lookup(state, key), Lookup(Mutated(state, mutations), key))
  {
    if mutations != [] {
      var n := |mutations| - 1;
      var m, rest := mutations[n], mutations[..n];
      if m.key != key {
        MutatedMeans(state, rest, key);
        DecidesOn(rest, m, key, Lookup(state, key), Lookup(Mutated(state, rest), key));
        assert rest + [m] == mutations;
      } else {
        assert mutations[n].key == key;
      }
    }
  }

  /** The commit of a delivery: the cursor moves to the event if the handler says so, and the state follows its mutations. */
  ghost predicate Settles(g: Guest, before: Durable, e: Event, after: Durable) {
    var o := g.handle(e, before.state);
    && FirstBeyond(g, before, e) && before.log <= after.log
    && after.cursor == (if o.advance then e.sequence else before.cursor)
    && forall key :: Decides(o.mutations, key, Lookup(before.state, key), Lookup(after.state, key))
  }

  /** Over every run: what each commit does to cursor and state. */
  lemma FinishSettles(g: Guest, start: Durable, steps: seq<Step>)
    requires Valid(start.log) && steps != [] && steps[|steps| - 1].Finish? && Execute(g, start, steps).Some?
    ensures var n := |steps| - 1;
            var before := Execute(g, start, steps[..n]).value;
            before.worker.Some? && Settles(g, before.durable, before.worker.value.event, Execute(g, start, steps).value.durable)
  {
    var before := Execute(g, start, steps[..|steps| - 1]).value;
    WorkerMeans(g, start, steps[..|steps| - 1]);
    CommitSettles(g, before.durable, before.worker.value.event, before.worker.value.outcome);
  }

  lemma CommitSettles(g: Guest, d: Durable, e: Event, o: Outcome)
    requires Valid(d.log) && FirstBeyond(g, d, e) && o == g.handle(e, d.state)
    ensures Settles(g, d, e, Commit(g, d, e, o))
  {
    var requests := Stamped(g, e, d.cursor, o.events);
    PutAllNone(d.log, requests);
    PutAllGrows(d.log, requests, 0, |requests|);
    forall key
      ensures Decides(o.mutations, key, Lookup(d.state, key), Lookup(Mutated(d.state, o.mutations), key))
    {
      MutatedMeans(d.state, o.mutations, key);
    }
  }

  /** Only a commit changes the cursor or the state. */
  lemma StepSettles(g: Guest, start: Durable, steps: seq<Step>)
    requires Valid(start.log) && steps != [] && Execute(g, start, steps).Some?
    ensures var before, after := Execute(g, start, steps[..|steps| - 1]).value.durable, Execute(g, start, steps).value.durable;
            && before.cursor <= after.cursor && before.log <= after.log
            && (!steps[|steps| - 1].Finish? ==> after.cursor == before.cursor && after.state == before.state)
  {
    var n := |steps| - 1;
    var before := Execute(g, start, steps[..n]).value;
    if steps[n].Finish? {
      FinishSettles(g, start, steps);
    } else if steps[n].AppendEagerly? {
      PutGrows(before.durable.log, Eager(g, before.worker.value.outcome)[before.worker.value.done]);
    }
  }

  /** A run's earlier states: the cursor never goes back and the log never shrinks. */
  lemma {:induction false} CursorGrows(g: Guest, start: Durable, steps: seq<Step>, k: nat)
    requires Valid(start.log) && k <= |steps| && Execute(g, start, steps).Some?
    ensures Execute(g, start, steps[..k]).Some?
    ensures Execute(g, start, steps[..k]).value.durable.cursor <= Execute(g, start, steps).value.durable.cursor
    decreases |steps|
  {
    if k == |steps| {
      assert steps[..k] == steps;
    } else {
      var n := |steps| - 1;
      StepSettles(g, start, steps);
      CursorGrows(g, start, steps[..n], k);
      assert steps[..n][..k] == steps[..k];
    }
  }

  /** After a commit that advances past an event, no later delivery of the run is of that event or of one before it. */
  lemma AdvancedNeverAgain(g: Guest, start: Durable, steps: seq<Step>, k: nat)
    requires Valid(start.log) && Execute(g, start, steps).Some? && k < |steps| && steps[k].Finish?
    ensures Execute(g, start, steps[..k]).Some? && Execute(g, start, steps[..k]).value.worker.Some?
    ensures var before, later := Execute(g, start, steps[..k]).value, Execute(g, start, steps).value;
            var e := before.worker.value.event;
            g.handle(e, before.durable.state).advance && later.worker.Some? ==> e.sequence < later.worker.value.event.sequence
  {
    var before, after := CommitAt(g, start, steps, k);
    WorkerBeyond(g, start, steps);
  }

  lemma CommitAt(g: Guest, start: Durable, steps: seq<Step>, k: nat) returns (before: Run, after: Run)
    requires Valid(start.log) && Execute(g, start, steps).Some? && k < |steps| && steps[k].Finish?
    ensures Execute(g, start, steps[..k]) == Some(before) && before.worker.Some?
    ensures g.handle(before.worker.value.event, before.durable.state).advance ==>
              before.worker.value.event.sequence == after.durable.cursor
    ensures after.durable.cursor <= Execute(g, start, steps).value.durable.cursor
  {
    var head, next := steps[..k], steps[..k + 1];
    CursorGrows(g, start, steps, k + 1);
    assert next == head + [Finish];
    AdvanceMoves(g, start, next, head);
    before, after := Execute(g, start, head).value, Execute(g, start, next).value;
  }

  lemma AdvanceMoves(g: Guest, start: Durable, steps: seq<Step>, before: seq<Step>)
    requires Valid(start.log) && steps == before + [Finish] && Execute(g, start, steps).Some?
    ensures Execute(g, start, before).Some? && Execute(g, start, before).value.worker.Some?
    ensures var r := Execute(g, start, before).value;
            var e := r.worker.value.event;
            g.handle(e, r.durable.state).advance ==> Execute(g, start, steps).value.durable.cursor == e.sequence
  {
    assert steps[..|steps| - 1] == before;
    FinishSettles(g, start, steps);
  }

  lemma WorkerBeyond(g: Guest, start: Durable, steps: seq<Step>)
    requires Valid(start.log) && Execute(g, start, steps).Some?
    ensures var r := Execute(g, start, steps).value;
            r.worker.Some? ==> r.durable.cursor < r.worker.value.event.sequence
  {
    WorkerMeans(g, start, steps);
  }

  /** Proposals keep what they say; the host sets who says it, and fills in what they leave out. */
  lemma StampedMeans(g: Guest, cause: Event, cursor: nat, proposals: seq<Request>, i: nat)
    requires i < |proposals|
    ensures var r := Stamped(g, cause, cursor, proposals)[i];
            && r.actor == Principal(Component, g.instance)
            && (r.kind, r.payload, r.activity, r.correlation) ==
               (proposals[i].kind, proposals[i].payload, proposals[i].activity, proposals[i].correlation)
            && r.causation == (if proposals[i].causation == None then Some(cause.id) else proposals[i].causation)
  {
  }

  lemma EagerMeans(g: Guest, o: Outcome, i: nat)
    requires i < |o.eager|
    ensures var r := Eager(g, o)[i];
            && r.actor == Principal(Component, g.instance)
            && (r.kind, r.payload, r.activity, r.correlation) ==
               (o.eager[i].kind, o.eager[i].payload, o.eager[i].activity, o.eager[i].correlation)
            && r.causation == (if o.eager[i].causation == None then Some(g.origin) else o.eager[i].causation)
  {
  }

  /** Everything the log holds beyond `before` was appended by this component, and has a cause. */
  ghost predicate AppendedBy(before: Log, log: Log, instance: string) {
    forall e :: e in log ==>
      e in before || (e.request.actor == Principal(Component, instance) && e.request.causation.Some? && e.request.key.Some?)
  }

  lemma PutBy(before: Log, log: Log, request: Request, instance: string)
    requires Valid(log) && AppendedBy(before, log, instance)
    requires request.actor == Principal(Component, instance) && request.causation.Some?
    ensures AppendedBy(before, Put(log, request), instance)
  {
  }

  lemma PutAllBy(before: Log, log: Log, requests: seq<Request>, n: nat, instance: string)
    requires Valid(log) && n <= |requests| && AppendedBy(before, log, instance)
    requires forall i :: 0 <= i < |requests| ==> requests[i].actor == Principal(Component, instance) && requests[i].causation.Some?
    ensures AppendedBy(before, PutAll(log, requests, n), instance)
  {
    var fine := (l: Log) => Valid(l) && AppendedBy(before, l, instance);
    forall l, i: nat | fine(l) && i < |requests|
      ensures fine(Putting()(l, requests[i]))
    {
      PutBy(before, l, requests[i], instance);
    }
    FoldKeeps(Putting(), log, requests, n, fine);
  }

  /** Over every run: whatever it stores is its own component's, whoever the guest claims to be. */
  lemma {:induction false} StoresOwn(g: Guest, start: Durable, steps: seq<Step>)
    requires Valid(start.log) && Execute(g, start, steps).Some?
    ensures AppendedBy(start.log, Execute(g, start, steps).value.durable.log, g.instance)
  {
    if steps != [] {
      var n := |steps| - 1;
      var before := Execute(g, start, steps[..n]).value;
      StoresOwn(g, start, steps[..n]);
      if steps[n].AppendEagerly? {
        var w := before.worker.value;
        EagerMeans(g, w.outcome, w.done);
        PutBy(start.log, before.durable.log, Eager(g, w.outcome)[w.done], g.instance);
      } else if steps[n].Finish? {
        CommitBy(g, start.log, before.durable, before.worker.value.event, before.worker.value.outcome);
      }
    }
  }

  lemma CommitBy(g: Guest, before: Log, d: Durable, e: Event, o: Outcome)
    requires Valid(d.log) && AppendedBy(before, d.log, g.instance)
    ensures AppendedBy(before, Commit(g, d, e, o).log, g.instance)
  {
    var requests := Stamped(g, e, d.cursor, o.events);
    forall i | 0 <= i < |requests|
      ensures requests[i].actor == Principal(Component, g.instance) && requests[i].causation.Some?
    {
      StampedMeans(g, e, d.cursor, o.events, i);
    }
    PutAllBy(before, d.log, requests, |requests|, g.instance);
  }
}
