/**
  When the delivery pass can lose an authorized request, exactly: for one
  request in any state of any run, for the step that authorizes it, and for
  whole runs.
*/
module DispatchLoss {
  import opened Events
  import opened Dispatch
  import Admission
  import Decimal
  import Projection

  /** An authorized request behind the cursor with neither result nor attempt. */
  ghost predicate Lost(s: State, q: Event, provider: string) {
    && q in s.log && q.sequence <= Cursor(s.cursors, provider) && AuthorizedFor(s.log, q.id, provider)
    && !Finished(s.log, q)
  }

  ghost predicate CanLose(providers: Providers, s: State, q: Event, provider: string) {
    exists t :: Leads(providers, s, t) && Lost(t, q, provider)
  }

  /** The runner's checkpoint is still the stored cursor, so its next commit goes through. */
  predicate Live(s: State, m: Runner, p: string) {
    p in m.checkpoints && m.checkpoints[p] == Cursor(s.cursors, p)
  }

  /** The runner's pass for the provider stands beyond the sequence. */
  predicate Beyond(m: Runner, p: string, n: nat) {
    match m.position
    case Scanning(x, at) => x == p && n <= at
    case Selected(x, e, _) => x == p && n < e.sequence
    case Marked(x, e) => x == p && n < e.sequence
    case _ => false
  }

  predicate Exposes(s: State, m: Runner, q: Event, p: string) {
    Live(s, m, p) && Beyond(m, p, q.sequence)
  }

  /** The request is done with, or ahead of the cursor with no live pass beyond it. */
  ghost predicate Guarded(s: State, q: Event, p: string) {
    || Finished(s.log, q)
    || (q.sequence > Cursor(s.cursors, p) && forall r :: r in s.runners ==> !Exposes(s, s.runners[r], q, p))
  }

  // A guarded request stays guarded.

  lemma SetGuard(s: State, r: nat, m: Runner, q: Event, p: string)
    requires Guarded(s, q, p) && !Exposes(s, m, q, p)
    ensures Guarded(With(s, r, m), q, p)
  {
    var t := With(s, r, m);
    if !Finished(s.log, q) {
      forall o | o in t.runners
        ensures !Exposes(t, t.runners[o], q, p)
      {
        assert Exposes(t, t.runners[o], q, p) == Exposes(s, t.runners[o], q, p);
        assert o != r ==> t.runners[o] == s.runners[o];
      }
    }
  }

  lemma LogGuard(s: State, longer: Log, handled: seq<Handling>, q: Event, p: string)
    requires Guarded(s, q, p) && s.log <= longer
    ensures Guarded(s.(log := longer, handled := handled), q, p)
  {
    var t := s.(log := longer, handled := handled);
    Monotone(s.log, longer, q, p);
    forall r | r in s.runners
      ensures Exposes(t, s.runners[r], q, p) == Exposes(s, s.runners[r], q, p)
    {
    }
  }

  /** The next offered request after a position is not behind any offered one ahead. */
  lemma NextBefore(providers: Providers, log: Log, p: string, at: nat, x: Event)
    requires Gapless(log) && x in log && Offers(providers, p, x) && at < x.sequence
    ensures var page := NextOffered(providers, log, p, at);
            page != [] && page[0] in log && at < page[0].sequence <= x.sequence && (page[0].sequence == x.sequence ==> page[0] == x)
  {
    var want := (e: Event) => Offers(providers, p, e);
    var i :| 0 <= i < |log| && log[i] == x;
    RangeMember(log, at, |log|, want, x);
    PageGap(log, at, want, 1, 0);
    var next := NextOffered(providers, log, p, at)[0].sequence;
    if x.sequence < next {
      RangeMember(log, at, next - 1, want, x);
    }
  }

  lemma ExamineGuard(providers: Providers, s: State, r: nat, q: Event, p: string)
    requires Inv(providers, s) && Enabled(providers, s, Examine(r)) && Guarded(s, q, p)
    requires q in s.log && AuthorizedFor(s.log, q.id, p)
    ensures Guarded(Next(providers, s, Examine(r)), q, p)
  {
    var m := s.runners[r];
    var at := m.position.at;
    var n := m.(position := Examined(providers, s.log, m.position.provider, at));
    if Finished(s.log, q) {
    } else {
      if m.position.provider == p && at < q.sequence {
        AuthorizedIsOffered(providers, s.log, q, p);
        NextBefore(providers, s.log, p, at, q);
      }
      assert !Exposes(s, m, q, p);
      SetGuard(s, r, n, q, p);
    }
  }

  lemma MoveGuard(providers: Providers, s: State, r: nat, q: Event, p: string)
    requires Inv(providers, s) && Enabled(providers, s, Move(r)) && Guarded(s, q, p) && q in s.log
    ensures Guarded(Moved(s, r), q, p)
  {
    var m := s.runners[r];
    var x, e := m.position.provider, m.position.request;
    var t := Moved(s, r);
    assert RunnerInv(s, m);
    if !Finished(s.log, q) {
      assert !Exposes(s, m, q, p);
      if x == p && e.sequence == q.sequence {
        SameSequence(s.log, e, q);
      }
      forall o | o in t.runners
        ensures !Exposes(t, t.runners[o], q, p)
      {
        if o != r {
          assert RunnerInv(s, s.runners[o]) && !Exposes(s, s.runners[o], q, p);
          StaleStays(s, t, s.runners[o], q, p);
        }
      }
    }
  }

  /** A checkpoint behind the cursor never catches up with it by itself. */
  lemma StaleStays(s: State, t: State, m: Runner, q: Event, p: string)
    requires p in m.checkpoints ==> m.checkpoints[p] <= Cursor(s.cursors, p) <= Cursor(t.cursors, p)
    requires !Exposes(s, m, q, p)
    ensures !Exposes(t, m, q, p)
  {
  }

  lemma SameSequence(log: Log, a: Event, b: Event)
    requires Gapless(log) && a in log && b in log && a.sequence == b.sequence
    ensures a == b
  {
  }

  lemma HandoffGuard(providers: Providers, s: State, r: nat, w: nat, q: Event, p: string)
    requires Inv(providers, s) && Enabled(providers, s, Handoff(r, w)) && Guarded(s, q, p)
    ensures Guarded(HandedOff(s, r, w), q, p)
  {
    var m := s.runners[r];
    var x := m.position.provider;
    var left := m.(position := Idle, checkpoints := m.checkpoints - {x});
    var worker := Runner(0, map y | y in m.checkpoints && y == x :: m.checkpoints[y], m.position);
    SetGuard(s, r, left, q, p);
    if !Finished(s.log, q) {
      assert !Exposes(s, m, q, p);
    }
    if Finished(s.log, q) {
    } else {
      assert Exposes(With(s, r, left), worker, q, p) ==> Exposes(s, m, q, p);
      SetGuard(With(s, r, left), w, worker, q, p);
    }
  }

  lemma RecordGuard(providers: Providers, s: State, r: nat, mark: Mark, now: int, q: Event, p: string)
    requires Inv(providers, s) && Enabled(providers, s, Record(r, mark, now)) && Guarded(s, q, p)
    ensures Guarded(Recorded(s, r, mark, now), q, p)
  {
    var t := Recorded(s, r, mark, now);
    var m := s.runners[r];
    var u := s.(log := t.log, handled := t.handled);
    LogGuard(s, t.log, t.handled, q, p);
    if Finished(t.log, q) {
    } else {
      assert !Exposes(u, m, q, p);
      SetGuard(u, r, m.(position := Marked(m.position.provider, m.position.request)), q, p);
    }
  }

  lemma GateGuard(providers: Providers, s: State, r: nat, verdict: Verdict, now: int, q: Event, p: string)
    requires Inv(providers, s) && Enabled(providers, s, Gate(r, verdict, now)) && Guarded(s, q, p)
    ensures Guarded(Gated(s, r, verdict, now), q, p)
  {
    var t := Gated(s, r, verdict, now);
    LogGuard(s, t.log, s.handled, q, p);
    SetGuard(s.(log := t.log), r, t.runners[r], q, p);
    assert With(s.(log := t.log), r, t.runners[r]) == t;
  }

  /** Once authorized and guarded, no step of any runner exposes a request. */
  lemma StepGuards(providers: Providers, s: State, step: Step, q: Event, p: string)
    requires Inv(providers, s) && Enabled(providers, s, step) && Guarded(s, q, p)
    requires q in s.log && AuthorizedFor(s.log, q.id, p)
    ensures Guarded(Next(providers, s, step), q, p)
  {
    match step
    case Gate(r, verdict, now) => GateGuard(providers, s, r, verdict, now, q, p);
    case Deny(r, now) =>
      var t := Next(providers, s, step);
      LogGuard(s, t.log, s.handled, q, p);
      SetGuard(s.(log := t.log), r, s.runners[r].(position := Idle), q, p);
    case Examine(r) => ExamineGuard(providers, s, r, q, p);
    case Record(r, mark, now) => RecordGuard(providers, s, r, mark, now, q, p);
    case Handoff(r, w) => HandoffGuard(providers, s, r, w, q, p);
    case Move(r) => MoveGuard(providers, s, r, q, p);
    case Write(entry, now) => LogGuard(s, Append(s.log, entry, now).log, s.handled, q, p);
    case Install(r, x) => SetGuard(s, r, s.runners[r].(checkpoints := s.runners[r].checkpoints[x := Cursor(s.cursors, x)]), q, p);
    case BeginPass(r, x) =>
      if Finished(s.log, q) {
      } else {
        SetGuard(s, r, s.runners[r].(position := Scanning(x, s.runners[r].checkpoints[x])), q, p);
      }
    case GiveUp(r) => SetGuard(s, r, s.runners[r].(position := Idle), q, p);
    case Start(r) => SetGuard(s, r, Runner(0, map[], Idle), q, p);
    case Crash(r) => Fewer(s, s.runners - {r}, q, p);
    case Collect(r, w) =>
      var m := s.runners[r].(checkpoints := s.runners[r].checkpoints + s.runners[w].checkpoints);
      Fewer(s, s.runners - {w}, q, p);
      SetGuard(s.(runners := s.runners - {w}), r, m, q, p);
  }

  lemma Fewer(s: State, runners: map<nat, Runner>, q: Event, p: string)
    requires Guarded(s, q, p) && forall r :: r in runners ==> r in s.runners && runners[r] == s.runners[r]
    ensures Guarded(s.(runners := runners), q, p)
  {
    var t := s.(runners := runners);
    forall r | r in runners
      ensures Exposes(t, runners[r], q, p) == Exposes(s, s.runners[r], q, p)
    {
    }
  }

  lemma {:induction false} RunGuards(providers: Providers, s: State, steps: seq<Step>, q: Event, p: string)
    requires Inv(providers, s) && Guarded(s, q, p) && q in s.log && AuthorizedFor(s.log, q.id, p)
    requires Execute(providers, s, steps).Some?
    ensures !Lost(Execute(providers, s, steps).value, q, p)
    decreases |steps|
  {
    if steps != [] {
      var t := Next(providers, s, steps[0]);
      StepKeeps(providers, s, steps[0]);
      StepGuards(providers, s, steps[0], q, p);
      Monotone(s.log, t.log, q, p);
      RunGuards(providers, t, steps[1..], q, p);
    }
  }

  // An exposed request can be lost: the run that loses it.

  lemma LostNow(providers: Providers, s: State, q: Event, p: string)
    requires Valid(s.log) && Lost(s, q, p)
    ensures CanLose(providers, s, q, p)
  {
    var none: seq<Step> := [];
    assert Execute(providers, s, none) == Some(s);
    assert Leads(providers, s, s);
  }

  lemma LostAfter(providers: Providers, s: State, step: Step, q: Event, p: string)
    requires Valid(s.log) && Enabled(providers, s, step) && CanLose(providers, Next(providers, s, step), q, p)
    ensures CanLose(providers, s, q, p)
  {
    var t :| Leads(providers, Next(providers, s, step), t) && Lost(t, q, p);
    var steps :| Execute(providers, Next(providers, s, step), steps) == Some(t);
    var all := [step] + steps;
    assert all[0] == step && all[1..] == steps;
    assert Execute(providers, s, all) == Some(t);
  }

  /** The request is authorized and open. */
  ghost predicate Pending(s: State, q: Event, p: string) {
    Valid(s.log) && q in s.log && AuthorizedFor(s.log, q.id, p) && !Finished(s.log, q)
  }

  lemma MarkedLoses(providers: Providers, s: State, r: nat, q: Event, p: string)
    requires Pending(s, q, p) && r in s.runners && Exposes(s, s.runners[r], q, p)
    requires s.runners[r].position.Marked? && q.sequence > Cursor(s.cursors, p)
    ensures CanLose(providers, s, q, p)
  {
    LostNow(providers, Moved(s, r), q, p);
    LostAfter(providers, s, Move(r), q, p);
  }

  /** One appended event that answers and attempts nothing of the request leaves it open. */
  lemma StaysPending(log: Log, entry: Request, now: int, q: Event, p: string)
    requires Valid(log) && AuthorizedFor(log, q.id, p) && !Finished(log, q)
    requires var e := Append(log, entry, now).event; !Projection.Answers(e, q.id) && !Admission.Attempts(e, q.id)
    ensures var longer := Append(log, entry, now).log; AuthorizedFor(longer, q.id, p) && !Finished(longer, q)
  {
    var a := Append(log, entry, now);
    Monotone(log, a.log, q, p);
    forall e | e in a.log
      ensures !Projection.Answers(e, q.id) && !Admission.Attempts(e, q.id)
    {
      assert e in log || e == a.event;
    }
  }

  lemma SelectedLoses(providers: Providers, s: State, r: nat, q: Event, p: string)
    requires Pending(s, q, p) && r in s.runners && Exposes(s, s.runners[r], q, p)
    requires s.runners[r].position.Selected? && s.runners[r].position.request in s.log && q.sequence > Cursor(s.cursors, p)
    ensures CanLose(providers, s, q, p)
  {
    var e := s.runners[r].position.request;
    if e.id == q.id {
      IdsUnique(s.log, e, q);
    }
    var a := Append(s.log, MarkRequest(e, Attempt), 0);
    if a.log == s.log {
      Monotone(s.log, a.log, q, p);
    } else {
      StaysPending(s.log, MarkRequest(e, Attempt), 0, q, p);
    }
    MarkedLoses(providers, Recorded(s, r, Attempt, 0), r, q, p);
    LostAfter(providers, s, Record(r, Attempt, 0), q, p);
  }

  /** A scan beyond the request that has another delivery ahead runs into it, and loses the request. */
  lemma {:induction false} ScanLoses(providers: Providers, s: State, r: nat, q: Event, p: string, x: Event)
    requires Pending(s, q, p) && r in s.runners && Exposes(s, s.runners[r], q, p)
    requires s.runners[r].position.Scanning? && q.sequence > Cursor(s.cursors, p)
    requires x in s.log && Offers(providers, p, x) && AuthorizedFor(s.log, x.id, p) && !Answered(s.log, x.id)
    requires s.runners[r].position.at < x.sequence
    ensures CanLose(providers, s, q, p)
    decreases x.sequence - s.runners[r].position.at
  {
    var m := s.runners[r];
    var at := m.position.at;
    NextBefore(providers, s.log, p, at, x);
    var position := Examined(providers, s.log, p, at);
    var t := With(s, r, m.(position := position));
    if position.Selected? {
      SelectedLoses(providers, t, r, q, p);
    } else {
      ScanLoses(providers, t, r, q, p, x);
    }
    LostAfter(providers, s, Examine(r), q, p);
  }

  /** A scan beyond the request, a further request, and a runner that has yet to gate it. */
  ghost predicate Staged(providers: Providers, s: State, r: nat, g: nat, q: Event, p: string, x: Event) {
    && Inv(providers, s) && Pending(s, q, p) && Offers(providers, p, q) && q.sequence > Cursor(s.cursors, p)
    && r in s.runners && g in s.runners && r != g && Exposes(s, s.runners[r], q, p) && s.runners[r].position.Scanning?
    && x in s.log && Offers(providers, p, x) && Decision(s.log, x.id).None? && !Answered(s.log, x.id)
    && s.runners[r].position.at < x.sequence
    && s.runners[g].position.Idle? && s.runners[g].gatedThrough < x.sequence
  }

  /** Gating on up to the further request: what the provider offers is authorized for it, the rest refused. */
  lemma {:induction false} GateLoses(providers: Providers, s: State, r: nat, g: nat, q: Event, p: string, x: Event)
    requires Staged(providers, s, r, g, q, p, x)
    ensures CanLose(providers, s, q, p)
    decreases x.sequence - s.runners[g].gatedThrough
  {
    var z := NextToGate(s.log, s.runners[g].gatedThrough, x);
    if Answered(s.log, z.id) {
      SkipGate(providers, s, r, g, q, p, x, z);
      GateLoses(providers, Gated(s, g, Refuse, 0), r, g, q, p, x);
      LostAfter(providers, s, Gate(g, Refuse, 0), q, p);
    } else if Offers(providers, p, z) {
      var t := AuthorizeNext(providers, s, r, g, q, p, x, z);
      if z == x {
        assert Exposes(t, t.runners[r], q, p) == Exposes(s, s.runners[r], q, p);
        ScanLoses(providers, t, r, q, p, x);
      } else {
        GateLoses(providers, t, r, g, q, p, x);
      }
      LostAfter(providers, s, Gate(g, Decide(Some(p)), 0), q, p);
    } else {
      var t, u := RefuseNext(providers, s, r, g, q, p, x, z);
      GateLoses(providers, u, r, g, q, p, x);
      RefuseLoses(providers, s, g, q, p, t);
    }
  }

  lemma RefuseLoses(providers: Providers, s: State, g: nat, q: Event, p: string, t: State)
    requires Valid(s.log) && Enabled(providers, s, Gate(g, Refuse, 0)) && t == Gated(s, g, Refuse, 0)
    requires Valid(t.log) && Enabled(providers, t, Deny(g, 0)) && CanLose(providers, Next(providers, t, Deny(g, 0)), q, p)
    ensures CanLose(providers, s, q, p)
  {
    LostAfter(providers, t, Deny(g, 0), q, p);
    LostAfter(providers, s, Gate(g, Refuse, 0), q, p);
  }

  lemma NextToGate(log: Log, after: nat, x: Event) returns (z: Event)
    requires Gapless(log) && x in log && IsRequest(x) && after < x.sequence
    ensures NextRequest(log, after) == [z] && z in log && IsRequest(z) && after < z.sequence <= x.sequence
    ensures z.sequence == x.sequence ==> z == x
  {
    var want := (e: Event) => IsRequest(e);
    RangeMember(log, after, |log|, want, x);
    z := NextRequest(log, after)[0];
    NextIsRequest(log, after);
    if x.sequence <= z.sequence {
      GatedBefore(log, log, after, x);
    }
  }

  lemma SkipGate(providers: Providers, s: State, r: nat, g: nat, q: Event, p: string, x: Event, z: Event)
    requires Staged(providers, s, r, g, q, p, x) && NextRequest(s.log, s.runners[g].gatedThrough) == [z]
    requires z.sequence <= x.sequence && (z.sequence == x.sequence ==> z == x) && Answered(s.log, z.id)
    ensures Staged(providers, Gated(s, g, Refuse, 0), r, g, q, p, x)
    ensures Gated(s, g, Refuse, 0).runners[g].gatedThrough == z.sequence
  {
    GateKeeps(providers, s, g, Refuse, 0);
  }

  /** The stage stands while the log and the gate move on. */
  lemma Restaged(providers: Providers, s: State, t: State, r: nat, g: nat, q: Event, p: string, x: Event)
    requires Staged(providers, s, r, g, q, p, x) && Inv(providers, t) && s.log <= t.log && t.cursors == s.cursors
    requires r in t.runners && t.runners[r] == s.runners[r]
    requires g in t.runners && t.runners[g].position.Idle? && t.runners[g].gatedThrough < x.sequence
    requires AuthorizedFor(t.log, q.id, p) && !Finished(t.log, q) && Decision(t.log, x.id).None? && !Answered(t.log, x.id)
    ensures Staged(providers, t, r, g, q, p, x)
  {
    assert q in t.log && x in t.log;
    assert Exposes(t, t.runners[r], q, p) == Exposes(s, s.runners[r], q, p);
  }

  lemma AuthorizeLog(providers: Providers, log: Log, z: Event, q: Event, p: string, x: Event)
    requires LogInv(providers, log) && z in log && x in log && AuthorizedFor(log, q.id, p) && !Finished(log, q)
    requires Decision(log, x.id).None? && !Answered(log, x.id)
    ensures var longer := Append(log, DecisionRequest(z, Some(p)), 0).log;
            && AuthorizedFor(longer, q.id, p) && !Finished(longer, q) && !Answered(longer, x.id)
            && (if z == x then AuthorizedFor(longer, x.id, p) else Decision(longer, x.id).None?)
  {
    var entry := DecisionRequest(z, Some(p));
    var a := Append(log, entry, 0);
    DecisionIsQuiet(providers, log, entry, q, p, x);
    if z == x {
      DecisionLands(providers, log, x, Some(p), 0);
    } else {
      if z.id == x.id {
        IdsUnique(log, z, x);
      }
      if a.log != log {
        DecisionNew(log, a.event, x.id);
      }
    }
  }

  lemma AuthorizeNext(providers: Providers, s: State, r: nat, g: nat, q: Event, p: string, x: Event, z: Event) returns (t: State)
    requires Staged(providers, s, r, g, q, p, x) && NextRequest(s.log, s.runners[g].gatedThrough) == [z]
    requires z in s.log && z.sequence <= x.sequence && (z.sequence == x.sequence ==> z == x)
    requires !Answered(s.log, z.id) && Offers(providers, p, z)
    ensures t == Gated(s, g, Decide(Some(p)), 0) && s.log <= t.log && t.cursors == s.cursors && t.runners[r] == s.runners[r]
    ensures t.runners[g].gatedThrough == z.sequence && AuthorizedFor(t.log, q.id, p) && !Finished(t.log, q) && !Answered(t.log, x.id)
    ensures if z == x then AuthorizedFor(t.log, x.id, p) else Staged(providers, t, r, g, q, p, x)
  {
    t := Gated(s, g, Decide(Some(p)), 0);
    AuthorizeLog(providers, s.log, z, q, p, x);
    if z != x {
      GateKeeps(providers, s, g, Decide(Some(p)), 0);
      Restaged(providers, s, t, r, g, q, p, x);
    }
  }

  /** A decision answers and attempts nothing. */
  lemma DecisionIsQuiet(providers: Providers, log: Log, entry: Request, q: Event, p: string, x: Event)
    requires LogInv(providers, log) && entry.kind.PolicyDecision? && AuthorizedFor(log, q.id, p) && !Finished(log, q)
    requires !Answered(log, x.id)
    ensures var longer := Append(log, entry, 0).log;
            AuthorizedFor(longer, q.id, p) && !Finished(longer, q) && !Answered(longer, x.id)
  {
    var a := Append(log, entry, 0);
    if a.log == log {
      Monotone(log, a.log, q, p);
    } else {
      StaysPending(log, entry, 0, q, p);
      forall e | e in a.log
        ensures !Projection.Answers(e, x.id)
      {
        assert e in log || e == a.event;
      }
    }
  }

  lemma RefuseNext(providers: Providers, s: State, r: nat, g: nat, q: Event, p: string, x: Event, z: Event) returns (t: State, u: State)
    requires Staged(providers, s, r, g, q, p, x) && NextRequest(s.log, s.runners[g].gatedThrough) == [z]
    requires z in s.log && z.sequence <= x.sequence && !Answered(s.log, z.id) && !Offers(providers, p, z)
    ensures t == Gated(s, g, Refuse, 0) && Valid(t.log) && Enabled(providers, t, Deny(g, 0))
    ensures u == Next(providers, t, Deny(g, 0)) && Staged(providers, u, r, g, q, p, x)
    ensures u.runners[g].gatedThrough == z.sequence
  {
    t := Gated(s, g, Refuse, 0);
    GateKeeps(providers, s, g, Refuse, 0);
    u := RefuseShape(providers, s, t, g, z);
    DenyKeeps(providers, t, g, 0);
    RefuseLog(s.log, z, q, p, x);
    SameSequenceLess(s.log, z, x);
    Restaged(providers, s, u, r, g, q, p, x);
  }

  lemma RefuseShape(providers: Providers, s: State, t: State, g: nat, z: Event) returns (u: State)
    requires Valid(s.log) && g in s.runners && NextRequest(s.log, s.runners[g].gatedThrough) == [z] && !Answered(s.log, z.id)
    requires t == Gated(s, g, Refuse, 0) && s.runners[g].position.Idle?
    ensures Valid(t.log) && Enabled(providers, t, Deny(g, 0)) && u == Next(providers, t, Deny(g, 0))
    ensures u == With(s.(log := Append(s.log, DenialRequest(z), 0).log), g, s.runners[g].(gatedThrough := z.sequence))
  {
    u := With(s.(log := Append(s.log, DenialRequest(z), 0).log), g, s.runners[g].(gatedThrough := z.sequence));
  }

  lemma RefuseLog(log: Log, z: Event, q: Event, p: string, x: Event)
    requires Valid(log) && z in log && q in log && x in log && z != q && z != x
    requires AuthorizedFor(log, q.id, p) && !Finished(log, q) && Decision(log, x.id).None? && !Answered(log, x.id)
    ensures var longer := Append(log, DenialRequest(z), 0).log;
            && AuthorizedFor(longer, q.id, p) && !Finished(longer, q)
            && Decision(longer, x.id).None? && !Answered(longer, x.id)
  {
    if z.id == q.id {
      IdsUnique(log, z, q);
    }
    if z.id == x.id {
      IdsUnique(log, z, x);
    }
    DenialIsQuiet(log, z, q, p, x);
  }

  lemma SameSequenceLess(log: Log, z: Event, x: Event)
    requires Gapless(log) && z in log && x in log && z != x && z.sequence <= x.sequence
    ensures z.sequence < x.sequence
  {
  }

  /** The denial of one request says nothing of another. */
  lemma DenialIsQuiet(log: Log, z: Event, q: Event, p: string, x: Event)
    requires Valid(log) && AuthorizedFor(log, q.id, p) && !Finished(log, q) && z.id != q.id
    requires Decision(log, x.id).None? && !Answered(log, x.id) && z.id != x.id
    ensures var longer := Append(log, DenialRequest(z), 0).log;
            && AuthorizedFor(longer, q.id, p) && !Finished(longer, q)
            && Decision(longer, x.id).None? && !Answered(longer, x.id)
  {
    var a := Append(log, DenialRequest(z), 0);
    if a.log == log {
      Monotone(log, a.log, q, p);
    } else {
      StaysPending(log, DenialRequest(z), 0, q, p);
      DecisionNew(log, a.event, x.id);
      forall e | e in a.log
        ensures !Projection.Answers(e, x.id)
      {
        assert e in log || e == a.event;
      }
    }
  }

  // Staging it: a further request that nothing in the log answers beforehand.

  /** No event of the log mentions an identifier from `bound` on. */
  ghost predicate Unmentioned(log: Log, bound: nat) {
    forall e, n: nat :: e in log && n >= bound ==> !Mentions(e, IdAt(n))
  }

  predicate Mentions(e: Event, id: string) {
    e.request.causation == Some(id) || Field(e, "requestEventId") == Some(id)
  }

  /** A text is the identifier of at most one sequence. */
  lemma IdBound(text: Option<string>) returns (bound: nat)
    ensures forall n: nat :: n >= bound ==> text != Some(IdAt(n))
  {
    if m: nat :| text == Some(IdAt(m)) {
      bound := m + 1;
      forall n: nat | n >= bound
        ensures text != Some(IdAt(n))
      {
        if IdAt(n) == IdAt(m) {
          Decimal.RenderInjective(n, m);
        }
      }
    } else {
      bound := 0;
    }
  }

  lemma {:induction false} FreshBound(log: Log) returns (bound: nat)
    ensures Unmentioned(log, bound)
  {
    if log == [] {
      bound := 0;
    } else {
      var n := |log| - 1;
      var before := FreshBound(log[..n]);
      var cause := IdBound(log[n].request.causation);
      var named := IdBound(Field(log[n], "requestEventId"));
      bound := before + cause + named;
      forall e, i: nat | e in log && i >= bound
        ensures !Mentions(e, IdAt(i))
      {
        assert e in log[..n] || e == log[n];
      }
    }
  }

  lemma FreshNat(used: set<nat>) returns (n: nat)
    ensures forall x :: x in used ==> x < n
    decreases used
  {
    n := 0;
    if x :| x in used {
      var m := FreshNat(used - {x});
      n := m + x + 1;
      assert forall y :: y in used ==> y == x || y in used - {x};
    }
  }

  const FILLER := Request(ObservationReceived, Malformed, Principal(External, ""), None, None, None, None)

  function Ask(capability: string): (r: Request) {
    Request(CapabilityRequested, Doc(Obj(map["capability" := Str(capability)])), Principal(External, ""), None, None, None, None)
  }

  /** A plain event that mentions nothing and carries no key. */
  predicate Quiet(entry: Request) {
    && entry.key.None? && entry.causation.None? && (entry.kind.ObservationReceived? || entry.kind.CapabilityRequested?)
    && Field(Event("", 0, 0, entry), "requestEventId").None?
  }

  lemma QuietLog(log: Log, entry: Request, q: Event, p: string, bound: nat) returns (e: Event)
    requires Valid(log) && Quiet(entry) && AuthorizedFor(log, q.id, p) && !Finished(log, q) && Unmentioned(log, bound)
    ensures Append(log, entry, 0).log == log + [e] && e.request == entry
    ensures AuthorizedFor(log + [e], q.id, p) && !Finished(log + [e], q) && Unmentioned(log + [e], bound)
  {
    e := Append(log, entry, 0).event;
    assert Field(e, "requestEventId") == Field(Event("", 0, 0, entry), "requestEventId");
    StaysPending(log, entry, 0, q, p);
    forall x, n: nat | x in log + [e] && n >= bound
      ensures !Mentions(x, IdAt(n))
    {
      assert x in log || x == e;
    }
  }

  lemma WriteQuiet(providers: Providers, s: State, entry: Request, q: Event, p: string, bound: nat) returns (t: State, e: Event)
    requires Inv(providers, s) && Pending(s, q, p) && Unmentioned(s.log, bound) && Quiet(entry)
    ensures Enabled(providers, s, Write(entry, 0)) && t == Next(providers, s, Write(entry, 0))
    ensures t == s.(log := s.log + [e]) && e.request == entry && Inv(providers, t) && Pending(t, q, p) && Unmentioned(t.log, bound)
  {
    WriteKeeps(providers, s, entry, 0);
    e := QuietLog(s.log, entry, q, p, bound);
    t := s.(log := s.log + [e]);
  }

  lemma {:induction false} ScanningLoses(providers: Providers, s: State, r: nat, q: Event, p: string, bound: nat)
    requires Inv(providers, s) && Pending(s, q, p) && q.sequence > Cursor(s.cursors, p) && Unmentioned(s.log, bound)
    requires r in s.runners && Exposes(s, s.runners[r], q, p) && s.runners[r].position.Scanning?
    ensures CanLose(providers, s, q, p)
    decreases bound - |s.log|
  {
    if |s.log| < bound {
      var t, e := WriteQuiet(providers, s, FILLER, q, p, bound);
      ScanningLoses(providers, t, r, q, p, bound);
      LostAfter(providers, s, Write(FILLER, 0), q, p);
    } else {
      AskLoses(providers, s, r, q, p, bound);
    }
  }

  lemma AskLoses(providers: Providers, s: State, r: nat, q: Event, p: string, bound: nat)
    requires Inv(providers, s) && Pending(s, q, p) && q.sequence > Cursor(s.cursors, p) && Unmentioned(s.log, bound) && |s.log| >= bound
    requires r in s.runners && Exposes(s, s.runners[r], q, p) && s.runners[r].position.Scanning?
    ensures CanLose(providers, s, q, p)
  {
    AuthorizedIsOffered(providers, s.log, q, p);
    var entry := Ask(Field(q, "capability").value);
    var t, x := WriteQuiet(providers, s, entry, q, p, bound);
    AskIsOpen(providers, s.log, x, bound);
    AskIsOffered(providers, p, q, x);
    assert RunnerInv(s, s.runners[r]) && Exposes(t, t.runners[r], q, p) == Exposes(s, s.runners[r], q, p);
    NewGateLoses(providers, t, r, q, p, x);
    LostAfter(providers, s, Write(entry, 0), q, p);
  }

  /** A runner started now gates the further request in its turn. */
  lemma NewGateLoses(providers: Providers, s: State, r: nat, q: Event, p: string, x: Event)
    requires Inv(providers, s) && Pending(s, q, p) && Offers(providers, p, q) && q.sequence > Cursor(s.cursors, p)
    requires r in s.runners && Exposes(s, s.runners[r], q, p) && s.runners[r].position.Scanning?
    requires x in s.log && Offers(providers, p, x) && Decision(s.log, x.id).None? && !Answered(s.log, x.id)
    requires s.runners[r].position.at < x.sequence
    ensures CanLose(providers, s, q, p)
  {
    var g := FreshNat(s.runners.Keys);
    var t := With(s, g, Runner(0, map[], Idle));
    SetRunner(providers, s, g, Runner(0, map[], Idle));
    assert Exposes(t, t.runners[r], q, p) == Exposes(s, s.runners[r], q, p);
    GateLoses(providers, t, r, g, q, p, x);
    LostAfter(providers, s, Start(g), q, p);
  }

  lemma AskIsOffered(providers: Providers, p: string, q: Event, x: Event)
    requires Offers(providers, p, q) && x.request == Ask(Field(q, "capability").value)
    ensures Offers(providers, p, x)
  {
  }

  lemma AskIsOpen(providers: Providers, log: Log, x: Event, bound: nat)
    requires LogInv(providers, log) && Valid(log + [x]) && Unmentioned(log, bound) && |log| >= bound && IsRequest(x)
    ensures x.sequence == |log| + 1 && Decision(log + [x], x.id).None? && !Answered(log + [x], x.id)
  {
    AppendedLast(log, x);
    FreshUndecided(providers, log, x);
    assert (log + [x])[|log|] == x;
    assert forall e :: e in log ==> !Mentions(e, IdAt(|log| + 1));
  }

  // Exactly when a request can be lost.

  /**
    In every state of every run: some continuation loses an authorized request
    exactly if it has neither result nor attempt, and the cursor is past it
    already or a pass whose checkpoint is still the stored cursor stands beyond it.
  */
  lemma LosableIff(providers: Providers, s: State, q: Event, p: string)
    requires Reachable(providers, s) && q in s.log && AuthorizedFor(s.log, q.id, p)
    ensures CanLose(providers, s, q, p) <==> !Guarded(s, q, p)
  {
    ReachableKeeps(providers, s);
    Losable(providers, s, q, p);
  }

  lemma Losable(providers: Providers, s: State, q: Event, p: string)
    requires Inv(providers, s) && q in s.log && AuthorizedFor(s.log, q.id, p)
    ensures CanLose(providers, s, q, p) <==> !Guarded(s, q, p)
  {
    if Guarded(s, q, p) {
      GuardedIsSafe(providers, s, q, p);
    } else if q.sequence <= Cursor(s.cursors, p) {
      LostNow(providers, s, q, p);
    } else {
      ExposedLoses(providers, s, q, p);
    }
  }

  lemma GuardedIsSafe(providers: Providers, s: State, q: Event, p: string)
    requires Inv(providers, s) && Guarded(s, q, p) && q in s.log && AuthorizedFor(s.log, q.id, p)
    ensures !CanLose(providers, s, q, p)
  {
    forall t | Leads(providers, s, t)
      ensures !Lost(t, q, p)
    {
      var steps :| Execute(providers, s, steps) == Some(t);
      RunGuards(providers, s, steps, q, p);
    }
  }

  lemma ExposedLoses(providers: Providers, s: State, q: Event, p: string)
    requires Inv(providers, s) && Pending(s, q, p) && q.sequence > Cursor(s.cursors, p) && !Guarded(s, q, p)
    ensures CanLose(providers, s, q, p)
  {
    var r :| r in s.runners && Exposes(s, s.runners[r], q, p);
    assert RunnerInv(s, s.runners[r]);
    match s.runners[r].position
    case Marked(_, _) => MarkedLoses(providers, s, r, q, p);
    case Selected(_, _, _) => SelectedLoses(providers, s, r, q, p);
    case _ =>
      var bound := FreshBound(s.log);
      ScanningLoses(providers, s, r, q, p, bound);
  }

  // The step that authorizes a request.

  /** The gate takes up a request nobody has decided or answered, for a provider. */
  ghost predicate Authorizes(providers: Providers, s: State, step: Step, q: Event, p: string) {
    && step.Gate? && Enabled(providers, s, step) && step.verdict == Decide(Some(p))
    && NextRequest(s.log, s.runners[step.runner].gatedThrough) == [q]
    && Decision(s.log, q.id).None? && !Answered(s.log, q.id)
  }

  /** A scan for the provider whose checkpoint is still the stored cursor has gone past the request. */
  ghost predicate ScannedPast(s: State, q: Event, p: string) {
    exists r :: r in s.runners && s.runners[r].position.Scanning? && Exposes(s, s.runners[r], q, p)
  }

  /** What is neither decided nor answered lies ahead of everything decided, and so of every cursor. */
  lemma UndecidedAhead(providers: Providers, s: State, q: Event, e: Event)
    requires LogInv(providers, s.log) && q in s.log && IsRequest(q) && !Settled(s.log, q)
    requires e in s.log && Decision(s.log, e.id).Some?
    ensures e.sequence < q.sequence
  {
    if e.sequence == q.sequence {
      SameSequence(s.log, e, q);
    }
  }

  lemma CursorsBehind(providers: Providers, s: State, q: Event, p: string)
    requires Inv(providers, s) && q in s.log && IsRequest(q) && !Settled(s.log, q)
    ensures Cursor(s.cursors, p) < q.sequence
  {
    var c := Cursor(s.cursors, p);
    assert CursorInv(s.log, c);
    if c > 0 {
      var e :| e in s.log && e.sequence == c && Decision(s.log, e.id).Some?;
      UndecidedAhead(providers, s, q, e);
    }
  }

  /** Only scans can stand beyond a request that is not settled yet. */
  lemma OnlyScansBeyond(providers: Providers, s: State, m: Runner, q: Event, p: string)
    requires Inv(providers, s) && RunnerInv(s, m) && q in s.log && IsRequest(q) && !Settled(s.log, q) && Exposes(s, m, q, p)
    ensures m.position.Scanning?
  {
    if m.position.Selected? || m.position.Marked? {
      UndecidedAhead(providers, s, q, m.position.request);
    }
  }

  lemma AuthorizedLog(providers: Providers, s: State, step: Step, q: Event, p: string) returns (t: State)
    requires Inv(providers, s) && Authorizes(providers, s, step, q, p)
    ensures t == Next(providers, s, step) && q in s.log && IsRequest(q) && AuthorizedFor(t.log, q.id, p)
    ensures Finished(t.log, q) == Finished(s.log, q) && t.cursors == s.cursors
    ensures t == With(s.(log := t.log), step.runner, s.runners[step.runner].(gatedThrough := q.sequence))
  {
    t := Next(providers, s, step);
    var a := Append(s.log, DecisionRequest(q, Some(p)), step.now);
    NextIsRequest(s.log, s.runners[step.runner].gatedThrough);
    DecisionLands(providers, s.log, q, Some(p), step.now);
    Monotone(s.log, t.log, q, p);
    forall e | e in t.log && e !in s.log
      ensures !Projection.Answers(e, q.id) && !Admission.Attempts(e, q.id)
    {
      assert e == a.event;
    }
  }

  lemma FirstGuard(providers: Providers, s: State, step: Step, q: Event, p: string)
    requires Inv(providers, s) && Authorizes(providers, s, step, q, p)
    ensures Guarded(Next(providers, s, step), q, p) <==> Attempted(s.log, q.id) || !ScannedPast(s, q, p)
  {
    var t := AuthorizedLog(providers, s, step, q, p);
    CursorsBehind(providers, s, q, p);
    forall r | r in s.runners
      ensures Exposes(t, t.runners[r], q, p) <==> Exposes(s, s.runners[r], q, p)
      ensures Exposes(s, s.runners[r], q, p) ==> s.runners[r].position.Scanning?
    {
      if Exposes(s, s.runners[r], q, p) {
        OnlyScansBeyond(providers, s, s.runners[r], q, p);
      }
    }
  }

  /**
    The moment of authorization: some continuation loses the request exactly if
    nobody has attempted it and a scan for its provider, whose checkpoint is
    still the stored cursor, has gone past it.
  */
  lemma AuthorizationLoses(providers: Providers, s: State, step: Step, q: Event, p: string)
    requires Reachable(providers, s) && Authorizes(providers, s, step, q, p)
    ensures CanLose(providers, Next(providers, s, step), q, p) <==> !Attempted(s.log, q.id) && ScannedPast(s, q, p)
  {
    ReachableKeeps(providers, s);
    StepKeeps(providers, s, step);
    FirstGuard(providers, s, step, q, p);
    var t := AuthorizedLog(providers, s, step, q, p);
    assert q in t.log;
    Losable(providers, t, q, p);
  }

  // Whole runs.

  /** The step authorizes nothing behind a live scan that has passed it. */
  ghost predicate Undisturbed(providers: Providers, s: State, step: Step) {
    forall q, p :: Authorizes(providers, s, step, q, p) ==> Attempted(s.log, q.id) || !ScannedPast(s, q, p)
  }

  ghost predicate Calm(providers: Providers, s: State, steps: seq<Step>)
    requires Valid(s.log)
    decreases |steps|
  {
    steps != [] && Enabled(providers, s, steps[0]) ==>
      Undisturbed(providers, s, steps[0]) && Calm(providers, Next(providers, s, steps[0]), steps[1..])
  }

  ghost predicate AllGuarded(s: State) {
    forall q, p :: q in s.log && AuthorizedFor(s.log, q.id, p) ==> Guarded(s, q, p)
  }

  /** Other steps decide nothing. */
  lemma NoDecision(providers: Providers, s: State, step: Step, id: string)
    requires Inv(providers, s) && Enabled(providers, s, step) && !step.Gate?
    ensures Decision(Next(providers, s, step).log, id) == Decision(s.log, id)
  {
    match step
    case Deny(r, now) => AppendNoDecision(s.log, DenialRequest(s.runners[r].position.request), now, id);
    case Write(entry, now) => AppendNoDecision(s.log, entry, now, id);
    case Record(r, mark, now) =>
      if !mark.AlreadyAttempted? {
        AppendNoDecision(s.log, MarkRequest(s.runners[r].position.request, mark), now, id);
      }
    case _ =>
  }

  lemma AppendNoDecision(log: Log, entry: Request, now: int, id: string)
    requires Valid(log) && !entry.kind.PolicyDecision?
    ensures Decision(Append(log, entry, now).log, id) == Decision(log, id)
  {
    var a := Append(log, entry, now);
    if a.log != log {
      DecisionNew(log, a.event, id);
    }
  }

  lemma AtMostOne(providers: Providers, s: State, step: Step)
    requires Valid(s.log) && Enabled(providers, s, step)
    ensures |Next(providers, s, step).log| <= |s.log| + 1
  {
  }

  /** An event that is new is not decided. */
  lemma NewUndecided(providers: Providers, log: Log, longer: Log, q: Event)
    requires LogInv(providers, log) && LogInv(providers, longer) && log <= longer && |longer| <= |log| + 1
    requires q in longer && q !in log
    ensures Decision(longer, q.id).None?
  {
    assert longer == log + [longer[|log|]] && longer[|log|] == q;
    if q.request.kind.PolicyDecision? {
      NotDecided(providers, longer, q);
    } else {
      FreshUndecided(providers, log, q);
    }
  }

  /** Only requests are decided. */
  lemma NotDecided(providers: Providers, log: Log, q: Event)
    requires LogInv(providers, log) && q in log && !IsRequest(q)
    ensures Decision(log, q.id).None?
  {
    DecisionMember(log, q.id);
    if Decision(log, q.id).Some? {
      var d := Decision(log, q.id).value;
      assert Decides(providers, log, d);
      var x :| x in log && IsRequest(x) && d.request.causation == Some(x.id);
      IdsUnique(log, x, q);
    }
  }

  /** A request becomes authorized only by a step that authorizes it. */
  lemma FirstAuthorized(providers: Providers, s: State, step: Step, q: Event, p: string)
    requires Inv(providers, s) && Enabled(providers, s, step) && q in s.log
    requires AuthorizedFor(Next(providers, s, step).log, q.id, p) && !AuthorizedFor(s.log, q.id, p)
    ensures Authorizes(providers, s, step, q, p)
  {
    var t := Next(providers, s, step);
    if Decision(s.log, q.id).Some? {
      DecisionStable(s.log, t.log, q.id);
    }
    if !step.Gate? {
      NoDecision(providers, s, step, q.id);
    } else {
      GateAuthorizes(providers, s, step.runner, step.verdict, step.now, q, p);
    }
  }

  lemma GateAuthorizes(providers: Providers, s: State, r: nat, verdict: Verdict, now: int, q: Event, p: string)
    requires Inv(providers, s) && Enabled(providers, s, Gate(r, verdict, now)) && q in s.log && Decision(s.log, q.id).None?
    requires AuthorizedFor(Gated(s, r, verdict, now).log, q.id, p)
    ensures Authorizes(providers, s, Gate(r, verdict, now), q, p)
  {
    var t := Gated(s, r, verdict, now);
    var z := NextRequest(s.log, s.runners[r].gatedThrough)[0];
    NextIsRequest(s.log, s.runners[r].gatedThrough);
    var e := t.log[|s.log|];
    assert t.log == s.log + [e];
    DecisionNew(s.log, e, q.id);
    IdsUnique(s.log, z, q);
  }

  lemma CalmStep(providers: Providers, s: State, step: Step)
    requires Inv(providers, s) && AllGuarded(s) && Enabled(providers, s, step) && Undisturbed(providers, s, step)
    ensures AllGuarded(Next(providers, s, step))
  {
    var t := Next(providers, s, step);
    StepKeeps(providers, s, step);
    AtMostOne(providers, s, step);
    forall q, p | q in t.log && AuthorizedFor(t.log, q.id, p)
      ensures Guarded(t, q, p)
    {
      if q !in s.log {
        NewUndecided(providers, s.log, t.log, q);
      } else if AuthorizedFor(s.log, q.id, p) {
        StepGuards(providers, s, step, q, p);
      } else {
        FirstAuthorized(providers, s, step, q, p);
        FirstGuard(providers, s, step, q, p);
      }
    }
  }

  lemma {:induction false} CalmRun(providers: Providers, s: State, steps: seq<Step>)
    requires Inv(providers, s) && AllGuarded(s) && Execute(providers, s, steps).Some? && Calm(providers, s, steps)
    ensures AllGuarded(Execute(providers, s, steps).value)
    decreases |steps|
  {
    if steps != [] {
      StepKeeps(providers, s, steps[0]);
      CalmStep(providers, s, steps[0]);
      CalmRun(providers, Next(providers, s, steps[0]), steps[1..]);
    }
  }

  /** No authorized request is lost in any run that authorizes nothing behind a live scan. */
  lemma NoneLost(providers: Providers, steps: seq<Step>, q: Event, p: string)
    requires Execute(providers, START, steps).Some? && Calm(providers, START, steps)
    ensures !Lost(Execute(providers, START, steps).value, q, p)
  {
    CalmRun(providers, START, steps);
  }

  /** Gating and scanning are one host's; its workers, and anyone else, do not start scans. */
  predicate ByHost(step: Step, host: nat) {
    step.Gate? || step.BeginPass? ==> step.runner == host
  }

  ghost predicate OnlyHostScans(s: State, host: nat) {
    forall r :: r in s.runners && s.runners[r].position.Scanning? ==> r == host
  }

  lemma HostStep(providers: Providers, s: State, step: Step, host: nat)
    requires Valid(s.log) && Enabled(providers, s, step) && OnlyHostScans(s, host) && ByHost(step, host)
    ensures Undisturbed(providers, s, step) && OnlyHostScans(Next(providers, s, step), host)
  {
  }

  lemma {:induction false} HostIsCalm(providers: Providers, s: State, steps: seq<Step>, host: nat)
    requires Valid(s.log) && OnlyHostScans(s, host) && forall i :: 0 <= i < |steps| ==> ByHost(steps[i], host)
    ensures Calm(providers, s, steps)
    decreases |steps|
  {
    if steps != [] && Enabled(providers, s, steps[0]) {
      HostStep(providers, s, steps[0], host);
      HostIsCalm(providers, Next(providers, s, steps[0]), steps[1..], host);
    }
  }

  /** One host, with any number of workers in flight, crashes and restarts, loses nothing. */
  lemma OneHostLosesNothing(providers: Providers, steps: seq<Step>, host: nat, q: Event, p: string)
    requires Execute(providers, START, steps).Some? && forall i :: 0 <= i < |steps| ==> ByHost(steps[i], host)
    ensures !Lost(Execute(providers, START, steps).value, q, p)
  {
    HostIsCalm(providers, START, steps, host);
    NoneLost(providers, steps, q, p);
  }

  // Two hosts do: a run that loses the first request of a log.

  const PROVIDERS: Providers := map["p" := ["c"]]
  const FIRST := Event(IdAt(1), 1, 0, Ask("c"))

  function Scanner(position: Position): (m: Runner) {
    Runner(0, map["p" := 0], position)
  }

  /** The first host has passed the request undecided; the second is about to gate it. */
  const RACE := State([FIRST], map[], map[0 := Scanner(Scanning("p", 1)), 1 := Runner(0, map[], Idle)], [])

  lemma RaceLogEntry()
    ensures Valid([FIRST]) && Append([], Ask("c"), 0).log == [FIRST] && Offers(PROVIDERS, "p", FIRST)
  {
    assert [FIRST][0] == FIRST;
  }

  lemma OnlyPage(e: Event, want: Event -> bool)
    requires want(e)
    ensures Page([e], 0, want, 1) == [e]
  {
    assert Range([e], 0, 1, want) == [e] + Range([e], 1, 1, want) == [e];
  }

  lemma RaceLog()
    ensures Valid([FIRST]) && Append([], Ask("c"), 0).log == [FIRST] && Offers(PROVIDERS, "p", FIRST)
    ensures NextOffered(PROVIDERS, [FIRST], "p", 0) == [FIRST] && NextRequest([FIRST], 0) == [FIRST]
    ensures Decision([FIRST], FIRST.id).None? && !Finished([FIRST], FIRST)
  {
    RaceLogEntry();
    DecisionMember([FIRST], FIRST.id);
    OnlyPage(FIRST, (e: Event) => Offers(PROVIDERS, "p", e));
    OnlyPage(FIRST, (e: Event) => IsRequest(e));
  }

  lemma Reach(s: State, step: Step, t: State)
    requires Reachable(PROVIDERS, s) && Valid(s.log) && Enabled(PROVIDERS, s, step) && Next(PROVIDERS, s, step) == t
    ensures Reachable(PROVIDERS, t)
  {
    var none: seq<Step> := [];
    assert [step][1..] == none && Execute(PROVIDERS, t, none) == Some(t);
    assert Execute(PROVIDERS, s, [step]) == Some(t);
    LeadsOn(PROVIDERS, START, s, t);
  }

  function Alone(log: Log, m: Runner): (s: State) {
    State(log, map[], map[0 := m], [])
  }

  lemma RaceBegins(log: Log)
    requires Valid(log) && Reachable(PROVIDERS, State(log, map[], map[], []))
    ensures Reachable(PROVIDERS, Alone(log, Scanner(Scanning("p", 0))))
  {
    Reach(State(log, map[], map[], []), Start(0), Alone(log, Runner(0, map[], Idle)));
    Reach(Alone(log, Runner(0, map[], Idle)), Install(0, "p"), Alone(log, Scanner(Idle)));
    Reach(Alone(log, Scanner(Idle)), BeginPass(0, "p"), Alone(log, Scanner(Scanning("p", 0))));
  }

  lemma RacePasses(log: Log, q: Event)
    requires Valid(log) && Reachable(PROVIDERS, Alone(log, Scanner(Scanning("p", 0))))
    requires NextOffered(PROVIDERS, log, "p", 0) == [q] && Decision(log, q.id).None?
    ensures Reachable(PROVIDERS, Alone(log, Scanner(Scanning("p", q.sequence))))
  {
    Reach(Alone(log, Scanner(Scanning("p", 0))), Examine(0), Alone(log, Scanner(Scanning("p", q.sequence))));
  }

  lemma RaceReached()
    ensures Reachable(PROVIDERS, RACE)
  {
    RaceLog();
    var none: seq<Step> := [];
    assert Execute(PROVIDERS, START, none) == Some(START);
    Reach(START, Write(Ask("c"), 0), State([FIRST], map[], map[], []));
    RaceBegins([FIRST]);
    RacePasses([FIRST], FIRST);
    Reach(Alone([FIRST], Scanner(Scanning("p", 1))), Start(1), RACE);
  }

  /** Two hosts can lose an authorized request. */
  lemma TwoHostsLose()
    ensures exists s :: Reachable(PROVIDERS, s) && Lost(s, FIRST, "p")
  {
    RaceReached();
    RaceLog();
    var step := Gate(1, Decide(Some("p")), 0);
    assert RACE.runners[0].position.Scanning? && Exposes(RACE, RACE.runners[0], FIRST, "p");
    assert Authorizes(PROVIDERS, RACE, step, FIRST, "p");
    AuthorizationLoses(PROVIDERS, RACE, step, FIRST, "p");
    LostAfter(PROVIDERS, RACE, step, FIRST, "p");
    var t :| Leads(PROVIDERS, RACE, t) && Lost(t, FIRST, "p");
    LeadsOn(PROVIDERS, START, RACE, t);
  }

  lemma LeadsOn(providers: Providers, s: State, t: State, u: State)
    requires Leads(providers, s, t) && Leads(providers, t, u)
    ensures Leads(providers, s, u)
  {
    var steps :| Execute(providers, s, steps) == Some(t);
    var more :| Execute(providers, t, more) == Some(u);
    ExecuteOn(providers, s, steps, t, more);
  }

  lemma {:induction false} ExecuteOn(providers: Providers, s: State, steps: seq<Step>, t: State, more: seq<Step>)
    requires Valid(s.log) && Execute(providers, s, steps) == Some(t)
    ensures Execute(providers, s, steps + more) == Execute(providers, t, more)
    decreases |steps|
  {
    if steps == [] {
      assert steps + more == more;
    } else {
      assert (steps + more)[1..] == steps[1..] + more;
      ExecuteOn(providers, Next(providers, s, steps[0]), steps[1..], t, more);
    }
  }
}
