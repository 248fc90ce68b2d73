/**
  The delivery runner: one source task owns the guest, the host hands it
  deliveries through a one-slot inbox, and both sides commit behind one gate.
*/
module Runner {
  import opened Events

  /** A batch on its way to the guest; `low` and `high` are its first and last sequence. */
  datatype Delivery = Delivery(id: nat, low: nat, high: nat)

  /** Progress of a commit through the gate. */
  datatype Passage =
    | Outside
    | Waiting(to: Option<nat>)
    | Loaded(to: Option<nat>, expected: nat)    // gate held, shared checkpoint read
    | Stored(receipt: nat)                      // gate held, store written

  /** The caller owns the instance exclusively: it delivers, skips or waits. */
  datatype Host = Free | Awaiting(id: nat) | Skipping

  datatype Reply = Reply(id: nat, outcome: Option<nat>)    // `None` is an error

  /** One cursor advance; `batch` is the delivery that committed, if any. */
  datatype Advance = Advance(from: nat, to: nat, batch: Option<Delivery>)

  datatype State = State(
    cursor: nat,                   // in the store
    shared: nat,                   // the atomic both sides read
    host: Host,
    skip: Passage,
    source: Passage,
    running: bool,                 // the source task has not ended
    inbox: Option<Delivery>,
    pending: Option<Delivery>,
    sent: nat,                     // deliveries handed over so far
    replies: seq<Reply>,
    history: seq<Advance>
  )

  datatype Step =
    | Handle(low: nat, high: nat)
    | Receive
    | Skip(checkpoint: nat)
    | SkipStep
    | Take                          // the guest's `next`
    | Commit(to: Option<nat>)       // the guest's `commit`, with its claimed checkpoint
    | CommitStep
    | Reject
    | End                           // trap, or exit after stop

  predicate Holds(p: Passage) {
    p.Loaded? || p.Stored?
  }

  /** What `run_commit` demands before it waits for the gate. */
  predicate ValidClaim(s: State, to: Option<nat>) {
    if s.pending.Some? then to.Some? && s.pending.value.low <= to.value <= s.pending.value.high else to.None?
  }

  predicate Answered(s: State, id: nat) {
    exists i :: 0 <= i < |s.replies| && s.replies[i].id == id
  }

  predicate Enabled(s: State, step: Step) {
    match step
    case Handle(low, high) => s.host.Free? && s.inbox.None? && s.shared < low <= high
    case Receive => s.host.Awaiting? && Answered(s, s.host.id)
    case Skip(_) => s.host.Free?
    case SkipStep => s.skip.Stored? || s.skip.Loaded? || (s.skip.Waiting? && !Holds(s.source))
    case Take => s.running && s.source.Outside? && s.pending.None? && s.inbox.Some?
    case Commit(to) => s.running && s.source.Outside? && ValidClaim(s, to)
    case CommitStep => s.running && (Holds(s.source) || (s.source.Waiting? && !Holds(s.skip)))
    case Reject => s.running && s.source.Outside? && s.pending.Some?
    case End => s.running && !Holds(s.source)
  }

  /** The store's compare-and-set on the cursor. */
  function Cas(cursor: nat, expected: nat, to: Option<nat>): (r: Option<nat>) {
    if cursor != expected then None
    else if to.None? then Some(cursor)
    else if to.value < expected then None
    else Some(to.value)
  }

  function Advanced(s: State, to: nat, batch: Option<Delivery>): (t: State) {
    s.(cursor := to, history := s.history + [Advance(s.cursor, to, batch)])
  }

  function SkipNext(s: State): (t: State)
    requires !s.skip.Outside?
  {
    match s.skip
    case Waiting(to) => s.(skip := Loaded(to, s.shared))
    case Loaded(to, expected) =>
      var r := Cas(s.cursor, expected, to);
      if r.Some? then Advanced(s, r.value, None).(skip := Stored(r.value)) else s.(skip := Outside, host := Free)
    case Stored(receipt) => s.(shared := receipt, skip := Outside, host := Free)
  }

  function CommitNext(s: State): (t: State)
    requires !s.source.Outside?
  {
    match s.source
    case Waiting(to) => s.(source := Loaded(to, s.shared))
    case Loaded(to, expected) =>
      var r := Cas(s.cursor, expected, to);
      if r.None? then s.(source := Outside)
      else if to.Some? then Advanced(s, r.value, s.pending).(source := Stored(r.value))
      else s.(source := Stored(r.value))
    case Stored(receipt) =>
      var t := s.(shared := receipt, source := Outside);
      if s.pending.Some? then t.(pending := None, replies := s.replies + [Reply(s.pending.value.id, Some(receipt))]) else t
  }

  function Next(s: State, step: Step): (t: State)
    requires Enabled(s, step)
  {
    match step
    case Handle(low, high) => s.(host := Awaiting(s.sent), inbox := Some(Delivery(s.sent, low, high)), sent := s.sent + 1)
    case Receive => s.(host := Free)
    case Skip(checkpoint) => s.(host := Skipping, skip := Waiting(Some(checkpoint)))
    case SkipStep => SkipNext(s)
    case Take => s.(pending := s.inbox, inbox := None)
    case Commit(to) => s.(source := Waiting(to))
    case CommitStep => CommitNext(s)
    case Reject => s.(pending := None, replies := s.replies + [Reply(s.pending.value.id, None)])
    case End =>
      var t := s.(running := false, source := Outside);
      if s.pending.Some? then t.(pending := None, replies := s.replies + [Reply(s.pending.value.id, None)]) else t
  }

  function Init(cursor: nat): (s: State) {
    State(cursor, cursor, Free, Outside, Outside, true, None, None, 0, [], [])
  }

  // The invariant.

  ghost predicate GateInv(s: State) {
    && !(Holds(s.skip) && Holds(s.source))
    && (!Holds(s.skip) && !Holds(s.source) ==> s.shared == s.cursor)
    && HolderInv(s, s.skip) && HolderInv(s, s.source)
    && (s.skip.Outside? <==> !s.host.Skipping?)
    && (!s.skip.Outside? && !s.skip.Stored? ==> s.skip.to.Some?)
  }

  predicate HolderInv(s: State, p: Passage) {
    match p
    case Loaded(to, expected) => s.shared == expected == s.cursor
    case Stored(receipt) => s.cursor == receipt && s.shared <= receipt
    case _ => true
  }

  predicate InFlight(s: State, id: nat) {
    (s.inbox.Some? && s.inbox.value.id == id) || (s.pending.Some? && s.pending.value.id == id)
  }

  /** Its caller waits for it, and nothing of the batch has been passed. */
  predicate Awaited(s: State, d: Delivery) {
    d.id < s.sent && s.host == Awaiting(d.id) && s.shared < d.low <= d.high
  }

  ghost predicate FlightInv(s: State) {
    && !(s.inbox.Some? && s.pending.Some?)
    && (s.inbox.Some? ==> Awaited(s, s.inbox.value))
    && (s.pending.Some? ==> Awaited(s, s.pending.value))
    && SourceInv(s)
    && (!s.running ==> s.pending.None? && s.source.Outside?)
    && (s.host.Awaiting? ==> s.host.id < s.sent)
  }

  /** A commit under way claims what the pending delivery allows. */
  predicate SourceInv(s: State) {
    match s.source
    case Outside => true
    case Waiting(to) => ValidClaim(s, to)
    case Loaded(to, _) => ValidClaim(s, to)
    case Stored(receipt) => if s.pending.Some? then s.pending.value.low <= receipt <= s.pending.value.high else receipt == s.shared
  }

  ghost predicate ReplyInv(s: State) {
    && (forall i :: 0 <= i < |s.replies| ==> s.replies[i].id < s.sent && !InFlight(s, s.replies[i].id))
    && (forall i, j :: 0 <= i < j < |s.replies| ==> s.replies[i].id != s.replies[j].id)
    && (forall id :: 0 <= id < s.sent ==> InFlight(s, id) || Answered(s, id))
  }

  ghost predicate HistoryInv(s: State) {
    && (s.history != [] ==> s.history[|s.history| - 1].to == s.cursor)
    && (forall i :: 0 <= i < |s.history| ==> AdvanceInv(s.history[i]))
    && (forall i, j :: 0 <= i < j < |s.history| ==> s.history[i].to <= s.history[j].from)
  }

  /** An advance goes forward, and a delivery's advance ends inside its own batch, all of it new. */
  predicate AdvanceInv(a: Advance) {
    a.from <= a.to && (a.batch.Some? ==> a.from < a.batch.value.low <= a.to <= a.batch.value.high)
  }

  ghost predicate Inv(s: State) {
    GateInv(s) && FlightInv(s) && ReplyInv(s) && HistoryInv(s)
  }

  lemma GateKept(s: State, step: Step)
    requires GateInv(s) && FlightInv(s) && Enabled(s, step)
    ensures GateInv(Next(s, step))
  {
  }

  lemma FlightKept(s: State, step: Step)
    requires GateInv(s) && FlightInv(s) && ReplyInv(s) && Enabled(s, step)
    ensures FlightInv(Next(s, step))
  {
  }

  /** The pending delivery is answered and leaves. */
  lemma AnswerKept(s: State, t: State, outcome: Option<nat>)
    requires FlightInv(s) && ReplyInv(s) && s.pending.Some? && t.pending.None? && t.inbox == s.inbox && t.sent == s.sent
    requires t.replies == s.replies + [Reply(s.pending.value.id, outcome)]
    ensures ReplyInv(t)
  {
    forall id | 0 <= id < t.sent
      ensures InFlight(t, id) || Answered(t, id)
    {
      if Answered(s, id) {
        var i :| 0 <= i < |s.replies| && s.replies[i].id == id;
        assert t.replies[i].id == id;
      } else {
        assert t.replies[|s.replies|].id == s.pending.value.id;
      }
    }
  }

  lemma ReplyKept(s: State, step: Step)
    requires FlightInv(s) && ReplyInv(s) && Enabled(s, step)
    ensures ReplyInv(Next(s, step))
  {
    var t := Next(s, step);
    if t.replies != s.replies {
      AnswerKept(s, t, t.replies[|s.replies|].outcome);
    } else {
      assert forall id :: 0 <= id < s.sent ==> (InFlight(t, id) <==> InFlight(s, id));
      assert forall id :: 0 <= id < s.sent ==> InFlight(s, id) || Answered(s, id);
    }
  }

  lemma HistoryKept(s: State, step: Step)
    requires GateInv(s) && FlightInv(s) && HistoryInv(s) && Enabled(s, step)
    ensures HistoryInv(Next(s, step)) && s.cursor <= Next(s, step).cursor
  {
    var t := Next(s, step);
    if t.history != s.history {
      AdvanceKept(s, t, t.history[|s.history|]);
    }
  }

  lemma AdvanceKept(s: State, t: State, a: Advance)
    requires HistoryInv(s) && t.history == s.history + [a] && AdvanceInv(a) && a.from == s.cursor && a.to == t.cursor
    ensures HistoryInv(t)
  {
    forall i | 0 <= i < |s.history|
      ensures s.history[i].to <= s.cursor
    {
      assert AdvanceInv(s.history[|s.history| - 1]);
    }
  }

  /** Every step keeps the invariant, and none moves the cursor back. */
  lemma StepKeeps(s: State, step: Step)
    requires Inv(s) && Enabled(s, step)
    ensures Inv(Next(s, step)) && s.cursor <= Next(s, step).cursor
  {
    GateKept(s, step);
    FlightKept(s, step);
    ReplyKept(s, step);
    HistoryKept(s, step);
  }

  /** Where an interleaving of host and source leads, if each step is possible. */
  function Execute(s: State, steps: seq<Step>): (r: Option<State>) {
    if steps == [] then Some(s)
    else
      var before := Execute(s, steps[..|steps| - 1]);
      if before.Some? && Enabled(before.value, steps[|steps| - 1]) then Some(Next(before.value, steps[|steps| - 1])) else None
  }

  lemma {:induction false} RunKeeps(cursor: nat, steps: seq<Step>)
    requires Execute(Init(cursor), steps).Some?
    ensures Inv(Execute(Init(cursor), steps).value)
  {
    if steps != [] {
      RunKeeps(cursor, steps[..|steps| - 1]);
      StepKeeps(Execute(Init(cursor), steps[..|steps| - 1]).value, steps[|steps| - 1]);
    }
  }

  /** Whenever the gate is free the shared checkpoint is the stored cursor. */
  lemma CheckpointIsCursor(cursor: nat, steps: seq<Step>)
    requires Execute(Init(cursor), steps).Some?
    ensures var s := Execute(Init(cursor), steps).value;
            !Holds(s.skip) && !Holds(s.source) ==> s.shared == s.cursor
  {
    RunKeeps(cursor, steps);
  }

  /** Committed batches do not overlap each other, nor anything skipped. */
  lemma BatchesDisjoint(cursor: nat, steps: seq<Step>, i: nat, j: nat)
    requires Execute(Init(cursor), steps).Some?
    requires var h := Execute(Init(cursor), steps).value.history; i < j < |h| && h[j].batch.Some?
    ensures var h := Execute(Init(cursor), steps).value.history;
            h[i].to < h[j].batch.value.low && h[j].to <= h[j].batch.value.high
  {
    RunKeeps(cursor, steps);
    var h := Execute(Init(cursor), steps).value.history;
    assert AdvanceInv(h[j]);
  }

  /** A delivery gets at most one reply, and no reply while it is in flight. */
  lemma OneReply(cursor: nat, steps: seq<Step>, i: nat, j: nat)
    requires Execute(Init(cursor), steps).Some?
    requires var r := Execute(Init(cursor), steps).value.replies; i < |r| && j < |r| && r[i].id == r[j].id
    ensures i == j && !InFlight(Execute(Init(cursor), steps).value, Execute(Init(cursor), steps).value.replies[i].id)
  {
    RunKeeps(cursor, steps);
  }

  /** The store never refuses a validated commit of the guest: it meets no conflict and no regression. */
  lemma CommitGoesThrough(cursor: nat, steps: seq<Step>)
    requires Execute(Init(cursor), steps).Some? && Execute(Init(cursor), steps).value.source.Loaded?
    ensures var s := Execute(Init(cursor), steps).value;
            Cas(s.cursor, s.source.expected, s.source.to).Some?
  {
    RunKeeps(cursor, steps);
  }

  /** A delivery has been answered exactly when it has left the inbox and the guest's hands. */
  lemma AnsweredIffLanded(cursor: nat, steps: seq<Step>, id: nat)
    requires Execute(Init(cursor), steps).Some? && id < Execute(Init(cursor), steps).value.sent
    ensures var s := Execute(Init(cursor), steps).value;
            !InFlight(s, id) <==> Answered(s, id)
  {
    RunKeeps(cursor, steps);
  }

  /** A skip that holds the gate moves the cursor to its checkpoint, unless that lies behind. */
  lemma SkipMoves(cursor: nat, steps: seq<Step>)
    requires Execute(Init(cursor), steps).Some? && Execute(Init(cursor), steps).value.skip.Loaded?
    ensures var s := Execute(Init(cursor), steps).value;
            Enabled(s, SkipStep) && s.skip.to.Some? && Next(s, SkipStep).cursor == Max(s.cursor, s.skip.to.value)
  {
    RunKeeps(cursor, steps);
  }

  function Max(a: nat, b: nat): (m: nat) {
    if a < b then b else a
  }

  // What a reply says.

  predicate Lands(a: Advance, id: nat, to: nat) {
    a.batch.Some? && a.batch.value.id == id && a.to == to
  }

  /** The history holds the delivery's own advance to `to`. */
  ghost predicate Landed(s: State, id: nat, to: nat) {
    exists k :: 0 <= k < |s.history| && Lands(s.history[k], id, to)
  }

  ghost predicate Says(s: State, id: nat, to: nat) {
    exists i :: 0 <= i < |s.replies| && s.replies[i] == Reply(id, Some(to))
  }

  /** A reply with a checkpoint has its advance; an advance has its reply, or the commit is just about to send it. */
  ghost predicate OutcomeInv(s: State) {
    && (forall id, to :: Says(s, id, to) ==> Landed(s, id, to))
    && (forall id, to :: Landed(s, id, to) ==>
          Says(s, id, to) || (s.pending.Some? && s.pending.value.id == id && s.source == Stored(to)))
    && (s.source.Stored? && s.pending.Some? ==> Landed(s, s.pending.value.id, s.source.receipt))
  }

  lemma HistoryExtends(s: State, t: State, a: Advance, id: nat, to: nat)
    requires t.history == s.history + [a]
    ensures Landed(t, id, to) <==> Landed(s, id, to) || Lands(a, id, to)
  {
    assert t.history[|s.history|] == a;
    if k :| 0 <= k < |s.history| && Lands(s.history[k], id, to) {
      assert t.history[k] == s.history[k];
    }
  }

  lemma RepliesExtend(s: State, t: State, reply: Reply, id: nat, to: nat)
    requires t.replies == s.replies + [reply]
    ensures Says(t, id, to) <==> Says(s, id, to) || reply == Reply(id, Some(to))
  {
    assert t.replies[|s.replies|] == reply;
    if i :| 0 <= i < |s.replies| && s.replies[i] == Reply(id, Some(to)) {
      assert t.replies[i] == s.replies[i];
    }
  }

  lemma OutcomeStays(s: State, t: State)
    requires OutcomeInv(s) && t.history == s.history && t.replies == s.replies
    requires t.source.Stored? && t.pending.Some? ==> t.source == s.source && t.pending == s.pending
    requires s.source.Stored? && s.pending.Some? ==> t.source == s.source && t.pending == s.pending
    ensures OutcomeInv(t)
  {
    assert forall id, to :: Says(t, id, to) <==> Says(s, id, to);
    assert forall id, to :: Landed(t, id, to) <==> Landed(s, id, to);
  }

  /** An error reply, while no stored commit is waiting to be answered. */
  lemma OutcomeFails(s: State, t: State)
    requires OutcomeInv(s) && !(s.source.Stored? && s.pending.Some?) && t.history == s.history && t.pending.None?
    requires exists id :: t.replies == s.replies + [Reply(id, None)]
    ensures OutcomeInv(t)
  {
    var error :| t.replies == s.replies + [Reply(error, None)];
    forall id, to
      ensures (Says(t, id, to) <==> Says(s, id, to)) && (Landed(t, id, to) <==> Landed(s, id, to))
    {
      RepliesExtend(s, t, Reply(error, None), id, to);
    }
  }

  lemma OutcomeStored(s: State, t: State, to: nat)
    requires OutcomeInv(s) && !s.source.Stored? && t.replies == s.replies && t.pending == s.pending && t.source == Stored(to)
    requires s.pending.Some? && t.history == s.history + [Advance(s.cursor, to, s.pending)]
    ensures OutcomeInv(t)
  {
    forall id, at
      ensures Says(t, id, at) <==> Says(s, id, at)
      ensures Landed(t, id, at) <==> Landed(s, id, at) || (s.pending.value.id == id && to == at)
    {
      HistoryExtends(s, t, Advance(s.cursor, to, s.pending), id, at);
    }
  }

  lemma OutcomeSkipped(s: State, t: State, to: nat)
    requires OutcomeInv(s) && t.replies == s.replies && t.pending == s.pending && t.source == s.source
    requires t.history == s.history + [Advance(s.cursor, to, None)]
    ensures OutcomeInv(t)
  {
    forall id, at
      ensures (Says(t, id, at) <==> Says(s, id, at)) && (Landed(t, id, at) <==> Landed(s, id, at))
    {
      HistoryExtends(s, t, Advance(s.cursor, to, None), id, at);
    }
  }

  lemma OutcomeSent(s: State, t: State)
    requires OutcomeInv(s) && s.source.Stored? && s.pending.Some? && t.history == s.history && t.pending.None?
    requires t.replies == s.replies + [Reply(s.pending.value.id, Some(s.source.receipt))]
    ensures OutcomeInv(t)
  {
    forall id, to
      ensures Says(t, id, to) <==> Says(s, id, to) || (id == s.pending.value.id && to == s.source.receipt)
      ensures Landed(t, id, to) <==> Landed(s, id, to)
    {
      RepliesExtend(s, t, Reply(s.pending.value.id, Some(s.source.receipt)), id, to);
    }
  }

  lemma CommitOutcome(s: State)
    requires GateInv(s) && FlightInv(s) && OutcomeInv(s) && Enabled(s, CommitStep)
    ensures OutcomeInv(CommitNext(s))
  {
    var t := CommitNext(s);
    if s.source.Loaded? && t.history != s.history {
      OutcomeStored(s, t, t.cursor);
    } else if s.source.Stored? && s.pending.Some? {
      OutcomeSent(s, t);
    } else {
      OutcomeStays(s, t);
    }
  }

  lemma OutcomeKept(s: State, step: Step)
    requires Inv(s) && OutcomeInv(s) && Enabled(s, step)
    ensures OutcomeInv(Next(s, step))
  {
    var t := Next(s, step);
    if step.CommitStep? {
      CommitOutcome(s);
    } else if step.SkipStep? && t.history != s.history {
      OutcomeSkipped(s, t, t.cursor);
    } else if t.replies != s.replies {
      assert t.replies == s.replies + [Reply(s.pending.value.id, None)];
      OutcomeFails(s, t);
    } else {
      OutcomeStays(s, t);
    }
  }

  lemma {:induction false} OutcomesKept(cursor: nat, steps: seq<Step>)
    requires Execute(Init(cursor), steps).Some?
    ensures OutcomeInv(Execute(Init(cursor), steps).value)
  {
    if steps != [] {
      var n := |steps| - 1;
      OutcomesKept(cursor, steps[..n]);
      RunKeeps(cursor, steps[..n]);
      OutcomeKept(Execute(Init(cursor), steps[..n]).value, steps[n]);
    }
  }

  /** A reply carries a checkpoint exactly when the store advanced to it for that delivery; any other reply is an error. */
  lemma ReplyMeans(cursor: nat, steps: seq<Step>, i: nat, to: nat)
    requires Execute(Init(cursor), steps).Some? && i < |Execute(Init(cursor), steps).value.replies|
    ensures var s := Execute(Init(cursor), steps).value;
            s.replies[i].outcome == Some(to) <==>
              exists k :: 0 <= k < |s.history| && s.history[k].batch.Some? && s.history[k].batch.value.id == s.replies[i].id && s.history[k].to == to
  {
    var s := Execute(Init(cursor), steps).value;
    RunKeeps(cursor, steps);
    OutcomesKept(cursor, steps);
    var id := s.replies[i].id;
    if s.replies[i].outcome == Some(to) {
      assert Says(s, id, to);
    }
    if k :| 0 <= k < |s.history| && s.history[k].batch.Some? && s.history[k].batch.value.id == id && s.history[k].to == to {
      assert Lands(s.history[k], id, to) && Landed(s, id, to);
      assert !InFlight(s, id);
      var j :| 0 <= j < |s.replies| && s.replies[j] == Reply(id, Some(to));
    }
  }

  ghost predicate Stuck(s: State) {
    forall step :: !Enabled(s, step)
  }

  /**
    When a caller can wait forever: exactly when the source task ended before
    taking the delivery out of its inbox. Otherwise something can happen.
  */
  lemma StuckIff(cursor: nat, steps: seq<Step>)
    requires Execute(Init(cursor), steps).Some?
    ensures var s := Execute(Init(cursor), steps).value;
            Stuck(s) <==> !s.running && s.inbox.Some?
  {
    RunKeeps(cursor, steps);
    var s := Execute(Init(cursor), steps).value;
    if !(!s.running && s.inbox.Some?) {
      var step := CanStep(s);
    }
  }

  lemma CanStep(s: State) returns (step: Step)
    requires Inv(s) && !(!s.running && s.inbox.Some?)
    ensures Enabled(s, step)
  {
    if s.running {
      if s.source.Outside? {
        step := if s.pending.Some? then Reject else Commit(None);
      } else {
        step := if s.source.Waiting? && Holds(s.skip) then SkipStep else CommitStep;
      }
    } else if s.host.Free? {
      step := Handle(s.shared + 1, s.shared + 1);
    } else if s.host.Awaiting? {
      step := Receive;
      assert InFlight(s, s.host.id) || Answered(s, s.host.id);
    } else {
      step := SkipStep;
    }
  }

  /** Handing a batch to a source task that has already ended leaves its caller waiting. */
  lemma HandleAfterEnd(cursor: nat)
    ensures var s := Execute(Init(cursor), [End, Handle(cursor + 1, cursor + 1)]);
            s.Some? && s.value.host == Awaiting(0) && !Answered(s.value, 0) && Stuck(s.value)
  {
    var steps := [End, Handle(cursor + 1, cursor + 1)];
    assert steps[..1] == [End] && [End][..0] == [];
    assert Execute(Init(cursor), [End]) == Some(Next(Init(cursor), End));
    StuckIff(cursor, steps);
  }
}
