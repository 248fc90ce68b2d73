/**
  An instance through its whole life: rebuilt, active, stopped, rebuilt again.
  While it is active its handlers emit mutation events together with the state
  they stand for, so the next rebuild replays events the state already holds.
*/
module Lifecycle {
  import opened Events
  import opened Rebuild

  /** A replay whose effect does not depend on where batches are cut. */
  ghost predicate Incremental(replay: Replay) {
    && (forall s :: replay(s, []) == Some(s))
    && (forall s, a, b :: Joined(replay, s, a, b))
  }

  ghost predicate Joined(replay: Replay, s: Projected, a: seq<Event>, b: seq<Event>) {
    replay(s, a + b) == if replay(s, a).None? then None else replay(replay(s, a).value, b)
  }

  /** For such a replay, any way of cutting the batches is one replay. */
  lemma {:induction false} BatchesDoNotMatter(replay: Replay, from: Projected, batches: seq<seq<Event>>)
    requires Incremental(replay)
    ensures ReplayAll(replay, from, batches) == replay(from, Concat(batches))
  {
    if batches != [] {
      var n := |batches| - 1;
      BatchesDoNotMatter(replay, from, batches[..n]);
      assert Joined(replay, from, Concat(batches[..n]), batches[n]);
    }
  }

  datatype Life = Life(
    log: Log,
    marker: nat,
    projected: Projected,
    active: bool,
    replayed: seq<Event>     // what rebuilds have replayed and committed, ever
  )

  datatype Step =
    | Page(end: nat)                 // one committed page of a rebuild, however it was cut
    | Activate
    | Act(emitted: seq<Event>)       // a handler emits its own events and changes its state in one commit
    | Redeliver(low: nat, high: nat) // its own events come back to it, as to any subscriber
    | Others(written: seq<Event>)
    | Halt                           // a stop or a crash

  type Own = Event -> bool

  function Rest(l: Life, own: Own): (events: seq<Event>)
    requires l.marker <= |l.log|
  {
    Range(l.log, l.marker, |l.log|, own)
  }

  /** The projection of a replay from zero. */
  function Zero(replay: Replay, log: Log, own: Own): (s: Option<Projected>) {
    replay(map[], Select(log, own))
  }

  ghost predicate Enabled(replay: Replay, own: Own, l: Life, step: Step) {
    match step
    case Page(end) =>
      !l.active && l.marker <= end <= |l.log| && replay(l.projected, Range(l.log, l.marker, end, own)).Some?
    case Activate => !l.active && l.marker <= |l.log| && Rest(l, own) == []
    case Act(emitted) =>
      l.active && (forall i :: 0 <= i < |emitted| ==> own(emitted[i])) && replay(l.projected, emitted).Some?
    case Redeliver(low, high) =>
      l.active && low <= high <= |l.log| && replay(l.projected, Range(l.log, low, high, own)).Some?
    case Others(written) => forall i :: 0 <= i < |written| ==> !own(written[i])
    case Halt => l.active
  }

  function Next(replay: Replay, own: Own, l: Life, step: Step): (m: Life)
    requires l.marker <= |l.log|
    ensures m.marker <= |m.log|
  {
    match step
    case Page(end) =>
      if end < l.marker || end > |l.log| || replay(l.projected, Range(l.log, l.marker, end, own)).None? then l
      else
        var batch := Range(l.log, l.marker, end, own);
        Life(l.log, end, replay(l.projected, batch).value, false, l.replayed + batch)
    case Activate => l.(active := true)
    case Act(emitted) =>
      if replay(l.projected, emitted).None? then l
      else l.(log := l.log + emitted, projected := replay(l.projected, emitted).value)
    case Redeliver(low, high) =>
      if low > high || high > |l.log| || replay(l.projected, Range(l.log, low, high, own)).None? then l
      else l.(projected := replay(l.projected, Range(l.log, low, high, own)).value)
    case Others(written) => l.(log := l.log + written)
    case Halt => l.(active := false)
  }

  /** A new namespace over whatever the log holds. */
  function Fresh(log: Log): (l: Life) {
    Life(log, 0, map[], false, [])
  }

  ghost function Execute(replay: Replay, own: Own, l: Life, steps: seq<Step>): (m: Option<Life>)
    requires l.marker <= |l.log|
    ensures m.Some? ==> m.value.marker <= |m.value.log|
    decreases |steps|
  {
    if steps == [] then Some(l)
    else if Enabled(replay, own, l, steps[0]) then Execute(replay, own, Next(replay, own, l, steps[0]), steps[1..])
    else None
  }

  ghost predicate Reachable(replay: Replay, own: Own, l: Life) {
    exists log, steps :: Execute(replay, own, Fresh(log), steps) == Some(l)
  }

  /** An active projection is that of a replay from zero; a stopped one becomes it by finishing the rebuild. */
  ghost predicate Stands(replay: Replay, own: Own, l: Life) {
    && l.marker <= |l.log|
    && if l.active then Some(l.projected) == Zero(replay, l.log, own)
       else replay(l.projected, Rest(l, own)) == Zero(replay, l.log, own)
  }

  /** Replaying again the last events a reached projection holds changes nothing. */
  ghost predicate Absorbs(replay: Replay, before: seq<Event>, again: seq<Event>) {
    var s := replay(map[], before + again);
    s.Some? ==> replay(s.value, again) == s
  }

  /** Nor does replaying any stretch of them, if it goes through. */
  ghost predicate AbsorbsAny(replay: Replay, before: seq<Event>, again: seq<Event>, after: seq<Event>) {
    var s := replay(map[], before + again + after);
    s.Some? && replay(s.value, again).Some? ==> replay(s.value, again) == s
  }

  ghost predicate AllOwn(own: Own, events: seq<Event>) {
    forall i :: 0 <= i < |events| ==> own(events[i])
  }

  ghost predicate Absorbing(replay: Replay, own: Own) {
    && (forall before, again :: AllOwn(own, before) && AllOwn(own, again) ==> Absorbs(replay, before, again))
    && (forall before, again, after :: AllOwn(own, before) && AllOwn(own, again) && AllOwn(own, after) ==>
          AbsorbsAny(replay, before, again, after))
  }

  // What every step keeps.

  /** Own events up to the marker have been replayed once each, in order, over all rebuilds. */
  ghost predicate ReplayedOnce(own: Own, l: Life) {
    l.marker <= |l.log| && l.replayed == Range(l.log, 0, l.marker, own)
  }

  lemma StepReplaysOnce(replay: Replay, own: Own, l: Life, step: Step)
    requires ReplayedOnce(own, l) && Enabled(replay, own, l, step)
    ensures ReplayedOnce(own, Next(replay, own, l, step))
  {
    var m := Next(replay, own, l, step);
    if step.Page? {
      RangeSplit(l.log, 0, l.marker, step.end, own);
    } else {
      assert l.log[..l.marker] == m.log[..l.marker];
      RangeStable(l.log, m.log, 0, l.marker, own);
    }
  }

  /** What a stopped instance's projection is made of: the state it stopped with, and the pages since. */
  ghost predicate Stopped(replay: Replay, own: Own, l: Life, base: Projected, from: nat) {
    && from <= l.marker <= |l.log| && replay(base, Range(l.log, from, l.marker, own)) == Some(l.projected)
    && ((base == map[] && from == 0) || Some(base) == Zero(replay, l.log, own))
  }

  ghost predicate Kept(replay: Replay, own: Own, l: Life) {
    if l.active then l.marker <= |l.log| && Some(l.projected) == Zero(replay, l.log, own)
    else exists base, from: nat :: Stopped(replay, own, l, base, from)
  }

  lemma RangeIsOwn(log: Log, lo: nat, hi: nat, own: Own)
    requires lo <= hi <= |log|
    ensures AllOwn(own, Range(log, lo, hi, own))
  {
    var events := Range(log, lo, hi, own);
    forall i | 0 <= i < |events|
      ensures own(events[i])
    {
      RangeMember(log, lo, hi, own, events[i]);
    }
  }

  /** With an absorbing replay, finishing any rebuild restores the projection. */
  lemma StoppedRestores(replay: Replay, own: Own, l: Life, base: Projected, from: nat)
    requires Incremental(replay) && Absorbing(replay, own) && Stopped(replay, own, l, base, from) && !l.active
    ensures Stands(replay, own, l)
  {
    var before, pages, rest := Range(l.log, 0, from, own), Range(l.log, from, l.marker, own), Rest(l, own);
    RangeSplit(l.log, from, l.marker, |l.log|, own);
    RangeSplit(l.log, 0, from, |l.log|, own);
    assert Joined(replay, base, pages, rest);
    if Some(base) == Zero(replay, l.log, own) {
      RangeIsOwn(l.log, 0, from, own);
      RangeIsOwn(l.log, from, |l.log|, own);
      assert Absorbs(replay, before, pages + rest);
    } else {
      assert before == [] && before + (pages + rest) == pages + rest;
    }
  }

  lemma PageKeeps(replay: Replay, own: Own, l: Life, end: nat)
    requires Incremental(replay) && !l.active && Kept(replay, own, l) && l.marker <= |l.log| && Enabled(replay, own, l, Page(end))
    ensures Kept(replay, own, Next(replay, own, l, Page(end)))
  {
    var base, from: nat :| Stopped(replay, own, l, base, from);
    var m := Next(replay, own, l, Page(end));
    RangeSplit(l.log, from, l.marker, end, own);
    assert Joined(replay, base, Range(l.log, from, l.marker, own), Range(l.log, l.marker, end, own));
    assert Stopped(replay, own, m, base, from);
  }

  lemma ActKeeps(replay: Replay, own: Own, l: Life, emitted: seq<Event>)
    requires Incremental(replay) && l.active && Kept(replay, own, l) && Enabled(replay, own, l, Act(emitted))
    ensures Kept(replay, own, Next(replay, own, l, Act(emitted)))
  {
    SelectJoins(l.log, emitted, own);
    SelectAll(emitted, own);
    assert Joined(replay, map[], Select(l.log, own), emitted);
  }

  lemma RedeliverKeeps(replay: Replay, own: Own, l: Life, low: nat, high: nat)
    requires Absorbing(replay, own) && l.active && Kept(replay, own, l) && Enabled(replay, own, l, Redeliver(low, high))
    ensures Next(replay, own, l, Redeliver(low, high)) == l
  {
    var before, again, after := Range(l.log, 0, low, own), Range(l.log, low, high, own), Range(l.log, high, |l.log|, own);
    RangeSplit(l.log, 0, low, high, own);
    RangeSplit(l.log, 0, high, |l.log|, own);
    RangeIsOwn(l.log, 0, low, own);
    RangeIsOwn(l.log, low, high, own);
    RangeIsOwn(l.log, high, |l.log|, own);
    assert AbsorbsAny(replay, before, again, after);
  }

  lemma SelectJoins(a: seq<Event>, b: seq<Event>, own: Own)
    ensures Select(a + b, own) == Select(a, own) + Select(b, own)
  {
    RangeSplit(a + b, 0, |a|, |a + b|, own);
    assert (a + b)[..|a|] == a == a[..|a|];
    RangeStable(a, a + b, 0, |a|, own);
    RangeTail(a, b, 0, own);
  }

  lemma {:induction false} RangeTail(a: seq<Event>, b: seq<Event>, lo: nat, own: Own)
    requires lo <= |b|
    ensures Range(a + b, |a| + lo, |a + b|, own) == Range(b, lo, |b|, own)
    decreases |b| - lo
  {
    if lo < |b| {
      assert (a + b)[|a| + lo] == b[lo];
      RangeTail(a, b, lo + 1, own);
    }
  }

  lemma SelectAll(events: seq<Event>, own: Own)
    requires AllOwn(own, events)
    ensures Select(events, own) == events
  {
    AllFrom(events, 0, own);
  }

  lemma {:induction false} AllFrom(events: seq<Event>, lo: nat, own: Own)
    requires AllOwn(own, events) && lo <= |events|
    ensures Range(events, lo, |events|, own) == events[lo..]
    decreases |events| - lo
  {
    if lo < |events| {
      AllFrom(events, lo + 1, own);
    }
  }

  lemma NoneOwn(events: seq<Event>, own: Own)
    requires forall i :: 0 <= i < |events| ==> !own(events[i])
    ensures Select(events, own) == []
  {
    var found := Select(events, own);
    if found != [] {
      RangeMember(events, 0, |events|, own, found[0]);
    }
  }

  lemma OthersKeep(replay: Replay, own: Own, l: Life, written: seq<Event>)
    requires Kept(replay, own, l) && l.marker <= |l.log| && Enabled(replay, own, l, Others(written))
    ensures Kept(replay, own, Next(replay, own, l, Others(written)))
  {
    var m := Next(replay, own, l, Others(written));
    SelectJoins(l.log, written, own);
    NoneOwn(written, own);
    assert Select(l.log, own) + [] == Select(l.log, own);
    if !l.active {
      var base, from: nat :| Stopped(replay, own, l, base, from);
      assert l.log[..l.marker] == m.log[..l.marker];
      RangeStable(l.log, m.log, from, l.marker, own);
      assert Stopped(replay, own, m, base, from);
    }
  }

  lemma StepKeeps(replay: Replay, own: Own, l: Life, step: Step)
    requires Incremental(replay) && Absorbing(replay, own) && Kept(replay, own, l) && l.marker <= |l.log| && Enabled(replay, own, l, step)
    ensures Kept(replay, own, Next(replay, own, l, step))
  {
    match step
    case Page(end) => PageKeeps(replay, own, l, end);
    case Activate =>
      var base, from: nat :| Stopped(replay, own, l, base, from);
      StoppedRestores(replay, own, l, base, from);
    case Act(emitted) => ActKeeps(replay, own, l, emitted);
    case Redeliver(low, high) => RedeliverKeeps(replay, own, l, low, high);
    case Others(written) => OthersKeep(replay, own, l, written);
    case Halt =>
      assert Range(l.log, l.marker, l.marker, own) == [];
      assert Stopped(replay, own, Next(replay, own, l, step), l.projected, l.marker);
  }

  lemma {:induction false} RunKeeps(replay: Replay, own: Own, l: Life, steps: seq<Step>)
    requires Incremental(replay) && Absorbing(replay, own) && Kept(replay, own, l) && l.marker <= |l.log|
    requires Execute(replay, own, l, steps).Some?
    ensures Kept(replay, own, Execute(replay, own, l, steps).value)
    decreases |steps|
  {
    if steps != [] {
      StepKeeps(replay, own, l, steps[0]);
      RunKeeps(replay, own, Next(replay, own, l, steps[0]), steps[1..]);
    }
  }

  lemma {:induction false} RunReplaysOnce(replay: Replay, own: Own, l: Life, steps: seq<Step>)
    requires ReplayedOnce(own, l) && Execute(replay, own, l, steps).Some?
    ensures ReplayedOnce(own, Execute(replay, own, l, steps).value)
    decreases |steps|
  {
    if steps != [] {
      StepReplaysOnce(replay, own, l, steps[0]);
      RunReplaysOnce(replay, own, Next(replay, own, l, steps[0]), steps[1..]);
    }
  }

  /** Over every life, the rebuilds together have replayed exactly the own events up to the marker, in order. */
  lemma RebuildsConcatenate(replay: Replay, own: Own, log: Log, steps: seq<Step>)
    requires Execute(replay, own, Fresh(log), steps).Some?
    ensures var l := Execute(replay, own, Fresh(log), steps).value;
            l.replayed == Range(l.log, 0, l.marker, own)
  {
    RunReplaysOnce(replay, own, Fresh(log), steps);
  }

  /** The life that tells: a rebuild up to `before`, then `again` emitted while active, then a stop. */
  lemma Witness(replay: Replay, own: Own, before: seq<Event>, again: seq<Event>) returns (l: Life)
    requires Incremental(replay) && AllOwn(own, before) && AllOwn(own, again) && replay(map[], before + again).Some?
    ensures Reachable(replay, own, l) && !l.active && l.marker <= |l.log|
    ensures Rest(l, own) == again && Some(l.projected) == Zero(replay, l.log, own) == replay(map[], before + again)
  {
    assert Joined(replay, map[], before, again);
    SelectAll(before, own);
    SelectAll(again, own);
    SelectJoins(before, again, own);
    RangeTail(before, again, 0, own);
    var a := Fresh(before);
    var b := Life(before, |before|, replay(map[], before).value, false, [] + before);
    var c := b.(active := true);
    var d := c.(log := before + again, projected := replay(map[], before + again).value);
    l := d.(active := false);
    Runs(replay, own, c, Act(again), d, [Halt], l);
    Runs(replay, own, b, Activate, c, [Act(again), Halt], l);
    Runs(replay, own, a, Page(|before|), b, [Activate, Act(again), Halt], l);
  }

  lemma Runs(replay: Replay, own: Own, l: Life, step: Step, m: Life, more: seq<Step>, end: Life)
    requires l.marker <= |l.log| && Enabled(replay, own, l, step) && Next(replay, own, l, step) == m
    requires Execute(replay, own, m, more) == Some(end) || (more == [Halt] && m.active && end == m.(active := false))
    ensures Execute(replay, own, l, [step] + more) == Some(end)
  {
    assert ([step] + more)[1..] == more;
    if more == [Halt] && m.active && end == m.(active := false) {
      var none: seq<Step> := [];
      assert more[1..] == none && Execute(replay, own, end, none) == Some(end);
    }
  }

  /** The other life that tells: everything rebuilt, then one stretch delivered again. */
  lemma AnyWitness(replay: Replay, own: Own, before: seq<Event>, again: seq<Event>, after: seq<Event>) returns (l: Life)
    requires Incremental(replay) && AllOwn(own, before) && AllOwn(own, again) && AllOwn(own, after)
    requires !AbsorbsAny(replay, before, again, after)
    ensures Reachable(replay, own, l) && !Stands(replay, own, l)
  {
    var log := before + again + after;
    var s := replay(map[], log).value;
    SelectAll(log, own);
    Middle(before, again, after, own);
    var low, high := |before|, |before| + |again|;
    var a := Fresh(log);
    var b := Life(log, |log|, s, false, [] + log);
    var c := b.(active := true);
    l := c.(projected := replay(s, again).value);
    var none: seq<Step> := [];
    assert Execute(replay, own, l, none) == Some(l);
    Runs(replay, own, c, Redeliver(low, high), l, none, l);
    Runs(replay, own, b, Activate, c, [Redeliver(low, high)], l);
    Runs(replay, own, a, Page(|log|), b, [Activate, Redeliver(low, high)], l);
  }

  lemma Middle(before: seq<Event>, again: seq<Event>, after: seq<Event>, own: Own)
    requires AllOwn(own, again)
    ensures Range(before + again + after, |before|, |before| + |again|, own) == again
  {
    var log, cut := before + again + after, before + again;
    assert log[..|cut|] == cut == cut[..|cut|];
    RangeStable(cut, log, |before|, |cut|, own);
    RangeTail(before, again, 0, own);
    SelectAll(again, own);
  }

  /**
    Exactly when rebuilds and active phases never lose or double anything, in
    every state of every life: when replaying again the last events a reached
    projection holds, or any stretch of them that replays at all, changes nothing.
  */
  lemma StandsIffAbsorbing(replay: Replay, own: Own)
    requires Incremental(replay)
    ensures (forall l :: Reachable(replay, own, l) ==> Stands(replay, own, l)) <==> Absorbing(replay, own)
  {
    if Absorbing(replay, own) {
      forall l | Reachable(replay, own, l)
        ensures Stands(replay, own, l)
      {
        var log, steps :| Execute(replay, own, Fresh(log), steps) == Some(l);
        FreshKept(replay, own, log);
        RunKeeps(replay, own, Fresh(log), steps);
        if !l.active {
          var base, from: nat :| Stopped(replay, own, l, base, from);
          StoppedRestores(replay, own, l, base, from);
        }
      }
    } else if before, again :| AllOwn(own, before) && AllOwn(own, again) && !Absorbs(replay, before, again) {
      var l := Witness(replay, own, before, again);
      assert !Stands(replay, own, l);
    } else {
      var before, again, after :| AllOwn(own, before) && AllOwn(own, again) && AllOwn(own, after) && !AbsorbsAny(replay, before, again, after);
      var l := AnyWitness(replay, own, before, again, after);
    }
  }

  lemma FreshKept(replay: Replay, own: Own, log: Log)
    requires Incremental(replay)
    ensures Kept(replay, own, Fresh(log))
  {
    assert Stopped(replay, own, Fresh(log), map[], 0);
  }

  /** A first rebuild, of a namespace that was never active, needs no absorption, however often it crashes. */
  lemma FirstRebuildRestores(replay: Replay, own: Own, l: Life)
    requires Incremental(replay) && l.marker <= |l.log| && replay(map[], Range(l.log, 0, l.marker, own)) == Some(l.projected)
    requires !l.active
    ensures Stands(replay, own, l)
  {
    RangeSplit(l.log, 0, l.marker, |l.log|, own);
    assert Joined(replay, map[], Range(l.log, 0, l.marker, own), Rest(l, own));
  }

  // A replay that restores and one that does not.

  function Receipt(e: Event): (key: string) {
    "operation/" + e.id
  }

  /** A handler that keeps a receipt of every event it has applied. */
  function ApplyOnce(effect: (Projected, Event) -> Projected, s: Projected, e: Event): (r: Projected) {
    if Receipt(e) in s then s else effect(s, e)[Receipt(e) := ""]
  }

  function ApplyAll(effect: (Projected, Event) -> Projected, s: Projected, events: seq<Event>): (r: Projected) {
    if events == [] then s
    else ApplyOnce(effect, ApplyAll(effect, s, events[..|events| - 1]), events[|events| - 1])
  }

  function Receipted(effect: (Projected, Event) -> Projected): (replay: Replay) {
    (s: Projected, events: seq<Event>) => Some(ApplyAll(effect, s, events))
  }

  /** The effects leave receipts alone. */
  ghost predicate KeepsReceipts(effect: (Projected, Event) -> Projected) {
    forall s, e, x: Event :: Receipt(x) in s ==> Receipt(x) in effect(s, e)
  }

  lemma {:induction false} ApplyJoins(effect: (Projected, Event) -> Projected, s: Projected, a: seq<Event>, b: seq<Event>)
    ensures ApplyAll(effect, s, a + b) == ApplyAll(effect, ApplyAll(effect, s, a), b)
    decreases |b|
  {
    if b == [] {
      assert a + b == a;
    } else {
      var n, all := |b| - 1, a + b;
      ApplyJoins(effect, s, a, b[..n]);
      assert all[..|all| - 1] == a + b[..n] && all[|all| - 1] == b[n];
    }
  }

  lemma {:induction false} ReceiptsKept(effect: (Projected, Event) -> Projected, s: Projected, events: seq<Event>, x: Event)
    requires KeepsReceipts(effect) && (Receipt(x) in s || x in events)
    ensures Receipt(x) in ApplyAll(effect, s, events)
    decreases |events|
  {
    if events != [] {
      var n := |events| - 1;
      if Receipt(x) in s || x in events[..n] {
        ReceiptsKept(effect, s, events[..n], x);
      } else {
        assert x == events[n];
      }
    }
  }

  lemma {:induction false} AppliedIsIdle(effect: (Projected, Event) -> Projected, s: Projected, events: seq<Event>)
    requires forall i :: 0 <= i < |events| ==> Receipt(events[i]) in s
    ensures ApplyAll(effect, s, events) == s
    decreases |events|
  {
    if events != [] {
      AppliedIsIdle(effect, s, events[..|events| - 1]);
    }
  }

  /** Receipts make every replay absorbing, whatever the effects are. */
  lemma ReceiptsAbsorb(effect: (Projected, Event) -> Projected, own: Own)
    requires KeepsReceipts(effect)
    ensures Incremental(Receipted(effect)) && Absorbing(Receipted(effect), own)
  {
    var replay := Receipted(effect);
    forall s, a, b
      ensures Joined(replay, s, a, b)
    {
      ApplyJoins(effect, s, a, b);
    }
    forall before, again
      ensures Absorbs(replay, before, again)
    {
      var s := ApplyAll(effect, map[], before + again);
      forall i | 0 <= i < |again|
        ensures Receipt(again[i]) in s
      {
        assert (before + again)[|before| + i] == again[i];
        ReceiptsKept(effect, map[], before + again, again[i]);
      }
      AppliedIsIdle(effect, s, again);
    }
    forall before, again, after
      ensures AbsorbsAny(replay, before, again, after)
    {
      var all := before + again + after;
      var s := ApplyAll(effect, map[], all);
      forall i | 0 <= i < |again|
        ensures Receipt(again[i]) in s
      {
        assert all[|before| + i] == again[i];
        ReceiptsKept(effect, map[], all, again[i]);
      }
      AppliedIsIdle(effect, s, again);
    }
  }

  function Marks(n: nat): (text: string)
    ensures |text| == n
  {
    if n == 0 then "" else Marks(n - 1) + "x"
  }

  lemma {:induction false} MarksJoin(a: nat, b: nat)
    ensures Marks(a + b) == Marks(a) + Marks(b)
  {
    if b > 0 {
      MarksJoin(a, b - 1);
    }
  }

  function Tally(s: Projected): (text: string) {
    if "n" in s then s["n"] else ""
  }

  /** A handler that counts its events. */
  function Counter(): (replay: Replay) {
    (s: Projected, events: seq<Event>) => if events == [] then Some(s) else Some(s["n" := Tally(s) + Marks(|events|)])
  }

  /** A counter depends on no batch boundary, and yet a rebuild counts again what it had counted while active. */
  lemma CounterIsNotRestored(own: Own, e: Event)
    requires own(e)
    ensures Incremental(Counter()) && !Absorbing(Counter(), own)
    ensures exists l :: Reachable(Counter(), own, l) && !Stands(Counter(), own, l)
  {
    var replay := Counter();
    forall s, a, b
      ensures Joined(replay, s, a, b)
    {
      CounterJoins(s, a, b);
    }
    assert [] + [e] == [e] && Marks(1) == "x";
    assert replay(map[], [e]) == Some(map["n" := "" + "x"]);
    assert |replay(map["n" := "x"], [e]).value["n"]| == 2;
    assert !Absorbs(replay, [], [e]);
    StandsIffAbsorbing(replay, own);
  }

  lemma CounterJoins(s: Projected, a: seq<Event>, b: seq<Event>)
    ensures Joined(Counter(), s, a, b)
  {
    MarksJoin(|a|, |b|);
    if a == [] {
      assert a + b == b;
    } else if b == [] {
      assert a + b == a;
    } else {
      var first, second := s["n" := Tally(s) + Marks(|a|)], s["n" := Tally(s) + Marks(|a|) + Marks(|b|)];
      assert Tally(s) + (Marks(|a|) + Marks(|b|)) == Tally(s) + Marks(|a|) + Marks(|b|);
      assert Counter()(s, a) == Some(first) && first["n" := Tally(first) + Marks(|b|)] == second;
      assert Counter()(first, b) == Some(second) && Counter()(s, a + b) == Some(second);
    }
  }
}
