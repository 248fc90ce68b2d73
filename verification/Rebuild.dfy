/** Replay of an instance's own mutation events before it is activated. */
module Rebuild {
  import opened Events

  type Projected = map<string, string>

  /** The guest's replay of one batch; `None` when it fails or does not consume the batch. */
  type Replay = (Projected, seq<Event>) -> Option<Projected>

  const SCAN_PAGE := 1000
  const REPLAY_PAGE := 32

  function OfTypes(types: set<Kind>): (want: Event -> bool) {
    (e: Event) => e.request.kind in types
  }

  function OwnEvents(types: set<Kind>, instance: string): (want: Event -> bool) {
    (e: Event) => e.request.kind in types && e.request.actor == Principal(Component, instance)
  }

  /** What is replayed: the instance's own component appended it, and it is of a declared type. */
  lemma OwnMeans(log: Log, lo: nat, hi: nat, types: set<Kind>, instance: string, e: Event)
    requires Gapless(log) && lo <= hi <= |log|
    ensures e in Range(log, lo, hi, OwnEvents(types, instance)) <==>
              && e in log && lo < e.sequence <= hi && e.request.kind in types
              && e.request.actor.kind == Component && e.request.actor.id == instance
  {
    RangeMember(log, lo, hi, OwnEvents(types, instance), e);
    if e in log {
      var i :| 0 <= i < |log| && log[i] == e;
    }
  }

  /** Replaying batch after batch. */
  function ReplayAll(replay: Replay, from: Projected, batches: seq<seq<Event>>): (r: Option<Projected>) {
    if batches == [] then Some(from)
    else
      var before := ReplayAll(replay, from, batches[..|batches| - 1]);
      if before.None? then None else replay(before.value, batches[|batches| - 1])
  }

  function Concat(batches: seq<seq<Event>>): (r: seq<Event>) {
    if batches == [] then [] else Concat(batches[..|batches| - 1]) + batches[|batches| - 1]
  }

  /** How much of a page lies within the high-water mark. */
  method Reached(page: seq<Event>, high: nat) returns (cut: nat)
    ensures cut <= |page|
    ensures forall i :: 0 <= i < cut ==> page[i].sequence <= high
    ensures cut < |page| ==> page[cut].sequence > high
  {
    cut := 0;
    while cut < |page| && page[cut].sequence <= high
      invariant cut <= |page|
      invariant forall i :: 0 <= i < cut ==> page[i].sequence <= high
    {
      cut := cut + 1;
    }
  }

  class Instance {
    const id: string
    const types: set<Kind>
    var marker: nat              // `__host/rebuild`
    var projected: Projected

    constructor (id: string, types: set<Kind>)
      ensures this.id == id && this.types == types && marker == 0 && projected == map[]
    {
      this.id, this.types, marker, projected := id, types, 0, map[];
    }

    /** Finds where the replay has to reach. */
    method HighWater(log: Log) returns (high: nat)
      requires Gapless(log) && marker <= |log|
      ensures marker <= high <= |log| && Range(log, high, |log|, OfTypes(types)) == []
      ensures high > marker ==> OfTypes(types)(log[high - 1])
    {
      high := marker;
      while true
        invariant marker <= high <= |log|
        invariant high > marker ==> OfTypes(types)(log[high - 1])
        decreases |log| - high
      {
        var page := Page(log, high, OfTypes(types), SCAN_PAGE);
        PageSplits(log, high, OfTypes(types), SCAN_PAGE);
        if page == [] {
          return;
        }
        PageGap(log, high, OfTypes(types), SCAN_PAGE, |page| - 1);
        high := Last(page);
      }
    }

    /**
      Replays the next page and commits the projection and the marker together.
      Fails, and changes nothing, when the guest does not replay the batch.
    */
    method ReplayPage(log: Log, high: nat, replay: Replay) returns (ok: bool, ghost batches: seq<seq<Event>>)
      requires Gapless(log) && marker < high <= |log| && OfTypes(types)(log[high - 1])
      modifies this`marker, this`projected
      ensures ok ==> old(marker) < marker <= high && Concat(batches) == Range(log, old(marker), marker, OwnEvents(types, id))
      ensures ok ==> ReplayAll(replay, old(projected), batches) == Some(projected)
      ensures !ok ==> marker == old(marker) && projected == old(projected) && FailsNext(log, replay)
    {
      var page := Page(log, marker, OfTypes(types), REPLAY_PAGE);
      var cut := Reached(page, high);
      CutReaches(log, marker, high, OfTypes(types), cut);
      page := page[..cut];
      var end := Last(page);
      var own := Select(page, OwnEvents(types, id));
      Refilter(log, marker, end, OfTypes(types), OwnEvents(types, id));
      batches := [];
      if own != [] {
        var outcome := replay(projected, own);
        if outcome.None? {
          ok := false;
          return;
        }
        OneBatch(replay, projected, own);
        projected, batches := outcome.value, [own];
      }
      marker := end;
      ok := true;
    }

    /** The guest does not replay its own events that come next. */
    ghost predicate FailsNext(log: Log, replay: Replay)
      reads this
    {
      exists end :: marker < end <= |log|
        && Range(log, marker, end, OwnEvents(types, id)) != [] && replay(projected, Range(log, marker, end, OwnEvents(types, id))).None?
    }

    /**
      One rebuild, which crashes once `survives` pages are committed. Other
      instances may append between the scan and the replay. Whatever the
      projection holds at the start, the batches replayed on top of it are the
      instance's own events between the old and the new marker.
    */
    method Run(scanned: Log, grown: Log, replay: Replay, survives: nat) returns (done: bool, ghost batches: seq<seq<Event>>)
      requires Gapless(scanned) && Gapless(grown) && scanned <= grown && marker <= |scanned|
      requires forall i :: |scanned| <= i < |grown| ==> !OwnEvents(types, id)(grown[i])
      modifies this`marker, this`projected
      ensures old(marker) <= marker <= |grown|
      ensures Concat(batches) == Range(grown, old(marker), marker, OwnEvents(types, id))
      ensures ReplayAll(replay, old(projected), batches) == Some(projected)
      ensures done ==> Concat(batches) == Range(grown, old(marker), |grown|, OwnEvents(types, id))
      ensures done ==> Range(grown, marker, |grown|, OwnEvents(types, id)) == []
      ensures !done ==> marker >= old(marker) + survives || FailsNext(grown, replay)
    {
      batches := [];
      var high := marker;
      if types != {} {
        high := HighWater(scanned);
      }
      var committed := 0;
      while marker < high
        invariant old(marker) + committed <= marker <= high <= |scanned|
        invariant Concat(batches) == Range(grown, old(marker), marker, OwnEvents(types, id))
        invariant ReplayAll(replay, old(projected), batches) == Some(projected)
        decreases high - marker
      {
        if committed == survives {
          done := false;
          return;
        }
        assert scanned[high - 1] == grown[high - 1];
        ghost var from, before := marker, projected;
        var ok, more := ReplayPage(grown, high, replay);
        if !ok {
          done := false;
          return;
        }
        RangeSplit(grown, old(marker), from, marker, OwnEvents(types, id));
        ReplayJoins(replay, old(projected), batches, before, more);
        ConcatJoins(batches, more);
        batches := batches + more;
        committed := committed + 1;
      }
      NothingAbove(scanned, grown, high, types, id);
      RangeSplit(grown, old(marker), high, |grown|, OwnEvents(types, id));
      done := true;
    }
  }

  lemma OneBatch(replay: Replay, s: Projected, batch: seq<Event>)
    ensures ReplayAll(replay, s, [batch]) == replay(s, batch) && Concat([batch]) == batch
  {
    assert [batch][..0] == [];
    assert ReplayAll(replay, s, [batch][..0]) == Some(s) && Concat([batch][..0]) == [];
  }

  lemma {:induction false} ReplayJoins(replay: Replay, s: Projected, a: seq<seq<Event>>, mid: Projected, b: seq<seq<Event>>)
    requires ReplayAll(replay, s, a) == Some(mid)
    ensures ReplayAll(replay, s, a + b) == ReplayAll(replay, mid, b)
    decreases |b|
  {
    if b == [] {
      assert a + b == a;
    } else {
      var n, all := |b| - 1, a + b;
      ReplayJoins(replay, s, a, mid, b[..n]);
      assert all[..|all| - 1] == a + b[..n] && all[|all| - 1] == b[n];
    }
  }

  lemma {:induction false} ConcatJoins(a: seq<seq<Event>>, b: seq<seq<Event>>)
    ensures Concat(a + b) == Concat(a) + Concat(b)
    decreases |b|
  {
    if b == [] {
      assert a + b == a;
    } else {
      var rest, last, all := b[..|b| - 1], b[|b| - 1], a + b;
      ConcatJoins(a, rest);
      assert all[..|all| - 1] == a + rest && all[|all| - 1] == last;
      assert Concat(a) + Concat(rest) + last == Concat(a) + (Concat(rest) + last);
    }
  }

  /** The part of a page within the mark is a nonempty stretch of the log. */
  lemma CutReaches(log: Log, after: nat, high: nat, want: Event -> bool, cut: nat)
    requires Gapless(log) && after < high <= |log| && want(log[high - 1])
    requires var page := Page(log, after, want, REPLAY_PAGE);
             && cut <= |page|
             && (forall i :: 0 <= i < cut ==> page[i].sequence <= high)
             && (cut < |page| ==> page[cut].sequence > high)
    ensures cut > 0
    ensures var page := Page(log, after, want, REPLAY_PAGE)[..cut];
            after < Last(page) <= high && page == Range(log, after, Last(page), want)
  {
    var page := Page(log, after, want, REPLAY_PAGE);
    RangeMember(log, after, |log|, want, log[high - 1]);
    PageGap(log, after, want, REPLAY_PAGE, 0);
    if cut == 0 {
      RangeMember(log, after, page[0].sequence - 1, want, log[high - 1]);
    }
    assert page[..cut] == Page(log, after, want, cut);
    PageSplits(log, after, want, cut);
  }

  /** Past the mark there is nothing to replay, however the log grew meanwhile. */
  lemma NothingAbove(scanned: Log, grown: Log, high: nat, types: set<Kind>, id: string)
    requires high <= |scanned| && scanned <= grown && (types == {} || Range(scanned, high, |scanned|, OfTypes(types)) == [])
    requires forall i :: |scanned| <= i < |grown| ==> !OwnEvents(types, id)(grown[i])
    ensures Range(grown, high, |grown|, OwnEvents(types, id)) == []
  {
    var rest := Range(grown, high, |grown|, OwnEvents(types, id));
    if rest != [] {
      RangeMember(grown, high, |grown|, OwnEvents(types, id), rest[0]);
      var i :| high <= i < |grown| && grown[i] == rest[0];
      assert i < |scanned| && scanned[i] == grown[i];
      RangeMember(scanned, high, |scanned|, OfTypes(types), scanned[i]);
    }
  }
}
