/** What a host knows about failing components, replayed from their health events. */
module Health {
  import opened Events

  const REQUEST_CAP := 3
  const COMPONENT_CAP := 32

  /** What is backing off: a component, or its delivery of one event. */
  datatype Key = Whole(id: string) | Head(id: string, request: string)

  datatype Backoff = Backoff(failures: nat, until: int)

  datatype Health = Health(backoff: map<Key, Backoff>, reduced: set<string>, failed: set<string>)

  const HEALTHY := Health(map[], {}, {})

  function IsHealth(): (want: Event -> bool) {
    (e: Event) => e.request.kind.ComponentBackoff? || e.request.kind.ComponentRecovered? || e.request.kind.ComponentFailed?
  }

  /** Only the host and its operator report health. */
  predicate Trusted(agent: string, actor: Principal) {
    actor.kind.Node? && (actor.id == agent || actor.id == "operator:" + agent)
  }

  /** A health event that stops the refresh with an error. */
  predicate Unreadable(agent: string, e: Event) {
    IsHealth()(e) && Trusted(agent, e.request.actor) && e.request.payload.Malformed?
  }

  ghost predicate Readable(agent: string, log: Log, lo: nat, hi: nat)
    requires hi <= |log|
  {
    forall i :: lo <= i < hi ==> !Unreadable(agent, log[i])
  }

  lemma ReadableGap(agent: string, log: Log, lo: nat, hi: nat)
    requires lo <= hi <= |log| && Range(log, lo, hi, IsHealth()) == []
    ensures Readable(agent, log, lo, hi)
  {
    forall i | lo <= i < hi
      ensures !Unreadable(agent, log[i])
    {
      RangeMember(log, lo, hi, IsHealth(), log[i]);
    }
  }

  predicate Counts(agent: string, e: Event) {
    IsHealth()(e) && Trusted(agent, e.request.actor) && Field(e, "instanceId").Some?
  }

  function KeyFor(id: string, request: Option<string>): (key: Key) {
    if request.Some? then Head(id, request.value) else Whole(id)
  }

  function Logged(e: Event): (b: Backoff) {
    var cap := if Field(e, "requestEventId").Some? then REQUEST_CAP else COMPONENT_CAP;
    var n := Number(e, "failures");
    Backoff(if n.Some? && n.value >= 0 then Least(n.value, cap) else 1,
            if Number(e, "retryAtMs").Some? then Number(e, "retryAtMs").value else 0)
  }

  /** The keys a recovery clears: the component's own and its listed, or all, requests. */
  predicate Clears(e: Event, key: Key) {
    && e.request.payload.Doc? && Field(e, "instanceId") == Some(key.id)
    && (key.Whole? || !e.request.payload.value.At("requestEventIds").Arr?
        || Str(key.request) in e.request.payload.value.At("requestEventIds").items)
  }

  /** `refresh_health` for one event. */
  function Absorb(agent: string, h: Health, e: Event): (r: Health) {
    if !Counts(agent, e) then h
    else
      var id := Field(e, "instanceId").value;
      match e.request.kind
      case ComponentBackoff =>
        var request := Field(e, "requestEventId");
        h.(backoff := h.backoff[KeyFor(id, request) := Logged(e)],
           reduced := if request.Some? then h.reduced + {id} else h.reduced)
      case ComponentRecovered =>
        Health(map key | key in h.backoff && !Clears(e, key) :: h.backoff[key],
               if e.request.payload.value.At("requestEventIds").Arr? then h.reduced else h.reduced - {id},
               h.failed - {id})
      case _ => h.(failed := h.failed + {id})
  }

  /** Absorbing the events at positions `lo` to `hi`. */
  function Fold(agent: string, h: Health, log: Log, lo: nat, hi: nat): (r: Health)
    requires lo <= hi <= |log|
    decreases hi
  {
    if lo == hi then h else Absorb(agent, Fold(agent, h, log, lo, hi - 1), log[hi - 1])
  }

  function Entry(h: Health, key: Key): (b: Option<Backoff>) {
    if key in h.backoff then Some(h.backoff[key]) else None
  }

  /** A request that backs off is delivered alone. */
  ghost predicate Reduced(h: Health) {
    forall key :: key in h.backoff && key.Head? ==> key.id in h.reduced
  }

  lemma {:induction false} FoldSplit(agent: string, h: Health, log: Log, lo: nat, mid: nat, hi: nat)
    requires lo <= mid <= hi <= |log|
    ensures Fold(agent, h, log, lo, hi) == Fold(agent, Fold(agent, h, log, lo, mid), log, mid, hi)
    decreases hi
  {
    if mid < hi {
      FoldSplit(agent, h, log, lo, mid, hi - 1);
    }
  }

  lemma {:induction false} FoldIgnores(agent: string, h: Health, log: Log, lo: nat, hi: nat)
    requires lo <= hi <= |log| && Range(log, lo, hi, IsHealth()) == []
    ensures Fold(agent, h, log, lo, hi) == h
    decreases hi
  {
    if lo < hi {
      RangeStep(log, lo, hi - 1, IsHealth());
      FoldIgnores(agent, h, log, lo, hi - 1);
    }
  }

  lemma {:induction false} FoldStable(agent: string, h: Health, log: Log, longer: Log, lo: nat, hi: nat)
    requires lo <= hi <= |log| && log <= longer
    ensures Fold(agent, h, log, lo, hi) == Fold(agent, h, longer, lo, hi)
    decreases hi
  {
    if lo < hi {
      FoldStable(agent, h, log, longer, lo, hi - 1);
      assert log[hi - 1] == longer[hi - 1];
    }
  }

  lemma {:induction false} FoldReduced(agent: string, h: Health, log: Log, lo: nat, hi: nat)
    requires lo <= hi <= |log| && Reduced(h)
    ensures Reduced(Fold(agent, h, log, lo, hi))
    decreases hi
  {
    if lo < hi {
      FoldReduced(agent, h, log, lo, hi - 1);
    }
  }

  /** Whether the event decides a key's entry, whatever it was before. */
  predicate Decides(agent: string, e: Event, key: Key) {
    && Counts(agent, e) && Field(e, "instanceId").value == key.id
    && if e.request.kind.ComponentBackoff? then key == KeyFor(key.id, Field(e, "requestEventId"))
       else e.request.kind.ComponentRecovered? && Clears(e, key)
  }

  lemma AbsorbEntry(agent: string, h: Health, e: Event, key: Key)
    ensures Entry(Absorb(agent, h, e), key) ==
              if !Decides(agent, e, key) then Entry(h, key)
              else if e.request.kind.ComponentBackoff? then Some(Logged(e)) else None
  {
  }

  /**
    Only the agent's own node and its operator are heard. A recovery that lists
    no requests clears everything of the component; a failure withdraws it.
  */
  lemma AbsorbMeans(agent: string, h: Health, e: Event, id: string)
    ensures e.request.actor != Principal(Node, agent) && e.request.actor != Principal(Node, "operator:" + agent) ==> Absorb(agent, h, e) == h
    ensures var heard := (e.request.actor == Principal(Node, agent) || e.request.actor == Principal(Node, "operator:" + agent))
                         && Field(e, "instanceId") == Some(id);
            && (heard && e.request.kind.ComponentRecovered? && "requestEventIds" !in e.request.payload.value.fields ==>
                  && (forall key: Key :: key.id == id ==> Entry(Absorb(agent, h, e), key) == None)
                  && id !in Absorb(agent, h, e).reduced && id !in Absorb(agent, h, e).failed)
            && (heard && e.request.kind.ComponentFailed? ==> id in Absorb(agent, h, e).failed)
  {
    forall key: Key | Field(e, "instanceId") == Some(id) && key.id == id
      ensures Entry(Absorb(agent, h, e), key) ==
                if !Decides(agent, e, key) then Entry(h, key) else if e.request.kind.ComponentBackoff? then Some(Logged(e)) else None
    {
      AbsorbEntry(agent, h, e, key);
    }
  }

  /** Catching up yields the entry of a replay from the start, or leaves the entry as it was. */
  lemma {:induction false} FoldEntry(agent: string, h: Health, log: Log, lo: nat, hi: nat, key: Key)
    requires lo <= hi <= |log|
    ensures var caughtUp := Entry(Fold(agent, h, log, lo, hi), key);
            caughtUp == Entry(h, key) || caughtUp == Entry(Fold(agent, HEALTHY, log, 0, hi), key)
    decreases hi
  {
    if lo < hi {
      FoldEntry(agent, h, log, lo, hi - 1, key);
      AbsorbEntry(agent, Fold(agent, h, log, lo, hi - 1), log[hi - 1], key);
      AbsorbEntry(agent, Fold(agent, HEALTHY, log, 0, hi - 1), log[hi - 1], key);
    }
  }

  class Tracker {
    const agent: string
    var backoff: map<Key, Backoff>
    var reduced: set<string>
    var failed: set<string>
    var through: nat

    constructor (agent: string)
      ensures this.agent == agent && Seen() == HEALTHY && through == 0
    {
      this.agent, backoff, reduced, failed, through := agent, map[], {}, {}, 0;
    }

    ghost function Seen(): (h: Health)
      reads this
    {
      Health(backoff, reduced, failed)
    }

    /**
      Catches up with the log page by page. An unreadable health event ends the
      refresh with an error and is not read again.
    */
    method Refresh(log: Log, size: nat) returns (ok: bool)
      requires Gapless(log) && through <= |log| && size > 0
      modifies this
      ensures old(through) <= through <= |log|
      ensures Seen() == Fold(agent, old(Seen()), log, old(through), through)
      ensures ok ==> Seen() == Fold(agent, old(Seen()), log, old(through), |log|) && Readable(agent, log, old(through), |log|)
      ensures !ok ==> old(through) < through && Readable(agent, log, old(through), through - 1) && Unreadable(agent, log[through - 1])
    {
      ok := true;
      while ok
        invariant old(through) <= through <= |log|
        invariant Seen() == Fold(agent, old(Seen()), log, old(through), through)
        invariant ok ==> Readable(agent, log, old(through), through)
        invariant !ok ==> old(through) < through && Readable(agent, log, old(through), through - 1) && Unreadable(agent, log[through - 1])
        decreases |log| - through, ok
      {
        var page := Page(log, through, IsHealth(), size);
        PageSplits(log, through, IsHealth(), size);
        if page == [] {
          FoldIgnores(agent, Seen(), log, through, |log|);
          ReadableGap(agent, log, through, |log|);
          FoldSplit(agent, old(Seen()), log, old(through), through, |log|);
          return;
        }
        ghost var from, before := through, Seen();
        ok := ReadPage(log, size);
        FoldSplit(agent, old(Seen()), log, old(through), from, through);
      }
    }

    method ReadPage(log: Log, size: nat) returns (ok: bool)
      requires Gapless(log) && through <= |log| && Page(log, through, IsHealth(), size) != []
      modifies this
      ensures old(through) < through <= |log|
      ensures Seen() == Fold(agent, old(Seen()), log, old(through), through)
      ensures ok ==> Readable(agent, log, old(through), through)
      ensures !ok ==> Readable(agent, log, old(through), through - 1) && Unreadable(agent, log[through - 1])
    {
      var page, start := Page(log, through, IsHealth(), size), through;
      for i := 0 to |page|
        invariant through == Before(page, start, i) && old(through) <= through <= |log|
        invariant i > 0 ==> old(through) < through
        invariant Seen() == Fold(agent, old(Seen()), log, old(through), through)
        invariant Readable(agent, log, old(through), through)
      {
        PageGap(log, start, IsHealth(), size, i);
        FoldIgnores(agent, Seen(), log, through, page[i].sequence - 1);
        ReadableGap(agent, log, through, page[i].sequence - 1);
        FoldSplit(agent, old(Seen()), log, old(through), through, page[i].sequence - 1);
        ok := Read(page[i]);
        if !ok {
          return;
        }
      }
      ok := true;
    }

    method Read(e: Event) returns (ok: bool)
      requires IsHealth()(e)
      modifies this
      ensures through == e.sequence && Seen() == Absorb(agent, old(Seen()), e)
      ensures ok <==> !Unreadable(agent, e)
    {
      through := e.sequence;
      if !Trusted(agent, e.request.actor) {
        return true;
      }
      if e.request.payload.Malformed? {
        return false;
      }
      var id := Field(e, "instanceId");
      if id.None? {
        return true;
      }
      if e.request.kind.ComponentBackoff? {
        var request := Field(e, "requestEventId");
        if request.Some? {
          reduced := reduced + {id.value};
        }
        backoff := backoff[KeyFor(id.value, request) := Logged(e)];
      } else if e.request.kind.ComponentRecovered? {
        backoff := map key | key in backoff && !Clears(e, key) :: backoff[key];
        if !e.request.payload.value.At("requestEventIds").Arr? {
          reduced := reduced - {id.value};
        }
        failed := failed - {id.value};
      } else {
        failed := failed + {id.value};
      }
      return true;
    }
  }
}
