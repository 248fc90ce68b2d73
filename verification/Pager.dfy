/** The guest's paged `query` over the log, in both directions. */
module Pager {
  import opened Events

  const MAX_EVENT_PAGE := 1000
  const MAX_TEXT := 4096

  datatype Filter = Filter(
    after: Option<nat>,
    before: Option<nat>,
    types: seq<Kind>,
    text: Option<string>,
    descending: bool,
    correlation: Option<string>,
    activity: Option<string>,
    recordedFrom: Option<int>,
    recordedTo: Option<int>,
    conversation: Option<string>
  )

  /** The store's text index, as far as a query can tell. */
  type Index = (string, Event) -> bool

  datatype GuestPage = GuestPage(events: seq<Event>, next: Option<nat>)

  datatype QueryError = SearchTextTooLong

  /** The filter's conditions other than its position. */
  function Wanted(index: Index, f: Filter): (want: Event -> bool) {
    (e: Event) =>
      && (f.types == [] || e.request.kind in f.types)
      && (f.text.None? || index(f.text.value, e))
      && (f.correlation.None? || f.correlation == e.request.correlation)
      && (f.activity.None? || f.activity == e.request.activity)
      && (f.recordedFrom.None? || e.recordedAt >= f.recordedFrom.value)
      && (f.recordedTo.None? || e.recordedAt <= f.recordedTo.value)
  }

  /** Incoming requests are shown only to their listener and their consumer. */
  predicate RequestVisible(e: Event, instance: string) {
    || !e.request.kind.HttpRequestReceived? || e.request.actor.id == instance
    || Field(e, "consumer") == Some(instance)
  }

  function ConversationOf(e: Event): (id: Option<string>) {
    if !e.request.payload.Doc? then None
    else
      var value := e.request.payload.value;
      if value.At("conversationId").Str? then Some(value.At("conversationId").s)
      else value.At("arguments").At("conversationId").AsStr()
  }

  /** What the host shows of the matching events. */
  function Shown(f: Filter, instance: string): (want: Event -> bool) {
    (e: Event) => RequestVisible(e, instance) && (f.conversation.None? || ConversationOf(e) == f.conversation)
  }

  function Low(log: Log, f: Filter): (lo: nat)
    ensures lo <= |log|
  {
    if f.after.None? then 0 else if f.after.value <= |log| then f.after.value else |log|
  }

  function High(log: Log, f: Filter): (hi: nat)
    ensures Low(log, f) <= hi <= |log|
  {
    var hi := if f.before.None? then |log| else if f.before.value == 0 then 0
              else if f.before.value - 1 <= |log| then f.before.value - 1 else |log|;
    if hi <= Low(log, f) then Low(log, f) else hi
  }

  function Reversed(s: seq<Event>): (r: seq<Event>) {
    seq(|s|, i requires 0 <= i < |s| => s[|s| - 1 - i])
  }

  /** Every event a filter matches, in the order it asks for. */
  function Matching(log: Log, index: Index, f: Filter): (r: seq<Event>) {
    var found := Range(log, Low(log, f), High(log, f), Wanted(index, f));
    if f.descending then Reversed(found) else found
  }

  /** The same filter, continued from a returned sequence. */
  function Resume(f: Filter, next: nat): (r: Filter) {
    if f.descending then f.(before := Some(next)) else f.(after := Some(next))
  }

  /** The store's indexed query. */
  function StoreQuery(log: Log, index: Index, f: Filter, limit: nat): (r: seq<Event>) {
    Take(Matching(log, index, f), limit)
  }

  /** What the filter asks of an event, condition by condition. */
  ghost predicate Asked(index: Index, f: Filter, e: Event) {
    && (f.types != [] ==> exists i :: 0 <= i < |f.types| && f.types[i] == e.request.kind)
    && (forall text :: f.text == Some(text) ==> index(text, e))
    && (forall id :: f.correlation == Some(id) ==> e.request.correlation == Some(id))
    && (forall id :: f.activity == Some(id) ==> e.request.activity == Some(id))
    && (forall at :: f.recordedFrom == Some(at) ==> at <= e.recordedAt)
    && (forall at :: f.recordedTo == Some(at) ==> e.recordedAt <= at)
  }

  /** The matches fall within the filter's bounds, carry its conditions, and none is left out. */
  lemma MatchingMeaning(log: Log, index: Index, f: Filter, e: Event)
    requires Gapless(log)
    ensures e in Matching(log, index, f) <==>
              && e in log && Asked(index, f, e)
              && (f.after.Some? ==> e.sequence > f.after.value) && (f.before.Some? ==> e.sequence < f.before.value)
  {
    var found := Range(log, Low(log, f), High(log, f), Wanted(index, f));
    RangeMember(log, Low(log, f), High(log, f), Wanted(index, f), e);
    ReversedMember(found, e);
    if e in log {
      var i :| 0 <= i < |log| && log[i] == e;
      assert Low(log, f) <= i < High(log, f) <==>
        (f.after.Some? ==> e.sequence > f.after.value) && (f.before.Some? ==> e.sequence < f.before.value);
    }
  }

  lemma ReversedMember(s: seq<Event>, e: Event)
    ensures e in Reversed(s) <==> e in s
  {
    if e in s {
      var i :| 0 <= i < |s| && s[i] == e;
      assert Reversed(s)[|s| - 1 - i] == e;
    }
  }

  /** An incoming request whose listener and consumer are both other instances. */
  ghost predicate Foreign(e: Event, instance: string) {
    && e.request.kind.HttpRequestReceived? && e.request.actor.id != instance
    && !exists fields :: e.request.payload == Doc(Obj(fields)) && "consumer" in fields && fields["consumer"] == Str(instance)
  }

  ghost predicate Names(v: Json, id: string) {
    v.Obj? && "conversationId" in v.fields && v.fields["conversationId"] == Str(id)
  }

  /** The payload names the conversation, or names none and its arguments do. */
  ghost predicate InConversation(e: Event, id: string) {
    e.request.payload.Doc? &&
    var v := e.request.payload.value;
    Names(v, id) || (v.Obj? && (forall other :: !Names(v, other)) && "arguments" in v.fields && Names(v.fields["arguments"], id))
  }

  /** What the host shows: no foreign request, and only the conversation asked for. */
  lemma ShownMeans(f: Filter, instance: string, e: Event)
    ensures Shown(f, instance)(e) <==>
              !Foreign(e, instance) && forall id :: f.conversation == Some(id) ==> InConversation(e, id)
  {
    FieldMeans(e, "consumer", instance);
    if f.conversation.Some? {
      ConversationMeans(e, f.conversation.value);
    }
  }

  lemma ConversationMeans(e: Event, id: string)
    ensures ConversationOf(e) == Some(id) <==> InConversation(e, id)
  {
    if e.request.payload.Doc? {
      var v := e.request.payload.value;
      if v.At("conversationId").Str? {
        assert Names(v, v.At("conversationId").s);
      }
    }
  }

  /** Whether a page answers a query: the shown part of a stretch of the matches, and its last sequence. */
  ghost predicate Answers(matching: seq<Event>, shown: Event -> bool, page: GuestPage) {
    if matching == [] then page == GuestPage([], None)
    else exists n :: 0 < n <= |matching| && Covers(matching, shown, page, n)
  }

  ghost predicate Covers(matching: seq<Event>, shown: Event -> bool, page: GuestPage, n: nat)
    requires 0 < n <= |matching|
  {
    page.next == Some(matching[n - 1].sequence) && page.events == Select(matching[..n], shown)
  }

  /** Bytes of a text in UTF-8. */
  function Utf8Length(text: string): (n: nat) {
    if text == "" then 0 else Utf8Length(text[..|text| - 1]) + Utf8Width(text[|text| - 1])
  }

  function Utf8Width(c: char): (n: nat) {
    if c as int < 0x80 then 1 else if c as int < 0x800 then 2 else if c as int < 0x10000 then 3 else 4
  }

  /** The bytes of a character: RFC 3629, section 3. */
  function Utf8Bytes(c: char): (bytes: seq<nat>) {
    var n := c as int;
    if n <= 0x7f then [n]
    else if n <= 0x7ff then [0xc0 + n / 64, 0x80 + n % 64]
    else if n <= 0xffff then [0xe0 + n / 4096, 0x80 + n / 64 % 64, 0x80 + n % 64]
    else [0xf0 + n / 262144, 0x80 + n / 4096 % 64, 0x80 + n / 64 % 64, 0x80 + n % 64]
  }

  function Utf8Text(text: string): (bytes: seq<nat>) {
    if text == "" then [] else Utf8Bytes(text[0]) + Utf8Text(text[1..])
  }

  lemma {:induction false} Utf8LengthJoins(a: string, b: string)
    ensures Utf8Length(a + b) == Utf8Length(a) + Utf8Length(b)
    decreases |b|
  {
    if b == "" {
      assert a + b == a;
    } else {
      var n := |b| - 1;
      Utf8LengthJoins(a, b[..n]);
      assert (a + b)[..|a| + n] == a + b[..n];
    }
  }

  /** The length counts the bytes of the encoded text. */
  lemma {:induction false} Utf8Counts(text: string)
    ensures Utf8Length(text) == |Utf8Text(text)|
  {
    if text != "" {
      Utf8Counts(text[1..]);
      Utf8LengthJoins(text[..1], text[1..]);
      assert text[..1] + text[1..] == text && text[..1][..0] == "";
    }
  }

  /** One call of the guest's `query`. */
  method Query(log: Log, index: Index, f: Filter, limit: nat, instance: string) returns (r: Result<GuestPage, QueryError>)
    ensures r.Err? <==> f.text.Some? && Utf8Length(f.text.value) > 4096
    ensures r.Ok? ==> |r.value.events| <= limit && |r.value.events| <= 1000
    ensures r.Ok? && limit == 0 ==> r.value == GuestPage([], None)
    ensures r.Ok? && limit > 0 ==> Answers(Matching(log, index, f), Shown(f, instance), r.value)
    ensures r.Ok? ==> forall e :: e in r.value.events ==>
              && e in Matching(log, index, f) && !Foreign(e, instance)
              && (f.conversation.Some? ==> InConversation(e, f.conversation.value))
  {
    if f.text.Some? && Utf8Length(f.text.value) > MAX_TEXT {
      return Err(SearchTextTooLong);
    }
    if limit == 0 {
      return Ok(GuestPage([], None));
    }
    var searching := f.text.Some? || f.before.Some? || f.conversation.Some? || f.descending;
    var requested := Least(limit, MAX_EVENT_PAGE);
    var events := StoreQuery(log, index, f, if searching then MAX_EVENT_PAGE else requested);
    var page;
    if searching {
      page := SearchPage(events, Shown(f, instance), requested, Matching(log, index, f));
    } else {
      page := PlainPage(events, e => RequestVisible(e, instance), requested, Matching(log, index, f), Shown(f, instance));
    }
    PageShows(Matching(log, index, f), f, instance, page);
    return Ok(page);
  }

  lemma PageShows(matching: seq<Event>, f: Filter, instance: string, page: GuestPage)
    requires Answers(matching, Shown(f, instance), page)
    ensures forall e :: e in page.events ==>
              e in matching && !Foreign(e, instance) && (f.conversation.Some? ==> InConversation(e, f.conversation.value))
  {
    if matching != [] {
      var n :| 0 < n <= |matching| && Covers(matching, Shown(f, instance), page, n);
      forall e | e in page.events
        ensures e in matching && !Foreign(e, instance) && (f.conversation.Some? ==> InConversation(e, f.conversation.value))
      {
        SelectMember(matching[..n], Shown(f, instance), e);
        ShownMeans(f, instance, e);
      }
    }
  }

  lemma {:induction false} SelectMember(s: seq<Event>, want: Event -> bool, e: Event)
    requires e in Select(s, want)
    ensures e in s && want(e)
    decreases |s|
  {
    if s != [] {
      assert s == [s[0]] + s[1..];
      SelectCons(s[0], s[1..], want);
      if !(want(s[0]) && e == s[0]) {
        SelectMember(s[1..], want, e);
      }
    }
  }

  /** Without a search every event of the store's page counts, shown or not. */
  method PlainPage(events: seq<Event>, visible: Event -> bool, requested: nat, ghost matching: seq<Event>, ghost shown: Event -> bool)
    returns (page: GuestPage)
    requires requested > 0 && events == Take(matching, requested) && forall e :: visible(e) == shown(e)
    ensures |page.events| <= requested && Answers(matching, shown, page)
  {
    var selected := Take(Select(events, visible), requested);
    SelectBounded(events, visible);
    SelectSame(events, |events|, visible, shown);
    if events == [] {
      return GuestPage(selected, None);
    }
    assert events == matching[..|events|];
    assert Covers(matching, shown, GuestPage(selected, Some(Last(events))), |events|);
    return GuestPage(selected, Some(Last(events)));
  }

  /** A search reads a full page of the store and stops at the last event it shows. */
  method SearchPage(events: seq<Event>, shown: Event -> bool, requested: nat, ghost matching: seq<Event>) returns (page: GuestPage)
    requires requested > 0 && events == Take(matching, MAX_EVENT_PAGE)
    ensures |page.events| <= requested && Answers(matching, shown, page)
  {
    var selected, n := Pick(events, shown, requested);
    if events == [] {
      return GuestPage([], None);
    }
    assert matching[..n] == events[..n];
    var next := if selected == [] then Last(events) else Last(selected);
    assert Covers(matching, shown, GuestPage(selected, Some(next)), n);
    return GuestPage(selected, Some(next));
  }

  /** Collects shown events until enough are found; `n` is where the last one was. */
  method Pick(events: seq<Event>, shown: Event -> bool, requested: nat) returns (selected: seq<Event>, ghost n: nat)
    requires requested > 0
    ensures |selected| <= requested && n <= |events| && selected == Select(events[..n], shown)
    ensures selected == [] ==> n == |events|
    ensures selected != [] ==> n > 0 && selected[|selected| - 1] == events[n - 1]
  {
    selected, n := [], |events|;
    ghost var last := 0;
    for i := 0 to |events|
      invariant |selected| < requested && last <= i
      invariant selected == Range(events, 0, i, shown) == Range(events, 0, last, shown)
      invariant if selected == [] then last == 0 else last > 0 && selected[|selected| - 1] == events[last - 1]
    {
      RangeStep(events, 0, i, shown);
      if shown(events[i]) {
        selected := selected + [events[i]];
        last := i + 1;
        if |selected| == requested {
          n := i + 1;
          SelectPrefix(events, n, shown);
          return;
        }
      }
    }
    n := if selected == [] then |events| else last;
    SelectPrefix(events, n, shown);
  }

  lemma SelectPrefix(s: seq<Event>, n: nat, want: Event -> bool)
    requires n <= |s|
    ensures Select(s[..n], want) == Range(s, 0, n, want)
  {
    RangeStable(s[..n], s, 0, n, want);
  }

  lemma {:induction false} SelectSame(s: seq<Event>, n: nat, a: Event -> bool, b: Event -> bool)
    requires n <= |s| && forall e :: a(e) == b(e)
    ensures Range(s, 0, n, a) == Range(s, 0, n, b)
  {
    if n > 0 {
      SelectSame(s, n - 1, a, b);
      RangeStep(s, 0, n - 1, a);
      RangeStep(s, 0, n - 1, b);
    }
  }

  lemma SelectBounded(s: seq<Event>, want: Event -> bool)
    ensures |Select(s, want)| <= |s|
  {
    RangeBounded(s, 0, want);
  }

  lemma {:induction false} RangeBounded(s: seq<Event>, lo: nat, want: Event -> bool)
    requires lo <= |s|
    ensures |Range(s, lo, |s|, want)| <= |s| - lo
    decreases |s| - lo
  {
    if lo < |s| {
      RangeBounded(s, lo + 1, want);
    }
  }

  // Reading page after page.

  /** A continued filter matches exactly what came after the sequence it continues from. */
  lemma ResumeMatches(log: Log, index: Index, f: Filter, n: nat)
    requires Gapless(log) && 0 < n <= |Matching(log, index, f)|
    ensures var all := Matching(log, index, f);
            Matching(log, index, Resume(f, all[n - 1].sequence)) == all[n..]
  {
    if f.descending {
      ResumeDown(log, index, f, n);
    } else {
      ResumeUp(log, index, f, n);
    }
  }

  /** Position just past the n-th wanted event below `hi`, and what lies on either side of it. */
  lemma Cut(log: Log, lo: nat, hi: nat, want: Event -> bool, n: nat) returns (m: nat)
    requires lo <= hi <= |log| && 0 < n <= |Range(log, lo, hi, want)|
    ensures lo < m <= hi && log[m - 1] == Range(log, lo, hi, want)[n - 1]
    ensures Range(log, lo, m - 1, want) == Range(log, lo, hi, want)[..n - 1]
    ensures Range(log, m, hi, want) == Range(log, lo, hi, want)[n..]
  {
    var s := log[..hi];
    RangeStable(s, log, lo, hi, want);
    m := RangeCut(s, lo, want, n);
    RangeStable(s, log, lo, m, want);
    RangeStable(s, log, m, hi, want);
    RangeStep(log, lo, m - 1, want);
    RangeMember(log, lo, m, want, log[m - 1]);
  }

  lemma ResumeUp(log: Log, index: Index, f: Filter, n: nat)
    requires Gapless(log) && 0 < n <= |Matching(log, index, f)| && !f.descending
    ensures var all := Matching(log, index, f);
            Matching(log, index, Resume(f, all[n - 1].sequence)) == all[n..]
  {
    var m := Cut(log, Low(log, f), High(log, f), Wanted(index, f), n);
    var r := Resume(f, m);
    SameWanted(log, index, f, r, Low(log, r), High(log, r));
  }

  lemma ResumeDown(log: Log, index: Index, f: Filter, n: nat)
    requires Gapless(log) && 0 < n <= |Matching(log, index, f)| && f.descending
    ensures var all := Matching(log, index, f);
            Matching(log, index, Resume(f, all[n - 1].sequence)) == all[n..]
  {
    var found := Range(log, Low(log, f), High(log, f), Wanted(index, f));
    var m := Cut(log, Low(log, f), High(log, f), Wanted(index, f), |found| - n + 1);
    assert Matching(log, index, f)[n - 1] == log[m - 1];
    Downwards(log, index, f, m);
    ReversedDrop(found, n);
  }

  lemma Downwards(log: Log, index: Index, f: Filter, m: nat)
    requires f.descending && Low(log, f) < m <= High(log, f)
    ensures Matching(log, index, Resume(f, m)) == Reversed(Range(log, Low(log, f), m - 1, Wanted(index, f)))
  {
    BelowCut(log, f, m);
    SameWanted(log, index, f, Resume(f, m), Low(log, f), m - 1);
  }

  /** Continuing downwards from the event at a position ends just below it. */
  lemma BelowCut(log: Log, f: Filter, m: nat)
    requires Low(log, f) < m <= High(log, f) && f.descending
    ensures Low(log, Resume(f, m)) == Low(log, f) && High(log, Resume(f, m)) == m - 1
  {
  }

  lemma ReversedDrop(s: seq<Event>, n: nat)
    requires n <= |s|
    ensures Reversed(s[..|s| - n]) == Reversed(s)[n..]
  {
  }

  lemma SameWanted(log: Log, index: Index, f: Filter, r: Filter, lo: nat, hi: nat)
    requires lo <= hi <= |log| && r == f.(after := r.after, before := r.before)
    ensures Range(log, lo, hi, Wanted(index, r)) == Range(log, lo, hi, Wanted(index, f))
    decreases hi - lo
  {
    if lo < hi {
      SameWanted(log, index, f, r, lo + 1, hi);
    }
  }

  /** Pages a guest reads by continuing each query from the sequence the last one returned. */
  ghost predicate Iteration(log: Log, index: Index, f: Filter, instance: string, pages: seq<GuestPage>)
    decreases pages
  {
    && pages != [] && Answers(Matching(log, index, f), Shown(f, instance), pages[0])
    && (|pages| > 1 ==> pages[0].next.Some? && Iteration(log, index, Resume(f, pages[0].next.value), instance, pages[1..]))
  }

  function Joined(pages: seq<GuestPage>): (r: seq<Event>) {
    if pages == [] then [] else pages[0].events + Joined(pages[1..])
  }

  lemma SelectSplit(s: seq<Event>, n: nat, want: Event -> bool)
    requires n <= |s|
    ensures Select(s, want) == Select(s[..n], want) + Select(s[n..], want)
  {
    SelectPrefix(s, n, want);
    RangeSplit(s, 0, n, |s|, want);
    SelectSuffix(s, n, want);
  }

  lemma {:induction false} SelectSuffix(s: seq<Event>, n: nat, want: Event -> bool)
    requires n <= |s|
    ensures Range(s, n, |s|, want) == Select(s[n..], want)
    decreases |s| - n
  {
    if n < |s| {
      SelectSuffix(s, n + 1, want);
      assert s[n..] == [s[n]] + s[n + 1..];
      SelectCons(s[n], s[n + 1..], want);
    }
  }

  /**
    The query pager: reading to the end yields exactly the shown matching
    events, in order, with no gap or repeat, after at most one page more than
    there are matches. A reading cut short has yielded a prefix.
  */
  lemma {:induction false} PagesCover(log: Log, index: Index, f: Filter, instance: string, pages: seq<GuestPage>)
    requires Gapless(log) && Iteration(log, index, f, instance, pages)
    ensures Joined(pages) <= Select(Matching(log, index, f), Shown(f, instance))
    ensures pages[|pages| - 1].next.None? ==> Joined(pages) == Select(Matching(log, index, f), Shown(f, instance))
    ensures |pages| <= |Matching(log, index, f)| + 1
    decreases |pages|
  {
    var all, shown := Matching(log, index, f), Shown(f, instance);
    if all == [] {
      assert Joined(pages) == pages[0].events + Joined(pages[1..]);
    } else {
      var n :| 0 < n <= |all| && Covers(all, shown, pages[0], n);
      SelectSplit(all, n, shown);
      if |pages| > 1 {
        var r := Resume(f, pages[0].next.value);
        ResumeMatches(log, index, f, n);
        PagesCover(log, index, r, instance, pages[1..]);
        ShownSame(all[n..], f, r, instance);
      } else {
        assert Joined(pages) == pages[0].events + Joined([]);
      }
    }
  }

  lemma ShownSame(s: seq<Event>, f: Filter, r: Filter, instance: string)
    requires f.conversation == r.conversation
    ensures Select(s, Shown(f, instance)) == Select(s, Shown(r, instance))
  {
    SelectSame(s, |s|, Shown(f, instance), Shown(r, instance));
  }
}
