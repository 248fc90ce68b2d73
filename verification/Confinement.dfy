/** Routing a request under issued authority, and what it confines replies to. */
module Confinement {
  import opened Events
  import opened Authority
  import Decimal
  import Origins

  datatype Part = Part(location: seq<string>, prefix: string, optional: bool)

  datatype Binding = Binding(parts: seq<Part>, required: bool)

  /** Provider-declared projections from request arguments to grant selectors. */
  type Bindings = map<string, Binding>

  datatype Registration = Registration(instance: string, capabilities: seq<string>, bindings: map<string, Bindings>)

  datatype Routed = Deliver(instance: string) | NoProvider | Denied(reason: DenialReason)

  // Projection of request arguments onto grant selectors.

  /** A location by RFC 6901, split into its reference tokens. */
  function Resolve(v: Json, location: seq<string>): (r: Option<Json>) {
    if location == [] then Some(v)
    else if v.Obj? && location[0] in v.fields then Resolve(v.fields[location[0]], location[1..])
    else if v.Arr? && Index(v.items, location[0], 0).Some? then
      Resolve(v.items[Index(v.items, location[0], 0).value], location[1..])
    else None
  }

  /** The element an array token names: its decimal position. */
  function Index(items: seq<Json>, token: string, from: nat): (i: Option<nat>)
    requires from <= |items|
    ensures i.Some? ==> i.value < |items|
    decreases |items| - from
  {
    if from == |items| then None
    else if Decimal.Render(from) == token then Some(from)
    else Index(items, token, from + 1)
  }

  /** Strings and numbers can be part of a selector. */
  function Text(v: Json): (r: Option<string>) {
    match v
    case Str(s) => Some(s)
    case Int(n) => Some(if n < 0 then "-" + Decimal.Render(-n) else Decimal.Render(n))
    case _ => None
  }

  /** What one part adds to the selector; `None` refuses the request. */
  function Piece(part: Part, request: Json): (r: Option<string>) {
    var found := Resolve(request, part.location);
    if found.None? then (if part.optional then Some("") else None)
    else Prepend(part.prefix, Text(found.value))
  }

  function Prepend(head: string, tail: Option<string>): (r: Option<string>) {
    if tail.None? then None else Some(head + tail.value)
  }

  function Assembled(parts: seq<Part>, request: Json): (r: Option<string>) {
    if parts == [] then Some("")
    else if Piece(parts[0], request).None? then None
    else Prepend(Piece(parts[0], request).value, Assembled(parts[1..], request))
  }

  /** The selector a request presents for one binding. */
  function Selector(b: Binding, request: Json): (r: Option<string>) {
    if b.parts == [] then None else Assembled(b.parts, request)
  }

  // What the selector is, said without computing it.

  /** One reference token leads from a value to a member of it. */
  ghost predicate Child(v: Json, token: string, w: Json) {
    || (v.Obj? && token in v.fields && v.fields[token] == w)
    || (v.Arr? && exists i :: 0 <= i < |v.items| && Counts(token, i) && v.items[i] == w)
  }

  /** The token is the position in decimal. */
  predicate Counts(token: string, i: nat) {
    token == Decimal.Render(i)
  }

  /** The location leads from a value to `w`, token by token. */
  ghost predicate FoundAt(v: Json, location: seq<string>, w: Json) {
    if location == [] then v == w
    else exists next :: Child(v, location[0], next) && FoundAt(next, location[1..], w)
  }

  /** The text of a string, or of a number in decimal. */
  ghost predicate Prints(v: Json, text: string) {
    || v == Str(text)
    || (v.Int? && v.n >= 0 && text == Decimal.Render(v.n))
    || (v.Int? && v.n < 0 && text == "-" + Decimal.Render(-v.n))
  }

  /** A found value gives the prefix and its text; an optional part that is missing gives nothing. */
  ghost predicate Gives(part: Part, request: Json, text: string) {
    || (exists v, tail :: FoundAt(request, part.location, v) && Prints(v, tail) && text == part.prefix + tail)
    || (part.optional && text == "" && forall v :: !FoundAt(request, part.location, v))
  }

  function Joined(texts: seq<string>): (text: string) {
    if texts == [] then "" else texts[0] + Joined(texts[1..])
  }

  /** Each part gives its text. */
  ghost predicate AllGive(parts: seq<Part>, request: Json, texts: seq<string>) {
    |texts| == |parts| && forall i :: 0 <= i < |parts| ==> Gives(parts[i], request, texts[i])
  }

  /** The request presents the texts of all parts, in order, for a binding that has parts. */
  ghost predicate Presents(b: Binding, request: Json, text: string) {
    b.parts != [] && exists texts :: AllGive(b.parts, request, texts) && text == Joined(texts)
  }

  lemma {:induction false} IndexMeans(items: seq<Json>, token: string, from: nat)
    requires from <= |items|
    ensures Index(items, token, from).Some? <==> exists i :: from <= i < |items| && Counts(token, i)
    ensures Index(items, token, from).Some? ==> Counts(token, Index(items, token, from).value)
    decreases |items| - from
  {
    if from < |items| && !Counts(token, from) {
      IndexMeans(items, token, from + 1);
    }
  }

  lemma ChildUnique(v: Json, token: string, w: Json)
    requires v.Arr? && Child(v, token, w)
    ensures Index(v.items, token, 0).Some? && v.items[Index(v.items, token, 0).value] == w
  {
    var i :| 0 <= i < |v.items| && Counts(token, i) && v.items[i] == w;
    IndexMeans(v.items, token, 0);
    Decimal.RenderInjective(i, Index(v.items, token, 0).value);
  }

  lemma {:induction false} ResolveMeans(v: Json, location: seq<string>, w: Json)
    ensures Resolve(v, location) == Some(w) <==> FoundAt(v, location, w)
    decreases |location|
  {
    if location != [] {
      if v.Arr? {
        IndexMeans(v.items, location[0], 0);
      }
      forall x | Child(v, location[0], x)
        ensures Resolve(v, location) == Resolve(x, location[1..])
      {
        if v.Arr? {
          ChildUnique(v, location[0], x);
        }
      }
      forall x
        ensures Resolve(x, location[1..]) == Some(w) <==> FoundAt(x, location[1..], w)
      {
        ResolveMeans(x, location[1..], w);
      }
    }
  }

  lemma TextMeans(v: Json, text: string)
    ensures Text(v) == Some(text) <==> Prints(v, text)
  {
  }

  /** The text a part gives is the piece, and there is no other. */
  lemma PieceMeans(part: Part, request: Json, text: string)
    ensures Piece(part, request) == Some(text) <==> Gives(part, request, text)
  {
    var found := Resolve(request, part.location);
    if found.Some? {
      ResolveMeans(request, part.location, found.value);
      PieceFound(part, request, text, found.value);
    } else {
      forall v
        ensures !FoundAt(request, part.location, v)
      {
        ResolveMeans(request, part.location, v);
      }
    }
  }

  lemma PieceFound(part: Part, request: Json, text: string, v: Json)
    requires Resolve(request, part.location) == Some(v) && FoundAt(request, part.location, v)
    ensures Piece(part, request) == Some(text) <==> Gives(part, request, text)
  {
    if Gives(part, request, text) {
      var w, tail :| FoundAt(request, part.location, w) && Prints(w, tail) && text == part.prefix + tail;
      ResolveMeans(request, part.location, w);
      TextMeans(v, tail);
    } else if Text(v).Some? {
      TextMeans(v, Text(v).value);
    }
  }

  lemma {:induction false} AssembledMeans(parts: seq<Part>, request: Json, texts: seq<string>)
    requires AllGive(parts, request, texts)
    ensures Assembled(parts, request) == Some(Joined(texts))
  {
    if parts != [] {
      PieceMeans(parts[0], request, texts[0]);
      AssembledMeans(parts[1..], request, texts[1..]);
    }
  }

  lemma {:induction false} AssembledGives(parts: seq<Part>, request: Json) returns (texts: seq<string>)
    requires Assembled(parts, request).Some?
    ensures AllGive(parts, request, texts) && Assembled(parts, request) == Some(Joined(texts))
  {
    texts := [];
    if parts != [] {
      var rest := AssembledGives(parts[1..], request);
      texts := [Piece(parts[0], request).value] + rest;
      PieceMeans(parts[0], request, texts[0]);
      assert forall i :: 0 < i < |parts| ==> parts[i] == parts[1..][i - 1] && texts[i] == rest[i - 1];
    }
  }

  /** The selector is what the request presents, and there is none exactly when it presents nothing. */
  lemma SelectorMeans(b: Binding, request: Json, text: string)
    ensures Selector(b, request) == Some(text) <==> Presents(b, request, text)
  {
    if b.parts != [] {
      if Selector(b, request) == Some(text) {
        var texts := AssembledGives(b.parts, request);
      }
      forall texts | AllGive(b.parts, request, texts)
        ensures Selector(b, request) == Some(Joined(texts))
      {
        AssembledMeans(b.parts, request, texts);
      }
    }
  }

  lemma PrependTwice(a: string, b: string, tail: Option<string>)
    ensures Prepend(a, Prepend(b, tail)) == Prepend(a + b, tail) && Prepend("", tail) == tail && a + "" == a
  {
    if tail.Some? {
      assert a + (b + tail.value) == a + b + tail.value;
      assert "" + tail.value == tail.value;
    }
  }

  /** The selector, built part by part; `None` refuses the request. */
  method Assemble(b: Binding, request: Json) returns (r: Option<string>)
    ensures forall text :: r == Some(text) <==> Presents(b, request, text)
    ensures r == Selector(b, request)
  {
    forall text
      ensures Selector(b, request) == Some(text) <==> Presents(b, request, text)
    {
      SelectorMeans(b, request, text);
    }
    if b.parts == [] {
      return None;
    }
    var selector := "";
    PrependTwice("", "", Assembled(b.parts, request));
    assert b.parts[0..] == b.parts;
    for i := 0 to |b.parts|
      invariant Assembled(b.parts, request) == Prepend(selector, Assembled(b.parts[i..], request))
    {
      assert b.parts[i..][1..] == b.parts[i + 1..];
      var piece := Piece(b.parts[i], request);
      if piece.None? {
        return None;
      }
      PrependTwice(selector, piece.value, Assembled(b.parts[i + 1..], request));
      selector := selector + piece.value;
    }
    PrependTwice(selector, "", None);
    return Some(selector);
  }

  /** A binding that refuses the request under a grant's constraints. */
  predicate Blocks(constraints: map<string, Json>, request: Json, key: string, b: Binding) {
    if key in constraints then Selector(b, request).None? else b.required
  }

  function Selectors(bindings: Bindings, constraints: map<string, Json>, request: Json): (r: map<string, Json>)
    requires !exists k :: k in bindings && Blocks(constraints, request, k, bindings[k])
  {
    map k | k in bindings && k in constraints ::
      assert !Blocks(constraints, request, k, bindings[k]);
      Str(Selector(bindings[k], request).value)
  }

  /** Collects the selectors, binding by binding; `None` when one refuses. */
  method Project(bindings: Bindings, constraints: map<string, Json>, request: Json) returns (r: Option<map<string, Json>>)
    ensures r.None? <==> exists k :: k in bindings && Blocks(constraints, request, k, bindings[k])
    ensures r.Some? ==> r.value == Selectors(bindings, constraints, request)
  {
    var selectors := map[];
    var todo := bindings.Keys;
    while todo != {}
      invariant todo <= bindings.Keys
      invariant forall k :: k in bindings && k !in todo ==> !Blocks(constraints, request, k, bindings[k])
      invariant forall k :: k in selectors <==> k in bindings && k !in todo && k in constraints
      invariant forall k :: k in selectors ==> selectors[k] == Str(Selector(bindings[k], request).value)
      decreases todo
    {
      var key :| key in todo;
      todo := todo - {key};
      if key !in constraints {
        if bindings[key].required {
          return None;
        }
      } else {
        var selector := Assemble(bindings[key], request);
        if selector.None? {
          return None;
        }
        selectors := selectors[key := Str(selector.value)];
      }
    }
    return Some(selectors);
  }

  /** Every constraint is an array that contains the selector of the same name. */
  predicate Matches(constraints: map<string, Json>, selectors: map<string, Json>) {
    forall k :: k in constraints ==> constraints[k].Arr? && k in selectors && selectors[k] in constraints[k].items
  }

  /** The composed policy: project the arguments, then match the allowlists. */
  function Allows(bindings: Option<Bindings>, request: Json, g: Grant): (r: Result<bool, string>) {
    if g.constraints.None? then Err("constraints do not parse")
    else if !g.constraints.value.Obj? then Err("constraints must be an object")
    else
      var constraints := g.constraints.value.fields;
      var declared := if bindings.Some? then bindings.value else map[];
      if exists k :: k in declared && Blocks(constraints, request, k, declared[k]) then Ok(false)
      else Ok(Matches(constraints, Selectors(declared, constraints, request)))
  }

  /** The same, run the way the router runs it. */
  method CheckGrant(bindings: Option<Bindings>, request: Json, g: Grant) returns (r: Result<bool, string>)
    ensures r == Allows(bindings, request, g)
  {
    if g.constraints.None? {
      return Err("constraints do not parse");
    }
    if !g.constraints.value.Obj? {
      return Err("constraints must be an object");
    }
    var constraints := g.constraints.value.fields;
    var selectors := Project(if bindings.Some? then bindings.value else map[], constraints, request);
    if selectors.None? {
      return Ok(false);
    }
    return Ok(Matches(constraints, selectors.value));
  }

  /** The grant's object of lists: each names a binding whose presented text it contains, and none that is required is left out. */
  ghost predicate Lists(declared: Bindings, request: Json, constraints: map<string, Json>) {
    && (forall k :: k in declared && declared[k].required ==> k in constraints)
    && forall k :: k in constraints ==> k in declared && Contains(constraints[k], declared[k], request)
  }

  ghost predicate Contains(list: Json, b: Binding, request: Json) {
    list.Arr? && exists text :: Presents(b, request, text) && Str(text) in list.items
  }

  lemma ContainsMeans(list: Json, b: Binding, request: Json)
    ensures Contains(list, b, request) <==>
              list.Arr? && Selector(b, request).Some? && Str(Selector(b, request).value) in list.items
  {
    forall text
      ensures Selector(b, request) == Some(text) <==> Presents(b, request, text)
    {
      SelectorMeans(b, request, text);
    }
  }

  lemma ListsMeans(declared: Bindings, request: Json, constraints: map<string, Json>)
    ensures Lists(declared, request, constraints) <==>
              && !(exists k :: k in declared && Blocks(constraints, request, k, declared[k]))
              && Matches(constraints, Selectors(declared, constraints, request))
  {
    if Lists(declared, request, constraints) {
      forall k | k in declared
        ensures !Blocks(constraints, request, k, declared[k])
      {
        ContainsMeans(if k in constraints then constraints[k] else Null, declared[k], request);
      }
      forall k | k in constraints
        ensures constraints[k].Arr? && k in declared && Str(Selector(declared[k], request).value) in constraints[k].items
      {
        ContainsMeans(constraints[k], declared[k], request);
      }
    } else if forall k :: k in declared ==> !Blocks(constraints, request, k, declared[k]) {
      Unlisted(declared, request, constraints);
    }
  }

  lemma Unlisted(declared: Bindings, request: Json, constraints: map<string, Json>)
    requires !Lists(declared, request, constraints)
    requires forall k :: k in declared ==> !Blocks(constraints, request, k, declared[k])
    ensures !Matches(constraints, Selectors(declared, constraints, request))
  {
    var k :| k in constraints && !(k in declared && Contains(constraints[k], declared[k], request));
    if k in declared {
      ContainsMeans(constraints[k], declared[k], request);
    }
  }

  /** What a grant lets through, and when its constraints are an error. */
  lemma AllowsMeans(bindings: Option<Bindings>, request: Json, g: Grant)
    ensures var declared := if bindings.Some? then bindings.value else map[];
            Allows(bindings, request, g) == Ok(true) <==>
              exists constraints :: g.constraints == Some(Obj(constraints)) && Lists(declared, request, constraints)
    ensures Allows(bindings, request, g).Err? <==> forall constraints :: g.constraints != Some(Obj(constraints))
  {
    if g.constraints.Some? && g.constraints.value.Obj? {
      var constraints := g.constraints.value.fields;
      assert g.constraints == Some(Obj(constraints));
      ListsMeans(if bindings.Some? then bindings.value else map[], request, constraints);
    }
  }

  // Routing.

  function Candidates(registrations: seq<Registration>, capability: string): (r: seq<Registration>) {
    if registrations == [] then []
    else
      var rest := Candidates(registrations[1..], capability);
      if capability in registrations[0].capabilities then [registrations[0]] + rest else rest
  }

  function Arguments(e: Event): (v: Json) {
    if e.request.payload.Doc? then e.request.payload.value.At("arguments") else Null
  }

  function BindingsFor(r: Registration, capability: string): (b: Option<Bindings>) {
    if capability in r.bindings then Some(r.bindings[capability]) else None
  }

  function PolicyFor(r: Registration, capability: string, arguments: Json): (p: Policy) {
    (g: Grant) => Allows(BindingsFor(r, capability), arguments, g)
  }

  /** What routing a request comes to. */
  ghost predicate Routes(registrations: seq<Registration>, e: Event, a: Authority, now: int, routed: Routed) {
    if Field(e, "capability").None? then routed == NoProvider
    else
      var capability := Field(e, "capability").value;
      var candidates := Candidates(registrations, capability);
      if |candidates| != 1 then routed == NoProvider
      else
        var only := candidates[0];
        exists d: Decision :: routed == (if d.Allow? then Deliver(only.instance) else Denied(d.reason))
          && Decided(a, capability, Principal(Component, only.instance), PolicyFor(only, capability, Arguments(e)), now, d)
  }

  method RouteRequest(registrations: seq<Registration>, e: Event, a: Authority, now: int) returns (routed: Routed)
    ensures Routes(registrations, e, a, now, routed)
  {
    var capability := Field(e, "capability");
    if capability.None? {
      return NoProvider;
    }
    var candidates := Candidates(registrations, capability.value);
    if |candidates| != 1 {
      return NoProvider;
    }
    var only := candidates[0];
    var provider := Principal(Component, only.instance);
    var d := Decide(a, capability.value, provider, PolicyFor(only, capability.value, Arguments(e)), now);
    routed := if d.Allow? then Deliver(only.instance) else Denied(d.reason);
  }

  /** The one registration that offers the capability. */
  ghost predicate Sole(registrations: seq<Registration>, capability: string, only: Registration) {
    exists i :: 0 <= i < |registrations| && registrations[i] == only && capability in only.capabilities
      && forall j :: 0 <= j < |registrations| && j != i ==> capability !in registrations[j].capabilities
  }

  lemma {:induction false} NoCandidates(registrations: seq<Registration>, capability: string)
    ensures Candidates(registrations, capability) == [] <==>
              forall j :: 0 <= j < |registrations| ==> capability !in registrations[j].capabilities
  {
    if registrations != [] {
      NoCandidates(registrations[1..], capability);
      assert registrations == [registrations[0]] + registrations[1..];
    }
  }

  lemma {:induction false} CandidatesMean(registrations: seq<Registration>, capability: string, only: Registration)
    ensures Candidates(registrations, capability) == [only] <==> Sole(registrations, capability, only)
  {
    if registrations != [] {
      var rest := registrations[1..];
      assert forall i :: 0 < i < |registrations| ==> registrations[i] == rest[i - 1];
      NoCandidates(rest, capability);
      CandidatesMean(rest, capability, only);
      SoleShifts(registrations, capability, only);
    }
  }

  lemma SoleShifts(registrations: seq<Registration>, capability: string, only: Registration)
    requires registrations != []
    ensures Sole(registrations, capability, only) <==>
              if capability in registrations[0].capabilities then
                registrations[0] == only && forall j :: 0 <= j < |registrations| - 1 ==> capability !in registrations[1..][j].capabilities
              else Sole(registrations[1..], capability, only)
  {
    var rest := registrations[1..];
    assert forall i :: 0 < i < |registrations| ==> registrations[i] == rest[i - 1];
    if capability !in registrations[0].capabilities && Sole(rest, capability, only) {
      var i :| 0 <= i < |rest| && rest[i] == only && capability in only.capabilities
        && forall j :: 0 <= j < |rest| && j != i ==> capability !in rest[j].capabilities;
      assert registrations[i + 1] == only;
    }
  }

  /** A grant for this capability that is for any provider or this one, and whose lists the request meets. */
  ghost predicate LetsThrough(grants: map<string, seq<Grant>>, capability: string, only: Registration, arguments: Json, g: Grant) {
    && capability in grants && g in grants[capability]
    && (g.provider == None || g.provider == Some(Principal(Component, only.instance)))
    && exists constraints :: g.constraints == Some(Obj(constraints))
         && Lists(if capability in only.bindings then only.bindings[capability] else map[], arguments, constraints)
  }

  /** The authority has not expired, its depth is within bounds, and one of its grants lets the request through. */
  ghost predicate Empowered(a: Authority, capability: string, only: Registration, arguments: Json, now: int) {
    && (forall at :: a.expiresAt == Some(at) ==> now < at) && a.currentDepth <= a.maxDepth
    && exists g :: LetsThrough(a.grants, capability, only, arguments, g)
  }

  /** With a sole provider of its capability, a request is delivered, and to that one, exactly if the authority empowers it. */
  lemma DeliversIff(registrations: seq<Registration>, e: Event, a: Authority, capability: string, only: Registration, now: int, routed: Routed)
    requires Routes(registrations, e, a, now, routed) && Field(e, "capability") == Some(capability) && Sole(registrations, capability, only)
    ensures routed.Deliver? <==> Empowered(a, capability, only, Arguments(e), now)
    ensures routed.Deliver? ==> routed.instance == only.instance
  {
    CandidatesMean(registrations, capability, only);
    var provider, policy := Principal(Component, only.instance), PolicyFor(only, capability, Arguments(e));
    var d: Decision :| routed == (if d.Allow? then Deliver(only.instance) else Denied(d.reason))
      && Decided(a, capability, provider, policy, now, d);
    AllowedIff(a, capability, provider, policy, now, d);
    forall g
      ensures Lets(a.grants, capability, provider, policy, g) <==> LetsThrough(a.grants, capability, only, Arguments(e), g)
    {
      AllowsMeans(BindingsFor(only, capability), Arguments(e), g);
    }
  }

  /** Without a capability name, or a sole provider of it, nothing is delivered. */
  lemma DeliversToSole(registrations: seq<Registration>, e: Event, a: Authority, now: int, routed: Routed)
    returns (capability: string, only: Registration)
    requires Routes(registrations, e, a, now, routed) && routed.Deliver?
    ensures Field(e, "capability") == Some(capability) && Sole(registrations, capability, only) && routed == Deliver(only.instance)
  {
    capability := Field(e, "capability").value;
    only := Candidates(registrations, capability)[0];
    CandidatesMean(registrations, capability, only);
  }

  /** The arguments are the payload's member of that name, or null. */
  lemma ArgumentsMean(e: Event, arguments: Json)
    requires arguments != Null
    ensures Arguments(e) == arguments <==>
              exists fields :: e.request.payload == Doc(Obj(fields)) && "arguments" in fields && fields["arguments"] == arguments
  {
    if Arguments(e) == arguments {
      assert e.request.payload == Doc(Obj(e.request.payload.value.fields));
    }
  }

  // What an observation's authority lets through.

  const CONVERSATIONS := "conversation_ids"

  /** The provider's bindings present exactly this conversation and demand nothing else. */
  ghost predicate Addresses(only: Registration, capability: string, arguments: Json, conversation: string) {
    && capability in only.bindings && CONVERSATIONS in only.bindings[capability]
    && Presents(only.bindings[capability][CONVERSATIONS], arguments, conversation)
    && forall k :: k in only.bindings[capability] && only.bindings[capability][k].required ==> k == CONVERSATIONS
  }

  /** A single list with a single entry: what passes it. */
  lemma OneList(declared: Bindings, arguments: Json, conversation: string)
    ensures Lists(declared, arguments, map[CONVERSATIONS := Arr([Str(conversation)])]) <==>
              && CONVERSATIONS in declared && Presents(declared[CONVERSATIONS], arguments, conversation)
              && forall k :: k in declared && declared[k].required ==> k == CONVERSATIONS
  {
    var constraints := map[CONVERSATIONS := Arr([Str(conversation)])];
    assert Str(conversation) in constraints[CONVERSATIONS].items;
  }

  lemma ReplyGrantLets(grants: map<string, seq<Grant>>, capability: string, only: Registration, arguments: Json, reply: string, conversation: string)
    requires capability in grants
    requires grants[capability] == [Grant(capability, Some(Principal(Component, reply)),
                                          Some(Obj(map["conversation_ids" := Arr([Str(conversation)])])))]
    ensures (exists g :: LetsThrough(grants, capability, only, arguments, g)) <==>
              only.instance == reply && Addresses(only, capability, arguments, conversation)
  {
    var constraints := map["conversation_ids" := Arr([Str(conversation)])];
    var g := Grant(capability, Some(Principal(Component, reply)), Some(Obj(constraints)));
    OneList(if capability in only.bindings then only.bindings[capability] else map[], arguments, conversation);
    if only.instance == reply && Addresses(only, capability, arguments, conversation) {
      assert LetsThrough(grants, capability, only, arguments, g);
    }
  }

  /**
    The authority of an observation empowers a reply capability of its
    connector exactly when the observation does not say it is untrusted, the
    provider is the connector's reply component, and the arguments present the
    observation's own conversation.
  */
  lemma ReplyConfined(config: Config, root: Event, connector: Connector, conversation: string, sender: string,
                      capability: string, only: Registration, arguments: Json, now: int)
    requires Observed(config, root, connector, conversation, sender) && capability in connector.replyCapabilities
    ensures Issue(config, root).Ok?
    ensures Empowered(Issue(config, root).value, capability, only, arguments, now) <==>
              && !SaysUntrusted(root.request.payload) && only.instance == connector.reply
              && Addresses(only, capability, arguments, conversation)
  {
    IssueOk(config, root, connector, conversation, sender);
    var a := Issue(config, root).value;
    if !SaysUntrusted(root.request.payload) {
      ReplyGrantLets(a.grants, capability, only, arguments, connector.reply, conversation);
    }
  }

  /** It empowers any other capability exactly when it does not say so and a standing grant lets the request through. */
  lemma StandingGrants(config: Config, root: Event, connector: Connector, conversation: string, sender: string,
                       capability: string, only: Registration, arguments: Json, now: int)
    requires Observed(config, root, connector, conversation, sender) && capability !in connector.replyCapabilities
    ensures Issue(config, root).Ok?
    ensures Empowered(Issue(config, root).value, capability, only, arguments, now) <==>
              !SaysUntrusted(root.request.payload) && exists g :: LetsThrough(config.grants, capability, only, arguments, g)
  {
    IssueOk(config, root, connector, conversation, sender);
    var a := Issue(config, root).value;
    if !SaysUntrusted(root.request.payload) {
      assert capability in a.grants <==> capability in config.grants;
      assert forall g :: LetsThrough(config.grants, capability, only, arguments, g) <==> LetsThrough(a.grants, capability, only, arguments, g);
    }
  }

  // End to end: resolve the request's authority, then route it.

  ghost predicate Delivered(config: Config, store: Origins.Store, request: Origins.Stored, registrations: seq<Registration>, now: int, instance: string) {
    exists a: Authority :: Origins.ResolveFrom(config, store, request, None, Origins.CHAIN_LIMIT) == Ok(a)
      && Routes(registrations, request.event, a, now, Deliver(instance))
  }

  lemma PowerlessRunsNothing(registrations: seq<Registration>, e: Event, a: Authority, now: int, routed: Routed)
    requires Powerless(a) && Routes(registrations, e, a, now, routed)
    ensures !routed.Deliver?
  {
    if routed.Deliver? {
      var capability, only := DeliversToSole(registrations, e, a, now, routed);
      DeliversIff(registrations, e, a, capability, only, now, routed);
    }
  }

  /** A request whose chain ends in an observation that says it is untrusted is never delivered. */
  lemma UntrustedRunsNothing(config: Config, store: Origins.Store, chain: seq<Origins.Stored>,
                             registrations: seq<Registration>, now: int, instance: string)
    requires Origins.Chain(config, store, chain) && |chain| <= 4096
    requires SaysUntrusted(chain[|chain| - 1].event.request.payload)
    ensures !Delivered(config, store, chain[0], registrations, now, instance)
  {
    Origins.ResolveComplete(config, store, chain, None, Origins.CHAIN_LIMIT);
    forall a | Origins.ResolveFrom(config, store, chain[0], None, Origins.CHAIN_LIMIT) == Ok(a)
        && Routes(registrations, chain[0].event, a, now, Deliver(instance))
      ensures false
    {
      IssueMeans(config, chain[|chain| - 1].event, a);
      PowerlessRunsNothing(registrations, chain[0].event, a, now, Deliver(instance));
    }
  }

  /** A delivered request goes back to an observation that does not say it is untrusted; a reply, to one of the same conversation. */
  ghost predicate Permitted(config: Config, store: Origins.Store, request: Origins.Stored, registrations: seq<Registration>, instance: string,
                            chain: seq<Origins.Stored>, connector: Connector, conversation: string, sender: string) {
    && Origins.Chain(config, store, chain) && chain[0] == request
    && Observed(config, chain[|chain| - 1].event, connector, conversation, sender)
    && !SaysUntrusted(chain[|chain| - 1].event.request.payload)
    && Field(request.event, "capability").Some?
    && var capability := Field(request.event, "capability").value;
       capability in connector.replyCapabilities ==>
         exists only :: Sole(registrations, capability, only) && only.instance == instance == connector.reply
           && Addresses(only, capability, Arguments(request.event), conversation)
  }

  lemma ReplyEndToEnd(config: Config, store: Origins.Store, request: Origins.Stored, registrations: seq<Registration>, now: int, instance: string)
    ensures Delivered(config, store, request, registrations, now, instance) ==>
              exists chain, connector, conversation, sender ::
                Permitted(config, store, request, registrations, instance, chain, connector, conversation, sender)
  {
    if Delivered(config, store, request, registrations, now, instance) {
      var a: Authority :| Origins.ResolveFrom(config, store, request, None, Origins.CHAIN_LIMIT) == Ok(a)
        && Routes(registrations, request.event, a, now, Deliver(instance));
      var chain := Origins.ResolveSound(config, store, request, None, Origins.CHAIN_LIMIT);
      var root := chain[|chain| - 1].event;
      if SaysUntrusted(root.request.payload) {
        UntrustedRunsNothing(config, store, chain, registrations, now, instance);
      }
      var capability, only := DeliversToSole(registrations, request.event, a, now, Deliver(instance));
      DeliversIff(registrations, request.event, a, capability, only, now, Deliver(instance));
      var connector, conversation, sender := Traced(config, root, a, capability, only, Arguments(request.event), now);
      assert Permitted(config, store, request, registrations, instance, chain, connector, conversation, sender);
    }
  }

  lemma Traced(config: Config, root: Event, a: Authority, capability: string, only: Registration, arguments: Json, now: int)
    returns (connector: Connector, conversation: string, sender: string)
    requires Issue(config, root) == Ok(a) && Empowered(a, capability, only, arguments, now)
    ensures Observed(config, root, connector, conversation, sender)
    ensures capability in connector.replyCapabilities ==>
              only.instance == connector.reply && Addresses(only, capability, arguments, conversation)
  {
    IssueMeans(config, root, a);
    connector, conversation, sender := Witness(config, root, a);
    if capability in connector.replyCapabilities {
      ReplyConfined(config, root, connector, conversation, sender, capability, only, arguments, now);
    }
  }

  lemma Witness(config: Config, root: Event, a: Authority) returns (connector: Connector, conversation: string, sender: string)
    requires Issues(config, root, a)
    ensures Observed(config, root, connector, conversation, sender)
  {
    connector, conversation, sender :|
      && Observed(config, root, connector, conversation, sender)
      && Speaks(config, root, connector, conversation, sender, a)
      && if SaysUntrusted(root.request.payload) then Powerless(a) else Empowers(config, connector, conversation, a);
  }
}
