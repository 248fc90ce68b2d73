/** Authority issued for an observation, and the decision it yields. */
module Authority {
  import opened Events

  /** `constraints` is `None` when the stored bytes do not parse. */
  datatype Grant = Grant(capability: string, provider: Option<Principal>, constraints: Option<Json>)

  datatype Audience = Audience(connector: Principal, conversation: string, recipients: seq<Principal>)

  datatype Origin = Origin(principal: Principal, connector: Principal, conversation: string, source: string, trusted: bool)

  datatype Authority = Authority(
    id: string,
    agent: Principal,
    origin: Origin,
    grants: map<string, seq<Grant>>,
    audiences: seq<Audience>,
    issuedAt: int,
    expiresAt: Option<int>,
    maxDepth: nat,
    currentDepth: nat
  )

  datatype DenialReason = MissingGrant | ConstraintMismatch | Expired | DepthExceeded | PolicyError(message: string)

  datatype Decision = Allow(grant: Grant) | Deny(reason: DenialReason)

  /** A policy's answer about one grant. */
  type Policy = Grant -> Result<bool, string>

  predicate ExpiredAt(a: Authority, now: int) {
    a.expiresAt.Some? && now >= a.expiresAt.value
  }

  predicate Covers(g: Grant, provider: Principal) {
    g.provider.None? || g.provider.value == provider
  }

  /** A grant for this provider that the policy accepts. */
  predicate Permits(g: Grant, provider: Principal, policy: Policy) {
    Covers(g, provider) && policy(g) == Ok(true)
  }

  predicate Fails(g: Grant, provider: Principal, policy: Policy) {
    Covers(g, provider) && policy(g).Err?
  }

  /**
    Decides a request: the first permitting grant allows it; otherwise the
    last policy error, a constraint mismatch or a missing grant is reported.
  */
  method Decide(a: Authority, capability: string, provider: Principal, policy: Policy, now: int) returns (d: Decision)
    ensures Decided(a, capability, provider, policy, now, d)
  {
    if ExpiredAt(a, now) {
      return Deny(Expired);
    }
    if a.currentDepth > a.maxDepth {
      return Deny(DepthExceeded);
    }
    if capability !in a.grants {
      return Deny(MissingGrant);
    }
    var grants := a.grants[capability];
    var sawProvider := false;
    var policyError := None;
    ghost var failed := 0;
    for i := 0 to |grants|
      invariant forall k :: 0 <= k < i ==> !Permits(grants[k], provider, policy)
      invariant sawProvider <==> exists k :: 0 <= k < i && Covers(grants[k], provider)
      invariant policyError.None? ==> forall k :: 0 <= k < i ==> !Fails(grants[k], provider, policy)
      invariant policyError.Some? ==>
                  && failed < i && Fails(grants[failed], provider, policy) && policyError == Some(policy(grants[failed]).error)
                  && forall k :: failed < k < i ==> !Fails(grants[k], provider, policy)
    {
      if Covers(grants[i], provider) {
        sawProvider := true;
        match policy(grants[i]) {
          case Ok(allowed) =>
            if allowed {
              return Allow(grants[i]);
            }
          case Err(error) =>
            policyError := Some(error);
            failed := i;
        }
      }
    }
    if policyError.Some? {
      return Deny(PolicyError(policyError.value));
    }
    return Deny(if sawProvider then ConstraintMismatch else MissingGrant);
  }

  /** What a decision means. */
  ghost predicate Decided(a: Authority, capability: string, provider: Principal, policy: Policy, now: int, d: Decision) {
    if ExpiredAt(a, now) then d == Deny(Expired)
    else if a.currentDepth > a.maxDepth then d == Deny(DepthExceeded)
    else if capability !in a.grants then d == Deny(MissingGrant)
    else DecidedAmong(a.grants[capability], provider, policy, d)
  }

  ghost predicate DecidedAmong(grants: seq<Grant>, provider: Principal, policy: Policy, d: Decision) {
    match d
    case Allow(g) =>
      exists i :: 0 <= i < |grants| && g == grants[i] && Permits(g, provider, policy)
        && forall k :: 0 <= k < i ==> !Permits(grants[k], provider, policy)
    case Deny(reason) =>
      && (forall k :: 0 <= k < |grants| ==> !Permits(grants[k], provider, policy))
      && match reason
         case PolicyError(message) =>
           exists i :: 0 <= i < |grants| && Fails(grants[i], provider, policy) && message == policy(grants[i]).error
             && forall k :: i < k < |grants| ==> !Fails(grants[k], provider, policy)
         case ConstraintMismatch =>
           && (exists k :: 0 <= k < |grants| && Covers(grants[k], provider))
           && forall k :: 0 <= k < |grants| ==> !Fails(grants[k], provider, policy)
         case MissingGrant => forall k :: 0 <= k < |grants| ==> !Covers(grants[k], provider)
         case _ => false
  }

  /** The decision is determined by its meaning. */
  lemma DecisionUnique(a: Authority, capability: string, provider: Principal, policy: Policy, now: int, d: Decision, e: Decision)
    requires Decided(a, capability, provider, policy, now, d) && Decided(a, capability, provider, policy, now, e)
    ensures d == e
  {
    if !ExpiredAt(a, now) && a.currentDepth <= a.maxDepth && capability in a.grants && d.Allow? && e.Allow? {
      var grants := a.grants[capability];
      var i :| 0 <= i < |grants| && d.grant == grants[i] && Permits(d.grant, provider, policy)
        && forall k :: 0 <= k < i ==> !Permits(grants[k], provider, policy);
      var j :| 0 <= j < |grants| && e.grant == grants[j] && Permits(e.grant, provider, policy)
        && forall k :: 0 <= k < j ==> !Permits(grants[k], provider, policy);
      assert i == j;
    }
  }

  /** The grant is for any provider or for this one, and the policy accepts it. */
  ghost predicate Lets(grants: map<string, seq<Grant>>, capability: string, provider: Principal, policy: Policy, g: Grant) {
    && capability in grants && g in grants[capability]
    && (g.provider == None || g.provider == Some(provider)) && policy(g) == Ok(true)
  }

  /** A request is allowed exactly while the authority lasts, within its depth, and with a grant that lets it through. */
  lemma AllowedIff(a: Authority, capability: string, provider: Principal, policy: Policy, now: int, d: Decision)
    requires Decided(a, capability, provider, policy, now, d)
    ensures d.Allow? <==>
              && (forall at :: a.expiresAt == Some(at) ==> now < at) && a.currentDepth <= a.maxDepth
              && exists g :: Lets(a.grants, capability, provider, policy, g)
    ensures d.Allow? ==> Lets(a.grants, capability, provider, policy, d.grant)
    ensures d == Deny(Expired) <==> exists at :: a.expiresAt == Some(at) && at <= now
  {
    if d.Allow? {
      assert Lets(a.grants, capability, provider, policy, d.grant);
    } else if g :| Lets(a.grants, capability, provider, policy, g) {
      var grants := a.grants[capability];
      var i :| 0 <= i < |grants| && grants[i] == g;
      assert Permits(grants[i], provider, policy);
    }
  }

  // Issuing.

  /** One configured way in and out. */
  datatype Connector = Connector(
    provider: string,
    inheritsOrigin: bool,
    ingress: string,
    reply: string,
    replyCapabilities: seq<string>
  )

  datatype Config = Config(agent: Principal, connectors: seq<Connector>, grants: map<string, seq<Grant>>, maxDepth: nat)

  datatype OriginError =
    | OtherAgent | UnrecognizedConnector | InvalidObservation | ChangesOrigin | NeedsOriginId
    | NoOrigin | NotFound | InvalidChain | ChainTooLong
    | Unsupported | MissingConversation | MissingSender

  /** The connector whose ingress component appended the observation. */
  function ConnectorOf(connectors: seq<Connector>, actor: Principal): (c: Option<Connector>)
    ensures c.Some? ==> c.value in connectors && actor == Principal(Component, c.value.ingress)
    ensures c.None? <==> forall x :: x in connectors ==> actor != Principal(Component, x.ingress)
  {
    if connectors == [] then None
    else if actor == Principal(Component, connectors[0].ingress) then Some(connectors[0])
    else ConnectorOf(connectors[1..], actor)
  }

  predicate Trusted(value: Json) {
    value.Get("trusted").None? || value.Get("trusted").value == Bool(true)
  }

  /** Replies remain confined to the originating conversation. */
  function ReplyGrant(connector: Connector, capability: string, conversation: string): (g: Grant) {
    Grant(capability, Some(Principal(Component, connector.reply)),
          Some(Obj(map["conversation_ids" := Arr([Str(conversation)])])))
  }

  /** Standing grants, with each reply capability replaced by its confined grant. */
  function OriginGrants(config: Config, connector: Connector, conversation: string, trusted: bool): (g: map<string, seq<Grant>>) {
    if !trusted then map[] else config.grants + Confined(connector, conversation, connector.replyCapabilities)
  }

  function Confined(connector: Connector, conversation: string, capabilities: seq<string>): (g: map<string, seq<Grant>>) {
    map c | c in capabilities :: [ReplyGrant(connector, c, conversation)]
  }

  lemma ConfinedGrows(base: map<string, seq<Grant>>, connector: Connector, conversation: string, capabilities: seq<string>, i: nat)
    requires i < |capabilities|
    ensures base + Confined(connector, conversation, capabilities[..i + 1]) ==
              (base + Confined(connector, conversation, capabilities[..i]))
                [capabilities[i] := [ReplyGrant(connector, capabilities[i], conversation)]]
  {
    assert capabilities[..i + 1] == capabilities[..i] + [capabilities[i]];
  }

  /** The loop that inserts the confined grants one capability at a time. */
  method BuildGrants(config: Config, connector: Connector, conversation: string, trusted: bool)
    returns (grants: map<string, seq<Grant>>)
    ensures grants == OriginGrants(config, connector, conversation, trusted)
  {
    if !trusted {
      return map[];
    }
    grants := config.grants;
    var caps := connector.replyCapabilities;
    for i := 0 to |caps|
      invariant grants == config.grants + Confined(connector, conversation, caps[..i])
    {
      ConfinedGrows(config.grants, connector, conversation, caps, i);
      grants := grants[caps[i] := [ReplyGrant(connector, caps[i], conversation)]];
    }
    assert caps[..|caps|] == caps;
  }

  function Issue(config: Config, e: Event): (r: Result<Authority, OriginError>) {
    var connector := ConnectorOf(config.connectors, e.request.actor);
    if connector.None? then Err(UnrecognizedConnector)
    else if !e.request.payload.Doc? then Err(InvalidObservation)
    else
      var value := e.request.payload.value;
      if value.At("provider") != Str(connector.value.provider) then Err(Unsupported)
      else if !value.At("conversationId").Str? then Err(MissingConversation)
      else if !value.At("externalSenderId").Str? then Err(MissingSender)
      else
        var conversation := value.At("conversationId").s;
        var trusted := Trusted(value);
        var sender := Principal(Human, connector.value.provider + ":" + value.At("externalSenderId").s);
        var reply := Principal(Component, connector.value.reply);
        Ok(Authority(
             "origin:" + e.id, config.agent,
             Origin(sender, e.request.actor, conversation, e.id, trusted),
             OriginGrants(config, connector.value, conversation, trusted),
             if trusted && connector.value.reply != "" then [Audience(reply, conversation, [sender])] else [],
             e.recordedAt, None, config.maxDepth, 0))
  }

  // What issuing means on the observation's payload.

  /** The payload's field "trusted" is there and is not true. */
  ghost predicate SaysUntrusted(payload: Payload) {
    exists fields :: payload == Doc(Obj(fields)) && "trusted" in fields && fields["trusted"] != Bool(true)
  }

  /** The connector's ingress appended the observation, and it names the provider, a conversation and a sender. */
  ghost predicate Observed(config: Config, e: Event, connector: Connector, conversation: string, sender: string) {
    && ConnectorOf(config.connectors, e.request.actor) == Some(connector)
    && exists fields :: e.request.payload == Doc(Obj(fields))
         && "provider" in fields && fields["provider"] == Str(connector.provider)
         && "conversationId" in fields && fields["conversationId"] == Str(conversation)
         && "externalSenderId" in fields && fields["externalSenderId"] == Str(sender)
  }

  /** Who the authority speaks for, and for how long. */
  ghost predicate Speaks(config: Config, e: Event, connector: Connector, conversation: string, sender: string, a: Authority) {
    && a.id == "origin:" + e.id && a.agent == config.agent && a.issuedAt == e.recordedAt && a.expiresAt == None
    && a.maxDepth == config.maxDepth && a.currentDepth == 0
    && a.origin.principal == Principal(Human, connector.provider + ":" + sender) && a.origin.connector == e.request.actor
    && a.origin.conversation == conversation && a.origin.source == e.id
  }

  predicate Powerless(a: Authority) {
    !a.origin.trusted && a.grants == map[] && a.audiences == []
  }

  /** The standing grants, and for replies only the grant confined to the conversation. */
  ghost predicate Empowers(config: Config, connector: Connector, conversation: string, a: Authority) {
    && a.origin.trusted
    && (forall c :: c in a.grants <==> c in config.grants || c in connector.replyCapabilities)
    && (forall c :: c in config.grants && c !in connector.replyCapabilities ==> a.grants[c] == config.grants[c])
    && (forall c :: c in connector.replyCapabilities ==>
          a.grants[c] == [Grant(c, Some(Principal(Component, connector.reply)),
                                Some(Obj(map["conversation_ids" := Arr([Str(conversation)])])))])
    && a.audiences == if connector.reply == "" then []
                      else [Audience(Principal(Component, connector.reply), conversation, [a.origin.principal])]
  }

  /**
    What an observation issues: an untrusted one empowers nothing; any other
    one has the standing grants, with its replies confined.
  */
  ghost predicate Issues(config: Config, e: Event, a: Authority) {
    exists connector, conversation, sender ::
      && Observed(config, e, connector, conversation, sender)
      && Speaks(config, e, connector, conversation, sender, a)
      && if SaysUntrusted(e.request.payload) then Powerless(a) else Empowers(config, connector, conversation, a)
  }

  lemma IssueOk(config: Config, e: Event, connector: Connector, conversation: string, sender: string)
    requires Observed(config, e, connector, conversation, sender)
    ensures Issue(config, e).Ok? && Speaks(config, e, connector, conversation, sender, Issue(config, e).value)
    ensures if SaysUntrusted(e.request.payload) then Powerless(Issue(config, e).value)
            else Empowers(config, connector, conversation, Issue(config, e).value)
  {
    TrustedMeans(e.request.payload);
  }

  /** Nothing else about an authority is left open. */
  lemma SameAuthority(config: Config, e: Event, connector: Connector, conversation: string, sender: string, a: Authority, b: Authority)
    requires Speaks(config, e, connector, conversation, sender, a) && Speaks(config, e, connector, conversation, sender, b)
    requires || (Powerless(a) && Powerless(b))
             || (Empowers(config, connector, conversation, a) && Empowers(config, connector, conversation, b))
    ensures a == b
  {
    assert a.grants == b.grants;
  }

  lemma IssueMeans(config: Config, e: Event, a: Authority)
    ensures Issue(config, e) == Ok(a) <==> Issues(config, e, a)
  {
    if Issue(config, e) == Ok(a) {
      var connector, value := ConnectorOf(config.connectors, e.request.actor).value, e.request.payload.value;
      var conversation, sender := value.At("conversationId").s, value.At("externalSenderId").s;
      assert value == Obj(value.fields);
      assert Observed(config, e, connector, conversation, sender);
      IssueOk(config, e, connector, conversation, sender);
    }
    forall connector, conversation, sender | Observed(config, e, connector, conversation, sender)
        && Speaks(config, e, connector, conversation, sender, a)
        && if SaysUntrusted(e.request.payload) then Powerless(a) else Empowers(config, connector, conversation, a)
      ensures Issue(config, e) == Ok(a)
    {
      IssueOk(config, e, connector, conversation, sender);
      SameAuthority(config, e, connector, conversation, sender, a, Issue(config, e).value);
    }
  }

  lemma TrustedMeans(payload: Payload)
    requires payload.Doc?
    ensures Trusted(payload.value) <==> !SaysUntrusted(payload)
  {
    if payload.value.Obj? {
      assert payload == Doc(Obj(payload.value.fields));
    }
  }
}
