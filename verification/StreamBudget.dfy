/** The byte budget that reads and writes of one connection share. */
module StreamBudget {
  import opened Events

  datatype StreamError = LimitExceeded

  /** What a connection was granted, has left, and where the rest went. */
  datatype Account = Account(grant: nat, remaining: nat, delivered: nat, charged: nat, forfeited: nat)

  predicate Balanced(a: Account) {
    a.delivered + a.charged + a.forfeited + a.remaining == a.grant
  }

  /** A read that overruns the remainder delivers nothing and gives the remainder up. */
  function Read(a: Account, read: nat): (r: Account) {
    if read > a.remaining then a.(forfeited := a.forfeited + a.remaining, remaining := 0)
    else a.(remaining := a.remaining - read, delivered := a.delivered + read)
  }

  function Sent(a: Account, length: nat): (r: Account) {
    if length > a.remaining then a else a.(remaining := a.remaining - length, charged := a.charged + length)
  }

  class Stream {
    var remaining: nat
    ghost var account: Account

    constructor (maxBytes: nat)
      ensures Valid() && account == Account(maxBytes, maxBytes, 0, 0, 0)
    {
      remaining, account := maxBytes, Account(maxBytes, maxBytes, 0, 0, 0);
    }

    ghost predicate Valid()
      reads this
    {
      Balanced(account) && account.remaining == remaining
    }

    /** Caps a read at the current remainder; it reserves nothing. */
    method TakeReadBudget(maxBytes: nat) returns (r: Result<nat, StreamError>)
      requires Valid()
      ensures r.Err? <==> account.remaining == 0 || maxBytes == 0
      ensures r.Ok? ==> r.value == Least(account.remaining, maxBytes) <= account.grant
    {
      var limit := Least(remaining, maxBytes);
      if limit == 0 {
        return Err(LimitExceeded);
      }
      return Ok(limit);
    }

    /** Charges what was read, or refuses it when others used the remainder meanwhile. */
    method FinishRead(read: nat) returns (r: Result<nat, StreamError>)
      requires Valid()
      modifies this
      ensures Valid() && account == Read(old(account), read)
      ensures r == if read <= old(remaining) then Ok(read) else Err(LimitExceeded)
    {
      account := Read(account, read);
      if read > remaining {
        remaining := 0;
        return Err(LimitExceeded);
      }
      remaining := remaining - read;
      return Ok(read);
    }

    /** The charge a send takes before it writes anything. */
    method Charge(length: nat) returns (ok: bool)
      requires Valid()
      modifies this
      ensures Valid() && account == Sent(old(account), length)
      ensures ok <==> length <= old(remaining)
    {
      account := Sent(account, length);
      if length > remaining {
        return false;
      }
      remaining := remaining - length;
      return true;
    }
  }

  // Any number of connections, with reads and sends in any interleaving.

  datatype Reading = Reading(stream: nat, limit: nat)

  datatype State = State(
    sequence: nat,
    open: set<nat>,                  // registered streams
    accounts: map<nat, Account>,     // every stream ever registered; calls may outlive a close
    inFlight: map<nat, Reading>       // reads that have their cap but not their bytes
  )

  datatype Step =
    | Register(maxConnections: nat, maxBytes: nat)
    | BeginRead(reader: nat, stream: nat, maxBytes: nat)
    | FinishRead(reader: nat, read: nat)
    | AbandonRead(reader: nat)       // an I/O error, or another turn of the loop
    | Send(stream: nat, length: nat)
    | Close(stream: nat)

  predicate Enabled(s: State, step: Step) {
    match step
    case Register(_, _) => true
    case BeginRead(reader, stream, _) => reader !in s.inFlight && stream in s.accounts
    case FinishRead(reader, read) => reader in s.inFlight && read <= s.inFlight[reader].limit
    case AbandonRead(reader) => reader in s.inFlight
    case Send(stream, _) => stream in s.accounts
    case Close(_) => true
  }

  function Next(s: State, step: Step): (t: State) {
    match step
    case Register(maxConnections, maxBytes) =>
      if |s.open| >= maxConnections then s
      else
        var id := s.sequence + 1;
        s.(sequence := id, open := s.open + {id}, accounts := s.accounts[id := Account(maxBytes, maxBytes, 0, 0, 0)])
    case BeginRead(reader, stream, maxBytes) =>
      if stream !in s.accounts || Least(s.accounts[stream].remaining, maxBytes) == 0 then s
      else s.(inFlight := s.inFlight[reader := Reading(stream, Least(s.accounts[stream].remaining, maxBytes))])
    case FinishRead(reader, read) =>
      if reader !in s.inFlight || s.inFlight[reader].stream !in s.accounts then s
      else
        var stream := s.inFlight[reader].stream;
        s.(inFlight := s.inFlight - {reader}, accounts := s.accounts[stream := Read(s.accounts[stream], read)])
    case AbandonRead(reader) => s.(inFlight := s.inFlight - {reader})
    case Send(stream, length) =>
      if stream !in s.accounts then s
      else
        var a := s.accounts[stream];
        s.(open := if length > a.remaining then s.open - {stream} else s.open,
           accounts := s.accounts[stream := Sent(a, length)])
    case Close(stream) => s.(open := s.open - {stream})
  }

  predicate Capped(accounts: map<nat, Account>, r: Reading) {
    r.stream in accounts && 0 < r.limit <= accounts[r.stream].grant
  }

  /** Every account balances, every read in flight is capped by its grant, and identifiers are new. */
  ghost predicate Inv(s: State) {
    && (forall id :: id in s.accounts ==> id <= s.sequence && Balanced(s.accounts[id]))
    && (forall r :: r in s.inFlight ==> Capped(s.accounts, s.inFlight[r]))
    && s.open <= s.accounts.Keys
  }

  /** What a step may do to an account: never change its grant, never raise its remainder. */
  ghost predicate Spends(before: Account, after: Account) {
    && after.grant == before.grant && after.remaining <= before.remaining
    && before.delivered <= after.delivered && before.charged <= after.charged
    && (before.remaining == 0 ==> after.delivered == before.delivered && after.charged == before.charged)
  }

  ghost predicate AllSpend(s: State, t: State) {
    forall id :: id in s.accounts ==> id in t.accounts && Spends(s.accounts[id], t.accounts[id])
  }

  lemma SpendKeeps(s: State, id: nat, a: Account)
    requires Inv(s) && id in s.accounts && Balanced(a) && Spends(s.accounts[id], a)
    ensures var t := s.(accounts := s.accounts[id := a]); Inv(t) && AllSpend(s, t)
  {
  }

  lemma RegisterKeeps(s: State, step: Step)
    requires Inv(s) && step.Register?
    ensures Inv(Next(s, step)) && AllSpend(s, Next(s, step))
  {
  }

  lemma StepKeeps(s: State, step: Step)
    requires Inv(s) && Enabled(s, step)
    ensures Inv(Next(s, step)) && AllSpend(s, Next(s, step))
  {
    match step
    case Register(_, _) => RegisterKeeps(s, step);
    case BeginRead(_, stream, _) => assert Balanced(s.accounts[stream]);
    case FinishRead(reader, read) =>
      var id := s.inFlight[reader].stream;
      SpendKeeps(s, id, Read(s.accounts[id], read));
    case AbandonRead(_) =>
    case Send(stream, length) =>
      SpendKeeps(s, stream, Sent(s.accounts[stream], length));
    case Close(_) =>
  }

  function Run(s: State, steps: seq<Step>): (t: Option<State>) {
    if steps == [] then Some(s)
    else
      var before := Run(s, steps[..|steps| - 1]);
      if before.None? || !Enabled(before.value, steps[|steps| - 1]) then None
      else Some(Next(before.value, steps[|steps| - 1]))
  }

  lemma {:induction false} RunKeeps(s: State, steps: seq<Step>)
    requires Inv(s) && Run(s, steps).Some?
    ensures Inv(Run(s, steps).value) && AllSpend(s, Run(s, steps).value)
  {
    if steps != [] {
      var before := steps[..|steps| - 1];
      RunKeeps(s, before);
      StepKeeps(Run(s, before).value, steps[|steps| - 1]);
    }
  }

  const START := State(0, {}, map[], map[])

  /** Bytes delivered by reads plus bytes charged to sends never exceed the grant. */
  lemma NeverOverspends(steps: seq<Step>, id: nat)
    requires Run(START, steps).Some? && id in Run(START, steps).value.accounts
    ensures var a := Run(START, steps).value.accounts[id];
            a.delivered + a.charged <= a.grant && a.delivered + a.charged + a.forfeited + a.remaining == a.grant
  {
    RunKeeps(START, steps);
  }

  /** Two reads that reserved the same remainder: whichever finishes second may be refused, and then nothing is left. */
  lemma OverrunIsFinal(s: State, reader: nat, read: nat, later: seq<Step>)
    requires Inv(s) && Enabled(s, FinishRead(reader, read)) && read > s.accounts[s.inFlight[reader].stream].remaining
    requires Run(Next(s, FinishRead(reader, read)), later).Some?
    ensures var id, t := s.inFlight[reader].stream, Run(Next(s, FinishRead(reader, read)), later).value;
            && id in t.accounts && t.accounts[id].delivered == s.accounts[id].delivered
            && t.accounts[id].charged == s.accounts[id].charged && t.accounts[id].remaining == 0
  {
    StepKeeps(s, FinishRead(reader, read));
    RunKeeps(Next(s, FinishRead(reader, read)), later);
  }

  /** All registrations under one ceiling: it is never passed. */
  lemma {:induction false} CeilingHolds(steps: seq<Step>, ceiling: nat)
    requires Run(START, steps).Some?
    requires forall i :: 0 <= i < |steps| && steps[i].Register? ==> steps[i].maxConnections == ceiling
    ensures |Run(START, steps).value.open| <= ceiling
  {
    if steps != [] {
      var before, last := steps[..|steps| - 1], steps[|steps| - 1];
      CeilingHolds(before, ceiling);
      RunKeeps(START, before);
      OpenGrows(Run(START, before).value, last, ceiling);
    }
  }

  lemma OpenGrows(s: State, step: Step, ceiling: nat)
    requires |s.open| <= ceiling && (step.Register? ==> step.maxConnections == ceiling)
    ensures |Next(s, step).open| <= ceiling
  {
    if step.Send? {
      Shrinks(s.open, step.stream);
    } else if step.Close? {
      Shrinks(s.open, step.stream);
    }
  }

  lemma Shrinks(s: set<nat>, x: nat)
    ensures |s - {x}| <= |s|
  {
    if x !in s {
      assert s - {x} == s;
    }
  }
}
