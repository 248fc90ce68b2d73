/** Cross-references inside a package manifest: paths, requirements, capabilities and credentials. */
module Requirements {
  import opened Events

  datatype Part = Part(path: string, requirements: seq<string>, capabilities: seq<string>)

  datatype Credential = Credential(id: string, consumers: seq<string>)

  /** `names` is the iteration order of the component map. */
  datatype Manifest = Manifest(names: seq<string>, components: map<string, Part>, credentials: seq<Credential>)

  datatype Fault =
    | DuplicatePath | InvalidRequirement | DuplicateCapability | Cyclic
    | DuplicateCredential | NoConsumers | UnknownConsumer

  ghost predicate Distinct<T>(s: seq<T>) {
    forall i, j :: 0 <= i < j < |s| ==> s[i] != s[j]
  }

  ghost predicate Ordered(m: Manifest) {
    Distinct(m.names) && forall name :: name in m.names <==> name in m.components
  }

  // The properties a manifest has to have.

  ghost predicate DistinctPaths(m: Manifest)
    requires Ordered(m)
  {
    forall i, j :: 0 <= i < j < |m.names| ==> PathOf(m, m.names[i]) != PathOf(m, m.names[j])
  }

  function PathOf(m: Manifest, name: string): (path: string)
    requires name in m.components
  {
    m.components[name].path
  }

  /** Every requirement names another component of the manifest. */
  ghost predicate Closed(m: Manifest) {
    forall name, required :: name in m.components && required in m.components[name].requirements ==>
      required != name && required in m.components
  }

  /** Capabilities provided by the first `n` components. */
  function Provided(m: Manifest, n: nat): (r: seq<string>)
    requires n <= |m.names| && forall i :: 0 <= i < n ==> m.names[i] in m.components
  {
    if n == 0 then [] else Provided(m, n - 1) + m.components[m.names[n - 1]].capabilities
  }

  /** `required` is a direct requirement of `name`. */
  predicate Requires(m: Manifest, name: string, required: string) {
    name in m.components && required in m.components[name].requirements
  }

  ghost predicate IsPath(m: Manifest, path: seq<string>) {
    forall i, j :: 0 <= i && j == i + 1 < |path| ==> Requires(m, path[i], path[j])
  }

  ghost predicate IsCycle(m: Manifest, path: seq<string>) {
    |path| > 1 && IsPath(m, path) && path[0] == path[|path| - 1]
  }

  ghost predicate Acyclic(m: Manifest) {
    forall path: seq<string> :: !IsCycle(m, path)
  }

  ghost predicate CredentialsSound(m: Manifest) {
    && (forall i, j :: 0 <= i < j < |m.credentials| ==> m.credentials[i].id != m.credentials[j].id)
    && (forall i :: 0 <= i < |m.credentials| ==> m.credentials[i].consumers != [])
    && (forall i, name :: 0 <= i < |m.credentials| && name in m.credentials[i].consumers ==> name in m.components)
  }

  ghost predicate ComponentsSound(m: Manifest)
    requires Ordered(m)
  {
    DistinctPaths(m) && Closed(m) && Distinct(Provided(m, |m.names|))
  }

  /** What an error says about the manifest. */
  ghost predicate IsFault(m: Manifest, fault: Fault)
    requires Ordered(m)
  {
    match fault
    case DuplicatePath => !DistinctPaths(m)
    case InvalidRequirement => !Closed(m)
    case DuplicateCapability => !Distinct(Provided(m, |m.names|))
    case Cyclic => exists path: seq<string> :: IsCycle(m, path)
    case DuplicateCredential =>
      exists i, j :: 0 <= i < j < |m.credentials| && m.credentials[i].id == m.credentials[j].id
    case NoConsumers => exists i :: 0 <= i < |m.credentials| && m.credentials[i].consumers == []
    case UnknownConsumer =>
      exists i, name :: 0 <= i < |m.credentials| && name in m.credentials[i].consumers && name !in m.components
  }

  // The depth-first search.

  /** Finished components come after everything they require. */
  ghost predicate Topological(m: Manifest, order: seq<string>) {
    forall i, required :: 0 <= i < |order| && Requires(m, order[i], required) ==> required in order[..i]
  }

  class Search {
    const manifest: Manifest
    var active: set<string>
    var done: set<string>
    ghost var order: seq<string>    // the finished components as they finished

    constructor (manifest: Manifest)
      ensures this.manifest == manifest && active == {} && done == {} && Finished()
    {
      this.manifest, active, done, order := manifest, {}, {}, [];
    }

    ghost predicate Finished()
      reads this
    {
      Topological(manifest, order) && done == set name | name in order
    }

    /** A path through the active components; the last one, if any, requires `name`. */
    ghost predicate Leads(path: seq<string>, name: string)
      reads this
    {
      && IsPath(manifest, path) && active == (set x | x in path)
      && (path != [] ==> Requires(manifest, path[|path| - 1], name))
    }

    method Visit(name: string, ghost path: seq<string>) returns (ok: bool)
      requires Closed(manifest) && name in manifest.components
      requires Finished() && active <= manifest.components.Keys && Leads(path, name)
      modifies this
      ensures Finished() && old(done) <= done
      ensures ok ==> name in done && active == old(active)
      ensures !ok ==> exists cycle: seq<string> :: IsCycle(manifest, cycle)
      decreases manifest.components.Keys - active
    {
      if name in done {
        return true;
      }
      if name in active {
        ClosesCycle(manifest, path, name);
        return false;
      }
      active := active + {name};
      var requirements := manifest.components[name].requirements;
      ghost var further := path + [name];
      PathGrows(manifest, path, name);
      for i := 0 to |requirements|
        invariant Finished() && old(done) <= done && active == old(active) + {name}
        invariant forall j :: 0 <= j < i ==> requirements[j] in done
      {
        assert Requires(manifest, name, requirements[i]);
        ok := Visit(requirements[i], further);
        if !ok {
          return;
        }
      }
      active := active - {name};
      done := done + {name};
      Finish(manifest, order, name);
      order := order + [name];
      return true;
    }
  }

  lemma PathGrows(m: Manifest, path: seq<string>, name: string)
    requires IsPath(m, path) && (path != [] ==> Requires(m, path[|path| - 1], name))
    ensures IsPath(m, path + [name])
    ensures (set x | x in path + [name]) == (set x | x in path) + {name}
  {
  }

  lemma ClosesCycle(m: Manifest, path: seq<string>, name: string)
    requires IsPath(m, path) && name in path && Requires(m, path[|path| - 1], name)
    ensures exists cycle: seq<string> :: IsCycle(m, cycle)
  {
    var k :| 0 <= k < |path| && path[k] == name;
    PathGrows(m, path, name);
    var cycle := (path + [name])[k..];
    assert IsCycle(m, cycle);
  }

  lemma Finish(m: Manifest, order: seq<string>, name: string)
    requires Topological(m, order) && forall required :: Requires(m, name, required) ==> required in order
    ensures Topological(m, order + [name])
  {
    forall i, required | 0 <= i < |order| + 1 && Requires(m, (order + [name])[i], required)
      ensures required in (order + [name])[..i]
    {
      assert (order + [name])[..i] == order[..i];
    }
  }

  /** Following requirements only ever goes back in a topological order. */
  lemma {:induction false} PathDescends(m: Manifest, order: seq<string>, path: seq<string>, i: nat, at: nat) returns (end: nat)
    requires Topological(m, order) && IsPath(m, path) && i < |path| && at < |order| && order[at] == path[i]
    ensures end <= at && order[end] == path[|path| - 1] && (i < |path| - 1 ==> end < at)
    decreases |path| - i
  {
    if i == |path| - 1 {
      end := at;
    } else {
      assert Requires(m, path[i], path[i + 1]);
      var next :| 0 <= next < at && order[next] == path[i + 1];
      end := PathDescends(m, order, path, i + 1, next);
    }
  }

  lemma {:induction false} NoCycleFrom(m: Manifest, order: seq<string>, path: seq<string>, at: nat)
    requires Topological(m, order) && IsCycle(m, path) && at < |order| && order[at] == path[0]
    ensures false
    decreases at
  {
    var end := PathDescends(m, order, path, 0, at);
    NoCycleFrom(m, order, path, end);
  }

  lemma OrderIsAcyclic(m: Manifest, order: seq<string>)
    requires Topological(m, order) && forall name :: name in m.components ==> name in order
    ensures Acyclic(m)
  {
    forall path: seq<string> | IsCycle(m, path)
      ensures false
    {
      assert Requires(m, path[0], path[1]);
      var at :| 0 <= at < |order| && order[at] == path[0];
      NoCycleFrom(m, order, path, at);
    }
  }

  /** The search accepts exactly the acyclic requirement relations. */
  method CheckRequirements(m: Manifest) returns (ok: bool)
    requires Ordered(m) && Closed(m)
    ensures ok <==> Acyclic(m)
  {
    var search := new Search(m);
    for i := 0 to |m.names|
      invariant search.manifest == m && search.Finished() && search.active == {}
      invariant forall j :: 0 <= j < i ==> m.names[j] in search.done
    {
      ok := search.Visit(m.names[i], []);
      if !ok {
        return;
      }
    }
    OrderIsAcyclic(m, search.order);
    ok := true;
  }

  // The remaining checks.

  /** Adds one component's capabilities; fails at the first repeated one. */
  method AddCapabilities(before: set<string>, ghost listed: seq<string>, offered: seq<string>)
    returns (ok: bool, after: set<string>)
    requires before == (set c | c in listed) && Distinct(listed)
    ensures ok <==> Distinct(listed + offered)
    ensures ok ==> after == set c | c in listed + offered
  {
    after := before;
    for i := 0 to |offered|
      invariant after == (set c | c in listed + offered[..i]) && Distinct(listed + offered[..i])
    {
      ghost var now := listed + offered[..i];
      assert listed + offered[..i + 1] == now + [offered[i]];
      if offered[i] in after {
        Repeats(now, offered[i], listed + offered);
        return false, after;
      }
      after := after + {offered[i]};
    }
    assert offered[..|offered|] == offered;
    ok := true;
  }

  lemma Repeats(s: seq<string>, c: string, all: seq<string>)
    requires c in s && s + [c] <= all
    ensures !Distinct(all)
  {
    var i :| 0 <= i < |s| && s[i] == c;
    assert all[i] == (s + [c])[i] && all[|s|] == (s + [c])[|s|];
  }

  lemma {:induction false} ProvidedPrefix(m: Manifest, n: nat, k: nat)
    requires Ordered(m) && n <= k <= |m.names|
    ensures Provided(m, n) <= Provided(m, k)
    decreases k - n
  {
    if n < k {
      ProvidedPrefix(m, n, k - 1);
    }
  }

  lemma PrefixDistinct(s: seq<string>, all: seq<string>)
    requires s <= all && Distinct(all)
    ensures Distinct(s)
  {
    assert forall i :: 0 <= i < |s| ==> s[i] == all[i];
  }

  ghost predicate RequirementsSound(m: Manifest, name: string)
    requires name in m.components
  {
    forall required :: required in m.components[name].requirements ==> required != name && required in m.components
  }

  method CheckComponent(m: Manifest, name: string) returns (ok: bool)
    requires name in m.components
    ensures ok <==> RequirementsSound(m, name)
  {
    var requirements := m.components[name].requirements;
    for i := 0 to |requirements|
      invariant forall j :: 0 <= j < i ==> requirements[j] != name && requirements[j] in m.components
    {
      if requirements[i] == name || requirements[i] !in m.components {
        return false;
      }
    }
    ok := true;
  }

  /** The paths of the first `n` components differ, and are these. */
  ghost predicate PathsSeen(m: Manifest, n: nat, paths: set<string>)
    requires Ordered(m) && n <= |m.names|
  {
    && paths == (set j | 0 <= j < n :: PathOf(m, m.names[j]))
    && forall j, k :: 0 <= j < k < n ==> PathOf(m, m.names[j]) != PathOf(m, m.names[k])
  }

  ghost predicate CapabilitiesSeen(m: Manifest, n: nat, capabilities: set<string>)
    requires Ordered(m) && n <= |m.names|
  {
    capabilities == (set c | c in Provided(m, n)) && Distinct(Provided(m, n))
  }

  method AddPath(m: Manifest, i: nat, paths: set<string>) returns (ok: bool, after: set<string>)
    requires Ordered(m) && i < |m.names| && PathsSeen(m, i, paths)
    ensures ok ==> PathsSeen(m, i + 1, after)
    ensures !ok ==> !DistinctPaths(m)
  {
    ok, after := PathOf(m, m.names[i]) !in paths, paths + {PathOf(m, m.names[i])};
  }

  method AddProvided(m: Manifest, i: nat, capabilities: set<string>) returns (ok: bool, after: set<string>)
    requires Ordered(m) && i < |m.names| && CapabilitiesSeen(m, i, capabilities)
    ensures ok ==> CapabilitiesSeen(m, i + 1, after)
    ensures !ok ==> !Distinct(Provided(m, |m.names|))
  {
    ok, after := AddCapabilities(capabilities, Provided(m, i), m.components[m.names[i]].capabilities);
    if !ok {
      ProvidedPrefix(m, i + 1, |m.names|);
      if Distinct(Provided(m, |m.names|)) {
        PrefixDistinct(Provided(m, i + 1), Provided(m, |m.names|));
      }
    }
  }

  method CheckComponents(m: Manifest) returns (r: Option<Fault>)
    requires Ordered(m)
    ensures r.None? <==> ComponentsSound(m)
    ensures r.Some? ==> IsFault(m, r.value)
  {
    var capabilities, paths := {}, {};
    for i := 0 to |m.names|
      invariant PathsSeen(m, i, paths) && CapabilitiesSeen(m, i, capabilities)
      invariant forall j :: 0 <= j < i ==> RequirementsSound(m, m.names[j])
    {
      var ok;
      ok, paths := AddPath(m, i, paths);
      if !ok {
        return Some(DuplicatePath);
      }
      ok := CheckComponent(m, m.names[i]);
      if !ok {
        return Some(InvalidRequirement);
      }
      ok, capabilities := AddProvided(m, i, capabilities);
      if !ok {
        return Some(DuplicateCapability);
      }
    }
    r := None;
  }

  method CheckCredentials(m: Manifest) returns (r: Option<Fault>)
    requires Ordered(m)
    ensures r.None? <==> CredentialsSound(m)
    ensures r.Some? ==> IsFault(m, r.value)
  {
    var ids := {};
    for i := 0 to |m.credentials|
      invariant ids == set j | 0 <= j < i :: m.credentials[j].id
      invariant forall j, k :: 0 <= j < k < i ==> m.credentials[j].id != m.credentials[k].id
      invariant forall j :: 0 <= j < i ==> m.credentials[j].consumers != []
      invariant forall j, name :: 0 <= j < i && name in m.credentials[j].consumers ==> name in m.components
    {
      if m.credentials[i].id in ids {
        return Some(DuplicateCredential);
      }
      ids := ids + {m.credentials[i].id};
      var consumers := m.credentials[i].consumers;
      if consumers == [] {
        return Some(NoConsumers);
      }
      for j := 0 to |consumers|
        invariant forall k :: 0 <= k < j ==> consumers[k] in m.components
      {
        if consumers[j] !in m.components {
          return Some(UnknownConsumer);
        }
      }
    }
    r := None;
  }

  /** Accepts exactly the sound manifests, and names a fault the manifest has. */
  method ValidateReferences(m: Manifest) returns (r: Option<Fault>)
    requires Ordered(m)
    ensures r.None? <==> ComponentsSound(m) && Acyclic(m) && CredentialsSound(m)
    ensures r.Some? ==> IsFault(m, r.value)
  {
    r := CheckComponents(m);
    if r.Some? {
      return;
    }
    var acyclic := CheckRequirements(m);
    if !acyclic {
      return Some(Cyclic);
    }
    r := CheckCredentials(m);
  }
}
