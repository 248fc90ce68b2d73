/** Deduplication keys the host derives for proposals that carry none. */
module DerivedKeys {
  import Decimal

  datatype Phase = Init | Handle | Stop

  function Suffix(phase: Phase): (s: string) {
    match phase
    case Handle => ""
    case Init => ":init"
    case Stop => ":stop"
  }

  function DerivedKey(phase: Phase, instance: string, checkpoint: nat, ordinal: nat): (key: string) {
    instance + ":" + Decimal.Render(checkpoint) + ":" + Decimal.Render(ordinal) + Suffix(phase)
  }

  /** The last separator is found from the end. */
  lemma SplitLast(a: string, d: string, b: string, e: string)
    requires a + ":" + d == b + ":" + e && ':' !in d && ':' !in e
    ensures a == b && d == e
  {
    var s := a + ":" + d;
    assert s == b + ":" + e;
    assert s[|a|] == ':' && s[|b|] == ':';
    assert forall k :: |a| < k < |s| ==> s[k] in d;
    assert forall k :: |b| < k < |s| ==> s[k] in e;
    assert a == s[..|a|] && b == s[..|b|] && d == s[|a| + 1..] && e == s[|b| + 1..];
  }

  /** The phase shows in the last character. */
  lemma PhaseShows(phase: Phase, instance: string, checkpoint: nat, ordinal: nat)
    ensures var key := DerivedKey(phase, instance, checkpoint, ordinal);
            && key != []
            && (phase.Init? <==> key[|key| - 1] == 't') && (phase.Stop? <==> key[|key| - 1] == 'p')
  {
    var key := DerivedKey(phase, instance, checkpoint, ordinal);
    var digits := Decimal.Render(ordinal);
    match phase {
      case Handle => assert key[|key| - 1] == digits[|digits| - 1];
      case Init => assert key[|key| - 1] == ":init"[4];
      case Stop => assert key[|key| - 1] == ":stop"[4];
    }
  }

  /** Derived keys never collide, whatever characters the instance name holds. */
  lemma DerivedKeyInjective(p: Phase, i: string, c: nat, o: nat, q: Phase, j: string, d: nat, r: nat)
    requires DerivedKey(p, i, c, o) == DerivedKey(q, j, d, r)
    ensures p == q && i == j && c == d && o == r
  {
    PhaseShows(p, i, c, o);
    PhaseShows(q, j, d, r);
    var left := i + ":" + Decimal.Render(c) + ":" + Decimal.Render(o);
    var right := j + ":" + Decimal.Render(d) + ":" + Decimal.Render(r);
    var n := |DerivedKey(p, i, c, o)| - |Suffix(p)|;
    assert left == DerivedKey(p, i, c, o)[..n] && right == DerivedKey(q, j, d, r)[..n];
    SplitLast(i + ":" + Decimal.Render(c), Decimal.Render(o), j + ":" + Decimal.Render(d), Decimal.Render(r));
    SplitLast(i, Decimal.Render(c), j, Decimal.Render(d));
    Decimal.RenderInjective(c, d);
    Decimal.RenderInjective(o, r);
  }
}
