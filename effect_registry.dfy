/**
 The effect registry as a value: an ordered list of effects, compared by
 identity, in which each effect appears at most once. Registering is
 add-if-absent; unregistering removes the first matching entry.
 */
module EffectRegistry {
  import opened Media

  /** No effect is registered twice. */
  predicate NoDuplicates<E(==)>(s: seq<E>)
  {
    forall i, j :: 0 <= i < j < |s| ==> s[i] != s[j]
  }

  /** Array.indexOf: the first position holding x, or None when x is absent. */
  function IndexOf<E(==)>(s: seq<E>, x: E): (r: Option<nat>)
    ensures r.None? <==> x !in s
    ensures r.Some? ==> r.value < |s| && s[r.value] == x && x !in s[..r.value]
  {
    if s == [] then None
    else if s[0] == x then Some(0)
    else match IndexOf(s[1..], x)
      case None => None
      case Some(i) =>
        assert s[..i + 1] == [s[0]] + s[1..][..i];
        Some(i + 1)
  }

  /** Array.removeAtIndex: the element at i is dropped and the rest close up in order. */
  function RemoveAt<E>(s: seq<E>, i: nat): (r: seq<E>)
    requires i < |s|
    ensures |r| == |s| - 1
    ensures forall k :: 0 <= k < i ==> r[k] == s[k]
    ensures forall k :: i <= k < |r| ==> r[k] == s[k + 1]
    ensures multiset(r) == multiset(s) - multiset{s[i]}
  {
    assert s == s[..i] + [s[i]] + s[i + 1..];
    s[..i] + s[i + 1..]
  }

  /** The registry after registerEffect(e). */
  function Registered<E(==)>(s: seq<E>, e: E): (r: seq<E>)
    ensures e in r
    ensures e in s ==> r == s
    ensures e !in s ==> |r| == |s| + 1 && r[..|s|] == s && r[|s|] == e
  {
    match IndexOf(s, e)
    case Some(_) => s
    case None => s + [e]
  }

  /** The registry after unregisterEffect(e). */
  function Unregistered<E(==)>(s: seq<E>, e: E): (r: seq<E>)
    ensures e !in s ==> r == s
    ensures e in s ==> exists i :: 0 <= i < |s| && s[i] == e && e !in s[..i] && r == RemoveAt(s, i)
    ensures multiset(r) == multiset(s) - multiset{e}
  {
    match IndexOf(s, e)
    case None => s
    case Some(i) => RemoveAt(s, i)
  }

  /** Registering keeps the list free of duplicates. */
  lemma RegisteredNoDuplicates<E>(s: seq<E>, e: E)
    requires NoDuplicates(s)
    ensures NoDuplicates(Registered(s, e))
  {
  }

  /**
   Unregistering keeps the list free of duplicates, and then the effect is
   gone altogether: the one entry removed was its only one.
   */
  lemma UnregisteredNoDuplicates<E>(s: seq<E>, e: E)
    requires NoDuplicates(s)
    ensures NoDuplicates(Unregistered(s, e))
    ensures e !in Unregistered(s, e)
  {
    var r := Unregistered(s, e);
    if e in s {
      var i := IndexOf(s, e).value;
      assert r == RemoveAt(s, i);
      forall k, l | 0 <= k < l < |r|
        ensures r[k] != r[l]
      {
        var k' := if k < i then k else k + 1;
        var l' := if l < i then l else l + 1;
        assert r[k] == s[k'] && r[l] == s[l'] && k' < l';
      }
      forall k | 0 <= k < |r|
        ensures r[k] != e
      {
        var k' := if k < i then k else k + 1;
        assert r[k] == s[k'] && k' != i;
      }
    }
  }

  /** Registering an effect that is already present changes nothing, so a second register is a no-op. */
  lemma RegisteredIdempotent<E>(s: seq<E>, e: E)
    ensures Registered(Registered(s, e), e) == Registered(s, e)
  {
  }

  /** Unregistering an effect that was just registered restores the previous list. */
  lemma UnregisterUndoesRegister<E>(s: seq<E>, e: E)
    requires e !in s
    ensures Unregistered(Registered(s, e), e) == s
  {
    var t := s + [e];
    assert Registered(s, e) == t;
    var i := IndexOf(t, e).value;
    assert t[..|s|] == s;
    assert i == |s|;
    assert RemoveAt(t, i) == s;
  }

  /** One call made on the registry from outside. */
  datatype RegistryCall<E> = Register(effect: E) | Unregister(effect: E)

  /** The registry after a sequence of calls, applied in order. */
  function Replay<E(==)>(s: seq<E>, calls: seq<RegistryCall<E>>): seq<E>
    decreases |calls|
  {
    if calls == [] then s
    else
      var next := match calls[0]
        case Register(e) => Registered(s, e)
        case Unregister(e) => Unregistered(s, e);
      Replay(next, calls[1..])
  }

  /** Over any sequence of register and unregister calls no effect ever appears twice. */
  lemma {:induction false} ReplayNoDuplicates<E>(s: seq<E>, calls: seq<RegistryCall<E>>)
    requires NoDuplicates(s)
    ensures NoDuplicates(Replay(s, calls))
    decreases |calls|
  {
    if calls != [] {
      match calls[0]
      case Register(e) =>
        RegisteredNoDuplicates(s, e);
        ReplayNoDuplicates(Registered(s, e), calls[1..]);
      case Unregister(e) =>
        UnregisteredNoDuplicates(s, e);
        ReplayNoDuplicates(Unregistered(s, e), calls[1..]);
    }
  }
}
