// What a receiver does with a sequence of events: Create and Update upsert, Delete removes.
// Everything later that says two event sequences "mean the same" says it through Replay, and is
// proved through Effect, which reads the outcome for one key off the last event that names it.
module Fold {
  import opened Wrappers

  datatype Change<K, V> = Put(key: K, value: V) | Del(key: K)

  function Apply<K, V>(m: map<K, V>, c: Change<K, V>): map<K, V> {
    match c
    case Put(k, v) => m[k := v]
    case Del(k) => m - {k}
  }

  function Replay<K, V>(m: map<K, V>, cs: seq<Change<K, V>>): map<K, V> {
    if cs == [] then m else Apply(Replay(m, cs[..|cs| - 1]), cs[|cs| - 1])
  }

  // The state a sequence of changes leaves behind.
  function Live<K, V>(cs: seq<Change<K, V>>): map<K, V> { Replay(map[], cs) }

  datatype KeyEffect<V> = Untouched | Gone | Has(value: V)

  function Effect<K(==), V>(cs: seq<Change<K, V>>, k: K): KeyEffect<V> {
    if cs == [] then Untouched
    else
      var last := cs[|cs| - 1];
      if last.key == k then (if last.Put? then Has(last.value) else Gone)
      else Effect(cs[..|cs| - 1], k)
  }

  function At<K, V>(m: map<K, V>, k: K): Option<V> { if k in m then Some(m[k]) else None }

  function Override<V>(o: KeyEffect<V>, before: Option<V>): Option<V> {
    match o
    case Untouched => before
    case Gone => None
    case Has(v) => Some(v)
  }

  lemma {:induction false} ReplayAt<K, V>(m: map<K, V>, cs: seq<Change<K, V>>, k: K)
    ensures At(Replay(m, cs), k) == Override(Effect(cs, k), At(m, k))
  {
    if cs == [] {
    } else {
      ReplayAt(m, cs[..|cs| - 1], k);
    }
  }

  lemma {:induction false} EffectConcat<K, V>(a: seq<Change<K, V>>, b: seq<Change<K, V>>, k: K)
    ensures Effect(a + b, k) == if Effect(b, k).Untouched? then Effect(a, k) else Effect(b, k)
  {
    if b == [] {
      assert a + b == a;
    } else {
      assert (a + b)[..|a + b| - 1] == a + b[..|b| - 1];
      EffectConcat(a, b[..|b| - 1], k);
    }
  }

  lemma {:induction false} ReplayConcat<K, V>(m: map<K, V>, a: seq<Change<K, V>>, b: seq<Change<K, V>>)
    ensures Replay(m, a + b) == Replay(Replay(m, a), b)
  {
    if b == [] {
      assert a + b == a;
    } else {
      assert (a + b)[..|a + b| - 1] == a + b[..|b| - 1];
      ReplayConcat(m, a, b[..|b| - 1]);
    }
  }

  lemma ReplayAppend<K, V>(m: map<K, V>, cs: seq<Change<K, V>>, c: Change<K, V>)
    ensures Replay(m, cs + [c]) == Apply(Replay(m, cs), c)
  {
    assert (cs + [c])[..|cs|] == cs;
  }

  lemma ReplayPrepend<K, V>(m: map<K, V>, c: Change<K, V>, cs: seq<Change<K, V>>)
    ensures Replay(m, [c] + cs) == Replay(Apply(m, c), cs)
  {
    ReplayConcat(m, [c], cs);
    assert [c][..0] == [];
    assert Replay(m, [c]) == Apply(m, c);
  }

  lemma SameAt<K(!new), V>(m: map<K, V>, n: map<K, V>)
    requires forall k :: At(m, k) == At(n, k)
    ensures m == n
  {
    forall k ensures k in m <==> k in n { assert At(m, k) == At(n, k); }
    forall k | k in m ensures m[k] == n[k] { assert At(m, k) == At(n, k); }
  }

  lemma {:induction false} EffectTouched<K, V>(cs: seq<Change<K, V>>, k: K)
    ensures !Effect(cs, k).Untouched? <==> exists i :: 0 <= i < |cs| && cs[i].key == k
  {
    if cs == [] {
    } else {
      EffectTouched(cs[..|cs| - 1], k);
    }
  }

  lemma {:induction false} EffectIsSome<K, V>(cs: seq<Change<K, V>>, k: K)
    ensures Effect(cs, k).Has? ==> exists i :: 0 <= i < |cs| && cs[i] == Put(k, Effect(cs, k).value)
    ensures Effect(cs, k).Gone? ==> exists i :: 0 <= i < |cs| && cs[i] == Del(k)
  {
    if cs == [] {
    } else {
      EffectIsSome(cs[..|cs| - 1], k);
      assert cs[|cs| - 1] == cs[|cs| - 1];
    }
  }
}
