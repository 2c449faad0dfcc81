/** Sums over Go maps: the same whatever order the map is walked in. */
module Totals {
  import opened Base

  function SumOver(keys: set<Id>, g: Id -> int): int
    decreases |keys|
  {
    if keys == {} then 0 else var m := MinKey(keys); SumOver(keys - {m}, g) + g(m)
  }

  lemma LeastWithout(keys: set<Id>, k: Id)
    requires k in keys && k != MinKey(keys)
    ensures keys - {k} != {} && MinKey(keys - {k}) == MinKey(keys)
  {
    assert MinKey(keys) in keys - {k};
    LeastUnique(MinKey(keys - {k}), MinKey(keys), keys - {k});
  }

  /** Any key may be taken out first. */
  lemma {:induction false} SumOverRemove(keys: set<Id>, k: Id, g: Id -> int)
    requires k in keys
    ensures SumOver(keys, g) == SumOver(keys - {k}, g) + g(k)
    decreases |keys|
  {
    var m := MinKey(keys);
    if k != m {
      SumOverRemove(keys - {m}, k, g);
      LeastWithout(keys, k);
      assert keys - {m} - {k} == keys - {k} - {m};
    }
  }

  lemma {:induction false} SumOverAgree(keys: set<Id>, g: Id -> int, h: Id -> int)
    requires forall k :: k in keys ==> g(k) == h(k)
    ensures SumOver(keys, g) == SumOver(keys, h)
    decreases |keys|
  {
    if keys != {} {
      SumOverAgree(keys - {MinKey(keys)}, g, h);
    }
  }

  function At<V>(m: map<Id, V>, f: V -> int): Id -> int {
    (k: Id) => if k in m then f(m[k]) else 0
  }

  function Total<V>(m: map<Id, V>, f: V -> int): int {
    SumOver(m.Keys, At(m, f))
  }

  lemma TotalInsert<V>(m: map<Id, V>, k: Id, v: V, f: V -> int)
    requires k !in m
    ensures Total(m[k := v], f) == Total(m, f) + f(v)
  {
    var m' := m[k := v];
    assert m'.Keys - {k} == m.Keys;
    SumOverRemove(m'.Keys, k, At(m', f));
    SumOverAgree(m.Keys, At(m', f), At(m, f));
  }

  lemma TotalUpdate<V>(m: map<Id, V>, k: Id, v: V, f: V -> int)
    requires k in m
    ensures Total(m[k := v], f) == Total(m, f) - f(m[k]) + f(v)
  {
    var m' := m[k := v];
    assert m'.Keys == m.Keys;
    SumOverRemove(m.Keys, k, At(m, f));
    SumOverRemove(m.Keys, k, At(m', f));
    SumOverAgree(m.Keys - {k}, At(m', f), At(m, f));
  }
}
