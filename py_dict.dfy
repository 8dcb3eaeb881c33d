/** A Python `dict` as its list of items in insertion order. Assigning to a
    key that is already present replaces its value and keeps its place;
    a new key goes to the end. */
module PyDict {
  import opened Wrappers
  import opened Lists

  type Dict<K, V> = seq<(K, V)>

  /** `list(d.keys())`. */
  function Keys<K, V>(d: Dict<K, V>): seq<K> {
    Firsts(d)
  }

  /** `d.get(k)`. */
  function Get<K(==,!new), V>(d: Dict<K, V>, k: K): Option<V> {
    if d == [] then None
    else if d[0].0 == k then Some(d[0].1)
    else Get(d[1..], k)
  }

  lemma {:induction false} GetPresent<K(!new), V>(d: Dict<K, V>, k: K)
    ensures Get(d, k).Some? <==> k in Keys(d)
  {
    if d != [] {
      GetPresent(d[1..], k);
      assert Keys(d) == [d[0].0] + Keys(d[1..]);
    }
  }

  /** `GetPresent` for every key at once. */
  lemma GetPresentAll<K(!new), V>(d: Dict<K, V>)
    ensures forall k :: Get(d, k).Some? <==> k in Keys(d)
  {
    forall k ensures Get(d, k).Some? <==> k in Keys(d) {
      GetPresent(d, k);
    }
  }

  /** In a dict, the key at each position holds the value at that position. */
  lemma {:induction false} GetAt<K(!new), V>(d: Dict<K, V>, i: nat)
    requires Distinct(Keys(d)) && i < |d|
    ensures Get(d, d[i].0) == Some(d[i].1)
  {
    if i > 0 {
      assert Keys(d)[0] != Keys(d)[i];
      forall a, b | 0 <= a < b < |Keys(d[1..])|
        ensures Keys(d[1..])[a] != Keys(d[1..])[b]
      {
        assert Keys(d[1..])[a] == Keys(d)[a + 1] && Keys(d[1..])[b] == Keys(d)[b + 1];
      }
      GetAt(d[1..], i - 1);
    }
  }

  /** `d[k] = v`. */
  function Assign<K(==,!new), V>(d: Dict<K, V>, k: K, v: V): Dict<K, V>
  {
    if d == [] then [(k, v)]
    else if d[0].0 == k then [(k, v)] + d[1..]
    else [d[0]] + Assign(d[1..], k, v)
  }

  /** `d[k] = v` keeps the key order; a new key goes last. */
  lemma {:induction false} AssignKeys<K(!new), V>(d: Dict<K, V>, k: K, v: V)
    ensures Keys(Assign(d, k, v)) == if k in Keys(d) then Keys(d) else Keys(d) + [k]
  {
    if d != [] {
      assert d == [d[0]] + d[1..];
      FirstsCons(d[0], d[1..]);
      if d[0].0 == k {
        FirstsCons((k, v), d[1..]);
      } else {
        AssignKeys(d[1..], k, v);
        FirstsCons(d[0], Assign(d[1..], k, v));
        assert k in Keys(d) <==> k in Keys(d[1..]);
      }
    }
  }

  /** After `d[k] = v`, `k` holds `v` and every other key what it held. */
  lemma {:induction false} AssignGet<K(!new), V>(d: Dict<K, V>, k: K, v: V, k': K)
    ensures Get(Assign(d, k, v), k') == if k' == k then Some(v) else Get(d, k')
  {
    if d != [] && d[0].0 != k {
      AssignGet(d[1..], k, v, k');
    }
  }

  /** The dict built by `for (k, v) in ps: d[k] = v` from `{}`. */
  function AssignAll<K(==,!new), V>(ps: seq<(K, V)>): Dict<K, V>
    decreases |ps|
  {
    if ps == [] then []
    else Assign(AssignAll(ps[..|ps| - 1]), ps[|ps| - 1].0, ps[|ps| - 1].1)
  }

  /** A single pair makes a one-item dict. */
  lemma AssignAllOne<K(!new), V>(p: (K, V))
    ensures AssignAll([p]) == [p]
  {
    assert [p][..0] == [];
  }

  /** One more pair is one more assignment. */
  lemma AssignAllSnoc<K(!new), V>(ps: seq<(K, V)>, p: (K, V))
    ensures AssignAll(ps + [p]) == Assign(AssignAll(ps), p.0, p.1)
  {
    assert (ps + [p])[..|ps|] == ps;
  }

  /** The value of the last pair with key `k`. */
  function LastValue<K(==,!new), V>(ps: seq<(K, V)>, k: K): Option<V>
    decreases |ps|
  {
    if ps == [] then None
    else if ps[|ps| - 1].0 == k then Some(ps[|ps| - 1].1)
    else LastValue(ps[..|ps| - 1], k)
  }

  /** One entry per distinct key, in the order the keys first appear. */
  lemma {:induction false} AssignAllKeys<K(!new), V>(ps: seq<(K, V)>)
    ensures Keys(AssignAll(ps)) == Dedup(Firsts(ps))
    decreases |ps|
  {
    if ps != [] {
      var init := ps[..|ps| - 1];
      var k := ps[|ps| - 1].0;
      AssignAllKeys(init);
      AssignKeys(AssignAll(init), k, ps[|ps| - 1].1);
      var s := Firsts(ps);
      assert s[..|s| - 1] == Firsts(init);
      assert Dedup(s) == if k in Dedup(Firsts(init)) then Dedup(Firsts(init)) else Dedup(Firsts(init)) + [k];
    }
  }

  /** Last write wins: each key holds the value of its last pair. */
  lemma {:induction false} AssignAllGet<K(!new), V>(ps: seq<(K, V)>, k: K)
    ensures Get(AssignAll(ps), k) == LastValue(ps, k)
    decreases |ps|
  {
    if ps != [] {
      AssignAllGet(ps[..|ps| - 1], k);
      AssignGet(AssignAll(ps[..|ps| - 1]), ps[|ps| - 1].0, ps[|ps| - 1].1, k);
    }
  }

  /** The last pair with a key is a pair of `ps` after which the key does
      not occur again. */
  lemma {:induction false} LastValueIsLast<K(!new), V>(ps: seq<(K, V)>, k: K)
    requires LastValue(ps, k).Some?
    ensures exists i :: 0 <= i < |ps| && ps[i] == (k, LastValue(ps, k).value)
                        && forall j :: i < j < |ps| ==> ps[j].0 != k
    decreases |ps|
  {
    var n := |ps| - 1;
    if ps[n].0 != k {
      LastValueIsLast(ps[..n], k);
      var i :| 0 <= i < n && ps[..n][i] == (k, LastValue(ps[..n], k).value)
               && forall j :: i < j < n ==> ps[..n][j].0 != k;
      assert ps[i] == ps[..n][i];
      assert forall j :: i < j < n ==> ps[j] == ps[..n][j];
    } else {
      assert ps[n] == (k, LastValue(ps, k).value);
    }
  }

  lemma {:induction false} LastValuePresent<K(!new), V>(ps: seq<(K, V)>, k: K)
    ensures LastValue(ps, k).Some? <==> k in Firsts(ps)
    decreases |ps|
  {
    if ps != [] {
      LastValuePresent(ps[..|ps| - 1], k);
      assert Firsts(ps) == Firsts(ps[..|ps| - 1]) + [ps[|ps| - 1].0];
    }
  }

  /** `del d[k]` on a dict holding `k`. */
  function Delete<K(==,!new), V>(d: Dict<K, V>, k: K): Dict<K, V>
  {
    if d == [] then []
    else if d[0].0 == k then Delete(d[1..], k)
    else [d[0]] + Delete(d[1..], k)
  }

  /** `del d[k]` removes `k` and keeps the other keys in their order. */
  lemma {:induction false} DeleteKeys<K(!new), V>(d: Dict<K, V>, k: K)
    ensures Keys(Delete(d, k)) == Without(Keys(d), [k])
  {
    if d != [] {
      DeleteKeys(d[1..], k);
      FirstsCons(d[0], d[1..]);
      assert d == [d[0]] + d[1..];
      assert Keys(d)[1..] == Keys(d[1..]);
      if d[0].0 != k {
        FirstsCons(d[0], Delete(d[1..], k));
      }
    }
  }

  /** After `del d[k]`, `k` has no value and every other key what it held. */
  lemma {:induction false} DeleteGet<K(!new), V>(d: Dict<K, V>, k: K, k': K)
    ensures Get(Delete(d, k), k') == if k' == k then None else Get(d, k')
  {
    if d != [] {
      DeleteGet(d[1..], k, k');
    }
  }
}
