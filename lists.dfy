/** Python list and set idioms the repair jobs rely on, over sequences. */
module Lists {

  predicate Distinct<T(==,!new)>(s: seq<T>) {
    forall i, j :: 0 <= i < j < |s| ==> s[i] != s[j]
  }

  /** The elements of `s` in order of first occurrence, each once (what
      `dict.fromkeys(s)` keeps). */
  function Dedup<T(==,!new)>(s: seq<T>): (r: seq<T>)
    ensures Distinct(r)
    ensures forall x :: x in r <==> x in s
    decreases |s|
  {
    if s == [] then []
    else
      var init := Dedup(s[..|s| - 1]);
      assert forall x :: x in s <==> x in s[..|s| - 1] || x == s[|s| - 1];
      if s[|s| - 1] in init then init else init + [s[|s| - 1]]
  }

  /** `[x for x in a if x not in b]`. */
  function Without<T(==,!new)>(a: seq<T>, b: seq<T>): (r: seq<T>)
    ensures forall x :: x in r <==> x in a && x !in b
  {
    if a == [] then []
    else if a[0] in b then Without(a[1..], b)
    else [a[0]] + Without(a[1..], b)
  }

  /** Filtering a list without duplicates leaves none. */
  lemma {:induction false} WithoutDistinct<T(!new)>(a: seq<T>, b: seq<T>)
    requires Distinct(a)
    ensures Distinct(Without(a, b))
    decreases |a|
  {
    if a != [] {
      forall i, j | 0 <= i < j < |a[1..]| ensures a[1..][i] != a[1..][j] {
        assert a[1..][i] == a[i + 1] && a[1..][j] == a[j + 1];
      }
      forall k | 0 <= k < |a[1..]| ensures a[1..][k] != a[0] {
        assert a[1..][k] == a[k + 1];
      }
      WithoutDistinct(a[1..], b);
    }
  }

  /** Removing a list's own elements leaves nothing. */
  lemma {:induction false} WithoutSubset<T(!new)>(a: seq<T>, b: seq<T>)
    requires forall i :: 0 <= i < |a| ==> a[i] in b
    ensures Without(a, b) == []
    decreases |a|
  {
    if a != [] {
      WithoutSubset(a[1..], b);
    }
  }

  /** The first components of a list of pairs. */
  function Firsts<K, V>(ps: seq<(K, V)>): (r: seq<K>)
    ensures |r| == |ps| && forall i :: 0 <= i < |ps| ==> r[i] == ps[i].0
  {
    seq(|ps|, i requires 0 <= i < |ps| => ps[i].0)
  }

  lemma FirstsCons<K, V>(p: (K, V), ps: seq<(K, V)>)
    ensures Firsts([p] + ps) == [p.0] + Firsts(ps)
  {
  }
}
