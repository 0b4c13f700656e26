/** Sizes of finite sets and of duplicate-free lists. */
module Sets {

  ghost predicate NoDup<T>(xs: seq<T>) {
    forall i, j :: 0 <= i < j < |xs| ==> xs[i] != xs[j]
  }

  function Elems<T(!new)>(xs: seq<T>): (s: set<T>)
    ensures forall x :: x in s <==> x in xs
  {
    set x | x in xs
  }

  lemma {:induction false} SubsetSize<T>(a: set<T>, b: set<T>)
    requires a <= b
    ensures |a| <= |b|
    ensures |a| == |b| ==> a == b
  {
    assert b == a + (b - a);
    assert |b| == |a| + |b - a|;
  }

  lemma {:induction false} NoDupSize<T(!new)>(xs: seq<T>)
    ensures |Elems(xs)| <= |xs|
    ensures NoDup(xs) <==> |Elems(xs)| == |xs|
  {
    if xs == [] {
    } else {
      var last := |xs| - 1;
      NoDupSize(xs[..last]);
      assert Elems(xs) == Elems(xs[..last]) + {xs[last]};
      if xs[last] in xs[..last] {
        assert Elems(xs) == Elems(xs[..last]);
      } else if NoDup(xs[..last]) {
        forall i, j | 0 <= i < j < |xs| ensures xs[i] != xs[j] {
          if j == last {
            assert xs[..last][i] == xs[i];
          } else {
            assert xs[..last][i] != xs[..last][j];
          }
        }
      } else {
        var i, j :| 0 <= i < j < last && xs[..last][i] == xs[..last][j];
        assert xs[i] == xs[j];
      }
    }
  }

  ghost predicate InjectiveOn<K, V>(f: map<K, V>, s: set<K>) {
    s <= f.Keys && forall a, b :: a in s && b in s && f[a] == f[b] ==> a == b
  }

  function Image<K(!new), V(!new)>(f: map<K, V>, s: set<K>): (r: set<V>)
    requires s <= f.Keys
    ensures forall v :: v in r <==> exists k :: k in s && f[k] == v
  {
    set k | k in s :: f[k]
  }

  lemma {:induction false} ImageSize<K(!new), V(!new)>(f: map<K, V>, s: set<K>)
    requires InjectiveOn(f, s)
    ensures |Image(f, s)| == |s|
    decreases |s|
  {
    if s == {} {
    } else {
      var k :| k in s;
      ImageSize(f, s - {k});
      assert Image(f, s) == Image(f, s - {k}) + {f[k]};
    }
  }

  // ---- Sums over maps ----

  ghost function Sum<K>(m: map<K, nat>): nat {
    if m == map[] then 0
    else
      var k :| k in m;
      m[k] + Sum(m - {k})
  }

  lemma {:induction false} SumWithout<K>(m: map<K, nat>, k: K)
    requires k in m
    ensures Sum(m) == m[k] + Sum(m - {k})
    decreases |m|
  {
    var pick :| pick in m && Sum(m) == m[pick] + Sum(m - {pick});
    if pick != k {
      SumWithout(m - {pick}, k);
      SumWithout(m - {k}, pick);
      assert m - {pick} - {k} == m - {k} - {pick};
    }
  }
}
