/** Small shared vocabulary: optional values and finite-set counting. */
module Base {

  datatype Option<+T> = None | Some(value: T)

  lemma SubsetSize<T>(a: set<T>, b: set<T>)
    requires a <= b
    ensures |a| <= |b|
  {
    assert b == a + (b - a);
  }

  /** The numbers 1..n. */
  function UpTo(n: nat): (r: set<int>)
    ensures forall k :: k in r <==> 1 <= k <= n
    ensures |r| == n
  {
    if n == 0 then {} else UpTo(n - 1) + {n}
  }

  /** A subset of 1..n that has n elements is all of 1..n. */
  lemma FullSubset(a: set<int>, n: nat)
    requires a <= UpTo(n)
    requires |a| == n
    ensures a == UpTo(n)
  {
    var missing := UpTo(n) - a;
    assert UpTo(n) == a + missing;
    assert missing == {};
  }

  lemma SameUpdate<K, V>(m: map<K, V>, k: K)
    requires k in m
    ensures m[k := m[k]] == m
  {
  }

  /** Rows are only ever added. */
  ghost predicate Submap<K(!new), V>(m: map<K, V>, n: map<K, V>) {
    forall k :: k in m ==> k in n && n[k] == m[k]
  }

  lemma FreshId(ids: set<nat>) returns (i: nat)
    ensures i !in ids
  {
    if UpTo(|ids| + 1) <= ids {
      SubsetSize(UpTo(|ids| + 1), ids);
    }
    i :| i in UpTo(|ids| + 1) && i !in ids;
  }

  ghost function Image<A, B>(a: set<A>, f: A -> B): set<B> {
    set x | x in a :: f(x)
  }

  lemma {:induction false} ImageSize<A, B>(a: set<A>, f: A -> B)
    ensures |Image(a, f)| <= |a|
  {
    if a != {} {
      var y :| y in a;
      ImageSize(a - {y}, f);
      SubsetSize(Image(a, f), Image(a - {y}, f) + {f(y)});
    }
  }
}
