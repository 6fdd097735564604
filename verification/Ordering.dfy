/** Strings in byte order, and the one sorted arrangement of a finite set of them. */
module Ordering {

  predicate Below(a: string, b: string) {
    if b == "" then false
    else if a == "" then true
    else a[0] < b[0] || (a[0] == b[0] && Below(a[1..], b[1..]))
  }

  lemma {:induction false} Total(a: string, b: string)
    ensures a == b || Below(a, b) || Below(b, a)
    ensures !(Below(a, b) && Below(b, a)) && !Below(a, a)
  {
    if a != "" {
      Total(a[1..], a[1..]);
      if b != "" {
        Total(a[1..], b[1..]);
        assert a == [a[0]] + a[1..] && b == [b[0]] + b[1..];
      }
    }
  }

  lemma {:induction false} Transitive(a: string, b: string, c: string)
    requires Below(a, b) && Below(b, c)
    ensures Below(a, c)
  {
    if a != "" && a[0] == b[0] == c[0] {
      Transitive(a[1..], b[1..], c[1..]);
    }
  }

  ghost predicate Sorted(keys: seq<string>) {
    forall i, k :: 0 <= i < k < |keys| ==> Below(keys[i], keys[k])
  }

  lemma HasElement(a: seq<string>)
    ensures a != [] ==> exists k :: k in a
  {
    if a != [] {
      assert a[0] in a;
    }
  }

  /** A sorted sequence is determined by its elements. */
  lemma {:induction false} SortedIsUnique(a: seq<string>, b: seq<string>)
    requires Sorted(a) && Sorted(b) && forall k :: k in a <==> k in b
    ensures a == b
  {
    HasElement(b);
    if a != [] {
      assert a[0] in b && b != [];
      assert b[0] in a;
      HeadsAgree(a, b);
      forall k ensures k in a[1..] <==> k in b[1..] {
        TailElements(a, k);
        TailElements(b, k);
      }
      SortedIsUnique(a[1..], b[1..]);
      assert a == [a[0]] + a[1..] && b == [b[0]] + b[1..];
    }
  }

  lemma HeadsAgree(a: seq<string>, b: seq<string>)
    requires Sorted(a) && Sorted(b) && a != [] && b != [] && a[0] in b && b[0] in a
    ensures a[0] == b[0]
  {
    var i :| 0 <= i < |b| && b[i] == a[0];
    var k :| 0 <= k < |a| && a[k] == b[0];
    Total(a[0], b[0]);
  }

  lemma TailElements(a: seq<string>, k: string)
    requires Sorted(a) && a != []
    ensures k in a[1..] <==> k in a && k != a[0]
  {
    Total(a[0], a[0]);
    if k in a[1..] {
      var i :| 0 <= i < |a[1..]| && a[1..][i] == k;
      assert a[i + 1] == k;
    }
    if k in a && k != a[0] {
      var i :| 0 <= i < |a| && a[i] == k;
      assert a[1..][i - 1] == k;
    }
  }

  /** Inserts a new key into its place. */
  method Insert(sorted: seq<string>, key: string) returns (out: seq<string>)
    requires Sorted(sorted) && key !in sorted
    ensures Sorted(out) && forall k :: k in out <==> k in sorted || k == key
  {
    var i := 0;
    while i < |sorted| && Below(sorted[i], key)
      invariant 0 <= i <= |sorted|
      invariant forall j :: 0 <= j < i ==> Below(sorted[j], key)
    {
      i := i + 1;
    }
    forall j | i <= j < |sorted| ensures Below(key, sorted[j]) {
      assert sorted[i] != key && sorted[j] != key;
      Total(sorted[i], key);
      if i < j {
        Transitive(key, sorted[i], sorted[j]);
      }
    }
    out := sorted[..i] + [key] + sorted[i..];
    assert sorted == sorted[..i] + sorted[i..];
  }

  method SortKeys(keys: set<string>) returns (out: seq<string>)
    ensures Sorted(out) && forall k :: k in out <==> k in keys
  {
    out := [];
    var rest := keys;
    while rest != {}
      invariant rest <= keys && Sorted(out)
      invariant forall k :: k in out <==> k in keys && k !in rest
      decreases rest
    {
      var k :| k in rest;
      out := Insert(out, k);
      rest := rest - {k};
    }
  }

  lemma {:induction false} SortedExists(keys: set<string>) returns (out: seq<string>)
    ensures Sorted(out) && forall k :: k in out <==> k in keys
  {
    out := [];
    if keys != {} {
      var k :| k in keys;
      var rest := SortedExists(keys - {k});
      out := Inserted(rest, k);
    }
  }

  lemma {:induction false} Inserted(sorted: seq<string>, key: string) returns (out: seq<string>)
    requires Sorted(sorted) && key !in sorted
    ensures Sorted(out) && forall k :: k in out <==> k in sorted || k == key
  {
    if sorted == [] {
      out := [key];
    } else {
      Total(sorted[0], key);
      assert sorted[0] in sorted;
      if Below(key, sorted[0]) {
        out := [key] + sorted;
        forall j | 0 <= j < |sorted| ensures Below(key, sorted[j]) {
          if 0 < j {
            Transitive(key, sorted[0], sorted[j]);
          }
        }
      } else {
        TailElements(sorted, key);
        var rest := Inserted(sorted[1..], key);
        out := [sorted[0]] + rest;
        forall j | 0 <= j < |rest| ensures Below(sorted[0], rest[j]) {
          assert rest[j] in rest;
          TailElements(sorted, rest[j]);
          if rest[j] != key {
            var i :| 0 <= i < |sorted| && sorted[i] == rest[j];
          }
        }
        forall k ensures k in out <==> k in sorted || k == key {
          TailElements(sorted, k);
        }
      }
    }
  }

  ghost function SortedKeys(keys: set<string>): (out: seq<string>)
    ensures Sorted(out) && forall k :: k in out <==> k in keys
  {
    assert exists out: seq<string> :: Sorted(out) && forall k :: k in out <==> k in keys by {
      var out := SortedExists(keys);
    }
    var out: seq<string> :| Sorted(out) && forall k :: k in out <==> k in keys;
    out
  }
}
