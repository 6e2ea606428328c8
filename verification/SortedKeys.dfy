// The keys of a map in the order the planner walks them.
module SortedKeys {

  // Byte-wise lexicographic order.
  predicate Leq(a: string, b: string) {
    a == [] || (b != [] && (a[0] < b[0] || (a[0] == b[0] && Leq(a[1..], b[1..]))))
  }

  lemma {:induction false} LeqTotal(a: string, b: string)
    ensures Leq(a, b) || Leq(b, a)
  {
    if a != [] && b != [] {
      LeqTotal(a[1..], b[1..]);
    }
  }

  lemma {:induction false} LeqAntisymmetric(a: string, b: string)
    requires Leq(a, b) && Leq(b, a)
    ensures a == b
  {
    if a != [] && b != [] {
      LeqAntisymmetric(a[1..], b[1..]);
      assert a == [a[0]] + a[1..] && b == [b[0]] + b[1..];
    }
  }

  lemma {:induction false} LeqTransitive(a: string, b: string, c: string)
    requires Leq(a, b) && Leq(b, c)
    ensures Leq(a, c)
  {
    if a != [] && b != [] && c != [] && a[0] == b[0] == c[0] {
      LeqTransitive(a[1..], b[1..], c[1..]);
    }
  }

  predicate IsLeast(m: string, keys: set<string>) {
    m in keys && forall x :: x in keys ==> Leq(m, x)
  }

  lemma {:induction false} HasLeast(keys: set<string>)
    requires keys != {}
    ensures exists m :: IsLeast(m, keys)
  {
    var k :| k in keys;
    if keys == {k} {
      LeqTotal(k, k);
      assert IsLeast(k, keys);
    } else {
      HasLeast(keys - {k});
      var m :| IsLeast(m, keys - {k});
      LeqTotal(k, m);
      LeqTotal(k, k);
      var least := if Leq(k, m) then k else m;
      forall x | x in keys ensures Leq(least, x) {
        if least == k && x != k {
          LeqTransitive(k, m, x);
        }
      }
      assert IsLeast(least, keys);
    }
  }

  lemma OneLeast(m: string, n: string, keys: set<string>)
    requires IsLeast(m, keys) && IsLeast(n, keys)
    ensures m == n
  {
    LeqAntisymmetric(m, n);
  }

  function Least(keys: set<string>): (m: string)
    requires keys != {}
    ensures IsLeast(m, keys)
  {
    HasLeast(keys);
    assert forall m, n :: IsLeast(m, keys) && IsLeast(n, keys) ==> m == n by {
      forall m, n | IsLeast(m, keys) && IsLeast(n, keys) ensures m == n {
        OneLeast(m, n, keys);
      }
    }
    var m :| IsLeast(m, keys);
    m
  }

  predicate Distinct<T(==)>(s: seq<T>) {
    forall i, j :: 0 <= i < j < |s| ==> s[i] != s[j]
  }

  predicate Ascending(s: seq<string>) {
    forall i, j :: 0 <= i < j < |s| ==> Leq(s[i], s[j])
  }

  function Elements<T>(s: seq<T>): set<T> {
    set x | x in s
  }

  lemma IndexIn<T>(s: seq<T>, x: T) returns (i: nat)
    requires x in Elements(s)
    ensures i < |s| && s[i] == x
  {
    i :| 0 <= i < |s| && s[i] == x;
  }

  lemma ElementsNext<T>(s: seq<T>, k: nat)
    requires k < |s|
    ensures Elements(s[..k + 1]) == Elements(s[..k]) + {s[k]}
    ensures Distinct(s) ==> s[k] !in Elements(s[..k])
    ensures s[k] in Elements(s)
  {
    assert s[..k + 1] == s[..k] + [s[k]];
  }

  function Sorted(keys: set<string>): (r: seq<string>)
    decreases |keys|
  {
    if keys == {} then [] else
      var m := Least(keys);
      [m] + Sorted(keys - {m})
  }

  // Each key once, in order.
  lemma {:induction false} SortedLists(keys: set<string>)
    ensures Distinct(Sorted(keys)) && Ascending(Sorted(keys)) && Elements(Sorted(keys)) == keys
    decreases |keys|
  {
    if keys != {} {
      var m := Least(keys);
      SortedLists(keys - {m});
      Prepend(m, Sorted(keys - {m}), keys - {m});
    }
  }

  lemma Prepend(m: string, rest: seq<string>, keys: set<string>)
    requires Distinct(rest) && Ascending(rest) && Elements(rest) == keys
    requires m !in keys && IsLeast(m, {m} + keys)
    ensures Distinct([m] + rest) && Ascending([m] + rest) && Elements([m] + rest) == {m} + keys
  {
    forall i | 0 <= i < |rest| ensures rest[i] != m && Leq(m, rest[i]) {
      assert rest[i] in Elements(rest);
    }
  }
}
