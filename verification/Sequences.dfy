/** Index permutations, sorting, the C++ library's choices, and sums over sequences. */
module Sequences {

  /** `perm` lists every index below `n` exactly once. */
  ghost predicate IsPermutation(perm: seq<nat>, n: nat) {
    && |perm| == n
    && (forall i :: 0 <= i < n ==> perm[i] < n)
    && (forall i, j :: 0 <= i < j < n ==> perm[i] != perm[j])
    && (forall i :: 0 <= i < n ==> i in perm)
  }

  ghost predicate Distinct<T>(s: seq<T>) {
    forall i, j :: 0 <= i < j < |s| ==> s[i] != s[j]
  }

  ghost predicate Ascending(keys: seq<real>, perm: seq<nat>)
    requires forall i :: 0 <= i < |perm| ==> perm[i] < |keys|
  {
    forall i, j :: 0 <= i < j < |perm| ==> keys[perm[i]] <= keys[perm[j]]
  }

  function Permute<T>(s: seq<T>, perm: seq<nat>): (r: seq<T>)
    requires forall i :: 0 <= i < |perm| ==> perm[i] < |s|
    ensures |r| == |perm|
    ensures forall i :: 0 <= i < |r| ==> r[i] == s[perm[i]]
  {
    seq(|perm|, i requires 0 <= i < |perm| => s[perm[i]])
  }

  /** One way to sort: insertion, equal keys in their given order. */
  function InsertionOrder(keys: seq<real>): (r: seq<nat>)
    ensures |r| == |keys| && forall i :: 0 <= i < |r| ==> r[i] < |r|
    decreases |keys|
  {
    if keys == [] then []
    else
      var n := |keys| - 1;
      var perm := InsertionOrder(keys[..n]);
      InsertAt(perm, InsertionPoint(keys, perm, n), n)
  }

  lemma AscendingPrefix(keys: seq<real>, perm: seq<nat>, n: nat)
    requires n <= |keys| && (forall i :: 0 <= i < |perm| ==> perm[i] < n) && Ascending(keys[..n], perm)
    ensures Ascending(keys, perm)
  {
    assert forall i :: 0 <= i < |perm| ==> keys[..n][perm[i]] == keys[perm[i]];
  }

  function InsertionPoint(keys: seq<real>, perm: seq<nat>, at: nat): (r: nat)
    requires |perm| < |keys| && at <= |perm| && forall i :: 0 <= i < |perm| ==> perm[i] < |perm|
    ensures r <= at && (r > 0 ==> keys[perm[r - 1]] <= keys[|perm|])
    ensures forall i :: r <= i < at ==> keys[perm[i]] > keys[|perm|]
  {
    if at > 0 && keys[perm[at - 1]] > keys[|perm|] then InsertionPoint(keys, perm, at - 1) else at
  }

  function InsertAt(perm: seq<nat>, at: nat, n: nat): (r: seq<nat>)
    requires at <= |perm|
    ensures |r| == |perm| + 1
    ensures forall i :: 0 <= i < at ==> r[i] == perm[i]
    ensures r[at] == n
    ensures forall i :: at < i < |r| ==> r[i] == perm[i - 1]
    ensures n == |perm| && (forall i :: 0 <= i < |perm| ==> perm[i] < n) ==> forall i :: 0 <= i < |r| ==> r[i] < |r|
  {
    perm[..at] + [n] + perm[at..]
  }

  lemma InsertPermutation(perm: seq<nat>, at: nat, r: seq<nat>)
    requires IsPermutation(perm, |perm|) && at <= |perm| && r == InsertAt(perm, at, |perm|)
    ensures IsPermutation(r, |perm| + 1)
  {
    var n := |perm|;
    forall i | 0 <= i < n + 1
      ensures i in r
    {
      if i < n {
        assert i in perm;
        var p :| 0 <= p < n && perm[p] == i;
        assert r[if p < at then p else p + 1] == i;
      } else {
        assert r[at] == i;
      }
    }
  }

  lemma InsertAscending(keys: seq<real>, perm: seq<nat>, at: nat)
    requires |perm| < |keys| && at <= |perm|
    requires forall i :: 0 <= i < |perm| ==> perm[i] < |perm|
    requires Ascending(keys, perm)
    requires forall i :: at <= i < |perm| ==> keys[perm[i]] > keys[|perm|]
    requires at > 0 ==> keys[perm[at - 1]] <= keys[|perm|]
    ensures Ascending(keys, InsertAt(perm, at, |perm|))
  {
    var r := InsertAt(perm, at, |perm|);
    forall i, j | 0 <= i < j < |r|
      ensures keys[r[i]] <= keys[r[j]]
    {
      if j == at && i < at - 1 { assert keys[perm[i]] <= keys[perm[at - 1]]; }
    }
  }

  ghost predicate Sorts(keys: seq<real>, perm: seq<nat>) {
    IsPermutation(perm, |keys|) && Ascending(keys, perm)
  }

  lemma {:induction false} InsertionPermutes(keys: seq<real>)
    ensures IsPermutation(InsertionOrder(keys), |keys|)
    decreases |keys|
  {
    if keys != [] {
      var n := |keys| - 1;
      var perm := InsertionOrder(keys[..n]);
      InsertionPermutes(keys[..n]);
      InsertPermutation(perm, InsertionPoint(keys, perm, n), InsertionOrder(keys));
    }
  }

  lemma {:induction false} InsertionAscends(keys: seq<real>)
    ensures Ascending(keys, InsertionOrder(keys))
    decreases |keys|
  {
    if keys != [] {
      var n := |keys| - 1;
      var perm := InsertionOrder(keys[..n]);
      InsertionAscends(keys[..n]);
      AscendingPrefix(keys, perm, n);
      InsertAscending(keys, perm, InsertionPoint(keys, perm, n));
    }
  }

  lemma InsertionSorts(keys: seq<real>)
    ensures Sorts(keys, InsertionOrder(keys))
  {
    InsertionPermutes(keys);
    InsertionAscends(keys);
  }

  function SumOf<T>(f: T -> int, s: seq<T>): (r: int)
  {
    if s == [] then 0 else SumOf(f, s[..|s| - 1]) + f(s[|s| - 1])
  }

  lemma {:induction false} SumOfAppend<T>(f: T -> int, a: seq<T>, b: seq<T>)
    ensures SumOf(f, a + b) == SumOf(f, a) + SumOf(f, b)
  {
    if b == [] {
      assert a + b == a;
    } else {
      SumOfAppend(f, a, b[..|b| - 1]);
      assert (a + b)[..|a + b| - 1] == a + b[..|b| - 1];
    }
  }

  lemma SumOfOne<T>(f: T -> int, x: T)
    ensures SumOf(f, [x]) == f(x)
  {
    assert [x][..0] == [];
  }

  lemma {:induction false} SumOfWithout<T>(f: T -> int, s: seq<T>, at: nat)
    requires at < |s|
    ensures SumOf(f, s) == SumOf(f, s[..at] + s[at + 1..]) + f(s[at])
  {
    var a, b := s[..at], s[at + 1..];
    SumOfAppend(f, a, b);
    SumOfAppend(f, a, [s[at]]);
    SumOfAppend(f, a + [s[at]], b);
    SumOfOne(f, s[at]);
    assert s == a + [s[at]] + b;
  }

  lemma DistinctWithout<T>(s: seq<T>, at: nat, r: seq<T>)
    requires Distinct(s) && at < |s| && r == s[..at] + s[at + 1..]
    ensures Distinct(r)
    ensures forall x :: x in r <==> x in s && x != s[at]
  {
    assert forall i :: 0 <= i < at ==> r[i] == s[i];
    assert forall i :: at <= i < |r| ==> r[i] == s[i + 1];
    assert s == s[..at] + [s[at]] + s[at + 1..];
  }

  /** Dropping the largest index from a permutation, and the permuted sequence with it. */
  lemma RemoveLargest<T>(s: seq<T>, perm: seq<nat>, at: nat, rest: seq<nat>)
    requires IsPermutation(perm, |s|) && at < |perm| && perm[at] == |s| - 1
    requires rest == perm[..at] + perm[at + 1..]
    ensures IsPermutation(rest, |s| - 1)
    ensures var p := Permute(s, perm); Permute(s[..|s| - 1], rest) == p[..at] + p[at + 1..]
  {
    assert Distinct(perm);
    DistinctWithout(perm, at, rest);
    forall i | 0 <= i < |rest| ensures rest[i] < |s| - 1 { assert rest[i] in rest; }
    forall i | 0 <= i < |s| - 1 ensures i in rest { assert i in perm; }
    assert Distinct(rest);
  }

  /** Take the largest index out: where it stands, and the permutation of the rest. */
  lemma PermuteStep<T>(s: seq<T>, perm: seq<nat>) returns (at: nat, rest: seq<nat>)
    requires IsPermutation(perm, |s|) && s != []
    ensures at < |perm| == |Permute(s, perm)| && Permute(s, perm)[at] == s[|s| - 1]
    ensures IsPermutation(rest, |s| - 1)
    ensures Permute(s[..|s| - 1], rest) == Permute(s, perm)[..at] + Permute(s, perm)[at + 1..]
  {
    assert |s| - 1 in perm;
    at :| 0 <= at < |perm| && perm[at] == |s| - 1;
    rest := perm[..at] + perm[at + 1..];
    RemoveLargest(s, perm, at, rest);
  }

  lemma PermuteElements<T>(s: seq<T>, perm: seq<nat>)
    requires IsPermutation(perm, |s|)
    ensures forall x :: x in Permute(s, perm) <==> x in s
  {
    var p := Permute(s, perm);
    forall x | x in p ensures x in s {
      var i :| 0 <= i < |p| && p[i] == x;
      assert s[perm[i]] == x;
    }
    forall x | x in s ensures x in p {
      var i :| 0 <= i < |s| && s[i] == x;
      assert i in perm;
      var k :| 0 <= k < |perm| && perm[k] == i;
      assert p[k] == x;
    }
  }

  lemma SomeElement<T>(s: seq<T>)
    ensures s == [] || exists x :: x in s
  {
    if s != [] { assert s[0] in s; }
  }

  /** Two duplicate-free listings of the same elements have the same sum. */
  lemma {:induction false} SumOfSame<T>(f: T -> int, a: seq<T>, b: seq<T>)
    requires Distinct(a) && Distinct(b) && forall x :: x in a <==> x in b
    ensures SumOf(f, a) == SumOf(f, b)
    decreases |a|
  {
    if a == [] {
      SomeElement(b);
    } else {
      var n := |a| - 1;
      assert a[n] in b;
      var at :| 0 <= at < |b| && b[at] == a[n];
      var a', b' := a[..n], b[..at] + b[at + 1..];
      DistinctWithout(a, n, a') by { assert a' == a[..n] + a[n + 1..]; }
      DistinctWithout(b, at, b');
      SumOfSame(f, a', b');
      SumOfWithout(f, b, at);
    }
  }

  lemma {:induction false} SumOfPointwise<S, T>(f: S -> int, a: seq<S>, g: T -> int, b: seq<T>)
    requires |a| == |b| && forall i :: 0 <= i < |a| ==> f(a[i]) == g(b[i])
    ensures SumOf(f, a) == SumOf(g, b)
  {
    if a != [] { SumOfPointwise(f, a[..|a| - 1], g, b[..|b| - 1]); }
  }

  lemma {:induction false} PermuteMultiset<T>(s: seq<T>, perm: seq<nat>)
    requires IsPermutation(perm, |s|)
    ensures multiset(Permute(s, perm)) == multiset(s)
    decreases |s|
  {
    if s != [] {
      var n := |s| - 1;
      var at, rest := PermuteStep(s, perm);
      PermuteMultiset(s[..n], rest);
      MultisetPut(s, Permute(s, perm), Permute(s[..n], rest), at);
    }
  }

  /** Putting the last element somewhere else. */
  lemma MultisetPut<T>(s: seq<T>, p: seq<T>, q: seq<T>, at: nat)
    requires s != [] && at < |p| && p[at] == s[|s| - 1] && p[..at] + p[at + 1..] == q
    requires multiset(q) == multiset(s[..|s| - 1])
    ensures multiset(p) == multiset(s)
  {
    assert p == p[..at] + [p[at]] + p[at + 1..];
    assert s == s[..|s| - 1] + [s[|s| - 1]];
    assert multiset(p) == multiset(q) + multiset{p[at]};
  }

  /** Room for the index `at`. */
  function Shifted(perm: seq<nat>, at: nat): (r: seq<nat>)
    ensures |r| == |perm| && forall i :: 0 <= i < |r| ==> r[i] == if perm[i] < at then perm[i] else perm[i] + 1
  {
    seq(|perm|, i requires 0 <= i < |perm| => if perm[i] < at then perm[i] else perm[i] + 1)
  }

  lemma ShiftedPermutation(perm: seq<nat>, at: nat, r: seq<nat>)
    requires IsPermutation(perm, |perm|) && at <= |perm| && r == Shifted(perm, at) + [at]
    ensures IsPermutation(r, |perm| + 1)
  {
    var n := |perm|;
    forall x | 0 <= x < n + 1 ensures x in r {
      if x == at {
        assert r[n] == x;
      } else {
        var y := if x < at then x else x - 1;
        assert y in perm;
        var i :| 0 <= i < n && perm[i] == y;
        assert r[i] == x;
      }
    }
  }

  /** Sequences with the same elements are permutations of each other. */
  lemma {:induction false} SamePermutation<T>(a: seq<T>, b: seq<T>) returns (order: seq<nat>)
    requires multiset(a) == multiset(b)
    ensures IsPermutation(order, |a|) && b == Permute(a, order)
    decreases |b|
  {
    assert |a| == |multiset(a)| && |b| == |multiset(b)|;
    if b == [] {
      order := [];
    } else {
      var n := |b| - 1;
      assert b[n] in multiset(b);
      var at :| 0 <= at < |a| && a[at] == b[n];
      var rest := a[..at] + a[at + 1..];
      WithoutOne(a, b, at);
      var perm := SamePermutation(rest, b[..n]);
      order := Shifted(perm, at) + [at];
      ShiftedPermutation(perm, at, order);
      ShiftedPermute(a, at, perm, order);
    }
  }

  lemma ShiftedPermute<T>(a: seq<T>, at: nat, perm: seq<nat>, order: seq<nat>)
    requires at < |a| && IsPermutation(perm, |a| - 1) && order == Shifted(perm, at) + [at]
    requires forall i :: 0 <= i < |order| ==> order[i] < |a|
    ensures Permute(a, order) == Permute(a[..at] + a[at + 1..], perm) + [a[at]]
  {
    var rest := a[..at] + a[at + 1..];
    assert forall i :: 0 <= i < |perm| ==> rest[perm[i]] == a[order[i]];
  }

  lemma WithoutOne<T>(a: seq<T>, b: seq<T>, at: nat)
    requires b != [] && at < |a| && a[at] == b[|b| - 1] && multiset(a) == multiset(b)
    ensures multiset(a[..at] + a[at + 1..]) == multiset(b[..|b| - 1])
  {
    assert a == a[..at] + [a[at]] + a[at + 1..];
    assert b == b[..|b| - 1] + [b[|b| - 1]];
    assert multiset(a[..at] + a[at + 1..]) == multiset(a) - multiset{a[at]};
  }

  lemma {:induction false} DistinctSubset<T>(a: seq<T>, b: seq<T>)
    requires Distinct(a) && forall x :: x in a ==> x in b
    ensures |a| <= |b|
  {
    if a != [] {
      var n := |a| - 1;
      assert a[n] in b;
      var at :| 0 <= at < |b| && b[at] == a[n];
      var a', b' := a[..n], b[..at] + b[at + 1..];
      assert b == b[..at] + [b[at]] + b[at + 1..];
      forall x | x in a' ensures x in b' {
        var i :| 0 <= i < n && a[i] == x;
        assert x in a && x != a[n];
      }
      DistinctSubset(a', b');
    }
  }

  /**
   * What the C++ library leaves open and an implementation fixes: the permutation std::sort
   * makes of given keys, and the order in which a std::map lists its keys.
   */
  datatype Library = Library(sort: seq<real> -> seq<nat>, list: set<string> -> seq<string>)

  ghost predicate Lawful(lib: Library) {
    && (forall keys :: Sorts(keys, lib.sort(keys)))
    && (forall ids :: Distinct(lib.list(ids)) && forall w :: w in lib.list(ids) <==> w in ids)
  }

  /** Some order of the elements. */
  ghost function Listing(ids: set<string>): (r: seq<string>)
    ensures Distinct(r) && forall w :: w in r <==> w in ids
  {
    if ids == {} then [] else var w :| w in ids; Listing(ids - {w}) + [w]
  }

  /** Insertion sort and some listing make a lawful library. */
  lemma LibraryExists() returns (lib: Library)
    ensures Lawful(lib)
  {
    lib := Library(InsertionOrder, Listing);
    forall keys ensures Sorts(keys, lib.sort(keys)) {
      InsertionSorts(keys);
    }
  }
}
