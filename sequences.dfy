/** Sequence helpers shared by the query builder.

    `Keep(xs, s)` is the order-preserving filter "the entries of xs that lie in s". It is
    what the filter loop of the query builder computes over an allow-list, and what PHP's
    `array_intersect($xs, $allowed)` computes over a list-shaped array (the surviving
    entries keep their relative order and their duplicates).
 */
module Sequences {

  /** No entry occurs twice. */
  predicate NoDuplicates<T(==)>(xs: seq<T>) {
    forall i, j :: 0 <= i < j < |xs| ==> xs[i] != xs[j]
  }

  /** `a` can be obtained from `b` by deleting entries (order kept). */
  predicate Subsequence<T(==)>(a: seq<T>, b: seq<T>)
    decreases |b|
  {
    if a == [] then true
    else if b == [] then false
    else (a[0] == b[0] && Subsequence(a[1..], b[1..])) || Subsequence(a, b[1..])
  }

  /** The entries of `xs` that are members of `s`, in the order of `xs`. */
  function Keep<T(==)>(xs: seq<T>, s: set<T>): (r: seq<T>)
    ensures |r| <= |xs|
    ensures forall x :: x in r ==> x in s && x in xs
  {
    if xs == [] then []
    else (if xs[0] in s then [xs[0]] else []) + Keep(xs[1..], s)
  }

  /** Keep works entry by entry: extending the input extends the output. */
  lemma {:induction false} KeepSnoc<T>(xs: seq<T>, x: T, s: set<T>)
    ensures Keep(xs + [x], s) == Keep(xs, s) + (if x in s then [x] else [])
  {
    if xs == [] {
      assert xs + [x] == [x];
    } else {
      assert (xs + [x])[1..] == xs[1..] + [x];
      KeepSnoc(xs[1..], x, s);
    }
  }

  /** The output is a subsequence of the input: order is preserved. */
  lemma {:induction false} KeepIsSubsequence<T>(xs: seq<T>, s: set<T>)
    ensures Subsequence(Keep(xs, s), xs)
  {
    if xs != [] {
      KeepIsSubsequence(xs[1..], s);
      var k := Keep(xs[1..], s);
      if xs[0] in s {
        assert Keep(xs, s) == [xs[0]] + k;
        assert ([xs[0]] + k)[1..] == k;
      } else {
        assert Keep(xs, s) == k;
        if k != [] {
          assert Subsequence(k, xs[1..]);
        }
      }
    }
  }

  /** Every entry of `s` keeps all its occurrences; every other value is dropped. */
  lemma {:induction false} KeepCounts<T>(xs: seq<T>, s: set<T>)
    ensures forall v :: multiset(Keep(xs, s))[v] == if v in s then multiset(xs)[v] else 0
  {
    if xs != [] {
      KeepCounts(xs[1..], s);
      assert xs == [xs[0]] + xs[1..];
      assert multiset(xs) == multiset([xs[0]]) + multiset(xs[1..]);
      var head: seq<T> := if xs[0] in s then [xs[0]] else [];
      assert multiset(Keep(xs, s)) == multiset(head) + multiset(Keep(xs[1..], s));
    }
  }

  /** Keep yields nothing exactly when no entry of the input is in `s`. */
  lemma {:induction false} KeepEmptyIff<T>(xs: seq<T>, s: set<T>)
    ensures Keep(xs, s) == [] <==> forall x :: x in xs ==> x !in s
  {
    if xs != [] {
      KeepEmptyIff(xs[1..], s);
      assert forall x :: x in xs <==> x == xs[0] || x in xs[1..];
    }
  }

  /** Keep leaves the input as it is exactly when every entry is in `s`. */
  lemma {:induction false} KeepAllIff<T>(xs: seq<T>, s: set<T>)
    ensures Keep(xs, s) == xs <==> forall x :: x in xs ==> x in s
  {
    if xs != [] {
      KeepAllIff(xs[1..], s);
      assert forall x :: x in xs <==> x == xs[0] || x in xs[1..];
      if xs[0] !in s {
        assert |Keep(xs, s)| < |xs|;
      }
    }
  }

  /** Adding values outside the input to `s` changes nothing. */
  lemma {:induction false} KeepIgnoresOutsiders<T>(xs: seq<T>, s: set<T>, t: set<T>)
    requires forall x :: x in xs ==> (x in s <==> x in t)
    ensures Keep(xs, s) == Keep(xs, t)
  {
    if xs != [] {
      assert xs[0] in xs;
      assert forall x :: x in xs[1..] ==> x in xs;
      KeepIgnoresOutsiders(xs[1..], s, t);
    }
  }

  /** A subsequence never holds a value more often than the whole. */
  lemma {:induction false} SubsequenceCounts<T>(a: seq<T>, b: seq<T>)
    requires Subsequence(a, b)
    ensures multiset(a) <= multiset(b)
    decreases |b|
  {
    if a != [] {
      assert b == [b[0]] + b[1..];
      if a[0] == b[0] && Subsequence(a[1..], b[1..]) {
        SubsequenceCounts(a[1..], b[1..]);
        assert a == [a[0]] + a[1..];
      } else {
        SubsequenceCounts(a, b[1..]);
      }
    }
  }

  /** Keep is the only subsequence of `xs` that holds every occurrence of the values in
      `s` and no other value: an independent characterisation of the filter. */
  lemma {:induction false} KeepUnique<T>(a: seq<T>, xs: seq<T>, s: set<T>)
    requires Subsequence(a, xs)
    requires forall v :: multiset(a)[v] == if v in s then multiset(xs)[v] else 0
    ensures a == Keep(xs, s)
    decreases |xs|
  {
    if xs == [] {
      assert a == [];
    } else {
      var x := xs[0];
      assert xs == [x] + xs[1..];
      assert multiset(xs) == multiset([x]) + multiset(xs[1..]);
      if x in s {
        assert multiset(a)[x] == multiset(xs)[x] > 0;
        assert a != [];
        if !(a[0] == x && Subsequence(a[1..], xs[1..])) {
          SubsequenceCounts(a, xs[1..]);
          assert false;
        }
        assert a == [x] + a[1..];
        assert multiset(a) == multiset([x]) + multiset(a[1..]);
        forall v ensures multiset(a[1..])[v] == if v in s then multiset(xs[1..])[v] else 0 {
        }
        KeepUnique(a[1..], xs[1..], s);
      } else {
        if a != [] {
          assert a[0] in multiset(a);
          assert a[0] != x;
        }
        assert Subsequence(a, xs[1..]);
        forall v ensures multiset(a)[v] == if v in s then multiset(xs[1..])[v] else 0 {
        }
        KeepUnique(a, xs[1..], s);
      }
    }
  }

  /** Without duplicates, every member occurs exactly once. */
  lemma {:induction false} NoDuplicatesCount<T>(xs: seq<T>, v: T)
    requires NoDuplicates(xs)
    ensures multiset(xs)[v] == if v in xs then 1 else 0
  {
    if xs != [] {
      assert xs == [xs[0]] + xs[1..];
      assert multiset(xs) == multiset([xs[0]]) + multiset(xs[1..]);
      assert NoDuplicates(xs[1..]) by {
        forall i, j | 0 <= i < j < |xs[1..]| ensures xs[1..][i] != xs[1..][j] {
          assert xs[1..][i] == xs[i + 1] && xs[1..][j] == xs[j + 1];
        }
      }
      NoDuplicatesCount(xs[1..], v);
      if v == xs[0] {
        assert forall j :: 0 <= j < |xs[1..]| ==> xs[1..][j] != v by {
          forall j | 0 <= j < |xs[1..]| ensures xs[1..][j] != v {
            assert xs[1..][j] == xs[j + 1];
          }
        }
      }
    }
  }
}
