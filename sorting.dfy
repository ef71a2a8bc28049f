/** Stable ascending sorting by a real key, computed as an order of positions.

    Python's `sorted(xs, key=f)` is stable: the result lists the elements by
    ascending key and, among equal keys, in their input order.  Here a sort is
    an index order `o`: `o[k]` is the input position placed at output position
    `k`, and `Permute(s, o)` is the sorted sequence itself. */
module Sorting {

  /** In a stable ascending sort by `keys`, position `i` is placed before position `j`. */
  predicate Precedes(keys: seq<real>, i: nat, j: nat)
    requires i < |keys| && j < |keys|
  {
    keys[i] < keys[j] || (keys[i] == keys[j] && i < j)
  }

  /** `o` lists positions of `keys`, every one before each later one in the stable order. */
  predicate Ordered(keys: seq<real>, o: seq<nat>)
  {
    && (forall k :: 0 <= k < |o| ==> o[k] < |keys|)
    && (forall k1, k2 :: 0 <= k1 < k2 < |o| ==> Precedes(keys, o[k1], o[k2]))
  }

  /** `o` is the stable sort order of all of `keys`: every position exactly once, in order. */
  predicate IsSortOrder(keys: seq<real>, o: seq<nat>)
  {
    && Ordered(keys, o)
    && |o| == |keys|
    && (forall x: nat :: x < |keys| ==> x in o)
  }

  /** Places position `i` into the ordered list `o`. */
  function Insert(keys: seq<real>, o: seq<nat>, i: nat): (r: seq<nat>)
    requires i < |keys| && Ordered(keys, o) && i !in o
    ensures Ordered(keys, r)
    ensures |r| == |o| + 1
    ensures forall x: nat :: x in r <==> x in o || x == i
  {
    if o == [] || Precedes(keys, i, o[0]) then [i] + o
    else
      var rest := Insert(keys, o[1..], i);
      assert forall k :: 0 <= k < |rest| ==> Precedes(keys, o[0], rest[k]) by {
        forall k | 0 <= k < |rest|
          ensures Precedes(keys, o[0], rest[k])
        {
          assert rest[k] in rest;
          if rest[k] != i {
            var m :| 0 <= m < |o[1..]| && o[1..][m] == rest[k];
            assert o[m + 1] == rest[k];
          }
        }
      }
      [o[0]] + rest
  }

  /** The stable sort order of the first `n` positions of `keys`. */
  function PrefixOrder(keys: seq<real>, n: nat): (o: seq<nat>)
    requires n <= |keys|
    ensures Ordered(keys, o) && |o| == n
    ensures forall x: nat :: x in o <==> x < n
  {
    if n == 0 then [] else Insert(keys, PrefixOrder(keys, n - 1), n - 1)
  }

  /** The stable sort order of `keys`. */
  function SortOrder(keys: seq<real>): (o: seq<nat>)
    ensures IsSortOrder(keys, o)
  {
    PrefixOrder(keys, |keys|)
  }

  /** The elements of `s` in the order `o`. */
  function Permute<T>(s: seq<T>, o: seq<nat>): (r: seq<T>)
    requires forall k :: 0 <= k < |o| ==> o[k] < |s|
    ensures |r| == |o|
    ensures forall k :: 0 <= k < |o| ==> r[k] == s[o[k]]
  {
    seq(|o|, k requires 0 <= k < |o| => s[o[k]])
  }

  /** In a sort order, output positions follow the stable order exactly: an
      input position is placed earlier iff it precedes. */
  lemma OrderedPositions(keys: seq<real>, o: seq<nat>, k1: nat, k2: nat)
    requires Ordered(keys, o) && k1 < |o| && k2 < |o|
    ensures Precedes(keys, o[k1], o[k2]) <==> k1 < k2
  {
    if k2 < k1 {
      assert Precedes(keys, o[k2], o[k1]);
    }
  }

  /** A sort order never lists a position twice. */
  lemma OrderedDistinct(keys: seq<real>, o: seq<nat>, k1: nat, k2: nat)
    requires Ordered(keys, o) && k1 < |o| && k2 < |o| && k1 != k2
    ensures o[k1] != o[k2]
  {
    if k1 < k2 {
      assert Precedes(keys, o[k1], o[k2]);
    } else {
      assert Precedes(keys, o[k2], o[k1]);
    }
  }

  /** Every input position occurs somewhere in the sort order. */
  lemma SortOrderCovers(keys: seq<real>, o: seq<nat>, i: nat) returns (k: nat)
    requires IsSortOrder(keys, o) && i < |keys|
    ensures k < |o| && o[k] == i
  {
    assert i in o;
    k :| 0 <= k < |o| && o[k] == i;
  }

  lemma PermuteCons<T>(s: seq<T>, a: nat, o: seq<nat>)
    requires a < |s|
    requires forall k :: 0 <= k < |o| ==> o[k] < |s|
    ensures Permute(s, [a] + o) == [s[a]] + Permute(s, o)
  {
    assert forall k :: 0 <= k < |o| + 1 ==> Permute(s, [a] + o)[k] == ([s[a]] + Permute(s, o))[k];
  }

  /** Inserting position `i` adds exactly the element `s[i]` to the permuted sequence. */
  lemma {:induction false} InsertMultiset<T>(s: seq<T>, keys: seq<real>, o: seq<nat>, i: nat)
    requires |keys| == |s| && i < |keys| && Ordered(keys, o) && i !in o
    ensures multiset(Permute(s, Insert(keys, o, i))) == multiset(Permute(s, o)) + multiset{s[i]}
  {
    if o == [] || Precedes(keys, i, o[0]) {
      PermuteCons(s, i, o);
    } else {
      assert o == [o[0]] + o[1..];
      InsertMultiset(s, keys, o[1..], i);
      PermuteCons(s, o[0], Insert(keys, o[1..], i));
      PermuteCons(s, o[0], o[1..]);
    }
  }

  lemma {:induction false} PrefixOrderMultiset<T>(s: seq<T>, keys: seq<real>, n: nat)
    requires |keys| == |s| && n <= |s|
    ensures multiset(Permute(s, PrefixOrder(keys, n))) == multiset(s[..n])
  {
    if n > 0 {
      var o := PrefixOrder(keys, n - 1);
      assert PrefixOrder(keys, n) == Insert(keys, o, n - 1);
      PrefixOrderMultiset(s, keys, n - 1);
      InsertMultiset(s, keys, o, n - 1);
      MultisetPrefix(s, n - 1);
    }
  }

  /** Extending a prefix by one element adds that element to its multiset. */
  lemma MultisetPrefix<T>(s: seq<T>, n: nat)
    requires n < |s|
    ensures multiset(s[..n + 1]) == multiset(s[..n]) + multiset{s[n]}
  {
    assert s[..n + 1] == s[..n] + [s[n]];
  }

  /** Sorting rearranges and neither adds nor drops elements. */
  lemma SortIsPermutation<T>(s: seq<T>, keys: seq<real>)
    requires |keys| == |s|
    ensures multiset(Permute(s, SortOrder(keys))) == multiset(s)
  {
    PrefixOrderMultiset(s, keys, |s|);
    assert s[..|s|] == s;
  }

  /** Integer keys, compared as reals. */
  function IntKeys(s: seq<int>): (keys: seq<real>)
    ensures |keys| == |s|
    ensures forall k :: 0 <= k < |s| ==> keys[k] == s[k] as real
  {
    seq(|s|, k requires 0 <= k < |s| => s[k] as real)
  }

  /** `sorted(s)` on integers: ascending, and a rearrangement of `s`. */
  function SortInts(s: seq<int>): (r: seq<int>)
    ensures |r| == |s|
    ensures forall a, b :: 0 <= a < b < |r| ==> r[a] <= r[b]
    ensures multiset(r) == multiset(s)
  {
    var o := SortOrder(IntKeys(s));
    SortIsPermutation(s, IntKeys(s));
    assert forall a, b :: 0 <= a < b < |o| ==> Precedes(IntKeys(s), o[a], o[b]);
    Permute(s, o)
  }

  /** `sorted(xs, key=...)` where the key of `xs[k]` is the integer `ranks[k]`. */
  function SortByRank<T>(xs: seq<T>, ranks: seq<int>): (r: seq<T>)
    requires |ranks| == |xs|
    ensures |r| == |xs|
    ensures multiset(r) == multiset(xs)
  {
    SortIsPermutation(xs, IntKeys(ranks));
    Permute(xs, SortOrder(IntKeys(ranks)))
  }

  /** The sum of `f` over the elements of `s`. */
  function SumOf<T>(s: seq<T>, f: T -> real): real
  {
    if s == [] then 0.0 else f(s[0]) + SumOf(s[1..], f)
  }

  lemma {:induction false} SumOfConcat<T>(a: seq<T>, b: seq<T>, f: T -> real)
    ensures SumOf(a + b, f) == SumOf(a, f) + SumOf(b, f)
  {
    if a == [] {
      assert a + b == b;
    } else {
      assert (a + b)[1..] == a[1..] + b;
      SumOfConcat(a[1..], b, f);
    }
  }

  /** Extending a prefix by one element adds that element's summand. */
  lemma SumOfPrefix<T>(s: seq<T>, n: nat, f: T -> real)
    requires n < |s|
    ensures SumOf(s[..n + 1], f) == SumOf(s[..n], f) + f(s[n])
  {
    assert s[..n + 1] == s[..n] + [s[n]];
    SumOfConcat(s[..n], [s[n]], f);
    assert [s[n]][1..] == [];
  }

  lemma {:induction false} InsertSum<T>(s: seq<T>, keys: seq<real>, o: seq<nat>, i: nat, f: T -> real)
    requires |keys| == |s| && i < |keys| && Ordered(keys, o) && i !in o
    ensures SumOf(Permute(s, Insert(keys, o, i)), f) == SumOf(Permute(s, o), f) + f(s[i])
  {
    if o == [] || Precedes(keys, i, o[0]) {
      PermuteCons(s, i, o);
      assert Permute(s, [i] + o)[1..] == Permute(s, o);
    } else {
      var rest := Insert(keys, o[1..], i);
      assert o == [o[0]] + o[1..];
      InsertSum(s, keys, o[1..], i, f);
      PermuteCons(s, o[0], rest);
      PermuteCons(s, o[0], o[1..]);
      assert ([s[o[0]]] + Permute(s, rest))[1..] == Permute(s, rest);
      assert ([s[o[0]]] + Permute(s, o[1..]))[1..] == Permute(s, o[1..]);
    }
  }

  lemma {:induction false} PrefixOrderSum<T>(s: seq<T>, keys: seq<real>, n: nat, f: T -> real)
    requires |keys| == |s| && n <= |s|
    ensures SumOf(Permute(s, PrefixOrder(keys, n)), f) == SumOf(s[..n], f)
  {
    if n > 0 {
      var o := PrefixOrder(keys, n - 1);
      assert PrefixOrder(keys, n) == Insert(keys, o, n - 1);
      PrefixOrderSum(s, keys, n - 1, f);
      InsertSum(s, keys, o, n - 1, f);
      SumOfPrefix(s, n - 1, f);
    }
  }

  /** Sorting does not change a sum. */
  lemma SortedSum<T>(s: seq<T>, keys: seq<real>, f: T -> real)
    requires |keys| == |s|
    ensures SumOf(Permute(s, SortOrder(keys)), f) == SumOf(s, f)
  {
    PrefixOrderSum(s, keys, |s|, f);
    assert s[..|s|] == s;
  }

  /** Every element of `sorted(s)` comes from `s`, and distinct elements sort strictly ascending. */
  lemma SortIntsFacts(s: seq<int>)
    ensures forall k :: 0 <= k < |s| ==> SortInts(s)[k] in s
    ensures (forall i, j :: 0 <= i < j < |s| ==> s[i] != s[j]) ==>
              forall a, b :: 0 <= a < b < |s| ==> SortInts(s)[a] < SortInts(s)[b]
  {
    var o := SortOrder(IntKeys(s));
    assert SortInts(s) == Permute(s, o);
    if forall i, j :: 0 <= i < j < |s| ==> s[i] != s[j] {
      forall a, b | 0 <= a < b < |s|
        ensures SortInts(s)[a] < SortInts(s)[b]
      {
        OrderedDistinct(IntKeys(s), o, a, b);
        if o[a] < o[b] {
          assert s[o[a]] != s[o[b]];
        } else {
          assert s[o[b]] != s[o[a]];
        }
      }
    }
  }

  /** `o` rearranges the positions 0 .. n-1: each exactly once. */
  predicate IsArrangement(o: seq<nat>, n: nat)
  {
    && |o| == n
    && (forall k :: 0 <= k < n ==> o[k] < n)
    && (forall a, b :: 0 <= a < b < n ==> o[a] != o[b])
    && (forall i: nat :: i < n ==> i in o)
  }

  lemma SortOrderIsArrangement(keys: seq<real>)
    ensures IsArrangement(SortOrder(keys), |keys|)
  {
    var o := SortOrder(keys);
    forall a, b | 0 <= a < b < |keys|
      ensures o[a] != o[b]
    {
      OrderedDistinct(keys, o, a, b);
    }
  }

  lemma {:induction false} DistinctMultiplicity<T>(s: seq<T>, x: T)
    requires forall i, j :: 0 <= i < j < |s| ==> s[i] != s[j]
    ensures multiset(s)[x] <= 1
  {
    if s != [] {
      assert s == [s[0]] + s[1..];
      DistinctMultiplicity(s[1..], x);
      if x == s[0] {
        assert x !in s[1..];
      }
    }
  }

  lemma RepeatMultiplicity<T>(s: seq<T>, i: nat, j: nat)
    requires i < j < |s| && s[i] == s[j]
    ensures multiset(s)[s[i]] >= 2
  {
    assert s == s[..j] + s[j..];
    assert s[i] in s[..j];
    assert s[j] in s[j..];
  }

  /** The first element of a sequence with strictly ascending keys has the least key. */
  lemma AscendingLeast<T>(a: seq<T>, key: T -> int, x: T)
    requires forall i, j :: 0 <= i < j < |a| ==> key(a[i]) < key(a[j])
    requires x in a
    ensures key(a[0]) <= key(x)
    ensures key(x) == key(a[0]) ==> x == a[0]
  {
    var k :| 0 <= k < |a| && a[k] == x;
    if k > 0 {
      assert key(a[0]) < key(a[k]);
    }
  }

  lemma EmptyOrMember<T>(s: seq<T>)
    ensures s == [] || s[0] in s
  {
  }

  /** Two sequences with strictly ascending keys and the same elements are equal. */
  lemma {:induction false} AscendingUnique<T>(a: seq<T>, b: seq<T>, key: T -> int)
    requires forall i, j :: 0 <= i < j < |a| ==> key(a[i]) < key(a[j])
    requires forall i, j :: 0 <= i < j < |b| ==> key(b[i]) < key(b[j])
    requires forall x :: x in a <==> x in b
    ensures a == b
  {
    if a != [] && b != [] {
      assert a[0] in b && b[0] in a;
      AscendingLeast(a, key, b[0]);
      AscendingLeast(b, key, a[0]);
      assert a[0] == b[0];
      forall x
        ensures x in a[1..] <==> x in b[1..]
      {
        if x in a[1..] {
          var k :| 0 <= k < |a[1..]| && a[1..][k] == x;
          assert key(a[0]) < key(a[k + 1]);
        }
        if x in b[1..] {
          var k :| 0 <= k < |b[1..]| && b[1..][k] == x;
          assert key(b[0]) < key(b[k + 1]);
        }
        assert x in a <==> x == a[0] || x in a[1..] by {
          assert a == [a[0]] + a[1..];
        }
        assert x in b <==> x == b[0] || x in b[1..] by {
          assert b == [b[0]] + b[1..];
        }
      }
      AscendingUnique(a[1..], b[1..], key);
      assert a == [a[0]] + a[1..] && b == [b[0]] + b[1..];
    } else {
      EmptyOrMember(a);
      EmptyOrMember(b);
    }
  }

  /** A sequence with strictly ascending keys is the only ascending
      rearrangement of its elements, so every sort of it gives it back. */
  lemma SortedArrangementUnique<T>(s: seq<T>, other: seq<T>, key: T -> int)
    requires forall i, j :: 0 <= i < j < |s| ==> key(s[i]) < key(s[j])
    requires multiset(other) == multiset(s)
    requires forall i, j :: 0 <= i < j < |other| ==> key(other[i]) <= key(other[j])
    ensures other == s
  {
    forall i, j | 0 <= i < j < |other|
      ensures key(other[i]) < key(other[j])
    {
      if key(other[i]) == key(other[j]) {
        assert other[i] in multiset(s) && other[j] in multiset(s);
        var p :| 0 <= p < |s| && s[p] == other[i];
        var q :| 0 <= q < |s| && s[q] == other[j];
        assert p == q;
        RepeatMultiplicity(other, i, j);
        DistinctMultiplicity(s, other[i]);
      }
    }
    forall x
      ensures x in other <==> x in s
    {
      assert x in other <==> x in multiset(other);
      assert x in s <==> x in multiset(s);
    }
    AscendingUnique(s, other, key);
  }

  /** Sorting integers that are already strictly ascending gives them back. */
  lemma SortIntsSorted(s: seq<int>)
    requires forall a, b :: 0 <= a < b < |s| ==> s[a] < s[b]
    ensures SortInts(s) == s
  {
    SortedArrangementUnique(s, SortInts(s), (x: int) => x);
  }
}
