/**
 * Array.prototype.sort as a function: stable insertion sort over a total preorder, with the facts
 * the models need about it.
 */
module Sorting {

  /** Lexicographic order by rank: `left < right ? -1 : left > right ? 1 : 0` is at most 0. */
  predicate LexLe<T(==)>(left: seq<T>, right: seq<T>, rank: T -> int) {
    || left == []
    || (right != []
        && (rank(left[0]) < rank(right[0]) || (left[0] == right[0] && LexLe(left[1..], right[1..], rank))))
  }

  ghost predicate Ranks<T(!new)>(rank: T -> int) {
    forall x, y :: rank(x) == rank(y) ==> x == y
  }

  lemma {:induction false} LexLeTotal<T(!new)>(a: seq<T>, b: seq<T>, rank: T -> int)
    requires Ranks(rank)
    ensures LexLe(a, b, rank) || LexLe(b, a, rank)
    ensures LexLe(a, b, rank) && LexLe(b, a, rank) ==> a == b
  {
    if a != [] && b != [] && a[0] == b[0] {
      LexLeTotal(a[1..], b[1..], rank);
      assert a == [a[0]] + a[1..] && b == [b[0]] + b[1..];
    }
  }

  lemma {:induction false} LexLeTransitive<T(!new)>(a: seq<T>, b: seq<T>, c: seq<T>, rank: T -> int)
    requires LexLe(a, b, rank) && LexLe(b, c, rank)
    ensures LexLe(a, c, rank)
  {
    if a != [] && a[0] == b[0] == c[0] {
      LexLeTransitive(a[1..], b[1..], c[1..], rank);
    }
  }

  function CodeUnit(c: char): int { c as int }

  /** Text order of two strings, code unit by code unit. */
  predicate TextLe(left: string, right: string) {
    LexLe(left, right, CodeUnit)
  }

  lemma TextLeTotal(a: string, b: string)
    ensures TextLe(a, b) || TextLe(b, a)
    ensures TextLe(a, b) && TextLe(b, a) ==> a == b
  {
    LexLeTotal(a, b, CodeUnit);
  }

  lemma TextLeTransitive(a: string, b: string, c: string)
    requires TextLe(a, b) && TextLe(b, c)
    ensures TextLe(a, c)
  {
    LexLeTransitive(a, b, c, CodeUnit);
  }

  ghost predicate Preorder<T(!new)>(le: (T, T) -> bool) {
    && (forall x, y :: le(x, y) || le(y, x))
    && (forall x, y, z :: le(x, y) && le(y, z) ==> le(x, z))
  }

  ghost predicate Sorted<T>(s: seq<T>, le: (T, T) -> bool) {
    forall i, j :: 0 <= i < j < |s| ==> le(s[i], s[j])
  }

  /** Elements of equal rank are equal. */
  ghost predicate Distinguishes<T>(s: seq<T>, le: (T, T) -> bool) {
    forall x, y :: x in s && y in s && le(x, y) && le(y, x) ==> x == y
  }

  lemma {:induction false} TailDistinguishes<T>(s: seq<T>, le: (T, T) -> bool)
    requires s != [] && Distinguishes(s, le)
    ensures Distinguishes(s[1..], le)
  {
  }

  /** Inserts before the first element it may precede, so equal elements keep their order. */
  function Insert<T>(x: T, s: seq<T>, le: (T, T) -> bool): seq<T> {
    if s == [] || le(x, s[0]) then [x] + s else [s[0]] + Insert(x, s[1..], le)
  }

  function Sort<T>(s: seq<T>, le: (T, T) -> bool): seq<T> {
    if s == [] then [] else Insert(s[0], Sort(s[1..], le), le)
  }

  lemma {:induction false} InsertIsPermutation<T>(x: T, s: seq<T>, le: (T, T) -> bool)
    ensures multiset(Insert(x, s, le)) == multiset([x] + s)
  {
    if s != [] && !le(x, s[0]) {
      InsertIsPermutation(x, s[1..], le);
      assert s == [s[0]] + s[1..];
      assert multiset([x] + s) == multiset{x} + multiset{s[0]} + multiset(s[1..]);
      assert multiset(Insert(x, s, le)) == multiset{s[0]} + multiset(Insert(x, s[1..], le));
    }
  }

  lemma {:induction false} SortIsPermutation<T>(s: seq<T>, le: (T, T) -> bool)
    ensures multiset(Sort(s, le)) == multiset(s)
    ensures |Sort(s, le)| == |s|
  {
    if s != [] {
      SortIsPermutation(s[1..], le);
      InsertIsPermutation(s[0], Sort(s[1..], le), le);
      assert s == [s[0]] + s[1..];
      assert multiset(Sort(s, le)) == multiset(s);
      assert |multiset(Sort(s, le))| == |Sort(s, le)| && |multiset(s)| == |s|;
    }
  }

  lemma {:induction false} InsertIsSorted<T(!new)>(x: T, s: seq<T>, le: (T, T) -> bool)
    requires Preorder(le) && Sorted(s, le)
    ensures Sorted(Insert(x, s, le), le)
  {
    if s != [] && !le(x, s[0]) {
      InsertIsSorted(x, s[1..], le);
      InsertIsPermutation(x, s[1..], le);
      var rest := Insert(x, s[1..], le);
      forall j | 0 <= j < |rest|
        ensures le(s[0], rest[j])
      {
        assert rest[j] in multiset(rest);
        assert rest[j] in multiset([x] + s[1..]);
      }
    }
  }

  lemma {:induction false} SortIsSorted<T(!new)>(s: seq<T>, le: (T, T) -> bool)
    requires Preorder(le)
    ensures Sorted(Sort(s, le), le)
  {
    if s != [] {
      SortIsSorted(s[1..], le);
      InsertIsSorted(s[0], Sort(s[1..], le), le);
    }
  }

  lemma {:induction false} SortedHeadsAgree<T(!new)>(a: seq<T>, b: seq<T>, le: (T, T) -> bool)
    requires a != [] && b != [] && multiset(a) == multiset(b)
    requires Sorted(a, le) && Sorted(b, le)
    requires Distinguishes(a, le)
    ensures a[0] == b[0]
  {
    SameElements(a, b, a[0]);
    SameElements(a, b, b[0]);
    var i :| 0 <= i < |a| && a[i] == b[0];
    var j :| 0 <= j < |b| && b[j] == a[0];
    if i != 0 && j != 0 {
      assert le(a[0], a[i]) && le(b[0], b[j]);
    }
  }

  lemma {:induction false} TailMultiset<T>(a: seq<T>)
    requires a != []
    ensures multiset(a[1..]) == multiset(a) - multiset{a[0]}
  {
    assert a == [a[0]] + a[1..];
  }

  lemma {:induction false} TailSorted<T>(s: seq<T>, le: (T, T) -> bool)
    requires s != [] && Sorted(s, le)
    ensures Sorted(s[1..], le)
  {
  }

  /** A sorted permutation is unique as soon as equal rank means equal element. */
  lemma {:induction false} SortedPermutationUnique<T(!new)>(a: seq<T>, b: seq<T>, le: (T, T) -> bool)
    requires multiset(a) == multiset(b)
    requires Sorted(a, le) && Sorted(b, le)
    requires Distinguishes(a, le)
    ensures a == b
  {
    hide Sorted, Distinguishes;
    assert |multiset(a)| == |a| && |multiset(b)| == |b|;
    if a != [] {
      SortedHeadsAgree(a, b, le);
      TailMultiset(a);
      TailMultiset(b);
      TailDistinguishes(a, le);
      TailSorted(a, le);
      TailSorted(b, le);
      SortedPermutationUnique(a[1..], b[1..], le);
      SameHeadSameTail(a, b);
    }
  }

  lemma SameHeadSameTail<T>(a: seq<T>, b: seq<T>)
    requires a != [] && b != [] && a[0] == b[0] && a[1..] == b[1..]
    ensures a == b
  {
    assert a == [a[0]] + a[1..] && b == [b[0]] + b[1..];
  }

  /** The sorted form of a collection does not depend on the order it was listed in. */
  lemma SortIgnoresInputOrder<T(!new)>(a: seq<T>, b: seq<T>, le: (T, T) -> bool)
    requires Preorder(le)
    requires multiset(a) == multiset(b)
    requires Distinguishes(a, le)
    ensures Sort(a, le) == Sort(b, le)
  {
    SortIsPermutation(a, le);
    SortIsPermutation(b, le);
    SortIsSorted(a, le);
    SortIsSorted(b, le);
    forall x | x in Sort(a, le)
      ensures x in a
    {
      assert x in multiset(Sort(a, le));
    }
    SortedPermutationUnique(Sort(a, le), Sort(b, le), le);
  }

  lemma EmptySides<T>(a: seq<T>)
    ensures [] + a == a && a + [] == a
  {
  }

  lemma Associates<T>(a: seq<T>, b: seq<T>, c: seq<T>)
    ensures (a + b) + c == a + (b + c)
  {
  }

  function Map<T, U>(s: seq<T>, f: T -> U): (r: seq<U>)
    ensures |r| == |s| && forall i :: 0 <= i < |s| ==> r[i] == f(s[i])
  {
    seq(|s|, i requires 0 <= i < |s| => f(s[i]))
  }

  lemma {:induction false} SameElements<T>(a: seq<T>, b: seq<T>, x: T)
    requires multiset(a) == multiset(b)
    ensures x in a <==> x in b
  {
    assert x in a <==> x in multiset(a);
    assert x in b <==> x in multiset(b);
  }

  lemma SortKeepsElements<T>(s: seq<T>, le: (T, T) -> bool)
    ensures |Sort(s, le)| == |s|
    ensures forall x :: x in Sort(s, le) <==> x in s
  {
    SortIsPermutation(s, le);
    forall x {
      SameElements(Sort(s, le), s, x);
    }
  }

  lemma {:induction false} InsertCommutesWithMap<T(!new)>(x: T, s: seq<T>, f: T -> T, le: (T, T) -> bool)
    requires forall y :: y in s ==> le(f(x), f(y)) == le(x, y)
    ensures Insert(f(x), Map(s, f), le) == Map(Insert(x, s, le), f)
  {
    if s != [] && !le(x, s[0]) {
      InsertCommutesWithMap(x, s[1..], f, le);
      assert Map(s, f)[1..] == Map(s[1..], f);
    }
  }

  /** Changing elements without changing their rank does not reorder them. */
  lemma {:induction false} SortCommutesWithMap<T(!new)>(s: seq<T>, f: T -> T, le: (T, T) -> bool)
    requires forall x, y :: x in s && y in s ==> le(f(x), f(y)) == le(x, y)
    ensures Sort(Map(s, f), le) == Map(Sort(s, le), f)
  {
    if s != [] {
      SortCommutesWithMap(s[1..], f, le);
      SortKeepsElements(s[1..], le);
      InsertCommutesWithMap(s[0], Sort(s[1..], le), f, le);
      assert Map(s, f)[1..] == Map(s[1..], f);
    }
  }

  predicate NoDuplicates<T(==)>(s: seq<T>) {
    forall i, j :: 0 <= i < j < |s| ==> s[i] != s[j]
  }

  lemma {:induction false} PermutationKeepsDistinctness<T>(a: seq<T>, b: seq<T>)
    requires multiset(a) == multiset(b) && NoDuplicates(a)
    ensures NoDuplicates(b)
  {
    forall x
      ensures multiset(a)[x] <= 1
    {
      DistinctMeansOnce(a, x);
    }
    forall i, j | 0 <= i < j < |b|
      ensures b[i] != b[j]
    {
      if b[i] == b[j] {
        RepeatedMeansTwice(b, i, j);
      }
    }
  }

  lemma {:induction false} RepeatedMeansTwice<T>(b: seq<T>, i: nat, j: nat)
    requires i < j < |b| && b[i] == b[j]
    ensures multiset(b)[b[i]] >= 2
  {
    assert b == b[..j] + [b[j]] + b[j + 1..];
    assert b[i] in b[..j];
    assert multiset(b) == multiset(b[..j]) + multiset{b[j]} + multiset(b[j + 1..]);
  }

  lemma {:induction false} DistinctMeansOnce<T>(a: seq<T>, x: T)
    requires NoDuplicates(a)
    ensures multiset(a)[x] == if x in a then 1 else 0
  {
    if a != [] {
      assert a == [a[0]] + a[1..];
      DistinctMeansOnce(a[1..], x);
    }
  }

  predicate UniqueBy<T, K(!new, ==)>(s: seq<T>, key: T -> K) {
    forall i, j :: 0 <= i < j < |s| ==> key(s[i]) != key(s[j])
  }

  lemma {:induction false} TailUnique<T, K(!new)>(s: seq<T>, key: T -> K)
    requires s != [] && UniqueBy(s, key)
    ensures UniqueBy(s[1..], key)
    ensures forall x :: x in s[1..] ==> key(x) != key(s[0])
  {
    forall i, j | 0 <= i < j < |s[1..]|
      ensures key(s[1..][i]) != key(s[1..][j])
    {
      assert key(s[i + 1]) != key(s[j + 1]);
    }
    forall i | 0 <= i < |s[1..]|
      ensures key(s[1..][i]) != key(s[0])
    {
      assert key(s[i + 1]) != key(s[0]);
    }
  }

  lemma {:induction false} PrependUnique<T, K(!new)>(x: T, s: seq<T>, key: T -> K)
    requires UniqueBy(s, key) && forall y :: y in s ==> key(y) != key(x)
    ensures UniqueBy([x] + s, key)
  {
    var longer := [x] + s;
    forall i, j | 0 <= i < j < |longer|
      ensures key(longer[i]) != key(longer[j])
    {
      assert longer[j] == s[j - 1];
      if i > 0 {
        assert longer[i] == s[i - 1];
      }
    }
  }

  /** Reordering keeps a key unique. */
  lemma PermutationKeepsKeyUnique<T, K(!new)>(s: seq<T>, r: seq<T>, key: T -> K)
    requires UniqueBy(s, key) && multiset(s) == multiset(r)
    ensures UniqueBy(r, key)
  {
    assert NoDuplicates(s) by {
      forall i, j | 0 <= i < j < |s|
        ensures s[i] != s[j]
      {
        assert key(s[i]) != key(s[j]);
      }
    }
    PermutationKeepsDistinctness(s, r);
    forall i, j | 0 <= i < j < |r|
      ensures key(r[i]) != key(r[j])
    {
      SameElements(s, r, r[i]);
      SameElements(s, r, r[j]);
      assert r[i] != r[j];
    }
  }

  lemma SortKeepsKeyUnique<T, K(!new)>(s: seq<T>, le: (T, T) -> bool, key: T -> K)
    requires UniqueBy(s, key)
    ensures UniqueBy(Sort(s, le), key)
  {
    SortIsPermutation(s, le);
    PermutationKeepsKeyUnique(s, Sort(s, le), key);
  }

  /** Equally long lists without repetition, one inside the other, are permutations. */
  lemma {:induction false} InsideIsPermutation<T(!new)>(a: seq<T>, b: seq<T>)
    requires NoDuplicates(a) && NoDuplicates(b) && |a| == |b|
    requires forall x :: x in a ==> x in b
    ensures multiset(a) == multiset(b)
  {
    forall x
      ensures multiset(a)[x] <= multiset(b)[x]
    {
      DistinctMeansOnce(a, x);
      DistinctMeansOnce(b, x);
    }
    assert multiset(a) <= multiset(b);
    assert |multiset(b) - multiset(a)| == |b| - |a|;
    assert multiset(b) == multiset(a) + (multiset(b) - multiset(a));
  }

  lemma AppendMultiset<T>(s: seq<T>, x: T)
    ensures multiset(s + [x]) == multiset(s) + multiset{x}
  {
  }

  lemma WithoutOne<T>(s: seq<T>, i: nat)
    requires i < |s|
    ensures s == s[..i] + [s[i]] + s[i + 1..]
    ensures multiset(s[..i] + s[i + 1..]) == multiset(s) - multiset{s[i]}
  {
    assert s == s[..i] + [s[i]] + s[i + 1..];
  }

  function DropAt<T>(s: seq<T>, i: nat): seq<T>
    requires i < |s|
  {
    s[..i] + s[i + 1..]
  }

  lemma {:induction false} DropAtRemovesOne<T>(s: seq<T>, i: nat)
    requires i < |s|
    ensures multiset(s) == multiset{s[i]} + multiset(DropAt(s, i))
  {
    assert s == s[..i] + [s[i]] + s[i + 1..];
  }

  lemma {:induction false} MapDropAt<T, U>(s: seq<T>, i: nat, f: T -> U)
    requires i < |s|
    ensures Map(DropAt(s, i), f) == DropAt(Map(s, f), i)
  {
  }

  /** Mapping a permutation gives a permutation. */
  lemma {:induction false} MapKeepsPermutation<T, U>(a: seq<T>, b: seq<T>, f: T -> U)
    requires multiset(a) == multiset(b)
    ensures multiset(Map(a, f)) == multiset(Map(b, f))
    decreases |a|
  {
    assert |multiset(a)| == |a| && |multiset(b)| == |b|;
    if a != [] {
      SameElements(a, b, a[0]);
      var j :| 0 <= j < |b| && b[j] == a[0];
      DropAtRemovesOne(a, 0);
      DropAtRemovesOne(b, j);
      DropAtRemovesOne(Map(a, f), 0);
      DropAtRemovesOne(Map(b, f), j);
      MapDropAt(a, 0, f);
      MapDropAt(b, j, f);
      hide DropAt;
      assert multiset(DropAt(a, 0)) == multiset(a) - multiset{a[0]};
      assert multiset(DropAt(b, j)) == multiset(b) - multiset{a[0]};
      assert |DropAt(a, 0)| < |a| by { DropAtShorter(a, 0); }
      MapKeepsPermutation(DropAt(a, 0), DropAt(b, j), f);
    }
  }

  lemma {:induction false} DropAtShorter<T>(s: seq<T>, i: nat)
    requires i < |s|
    ensures |DropAt(s, i)| == |s| - 1
  {
  }
}
