/**
  Stable sorting in descending order of an integer key, the order both
  rankings use (`v.sort_by(|a, b| key(b).cmp(&key(a)))`).

  `StableSortDesc` is the specification: insertion of each element, in input
  order, after every element whose key is at least its own. The lemmas show
  that it is sorted, a permutation, keeps equal-key elements in input order,
  and is the only sequence with those properties, so any stable sort (the
  merge sort behind `sort_by` included) returns the same sequence.
  `SortDescBy` sorts an array in place and is proved to compute it.
 */
module Sorting {

  predicate SortedDesc<T>(s: seq<T>, key: T -> int) {
    forall i, j :: 0 <= i < j < |s| ==> key(s[i]) >= key(s[j])
  }

  /** `x` placed after every element of `s` whose key is at least its own. */
  function InsertDesc<T>(s: seq<T>, x: T, key: T -> int): (r: seq<T>)
    ensures |r| == |s| + 1
    decreases |s|
  {
    if |s| == 0 || key(s[|s| - 1]) >= key(x) then s + [x]
    else InsertDesc(s[..|s| - 1], x, key) + [s[|s| - 1]]
  }

  function StableSortDesc<T>(s: seq<T>, key: T -> int): (r: seq<T>)
    ensures |r| == |s|
  {
    if |s| == 0 then []
    else InsertDesc(StableSortDesc(s[..|s| - 1], key), s[|s| - 1], key)
  }

  /** The elements of `s` whose key is `k`, in their order in `s`. */
  function WithKey<T>(s: seq<T>, key: T -> int, k: int): seq<T> {
    if |s| == 0 then []
    else (if key(s[0]) == k then [s[0]] else []) + WithKey(s[1..], key, k)
  }

  /** `t` holds the same elements of every key as `s`, in the same relative order. */
  ghost predicate SameTies<T>(s: seq<T>, t: seq<T>, key: T -> int) {
    forall k :: WithKey(s, key, k) == WithKey(t, key, k)
  }

  lemma {:induction false} WithKeyAppend<T>(a: seq<T>, b: seq<T>, key: T -> int, k: int)
    ensures WithKey(a + b, key, k) == WithKey(a, key, k) + WithKey(b, key, k)
    decreases |a|
  {
    if |a| == 0 {
      assert a + b == b;
    } else {
      var head := if key(a[0]) == k then [a[0]] else [];
      assert (a + b)[0] == a[0] && (a + b)[1..] == a[1..] + b;
      assert WithKey(a + b, key, k) == head + WithKey(a[1..] + b, key, k);
      WithKeyAppend(a[1..], b, key, k);
      assert WithKey(a, key, k) == head + WithKey(a[1..], key, k);
    }
  }

  lemma {:induction false} WithKeyMembers<T>(s: seq<T>, key: T -> int, k: int)
    ensures forall e :: e in WithKey(s, key, k) ==> e in s && key(e) == k
    decreases |s|
  {
    if |s| > 0 {
      WithKeyMembers(s[1..], key, k);
    }
  }

  lemma {:induction false} InsertDescMultiset<T>(s: seq<T>, x: T, key: T -> int)
    ensures multiset(InsertDesc(s, x, key)) == multiset(s) + multiset{x}
    decreases |s|
  {
    if |s| > 0 && key(s[|s| - 1]) < key(x) {
      var init := s[..|s| - 1];
      InsertDescMultiset(init, x, key);
      assert s == init + [s[|s| - 1]];
    }
  }

  lemma {:induction false} InsertDescSorted<T>(s: seq<T>, x: T, key: T -> int)
    requires SortedDesc(s, key)
    ensures SortedDesc(InsertDesc(s, x, key), key)
    decreases |s|
  {
    if |s| > 0 && key(s[|s| - 1]) < key(x) {
      var init, last := s[..|s| - 1], s[|s| - 1];
      InsertDescSorted(init, x, key);
      var r := InsertDesc(init, x, key);
      InsertDescMultiset(init, x, key);
      forall i | 0 <= i < |r| ensures key(r[i]) >= key(last) {
        assert r[i] in multiset(init) + multiset{x} by { assert r[i] in multiset(r); }
        if r[i] != x {
          assert r[i] in init;
        }
      }
    }
  }

  lemma {:induction false} InsertDescTies<T>(s: seq<T>, x: T, key: T -> int, k: int)
    ensures WithKey(InsertDesc(s, x, key), key, k) == WithKey(s, key, k) + WithKey([x], key, k)
    decreases |s|
  {
    if |s| == 0 || key(s[|s| - 1]) >= key(x) {
      WithKeyAppend(s, [x], key, k);
    } else {
      var init, last := s[..|s| - 1], s[|s| - 1];
      InsertDescTies(init, x, key, k);
      WithKeyAppend(InsertDesc(init, x, key), [last], key, k);
      WithKeyAppend(init, [last], key, k);
      assert s == init + [last];
    }
  }

  /** The stable sort is ordered by non-increasing key. */
  lemma {:induction false} StableSortSorted<T>(s: seq<T>, key: T -> int)
    ensures SortedDesc(StableSortDesc(s, key), key)
    decreases |s|
  {
    if |s| > 0 {
      StableSortSorted(s[..|s| - 1], key);
      InsertDescSorted(StableSortDesc(s[..|s| - 1], key), s[|s| - 1], key);
    }
  }

  /** The stable sort is a permutation of its input. */
  lemma {:induction false} StableSortPermutation<T>(s: seq<T>, key: T -> int)
    ensures multiset(StableSortDesc(s, key)) == multiset(s)
    decreases |s|
  {
    if |s| > 0 {
      var init, x := s[..|s| - 1], s[|s| - 1];
      assert multiset(s) == multiset(init) + multiset{x} by {
        assert s == init + [x];
      }
      StableSortPermutation(init, key);
      InsertDescMultiset(StableSortDesc(init, key), x, key);
    }
  }

  /** Elements with equal keys keep their input order. */
  lemma {:induction false} StableSortKeepsTies<T>(s: seq<T>, key: T -> int)
    ensures SameTies(StableSortDesc(s, key), s, key)
    decreases |s|
  {
    if |s| > 0 {
      var init, last := s[..|s| - 1], s[|s| - 1];
      StableSortKeepsTies(init, key);
      forall k ensures WithKey(StableSortDesc(s, key), key, k) == WithKey(s, key, k) {
        InsertDescTies(StableSortDesc(init, key), last, key, k);
        WithKeyAppend(init, [last], key, k);
        assert s == init + [last];
      }
    }
  }

  lemma EmptyHasNoTies<T>(t: seq<T>, key: T -> int)
    requires |t| > 0
    ensures !SameTies([], t, key)
  {
    assert WithKey(t, key, key(t[0])) != [];
  }

  /** The first elements of two tie-equivalent sorted sequences have the same key, so they are equal. */
  lemma SortedTiesHead<T>(t1: seq<T>, t2: seq<T>, key: T -> int)
    requires |t1| > 0 && |t2| > 0
    requires SortedDesc(t1, key) && SortedDesc(t2, key)
    requires SameTies(t1, t2, key)
    ensures t1[0] == t2[0]
  {
    var m1, m2 := key(t1[0]), key(t2[0]);
    WithKeyMembers(t1, key, m2);
    WithKeyMembers(t2, key, m1);
    assert WithKey(t2, key, m1) == WithKey(t1, key, m1);
    assert WithKey(t1, key, m2) == WithKey(t2, key, m2);
    assert WithKey(t2, key, m1)[0] in WithKey(t2, key, m1);
    assert WithKey(t1, key, m2)[0] in WithKey(t1, key, m2);
    assert m1 == m2;
    assert t1[0] == WithKey(t1, key, m1)[0];
    assert t2[0] == WithKey(t2, key, m1)[0];
  }

  lemma SameTiesTail<T>(t1: seq<T>, t2: seq<T>, key: T -> int)
    requires |t1| > 0 && |t2| > 0 && t1[0] == t2[0]
    requires SameTies(t1, t2, key)
    ensures SameTies(t1[1..], t2[1..], key)
  {
    forall k ensures WithKey(t1[1..], key, k) == WithKey(t2[1..], key, k) {
      var head := if key(t1[0]) == k then [t1[0]] else [];
      assert WithKey(t1, key, k) == head + WithKey(t1[1..], key, k);
      assert WithKey(t2, key, k) == head + WithKey(t2[1..], key, k);
      assert WithKey(t1[1..], key, k) == WithKey(t1, key, k)[|head|..];
    }
  }

  /** Two sequences sorted by key that agree on the order within every key are equal. */
  lemma {:induction false} SortedTiesUnique<T>(t1: seq<T>, t2: seq<T>, key: T -> int)
    requires SortedDesc(t1, key) && SortedDesc(t2, key)
    requires SameTies(t1, t2, key)
    ensures t1 == t2
    decreases |t1|
  {
    if |t1| == 0 {
      if |t2| > 0 {
        EmptyHasNoTies(t2, key);
      }
    } else if |t2| == 0 {
      assert SameTies([], t1, key);
      EmptyHasNoTies(t1, key);
    } else {
      SortedTiesHead(t1, t2, key);
      SameTiesTail(t1, t2, key);
      SortedTiesUnique(t1[1..], t2[1..], key);
      assert t1 == [t1[0]] + t1[1..];
      assert t2 == [t2[0]] + t2[1..];
    }
  }

  /**
    The stable sort is the only sequence that is sorted by key and keeps the
    input order within every key: any stable descending sort agrees with it.
   */
  lemma StableSortUnique<T>(s: seq<T>, t: seq<T>, key: T -> int)
    requires SortedDesc(t, key) && SameTies(t, s, key)
    ensures t == StableSortDesc(s, key)
  {
    StableSortSorted(s, key);
    StableSortKeepsTies(s, key);
    SortedTiesUnique(t, StableSortDesc(s, key), key);
  }

  /** Sorting a sorted sequence again changes nothing. */
  lemma StableSortIdempotent<T>(s: seq<T>, key: T -> int)
    ensures StableSortDesc(StableSortDesc(s, key), key) == StableSortDesc(s, key)
  {
    var t := StableSortDesc(s, key);
    StableSortSorted(t, key);
    StableSortKeepsTies(t, key);
    StableSortUnique(t, StableSortDesc(t, key), key);
    StableSortSorted(s, key);
    assert SameTies(t, t, key);
    StableSortUnique(t, t, key);
  }

  /**
    Inserting `x` into `done` places it right after the last element whose key
    is at least its own, when every later element has a smaller key.
   */
  lemma {:induction false} InsertDescAt<T>(done: seq<T>, j: nat, x: T, key: T -> int)
    requires j <= |done| && (j == 0 || key(done[j - 1]) >= key(x))
    requires forall k :: j <= k < |done| ==> key(done[k]) < key(x)
    ensures InsertDesc(done, x, key) == done[..j] + [x] + done[j..]
    decreases |done|
  {
    if |done| > j {
      var init := done[..|done| - 1];
      assert init[..j] == done[..j];
      InsertDescAt(init, j, x, key);
      assert done[j..] == init[j..] + [done[|done| - 1]];
    } else {
      assert done[..j] == done && done[j..] == [];
    }
  }

  /**
    One step of insertion sort: `a[i]` moves left past every element of the
    sorted prefix whose key is smaller than its own.
   */
  method InsertInPlace<T>(a: array<T>, i: nat, key: T -> int)
    requires i < a.Length
    modifies a
    ensures a[..i + 1] == InsertDesc(old(a[..i]), old(a[i]), key)
    ensures a[i + 1..] == old(a[i + 1..])
  {
    ghost var done := a[..i];
    var x := a[i];
    var j := i;
    while j > 0 && key(a[j - 1]) < key(x)
      invariant 0 <= j <= i
      invariant forall k :: 0 <= k < j ==> a[k] == done[k]
      invariant forall k :: j < k <= i ==> a[k] == done[k - 1]
      invariant forall k :: i < k < a.Length ==> a[k] == old(a[k])
      invariant forall k :: j <= k < i ==> key(done[k]) < key(x)
    {
      a[j] := a[j - 1];
      j := j - 1;
    }
    a[j] := x;
    InsertDescAt(done, j, x, key);
    assert a[..i + 1] == done[..j] + [x] + done[j..];
  }

  /** Sorts `a` in place, descending by `key`, keeping equal keys in their original order. */
  method SortDescBy<T>(a: array<T>, key: T -> int)
    modifies a
    ensures a[..] == StableSortDesc(old(a[..]), key)
  {
    ghost var input := a[..];
    var i := 0;
    while i < a.Length
      invariant 0 <= i <= a.Length
      invariant a[..i] == StableSortDesc(input[..i], key)
      invariant a[i..] == input[i..]
    {
      assert input[..i + 1][..i] == input[..i];
      assert a[i] == input[i];
      InsertInPlace(a, i, key);
      i := i + 1;
    }
    assert input[..a.Length] == input;
  }
}
