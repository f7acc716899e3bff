/** Shared vocabulary: optional values, results, lists without repetition, a
    stable sort by an integer key, and powers of two. */
module Basics {

  datatype Option<+T> = None | Some(value: T)

  datatype Result<+T, +E> = Ok(value: T) | Err(error: E)

  // ---------- lists without repetition ----------

  ghost predicate NoDup<T>(xs: seq<T>) {
    forall i, j :: 0 <= i < j < |xs| ==> xs[i] != xs[j]
  }

  ghost function Elements<T>(xs: seq<T>): set<T> {
    set x | x in xs
  }

  lemma NoDupCardinality<T>(xs: seq<T>)
    requires NoDup(xs)
    ensures |Elements(xs)| == |xs|
  {
    if xs != [] {
      var rest := xs[..|xs| - 1];
      NoDupCardinality(rest);
      assert xs == rest + [xs[|xs| - 1]];
      assert Elements(xs) == Elements(rest) + {xs[|xs| - 1]};
      assert xs[|xs| - 1] !in Elements(rest);
    }
  }

  lemma NoDupMultiplicity<T>(xs: seq<T>)
    requires NoDup(xs)
    ensures forall x :: multiset(xs)[x] == (if x in xs then 1 else 0)
  {
    if xs != [] {
      var rest := xs[..|xs| - 1];
      NoDupMultiplicity(rest);
      assert xs == rest + [xs[|xs| - 1]];
    }
  }

  /** Two lists without repetition that hold the same values are permutations of
      each other. */
  lemma SameElementsPermute<T>(xs: seq<T>, ys: seq<T>)
    requires NoDup(xs) && NoDup(ys)
    requires forall x :: x in xs <==> x in ys
    ensures multiset(xs) == multiset(ys)
  {
    NoDupMultiplicity(xs);
    NoDupMultiplicity(ys);
    assert forall x :: multiset(xs)[x] == multiset(ys)[x];
  }

  lemma RepeatCountsTwice<T>(xs: seq<T>, i: nat, j: nat)
    requires i < j < |xs| && xs[i] == xs[j]
    ensures multiset(xs)[xs[i]] >= 2
  {
    assert xs == xs[..j] + ([xs[j]] + xs[j + 1..]);
    assert xs[..j][i] == xs[j];
    assert multiset(xs) == multiset(xs[..j]) + multiset([xs[j]] + xs[j + 1..]);
    assert xs[j] in multiset(xs[..j]);
    assert ([xs[j]] + xs[j + 1..])[0] == xs[j];
    assert xs[j] in multiset([xs[j]] + xs[j + 1..]);
  }

  lemma PermutationKeepsNoDup<T>(xs: seq<T>, ys: seq<T>)
    requires NoDup(xs) && multiset(xs) == multiset(ys)
    ensures NoDup(ys) && |ys| == |xs| && Elements(ys) == Elements(xs)
  {
    NoDupMultiplicity(xs);
    forall i, j | 0 <= i < j < |ys| ensures ys[i] != ys[j] {
      if ys[i] == ys[j] {
        RepeatCountsTwice(ys, i, j);
      }
    }
    assert |multiset(xs)| == |xs| && |multiset(ys)| == |ys|;
    assert forall x :: x in ys <==> x in multiset(ys);
    assert forall x :: x in xs <==> x in multiset(xs);
  }

  /** A list of distinct members of a finite set that is as long as the set has
      members misses none of them. */
  lemma FullListCovers<T>(xs: seq<T>, s: set<T>)
    requires NoDup(xs) && |xs| == |s|
    requires forall x :: x in xs ==> x in s
    ensures Elements(xs) == s
  {
    NoDupCardinality(xs);
    SubsetOfSameSize(Elements(xs), s);
  }

  lemma SubsetOfSameSize<T>(a: set<T>, b: set<T>)
    requires a <= b && |a| == |b|
    ensures a == b
  {
    if a != b {
      var x :| x in b && x !in a;
      assert |b - {x}| == |b| - 1;
      SubsetCardinality(a, b - {x});
    }
  }

  lemma SubsetCardinality<T>(a: set<T>, b: set<T>)
    requires a <= b
    ensures |a| <= |b|
  {
    assert b == a + (b - a);
  }

  /** A permutation holds the head of the other list somewhere, and loses it to
      a permutation of the tail. */
  lemma FindHead<T>(xs: seq<T>, ys: seq<T>) returns (i: nat)
    requires xs != [] && multiset(xs) == multiset(ys)
    ensures i < |ys| && ys[i] == xs[0]
    ensures ys == ys[..i] + ([ys[i]] + ys[i + 1..])
    ensures multiset(ys[..i] + ys[i + 1..]) == multiset(xs[1..])
  {
    assert xs == [xs[0]] + xs[1..];
    assert xs[0] in multiset(ys);
    i :| 0 <= i < |ys| && ys[i] == xs[0];
    assert ys == ys[..i] + ([ys[i]] + ys[i + 1..]);
    calc {
      multiset(ys[..i] + ys[i + 1..]);
      multiset(ys[..i]) + multiset(ys[i + 1..]);
      multiset(ys) - multiset{ys[i]};
      multiset(xs[1..]);
    }
  }

  // ---------- a stable sort ----------

  ghost predicate SortedBy<T>(xs: seq<T>, key: T -> int) {
    forall i, j :: 0 <= i < j < |xs| ==> key(xs[i]) <= key(xs[j])
  }

  /** The elements of `xs` whose key is `k`, in order. */
  function WithKey<T>(xs: seq<T>, key: T -> int, k: int): seq<T> {
    if xs == [] then []
    else (if key(xs[0]) == k then [xs[0]] else []) + WithKey(xs[1..], key, k)
  }

  function InsertBy<T>(x: T, xs: seq<T>, key: T -> int): seq<T> {
    if xs == [] || key(x) <= key(xs[0]) then [x] + xs
    else [xs[0]] + InsertBy(x, xs[1..], key)
  }

  lemma {:induction false} InsertAddsOne<T>(x: T, xs: seq<T>, key: T -> int)
    ensures multiset(InsertBy(x, xs, key)) == multiset([x]) + multiset(xs)
  {
    if !(xs == [] || key(x) <= key(xs[0])) {
      InsertAddsOne(x, xs[1..], key);
      assert xs == [xs[0]] + xs[1..];
    }
  }

  lemma {:induction false} InsertKeepsSorted<T>(x: T, xs: seq<T>, key: T -> int)
    requires SortedBy(xs, key)
    ensures SortedBy(InsertBy(x, xs, key), key)
  {
    if !(xs == [] || key(x) <= key(xs[0])) {
      var rest := InsertBy(x, xs[1..], key);
      InsertKeepsSorted(x, xs[1..], key);
      InsertAddsOne(x, xs[1..], key);
      forall y | y in rest ensures key(xs[0]) <= key(y) {
        assert y in multiset(rest);
        assert y == x || y in xs[1..];
      }
      SortedCons(xs[0], rest, key);
    }
  }

  lemma SortedCons<T>(x: T, xs: seq<T>, key: T -> int)
    requires SortedBy(xs, key) && forall y :: y in xs ==> key(x) <= key(y)
    ensures SortedBy([x] + xs, key)
  {
  }

  /** `sort_by_key`: sorted by the key, and stable. */
  function SortBy<T>(xs: seq<T>, key: T -> int): (ys: seq<T>)
    ensures multiset(ys) == multiset(xs)
    ensures SortedBy(ys, key)
  {
    if xs == [] then []
    else
      var rest := SortBy(xs[1..], key);
      assert xs == [xs[0]] + xs[1..];
      InsertAddsOne(xs[0], rest, key);
      InsertKeepsSorted(xs[0], rest, key);
      InsertBy(xs[0], rest, key)
  }

  lemma WithKeyCons<T>(x: T, xs: seq<T>, key: T -> int, k: int)
    ensures WithKey([x] + xs, key, k) == (if key(x) == k then [x] else []) + WithKey(xs, key, k)
  {
    assert ([x] + xs)[1..] == xs;
  }

  lemma {:induction false} InsertComesFirst<T>(x: T, xs: seq<T>, key: T -> int)
    ensures WithKey(InsertBy(x, xs, key), key, key(x)) == [x] + WithKey(xs, key, key(x))
  {
    if xs == [] || key(x) <= key(xs[0]) {
      WithKeyCons(x, xs, key, key(x));
    } else {
      InsertComesFirst(x, xs[1..], key);
      WithKeyCons(xs[0], InsertBy(x, xs[1..], key), key, key(x));
      assert WithKey(xs, key, key(x)) == WithKey(xs[1..], key, key(x));
    }
  }

  lemma {:induction false} InsertKeepsOthers<T>(x: T, xs: seq<T>, key: T -> int, k: int)
    requires key(x) != k
    ensures WithKey(InsertBy(x, xs, key), key, k) == WithKey(xs, key, k)
  {
    if xs == [] || key(x) <= key(xs[0]) {
      WithKeyCons(x, xs, key, k);
    } else {
      InsertKeepsOthers(x, xs[1..], key, k);
      WithKeyCons(xs[0], InsertBy(x, xs[1..], key), key, k);
    }
  }

  /** Inside one key the sort keeps the order it was given. */
  lemma {:induction false} SortIsStable<T>(xs: seq<T>, key: T -> int, k: int)
    ensures WithKey(SortBy(xs, key), key, k) == WithKey(xs, key, k)
  {
    if xs != [] {
      SortIsStable(xs[1..], key, k);
      if key(xs[0]) == k {
        InsertComesFirst(xs[0], SortBy(xs[1..], key), key);
      } else {
        InsertKeepsOthers(xs[0], SortBy(xs[1..], key), key, k);
      }
    }
  }

  lemma SortedHeadIsLeast<T>(xs: seq<T>, ys: seq<T>, key: T -> int)
    requires multiset(xs) == multiset(ys) && SortedBy(ys, key) && xs != [] && ys != []
    ensures key(ys[0]) <= key(xs[0])
  {
    var i := FindHead(xs, ys);
    assert i > 0 ==> key(ys[0]) <= key(ys[i]);
  }

  lemma StrictHead<T>(xs: seq<T>, ys: seq<T>, key: T -> int)
    requires multiset(xs) == multiset(ys) && xs != [] && ys != []
    requires forall j :: 0 < j < |xs| ==> key(xs[0]) < key(xs[j])
    requires key(ys[0]) <= key(xs[0])
    ensures ys[0] == xs[0]
  {
    var j := FindHead(ys, xs);
  }

  lemma SameTails<T>(xs: seq<T>, ys: seq<T>)
    requires multiset(xs) == multiset(ys) && xs != [] && ys != [] && xs[0] == ys[0]
    ensures multiset(xs[1..]) == multiset(ys[1..])
  {
    assert xs == [xs[0]] + xs[1..] && ys == [ys[0]] + ys[1..];
    assert multiset(xs[1..]) == multiset(xs) - multiset{xs[0]};
    assert multiset(ys[1..]) == multiset(ys) - multiset{ys[0]};
  }

  /** A sorted list whose keys are pairwise different is the only sorted
      permutation of itself. */
  lemma {:induction false} SortedPermutationIsUnique<T>(xs: seq<T>, ys: seq<T>, key: T -> int)
    requires multiset(xs) == multiset(ys)
    requires SortedBy(ys, key)
    requires forall i, j :: 0 <= i < j < |xs| ==> key(xs[i]) < key(xs[j])
    ensures xs == ys
  {
    assert |xs| == |ys| by { assert |multiset(xs)| == |xs| && |multiset(ys)| == |ys|; }
    if xs != [] {
      SortedHeadIsLeast(xs, ys, key);
      StrictHead(xs, ys, key);
      SameTails(xs, ys);
      assert SortedBy(ys[1..], key) by {
        assert forall i :: 0 <= i < |ys[1..]| ==> ys[1..][i] == ys[i + 1];
      }
      SortedPermutationIsUnique(xs[1..], ys[1..], key);
    }
  }

  // ---------- powers of two ----------

  function Pow2(k: nat): (p: nat)
    ensures p >= 1
  {
    if k == 0 then 1 else 2 * Pow2(k - 1)
  }

  lemma {:induction false} Pow2Monotone(j: nat, k: nat)
    requires j <= k
    ensures Pow2(j) <= Pow2(k)
    ensures j < k ==> 2 * Pow2(j) <= Pow2(k)
  {
    if j < k {
      Pow2Monotone(j, k - 1);
    }
  }

  /** `usize::next_power_of_two`: the first of p, 2p, 4p, ... that reaches n. */
  function GrowPowerOfTwo(p: nat, n: nat): (q: nat)
    requires p >= 1
    ensures q >= n && q >= 1
    decreases n - p
  {
    if p >= n then p else GrowPowerOfTwo(2 * p, n)
  }

  function NextPowerOfTwo(n: nat): (q: nat)
    ensures q >= n && q >= 1
  {
    GrowPowerOfTwo(1, n)
  }

  /** `usize::trailing_zeros` of a non-zero number. */
  function TrailingZeros(n: nat): nat
    requires n >= 1
  {
    if n % 2 == 1 then 0 else 1 + TrailingZeros(n / 2)
  }

  /** `n >> bits`. */
  function ShiftRight(n: nat, bits: nat): nat {
    if bits == 0 then n else ShiftRight(n / 2, bits - 1)
  }

  /** The number of rounds of a field of n: the least k with n <= 2^k. */
  function Log2Ceil(n: nat): (k: nat)
    ensures n <= Pow2(k)
    ensures n >= 2 ==> k >= 1 && Pow2(k - 1) < n
  {
    if n <= 1 then 0 else 1 + Log2Ceil((n + 1) / 2)
  }

  lemma {:induction false} GrowReaches(j: nat, n: nat)
    requires j <= Log2Ceil(n)
    ensures GrowPowerOfTwo(Pow2(j), n) == Pow2(Log2Ceil(n))
    decreases Log2Ceil(n) - j
  {
    if j < Log2Ceil(n) {
      assert n >= 2;
      Pow2Monotone(j, Log2Ceil(n) - 1);
      GrowReaches(j + 1, n);
    }
  }

  lemma NextPowerOfTwoIs(n: nat)
    ensures NextPowerOfTwo(n) == Pow2(Log2Ceil(n))
    ensures TrailingZeros(NextPowerOfTwo(n)) == Log2Ceil(n)
  {
    GrowReaches(0, n);
    TrailingZerosOfPow2(Log2Ceil(n));
  }

  lemma {:induction false} TrailingZerosOfPow2(k: nat)
    ensures TrailingZeros(Pow2(k)) == k
  {
    if k > 0 {
      TrailingZerosOfPow2(k - 1);
    }
  }

  lemma {:induction false} ShiftRightOfPow2(k: nat, bits: nat)
    requires bits <= k
    ensures ShiftRight(Pow2(k), bits) == Pow2(k - bits)
  {
    if bits > 0 {
      ShiftRightOfPow2(k - 1, bits - 1);
    }
  }

  /** The least k with n <= 2^k is the only k with 2^(k-1) < n <= 2^k. */
  lemma Log2CeilUnique(n: nat, k: nat)
    requires k >= 1 && Pow2(k - 1) < n <= Pow2(k)
    ensures Log2Ceil(n) == k
  {
    var m := Log2Ceil(n);
    assert Pow2(0) == 1;
    if m < k {
      Pow2Monotone(m, k - 1);
    } else if k < m {
      Pow2Monotone(k, m - 1);
    }
  }
}
