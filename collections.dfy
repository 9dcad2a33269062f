/**
 * The behaviour of the Kotlin collection operations the core calls:
 * `sortedByDescending` (a stable sort), `sumOf`, and the insertion-ordered
 * `LinkedHashMap` that `mutableMapOf` creates.
 */
module Collections {
  import opened Wrappers

  // ---------------------------------------------------------------------------
  // sumOf

  /** `xs.sumOf(f)`. */
  function SumBy<T>(xs: seq<T>, f: T -> int): int {
    if xs == [] then 0 else SumBy(xs[..|xs| - 1], f) + f(xs[|xs| - 1])
  }

  lemma {:induction false} SumByConcat<T>(xs: seq<T>, ys: seq<T>, f: T -> int)
    ensures SumBy(xs + ys, f) == SumBy(xs, f) + SumBy(ys, f)
  {
    if ys == [] {
      assert xs + ys == xs;
    } else {
      assert (xs + ys)[..|xs + ys| - 1] == xs + ys[..|ys| - 1];
      SumByConcat(xs, ys[..|ys| - 1], f);
    }
  }

  lemma SumBySingle<T>(x: T, f: T -> int)
    ensures SumBy([x], f) == f(x)
  {
    assert [x][..0] == [];
  }

  lemma {:induction false} SumByNonNegative<T>(xs: seq<T>, f: T -> int)
    requires forall i :: 0 <= i < |xs| ==> f(xs[i]) >= 0
    ensures SumBy(xs, f) >= 0
  {
    if xs != [] {
      SumByNonNegative(xs[..|xs| - 1], f);
    }
  }

  // ---------------------------------------------------------------------------
  // map

  /** `xs.map(f)`. */
  function MapSeq<T, U>(xs: seq<T>, f: T -> U): (r: seq<U>)
    ensures |r| == |xs|
    ensures forall i :: 0 <= i < |r| ==> r[i] == f(xs[i])
  {
    if xs == [] then [] else MapSeq(xs[..|xs| - 1], f) + [f(xs[|xs| - 1])]
  }

  /** Summing a mapped sequence is summing the composed key over the original. */
  lemma {:induction false} SumByMapSeq<T, U>(xs: seq<T>, f: T -> U, g: U -> int, h: T -> int)
    requires forall x :: h(x) == g(f(x))
    ensures SumBy(MapSeq(xs, f), g) == SumBy(xs, h)
  {
    if xs != [] {
      var init := xs[..|xs| - 1];
      SumByMapSeq(init, f, g, h);
      var r := MapSeq(xs, f);
      assert r[..|r| - 1] == MapSeq(init, f);
    }
  }

  // ---------------------------------------------------------------------------
  // sortedByDescending

  ghost predicate SortedDesc<T>(xs: seq<T>, key: T -> int) {
    forall i, j :: 0 <= i < j < |xs| ==> key(xs[i]) >= key(xs[j])
  }

  /** Puts `x` into the descending run `s` after every element whose key is at least x's. */
  function InsertDesc<T>(x: T, s: seq<T>, key: T -> int): (r: seq<T>)
    ensures multiset(r) == multiset(s) + multiset{x}
    ensures |r| == |s| + 1
  {
    if s == [] then [x]
    else if key(s[0]) >= key(x) then
      assert s == [s[0]] + s[1..];
      [s[0]] + InsertDesc(x, s[1..], key)
    else
      [x] + s
  }

  /** A descending run's tail is descending, and its head's key bounds every element's. */
  lemma SortedDescTail<T>(s: seq<T>, key: T -> int)
    requires s != [] && SortedDesc(s, key)
    ensures SortedDesc(s[1..], key)
    ensures forall z :: z in s ==> key(s[0]) >= key(z)
  {
    forall i, j | 0 <= i < j < |s[1..]| ensures key(s[1..][i]) >= key(s[1..][j]) {
      assert s[1..][i] == s[i + 1] && s[1..][j] == s[j + 1];
    }
  }

  /** An element whose key bounds a descending run's keys can be put in front of it. */
  lemma SortedDescCons<T>(y: T, r: seq<T>, key: T -> int)
    requires SortedDesc(r, key)
    requires forall z :: z in r ==> key(y) >= key(z)
    ensures SortedDesc([y] + r, key)
  {
    var c := [y] + r;
    forall i, j | 0 <= i < j < |c| ensures key(c[i]) >= key(c[j]) {
      if i == 0 {
        assert c[j] == r[j - 1];
      } else {
        assert c[i] == r[i - 1] && c[j] == r[j - 1];
      }
    }
  }

  lemma {:induction false} InsertDescSorted<T>(x: T, s: seq<T>, key: T -> int)
    requires SortedDesc(s, key)
    ensures SortedDesc(InsertDesc(x, s, key), key)
  {
    if s != [] && key(s[0]) >= key(x) {
      SortedDescTail(s, key);
      InsertDescSorted(x, s[1..], key);
      var rest := InsertDesc(x, s[1..], key);
      forall z | z in rest ensures key(s[0]) >= key(z) {
        assert z in multiset(s[1..]) + multiset{x};
      }
      SortedDescCons(s[0], rest, key);
    } else if s != [] {
      SortedDescTail(s, key);
      SortedDescCons(x, s, key);
    }
  }

  /**
   * `sortedByDescending(key)`: insertion sort, taking the elements in order,
   * so that elements with equal keys keep their relative order as in Kotlin's
   * stable sort.
   */
  function SortDesc<T>(xs: seq<T>, key: T -> int): (r: seq<T>)
    ensures SortedDesc(r, key)
    ensures multiset(r) == multiset(xs)
    ensures |r| == |xs|
  {
    if xs == [] then []
    else
      assert xs == xs[..|xs| - 1] + [xs[|xs| - 1]];
      var sorted := SortDesc(xs[..|xs| - 1], key);
      InsertDescSorted(xs[|xs| - 1], sorted, key);
      InsertDesc(xs[|xs| - 1], sorted, key)
  }

  lemma {:induction false} InsertDescSum<T>(x: T, s: seq<T>, key: T -> int, f: T -> int)
    ensures SumBy(InsertDesc(x, s, key), f) == SumBy(s, f) + f(x)
  {
    if s == [] {
      SumBySingle(x, f);
    } else if key(s[0]) >= key(x) {
      InsertDescSum(x, s[1..], key, f);
      SumByConcat([s[0]], InsertDesc(x, s[1..], key), f);
      SumByConcat([s[0]], s[1..], f);
      assert s == [s[0]] + s[1..];
    } else {
      SumByConcat([x], s, f);
      SumBySingle(x, f);
    }
  }

  /** Sorting does not change a `sumOf`. */
  lemma {:induction false} SortDescSum<T>(xs: seq<T>, key: T -> int, f: T -> int)
    ensures SumBy(SortDesc(xs, key), f) == SumBy(xs, f)
  {
    if xs != [] {
      SortDescSum(xs[..|xs| - 1], key, f);
      InsertDescSum(xs[|xs| - 1], SortDesc(xs[..|xs| - 1], key), key, f);
    }
  }

  ghost predicate DistinctBy<T, K>(xs: seq<T>, id: T -> K) {
    forall i, j :: 0 <= i < j < |xs| ==> id(xs[i]) != id(xs[j])
  }

  lemma DistinctTail<T, K>(s: seq<T>, id: T -> K)
    requires s != [] && DistinctBy(s, id)
    ensures DistinctBy(s[1..], id)
  {
    forall i, j | 0 <= i < j < |s[1..]| ensures id(s[1..][i]) != id(s[1..][j]) {
      assert s[1..][i] == s[i + 1] && s[1..][j] == s[j + 1];
    }
  }

  lemma ConsDistinct<T, K>(h: T, t: seq<T>, id: T -> K)
    requires DistinctBy(t, id)
    requires forall y :: y in t ==> id(y) != id(h)
    ensures DistinctBy([h] + t, id)
  {
    var r := [h] + t;
    forall i, j | 0 <= i < j < |r| ensures id(r[i]) != id(r[j]) {
      if i == 0 {
        assert r[j] == t[j - 1] && t[j - 1] in t;
      } else {
        assert r[i] == t[i - 1] && r[j] == t[j - 1];
      }
    }
  }

  lemma {:induction false} InsertDescDistinct<T, K>(x: T, s: seq<T>, key: T -> int, id: T -> K)
    requires DistinctBy(s, id)
    requires forall y :: y in s ==> id(y) != id(x)
    ensures DistinctBy(InsertDesc(x, s, key), id)
  {
    if s != [] && key(s[0]) >= key(x) {
      var rest := InsertDesc(x, s[1..], key);
      assert forall y :: y in s[1..] ==> y in s;
      DistinctTail(s, id);
      InsertDescDistinct(x, s[1..], key, id);
      forall y | y in rest ensures id(y) != id(s[0]) {
        assert y in multiset(s[1..]) + multiset{x};
        if y != x {
          assert y in s[1..];
          var k :| 0 <= k < |s[1..]| && s[1..][k] == y;
          assert s[k + 1] == y;
        }
      }
      ConsDistinct(s[0], rest, id);
    } else if s != [] {
      ConsDistinct(x, s, id);
    }
  }

  /** Sorting keeps distinct identities distinct. */
  lemma {:induction false} SortDescDistinct<T, K>(xs: seq<T>, key: T -> int, id: T -> K)
    requires DistinctBy(xs, id)
    ensures DistinctBy(SortDesc(xs, key), id)
  {
    if xs != [] {
      var init, last := xs[..|xs| - 1], xs[|xs| - 1];
      assert DistinctBy(init, id) by {
        forall i, j | 0 <= i < j < |init| ensures id(init[i]) != id(init[j]) {
          assert init[i] == xs[i] && init[j] == xs[j];
        }
      }
      SortDescDistinct(init, key, id);
      var sorted := SortDesc(init, key);
      forall y | y in sorted ensures id(y) != id(last) {
        assert y in multiset(init);
        var k :| 0 <= k < |init| && init[k] == y;
        assert xs[k] == y;
      }
      InsertDescDistinct(last, sorted, key, id);
    }
  }

  // ---------------------------------------------------------------------------
  // LinkedHashMap<String, Long>

  /** An insertion-ordered map: `keys` lists the entries in iteration order. */
  datatype LinkedMap = LinkedMap(keys: seq<string>, values: map<string, int>)

  ghost predicate Distinct(ks: seq<string>) {
    forall i, j :: 0 <= i < j < |ks| ==> ks[i] != ks[j]
  }

  ghost predicate Valid(m: LinkedMap) {
    && Distinct(m.keys)
    && (forall k :: k in m.values <==> k in m.keys)
  }

  const EmptyMap: LinkedMap := LinkedMap([], map[])

  /** `m[k]`: the value, or null when the key is absent. */
  function Get(m: LinkedMap, k: string): Option<int> {
    if k in m.values then Some(m.values[k]) else None
  }

  /** `m[k] = v`: an existing key keeps its place, a new key goes last. */
  function Put(m: LinkedMap, k: string, v: int): (r: LinkedMap)
    requires Valid(m)
    ensures Valid(r)
    ensures Get(r, k) == Some(v)
    ensures forall q :: q != k ==> Get(r, q) == Get(m, q)
    ensures k in m.values ==> r.keys == m.keys
    ensures k !in m.values ==> r.keys == m.keys + [k]
  {
    if k in m.values then LinkedMap(m.keys, m.values[k := v])
    else LinkedMap(m.keys + [k], m.values[k := v])
  }

  function Without(ks: seq<string>, k: string): (r: seq<string>)
    ensures forall q :: q in r <==> q in ks && q != k
    ensures k !in ks ==> r == ks
    ensures Distinct(ks) ==> Distinct(r)
  {
    if ks == [] then []
    else
      var rest := Without(ks[1..], k);
      assert Distinct(ks) ==> Distinct(ks[1..]) && ks[0] !in ks[1..];
      if ks[0] == k then rest else [ks[0]] + rest
  }

  /** Dropping a key from a concatenation drops it from each part, so the other keys keep their order. */
  lemma {:induction false} WithoutConcat(xs: seq<string>, ys: seq<string>, k: string)
    ensures Without(xs + ys, k) == Without(xs, k) + Without(ys, k)
  {
    if xs == [] {
      assert xs + ys == ys;
    } else {
      assert (xs + ys)[0] == xs[0] && (xs + ys)[1..] == xs[1..] + ys;
      WithoutConcat(xs[1..], ys, k);
    }
  }

  /** A key of a distinct list occurs neither before nor after its own position. */
  lemma OnlyAt(ks: seq<string>, i: nat)
    requires Distinct(ks) && i < |ks|
    ensures ks[i] !in ks[..i] && ks[i] !in ks[i + 1..]
  {
    var before, after := ks[..i], ks[i + 1..];
    forall j | 0 <= j < |before| ensures before[j] != ks[i] {
      assert before[j] == ks[j];
    }
    forall j | 0 <= j < |after| ensures after[j] != ks[i] {
      assert after[j] == ks[i + 1 + j];
    }
  }

  /** In a list of distinct keys, dropping the key at `i` closes the gap: the keys before it, then the keys after it. */
  lemma WithoutAt(ks: seq<string>, i: nat)
    requires Distinct(ks) && i < |ks|
    ensures Without(ks, ks[i]) == ks[..i] + ks[i + 1..]
  {
    var k, before, tail := ks[i], ks[..i], ks[i..];
    var after := tail[1..];
    assert ks == before + tail;
    assert tail[0] == k && after == ks[i + 1..];
    OnlyAt(ks, i);
    assert Without(tail, k) == after;
    WithoutConcat(before, tail, k);
  }

  /**
   * `m.remove(k)`: the entry goes and the remaining keys keep their order;
   * removing an absent key changes nothing.
   */
  function Remove(m: LinkedMap, k: string): (r: LinkedMap)
    requires Valid(m)
    ensures Valid(r)
    ensures Get(r, k) == None
    ensures forall q :: q != k ==> Get(r, q) == Get(m, q)
    ensures forall i :: 0 <= i < |m.keys| && m.keys[i] == k ==> r.keys == m.keys[..i] + m.keys[i + 1..]
    ensures k !in m.values ==> r == m
  {
    forall i | 0 <= i < |m.keys| && m.keys[i] == k ensures Without(m.keys, k) == m.keys[..i] + m.keys[i + 1..] {
      WithoutAt(m.keys, i);
    }
    var r := LinkedMap(Without(m.keys, k), m.values - {k});
    assert k !in m.values ==> m.values - {k} == m.values;
    r
  }

  /** Concatenation is associative; a step the solver is slow to find under heavy context. */
  lemma ConcatAssoc<T>(a: seq<T>, b: seq<T>, c: seq<T>)
    ensures a + b + c == a + (b + c)
  {
  }
}
