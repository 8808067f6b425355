/**
 The meaning of the query chain `groupBy(key).count().orderBy(count desc).limit(n)`
 over a finite sequence of grouping keys: one row per distinct key with the
 number of input rows that carry it, ordered by that number, non-increasing,
 and cut to the first `n` rows.

 `orderBy` does not fix the order among rows of equal count, so the result is
 specified by the predicate `IsTopN`, which admits every tie order; `TopN`
 computes one such result, and `TopNUniqueUpToTies` shows that all results
 agree on their length and on their count column.
 */
module Ranking {

  /** One output row: a grouping key and its `count` column. */
  datatype Row<K> = Row(key: K, count: nat)

  /** How many elements of `s` equal `k` (the `count()` of group `k`). */
  function Count<K(==)>(s: seq<K>, k: K): nat
  {
    if s == [] then 0 else (if s[0] == k then 1 else 0) + Count(s[1..], k)
  }

  /** The set of distinct keys, i.e. the groups that `groupBy` forms. */
  function KeySet<K(==)>(s: seq<K>): set<K>
  {
    set k | k in s
  }

  /** The key column of a result. */
  function KeysOf<K>(rows: seq<Row<K>>): (keys: seq<K>)
    ensures |keys| == |rows|
    ensures forall i :: 0 <= i < |rows| ==> keys[i] == rows[i].key
  {
    seq(|rows|, i requires 0 <= i < |rows| => rows[i].key)
  }

  predicate NoDuplicates<K(==)>(s: seq<K>)
  {
    forall i, j :: 0 <= i < j < |s| ==> s[i] != s[j]
  }

  /**
   The specification of one result of the chain for limit `n` over keys `s`:
   at most `n` rows; each row's count is the number of input rows with that
   key; no key twice; counts non-increasing; a key left out only when the
   limit was reached, and then with a count no greater than any row kept.
   */
  ghost predicate IsTopN<K>(s: seq<K>, n: nat, out: seq<Row<K>>)
  {
    && |out| <= n
    && (forall i :: 0 <= i < |out| ==> out[i].key in s && out[i].count == Count(s, out[i].key))
    && (forall i, j :: 0 <= i < j < |out| ==> out[i].key != out[j].key)
    && (forall i, j :: 0 <= i < j < |out| ==> out[i].count >= out[j].count)
    && (forall k :: k in s && k !in KeysOf(out) ==> |out| == n)
    && (forall k, i :: k in s && k !in KeysOf(out) && 0 <= i < |out| ==> Count(s, k) <= out[i].count)
  }

  // ---------------------------------------------------------------------------
  // Counting

  lemma {:induction false} CountConcat<K>(a: seq<K>, b: seq<K>, k: K)
    ensures Count(a + b, k) == Count(a, k) + Count(b, k)
  {
    if a == [] {
      assert a + b == b;
    } else {
      assert (a + b)[1..] == a[1..] + b;
      CountConcat(a[1..], b, k);
    }
  }

  lemma {:induction false} CountPositive<K>(s: seq<K>, k: K)
    ensures Count(s, k) > 0 <==> k in s
  {
    if s != [] {
      CountPositive(s[1..], k);
      assert s == [s[0]] + s[1..];
    }
  }

  /** A group's count depends only on the multiset of input rows, not on their order. */
  lemma {:induction false} CountIsMultiplicity<K>(s: seq<K>, k: K)
    ensures Count(s, k) == multiset(s)[k]
  {
    if s != [] {
      CountIsMultiplicity(s[1..], k);
      assert s == [s[0]] + s[1..];
      assert multiset(s) == multiset{s[0]} + multiset(s[1..]);
    }
  }

  // ---------------------------------------------------------------------------
  // Grouping: the distinct keys

  /** The distinct keys of `s`, each once (kept at its last occurrence). */
  function Distinct<K(==)>(s: seq<K>): (d: seq<K>)
    ensures forall i :: 0 <= i < |d| ==> d[i] in s
    ensures forall i :: 0 <= i < |s| ==> s[i] in d
    ensures NoDuplicates(d)
  {
    if s == [] then []
    else if s[0] in s[1..] then Distinct(s[1..])
    else [s[0]] + Distinct(s[1..])
  }

  // ---------------------------------------------------------------------------
  // Ordering: insertion by count, non-increasing

  predicate NonIncreasingBy<K(==)>(keys: seq<K>, s: seq<K>)
  {
    forall i, j :: 0 <= i < j < |keys| ==> Count(s, keys[i]) >= Count(s, keys[j])
  }

  /** Inserts `k` before the first key whose count is not larger than its own. */
  function Insert<K(==)>(k: K, sorted: seq<K>, s: seq<K>): (r: seq<K>)
    ensures |r| == |sorted| + 1
    ensures KeySet(r) == KeySet(sorted) + {k}
  {
    if sorted == [] || Count(s, k) >= Count(s, sorted[0]) then
      [k] + sorted
    else
      var tail := Insert(k, sorted[1..], s);
      assert KeySet(sorted) == {sorted[0]} + KeySet(sorted[1..]);
      assert KeySet([sorted[0]] + tail) == {sorted[0]} + KeySet(tail);
      [sorted[0]] + tail
  }

  lemma ConsNonIncreasing<K>(x: K, tail: seq<K>, s: seq<K>)
    requires NonIncreasingBy(tail, s)
    requires forall j :: 0 <= j < |tail| ==> Count(s, x) >= Count(s, tail[j])
    ensures NonIncreasingBy([x] + tail, s)
  {
    var r := [x] + tail;
    forall i, j | 0 <= i < j < |r|
      ensures Count(s, r[i]) >= Count(s, r[j])
    {
      if i > 0 {
        assert r[i] == tail[i - 1] && r[j] == tail[j - 1];
      } else {
        assert r[j] == tail[j - 1];
      }
    }
  }

  lemma {:induction false} InsertNonIncreasing<K>(k: K, sorted: seq<K>, s: seq<K>)
    requires NonIncreasingBy(sorted, s)
    ensures NonIncreasingBy(Insert(k, sorted, s), s)
  {
    if sorted == [] || Count(s, k) >= Count(s, sorted[0]) {
      ConsNonIncreasing(k, sorted, s);
    } else {
      var tail := Insert(k, sorted[1..], s);
      InsertNonIncreasing(k, sorted[1..], s);
      forall j | 0 <= j < |tail|
        ensures Count(s, sorted[0]) >= Count(s, tail[j])
      {
        assert tail[j] in KeySet(tail);
        if tail[j] != k {
          var p :| 0 <= p < |sorted[1..]| && sorted[1..][p] == tail[j];
          assert sorted[p + 1] == tail[j];
        }
      }
      ConsNonIncreasing(sorted[0], tail, s);
    }
  }

  lemma {:induction false} InsertNoDuplicates<K>(k: K, sorted: seq<K>, s: seq<K>)
    requires NoDuplicates(sorted) && k !in sorted
    ensures NoDuplicates(Insert(k, sorted, s))
  {
    if sorted != [] && Count(s, k) < Count(s, sorted[0]) {
      var tail := Insert(k, sorted[1..], s);
      InsertNoDuplicates(k, sorted[1..], s);
      assert sorted[0] !in KeySet(tail);
      var r := [sorted[0]] + tail;
      forall i, j | 0 <= i < j < |r|
        ensures r[i] != r[j]
      {
        if i == 0 {
          assert r[j] == tail[j - 1] && tail[j - 1] in KeySet(tail);
        } else {
          assert r[i] == tail[i - 1] && r[j] == tail[j - 1];
        }
      }
    }
  }

  /** The keys ordered by their count in `s`, non-increasing. */
  function SortByCount<K(==)>(keys: seq<K>, s: seq<K>): (r: seq<K>)
    ensures |r| == |keys|
    ensures KeySet(r) == KeySet(keys)
    ensures NonIncreasingBy(r, s)
    ensures NoDuplicates(keys) ==> NoDuplicates(r)
  {
    if keys == [] then []
    else
      var rest := SortByCount(keys[1..], s);
      assert KeySet(keys) == {keys[0]} + KeySet(keys[1..]);
      InsertNonIncreasing(keys[0], rest, s);
      if NoDuplicates(keys) then
        assert keys[0] !in KeySet(rest);
        InsertNoDuplicates(keys[0], rest, s);
        Insert(keys[0], rest, s)
      else
        Insert(keys[0], rest, s)
  }

  // ---------------------------------------------------------------------------
  // The chain

  /** One result of `groupBy().count().orderBy(count desc).limit(n)` over `s`. */
  function TopN<K(==)>(s: seq<K>, n: nat): seq<Row<K>>
  {
    var sorted := SortByCount(Distinct(s), s);
    var kept := sorted[..if n < |sorted| then n else |sorted|];
    seq(|kept|, i requires 0 <= i < |kept| => Row(kept[i], Count(s, kept[i])))
  }

  /** `TopN` meets the specification. */
  lemma TopNIsTopN<K>(s: seq<K>, n: nat)
    ensures IsTopN(s, n, TopN(s, n))
  {
    var sorted := SortByCount(Distinct(s), s);
    var m := if n < |sorted| then n else |sorted|;
    var kept := sorted[..m];
    var out := TopN(s, n);
    assert KeySet(Distinct(s)) == KeySet(s);
    assert KeysOf(out) == kept;
    forall i | 0 <= i < |out|
      ensures out[i].key in s
    {
      assert kept[i] == sorted[i] && sorted[i] in KeySet(sorted);
    }
    forall k | k in s && k !in KeysOf(out)
      ensures |out| == n
      ensures forall i :: 0 <= i < |out| ==> Count(s, k) <= out[i].count
    {
      assert k in KeySet(sorted);
      var p :| 0 <= p < |sorted| && sorted[p] == k;
      assert p >= m;
    }
  }

  // ---------------------------------------------------------------------------
  // Every result has the same length and the same count column

  lemma {:induction false} KeySetOfNoDuplicates<K>(s: seq<K>)
    requires NoDuplicates(s)
    ensures |KeySet(s)| == |s|
  {
    if s != [] {
      KeySetOfNoDuplicates(s[1..]);
      assert KeySet(s) == {s[0]} + KeySet(s[1..]);
      assert s[0] !in KeySet(s[1..]);
    }
  }

  lemma {:induction false} KeySetBound<K>(s: seq<K>)
    ensures |KeySet(s)| <= |s|
  {
    if s != [] {
      KeySetBound(s[1..]);
      assert KeySet(s) == {s[0]} + KeySet(s[1..]);
    }
  }

  lemma SubsetCardinality<K>(a: set<K>, b: set<K>)
    requires a <= b
    ensures |a| <= |b|
  {
    assert b == a + (b - a);
  }

  /**
   A result has exactly `min(n, number of distinct keys)` rows: `n` rows
   whenever at least `n` distinct keys exist, and otherwise all of them.
   */
  lemma TopNLength<K>(s: seq<K>, n: nat, out: seq<Row<K>>)
    requires IsTopN(s, n, out)
    ensures |out| == if n < |KeySet(s)| then n else |KeySet(s)|
    ensures |out| < n ==> KeySet(s) == KeySet(KeysOf(out))
  {
    var keys := KeysOf(out);
    KeySetOfNoDuplicates(keys);
    assert KeySet(keys) <= KeySet(s);
    SubsetCardinality(KeySet(keys), KeySet(s));
    if |out| < n {
      assert KeySet(s) <= KeySet(keys);
      SubsetCardinality(KeySet(s), KeySet(keys));
    }
  }

  /** Position `i` of one result cannot carry a larger count than position `i` of another. */
  lemma CountAtMost<K>(s: seq<K>, n: nat, a: seq<Row<K>>, b: seq<Row<K>>, i: nat)
    requires IsTopN(s, n, a) && IsTopN(s, n, b)
    requires |a| == |b| && i < |a|
    ensures a[i].count <= b[i].count
  {
    if a[i].count > b[i].count {
      // The i+1 keys at the head of `a` all outrank b[i], so all of them sit in b[..i].
      var high := KeysOf(a[..i + 1]);
      var front := KeysOf(b[..i]);
      forall j | 0 <= j <= i
        ensures high[j] in front
      {
        var k := a[j].key;
        assert Count(s, k) > b[i].count;
        if k !in KeysOf(b) {
          assert false;
        }
        var p :| 0 <= p < |b| && KeysOf(b)[p] == k;
        assert b[p].count == Count(s, k);
        assert p < i;
        assert front[p] == k;
      }
      assert KeySet(high) <= KeySet(front);
      SubsetCardinality(KeySet(high), KeySet(front));
      KeySetOfNoDuplicates(high);
      KeySetBound(front);
      assert false;
    }
  }

  /**
   Results agree up to ties: any two results for the same input and limit
   have the same length and the same count at every position, so they differ
   at most in the order of keys that share a count.
   */
  lemma TopNUniqueUpToTies<K>(s: seq<K>, n: nat, a: seq<Row<K>>, b: seq<Row<K>>)
    requires IsTopN(s, n, a) && IsTopN(s, n, b)
    ensures |a| == |b|
    ensures forall i :: 0 <= i < |a| ==> a[i].count == b[i].count
  {
    TopNLength(s, n, a);
    TopNLength(s, n, b);
    forall i | 0 <= i < |a|
      ensures a[i].count == b[i].count
    {
      CountAtMost(s, n, a, b, i);
      CountAtMost(s, n, b, a, i);
    }
  }

  /** A sorted, duplicate-free list of every key with its count is a result for any limit it fits. */
  lemma IsTopNWhenAllKeysFit<K>(s: seq<K>, n: nat, out: seq<Row<K>>)
    requires |out| <= n
    requires forall i :: 0 <= i < |out| ==> out[i].key in s && out[i].count == Count(s, out[i].key)
    requires forall i, j :: 0 <= i < j < |out| ==> out[i].key != out[j].key
    requires forall i, j :: 0 <= i < j < |out| ==> out[i].count >= out[j].count
    requires forall k :: k in s ==> k in KeysOf(out)
    ensures IsTopN(s, n, out)
  {
  }

  /**
   When no other key shares the count of a row of `expected`, the result is
   unique: every result equals `expected`.
   */
  lemma TopNUniqueWithoutTies<K>(s: seq<K>, n: nat, out: seq<Row<K>>, expected: seq<Row<K>>)
    requires IsTopN(s, n, out) && IsTopN(s, n, expected)
    requires forall i, k :: 0 <= i < |expected| && k in s && Count(s, k) == expected[i].count ==> k == expected[i].key
    ensures out == expected
  {
    TopNUniqueUpToTies(s, n, out, expected);
    forall i | 0 <= i < |out|
      ensures out[i] == expected[i]
    {
      assert Count(s, out[i].key) == expected[i].count;
    }
  }

  /**
   The result depends only on the multiset of input rows: reordering the
   input admits exactly the same results.
   */
  lemma IsTopNOfMultiset<K>(s: seq<K>, t: seq<K>, n: nat, out: seq<Row<K>>)
    requires multiset(s) == multiset(t)
    ensures IsTopN(s, n, out) <==> IsTopN(t, n, out)
  {
    forall k
      ensures Count(s, k) == Count(t, k)
      ensures k in s <==> k in t
    {
      CountIsMultiplicity(s, k);
      CountIsMultiplicity(t, k);
      assert k in s <==> k in multiset(s);
      assert k in t <==> k in multiset(t);
    }
  }
}
