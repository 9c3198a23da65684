/** The order the source sorts and compares by: JavaScript and MongoDB compare
    `yyyy-MM-dd` dates and names as strings, character by character. This module
    proves that comparison a total order and provides the stable index sort the
    store queries use (`.sort({ date: 1 })`, `.sort({ name: 1 })`). */
module Ordering {

  /** `a <= b` on strings: lexicographic, a proper prefix first. */
  predicate LexLe(a: string, b: string)
    decreases |a|
  {
    |a| == 0 || (|b| > 0 && (a[0] < b[0] || (a[0] == b[0] && LexLe(a[1..], b[1..]))))
  }

  lemma {:induction false} LexLeReflexive(a: string)
    ensures LexLe(a, a)
    decreases |a|
  {
    if |a| > 0 {
      LexLeReflexive(a[1..]);
    }
  }

  lemma {:induction false} LexLeTotal(a: string, b: string)
    ensures LexLe(a, b) || LexLe(b, a)
    decreases |a|
  {
    if |a| > 0 && |b| > 0 && a[0] == b[0] {
      LexLeTotal(a[1..], b[1..]);
    }
  }

  lemma {:induction false} LexLeAntisymmetric(a: string, b: string)
    requires LexLe(a, b) && LexLe(b, a)
    ensures a == b
    decreases |a|
  {
    if |a| > 0 {
      LexLeAntisymmetric(a[1..], b[1..]);
      assert a == [a[0]] + a[1..];
      assert b == [b[0]] + b[1..];
    }
  }

  lemma {:induction false} LexLeTransitive(a: string, b: string, c: string)
    requires LexLe(a, b) && LexLe(b, c)
    ensures LexLe(a, c)
    decreases |a|
  {
    if |a| > 0 && a[0] == b[0] && b[0] == c[0] {
      LexLeTransitive(a[1..], b[1..], c[1..]);
    }
  }

  /** Every index of `idx` points into a sequence of length `n`. */
  predicate InBounds(idx: seq<nat>, n: nat) {
    forall i :: 0 <= i < |idx| ==> idx[i] < n
  }

  predicate Distinct(idx: seq<nat>) {
    forall i, j :: 0 <= i < j < |idx| ==> idx[i] != idx[j]
  }

  /** The indices are ascending by their keys. */
  predicate SortedBy(keys: seq<string>, idx: seq<nat>)
    requires InBounds(idx, |keys|)
  {
    forall i, j :: 0 <= i < j < |idx| ==> LexLe(keys[idx[i]], keys[idx[j]])
  }

  /** Insert `x` before the first index whose key is not below its own. */
  function Insert(keys: seq<string>, x: nat, s: seq<nat>): (r: seq<nat>)
    requires x < |keys| && InBounds(s, |keys|)
    ensures |r| == |s| + 1
    ensures multiset(r) == multiset(s) + multiset{x}
    ensures InBounds(r, |keys|)
  {
    if s == [] || LexLe(keys[x], keys[s[0]]) then [x] + s
    else
      assert s == [s[0]] + s[1..];
      [s[0]] + Insert(keys, x, s[1..])
  }

  /** A lower bound of `x`'s key and of every key in `s` bounds every key after the insertion. */
  lemma {:induction false} InsertBound(keys: seq<string>, x: nat, s: seq<nat>, b: string)
    requires x < |keys| && InBounds(s, |keys|)
    requires LexLe(b, keys[x])
    requires forall i :: 0 <= i < |s| ==> LexLe(b, keys[s[i]])
    ensures forall i :: 0 <= i < |Insert(keys, x, s)| ==> LexLe(b, keys[Insert(keys, x, s)[i]])
    decreases |s|
  {
    if s != [] && !LexLe(keys[x], keys[s[0]]) {
      var rest := Insert(keys, x, s[1..]);
      InsertBound(keys, x, s[1..], b);
      assert Insert(keys, x, s) == [s[0]] + rest;
      forall i | 0 < i <= |rest| ensures LexLe(b, keys[([s[0]] + rest)[i]]) {
        assert ([s[0]] + rest)[i] == rest[i - 1];
      }
    }
  }

  lemma {:induction false} InsertSorted(keys: seq<string>, x: nat, s: seq<nat>)
    requires x < |keys| && InBounds(s, |keys|) && SortedBy(keys, s)
    ensures SortedBy(keys, Insert(keys, x, s))
    decreases |s|
  {
    var r := Insert(keys, x, s);
    if s == [] || LexLe(keys[x], keys[s[0]]) {
      forall j | 0 < j < |r| ensures LexLe(keys[r[0]], keys[r[j]]) {
        if j > 1 {
          LexLeTransitive(keys[x], keys[s[0]], keys[s[j - 1]]);
        }
      }
    } else {
      var rest := Insert(keys, x, s[1..]);
      InsertSorted(keys, x, s[1..]);
      LexLeTotal(keys[x], keys[s[0]]);
      InsertBound(keys, x, s[1..], keys[s[0]]);
      assert r == [s[0]] + rest;
      forall i, j | 0 <= i < j < |r| ensures LexLe(keys[r[i]], keys[r[j]]) {
        assert r[j] == rest[j - 1];
        if i > 0 {
          assert r[i] == rest[i - 1];
        }
      }
    }
  }

  lemma RepeatCountsTwice(s: seq<nat>, i: nat, j: nat)
    requires i < j < |s|
    ensures s[i] == s[j] ==> multiset(s)[s[i]] >= 2
  {
    assert s == s[..j] + [s[j]] + s[j + 1..];
    assert s[..j][i] == s[i];
  }

  lemma DistinctByMultiset(s: seq<nat>)
    requires forall e :: multiset(s)[e] <= 1
    ensures Distinct(s)
  {
    forall i, j | 0 <= i < j < |s| ensures s[i] != s[j] {
      RepeatCountsTwice(s, i, j);
    }
  }

  lemma {:induction false} MultisetOfDistinct(s: seq<nat>)
    requires Distinct(s)
    ensures forall e :: multiset(s)[e] <= 1
    decreases |s|
  {
    if s != [] {
      MultisetOfDistinct(s[1..]);
      assert s == [s[0]] + s[1..];
      assert s[0] !in s[1..];
    }
  }

  /** Insertion sort of indices by their keys (ties keep an order fixed by the input). */
  function SortIdx(keys: seq<string>, idx: seq<nat>): (r: seq<nat>)
    requires InBounds(idx, |keys|)
    ensures |r| == |idx|
    ensures multiset(r) == multiset(idx)
    ensures InBounds(r, |keys|)
  {
    if idx == [] then []
    else
      assert idx == [idx[0]] + idx[1..];
      Insert(keys, idx[0], SortIdx(keys, idx[1..]))
  }

  lemma {:induction false} SortIdxSorted(keys: seq<string>, idx: seq<nat>)
    requires InBounds(idx, |keys|)
    ensures SortedBy(keys, SortIdx(keys, idx))
    decreases |idx|
  {
    if idx != [] {
      SortIdxSorted(keys, idx[1..]);
      InsertSorted(keys, idx[0], SortIdx(keys, idx[1..]));
    }
  }

  /** The sorted indices are the input indices, each as often as in the input. */
  lemma SortIdxMembers(keys: seq<string>, idx: seq<nat>)
    requires InBounds(idx, |keys|)
    ensures forall e :: e in SortIdx(keys, idx) <==> e in idx
    ensures Distinct(idx) ==> Distinct(SortIdx(keys, idx))
  {
    var r := SortIdx(keys, idx);
    assert forall e :: e in r <==> e in multiset(r);
    assert forall e :: e in idx <==> e in multiset(idx);
    if Distinct(idx) {
      MultisetOfDistinct(idx);
      DistinctByMultiset(r);
    }
  }

  /** `s` read at the given indices, in their order. */
  function Gather<T>(s: seq<T>, idx: seq<nat>): (r: seq<T>)
    requires InBounds(idx, |s|)
    ensures |r| == |idx|
    ensures forall i :: 0 <= i < |idx| ==> r[i] == s[idx[i]]
  {
    seq(|idx|, i requires 0 <= i < |idx| => s[idx[i]])
  }

  lemma GatherCons<T>(s: seq<T>, h: nat, t: seq<nat>)
    requires h < |s| && InBounds(t, |s|)
    ensures InBounds([h] + t, |s|)
    ensures Gather(s, [h] + t) == [s[h]] + Gather(s, t)
  {
    assert forall i :: 0 < i <= |t| ==> ([h] + t)[i] == t[i - 1];
  }

  lemma {:induction false} GatherInsert<T>(s: seq<T>, keys: seq<string>, x: nat, t: seq<nat>)
    requires |keys| == |s|
    requires x < |keys| && InBounds(t, |keys|)
    ensures multiset(Gather(s, Insert(keys, x, t))) == multiset(Gather(s, t)) + multiset{s[x]}
    decreases |t|
  {
    if t == [] || LexLe(keys[x], keys[t[0]]) {
      GatherCons(s, x, t);
    } else {
      var rest := Insert(keys, x, t[1..]);
      GatherInsert(s, keys, x, t[1..]);
      assert Insert(keys, x, t) == [t[0]] + rest;
      assert t == [t[0]] + t[1..];
      GatherCons(s, t[0], rest);
      GatherCons(s, t[0], t[1..]);
    }
  }

  /** Sorting indices permutes the gathered elements. */
  lemma {:induction false} GatherSort<T>(s: seq<T>, keys: seq<string>, idx: seq<nat>)
    requires |keys| == |s| && InBounds(idx, |keys|)
    ensures multiset(Gather(s, SortIdx(keys, idx))) == multiset(Gather(s, idx))
    decreases |idx|
  {
    if idx != [] {
      var h, t := idx[0], idx[1..];
      assert idx == [h] + t;
      var rest := SortIdx(keys, t);
      assert SortIdx(keys, idx) == Insert(keys, h, rest);
      GatherSort(s, keys, t);
      GatherInsert(s, keys, h, rest);
      GatherCons(s, h, t);
    }
  }
}
