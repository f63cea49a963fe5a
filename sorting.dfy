/**
 * Ordering and filtering of string lists. `Array.prototype.sort` with
 * `localeCompare` is modelled by a sort under plain lexicographic order on code
 * points (`localeCompare` is locale-dependent); `Array.prototype.filter` and the
 * push-into-two-arrays partitions by `Filter` and `Reject`.
 */
module Sorting {

  /** `a` sorts no later than `b`: lexicographic order on code points. */
  predicate Below(a: string, b: string) {
    |a| == 0 || (|b| > 0 && (a[0] < b[0] || (a[0] == b[0] && Below(a[1..], b[1..]))))
  }

  lemma {:induction false} BelowTotal(a: string, b: string)
    ensures Below(a, b) || Below(b, a)
  {
    if |a| > 0 && |b| > 0 && a[0] == b[0] {
      BelowTotal(a[1..], b[1..]);
    }
  }

  lemma {:induction false} BelowAntisymmetric(a: string, b: string)
    requires Below(a, b) && Below(b, a)
    ensures a == b
  {
    if |a| > 0 && |b| > 0 {
      BelowAntisymmetric(a[1..], b[1..]);
      assert a == [a[0]] + a[1..] && b == [b[0]] + b[1..];
    }
  }

  lemma {:induction false} BelowTransitive(a: string, b: string, c: string)
    requires Below(a, b) && Below(b, c)
    ensures Below(a, c)
  {
    if |a| > 0 && a[0] == b[0] && b[0] == c[0] {
      BelowTransitive(a[1..], b[1..], c[1..]);
    }
  }

  /** Every earlier element sorts no later than every later one. */
  predicate Sorted(s: seq<string>) {
    forall i, j :: 0 <= i < j < |s| ==> Below(s[i], s[j])
  }

  /** Insert `x` before the first element it sorts below. */
  function Insert(x: string, s: seq<string>): seq<string> {
    if s == [] then [x]
    else if Below(x, s[0]) then [x] + s
    else [s[0]] + Insert(x, s[1..])
  }

  /** Inserting adds exactly `x`. */
  lemma {:induction false} InsertMultiset(x: string, s: seq<string>)
    ensures multiset(Insert(x, s)) == multiset(s) + multiset{x}
  {
    if s != [] && !Below(x, s[0]) {
      InsertMultiset(x, s[1..]);
      assert s == [s[0]] + s[1..];
    }
  }

  /** Inserting into a sorted list keeps it sorted. */
  lemma {:induction false} InsertSorted(x: string, s: seq<string>)
    requires Sorted(s)
    ensures Sorted(Insert(x, s))
  {
    if s == [] {
    } else if Below(x, s[0]) {
      forall j | 0 <= j < |s| ensures Below(x, s[j]) {
        if j > 0 { BelowTransitive(x, s[0], s[j]); }
      }
      ConsSorted(x, s);
    } else {
      var t := Insert(x, s[1..]);
      InsertSorted(x, s[1..]);
      InsertMultiset(x, s[1..]);
      BelowTotal(x, s[0]);
      forall j | 0 <= j < |t| ensures Below(s[0], t[j]) {
        assert t[j] in multiset(t);
        if t[j] != x {
          assert t[j] in multiset(s[1..]);
          var i :| 0 <= i < |s[1..]| && s[1..][i] == t[j];
          assert s[i + 1] == t[j];
        }
      }
      ConsSorted(s[0], t);
    }
  }

  /** A sorted list stays sorted under a head that sorts below all of it. */
  lemma ConsSorted(x: string, s: seq<string>)
    requires Sorted(s)
    requires forall j :: 0 <= j < |s| ==> Below(x, s[j])
    ensures Sorted([x] + s)
  {
    var r := [x] + s;
    forall i, j | 0 <= i < j < |r| ensures Below(r[i], r[j]) {
      if i == 0 {
        assert r[j] == s[j - 1];
      } else {
        assert r[i] == s[i - 1] && r[j] == s[j - 1];
      }
    }
  }

  /** `array.sort((a, b) => a.localeCompare(b))`, with code-point order. */
  function SortStrings(s: seq<string>): seq<string> {
    if s == [] then [] else Insert(s[0], SortStrings(s[1..]))
  }

  /** The sort returns a sorted permutation of its input. */
  lemma {:induction false} SortStringsShape(s: seq<string>)
    ensures Sorted(SortStrings(s))
    ensures multiset(SortStrings(s)) == multiset(s)
  {
    if s != [] {
      SortStringsShape(s[1..]);
      InsertSorted(s[0], SortStrings(s[1..]));
      InsertMultiset(s[0], SortStrings(s[1..]));
      assert s == [s[0]] + s[1..];
    }
  }

  /** The elements of `s` that satisfy `p`, in order (`s.filter(p)`). */
  function Filter<T>(s: seq<T>, p: T -> bool): (r: seq<T>)
    ensures |r| <= |s|
    ensures forall k :: 0 <= k < |r| ==> p(r[k])
  {
    if s == [] then [] else Filter(s[..|s| - 1], p) + (if p(s[|s| - 1]) then [s[|s| - 1]] else [])
  }

  /** The elements of `s` that fail `p`, in order. */
  function Reject<T>(s: seq<T>, p: T -> bool): (r: seq<T>)
    ensures |r| <= |s|
    ensures forall k :: 0 <= k < |r| ==> !p(r[k])
  {
    if s == [] then [] else Reject(s[..|s| - 1], p) + (if p(s[|s| - 1]) then [] else [s[|s| - 1]])
  }

  /** Together the kept and the rejected elements are exactly the elements of `s`. */
  lemma {:induction false} FilterRejectMultiset<T>(s: seq<T>, p: T -> bool)
    ensures multiset(Filter(s, p)) + multiset(Reject(s, p)) == multiset(s)
  {
    if s != [] {
      FilterRejectMultiset(s[..|s| - 1], p);
      assert s == s[..|s| - 1] + [s[|s| - 1]];
    }
  }

  /** An element of `s` that satisfies `p` is kept by `Filter`. */
  lemma {:induction false} FilterKeeps<T>(s: seq<T>, p: T -> bool, x: T)
    requires x in s && p(x)
    ensures x in Filter(s, p)
  {
    if s[|s| - 1] != x {
      assert s == s[..|s| - 1] + [s[|s| - 1]];
      FilterKeeps(s[..|s| - 1], p, x);
    }
  }

  /** Filtering distributes over concatenation. */
  lemma {:induction false} FilterAppend<T>(a: seq<T>, b: seq<T>, p: T -> bool)
    ensures Filter(a + b, p) == Filter(a, p) + Filter(b, p)
    ensures Reject(a + b, p) == Reject(a, p) + Reject(b, p)
  {
    if b == [] {
      assert a + b == a;
    } else {
      assert (a + b)[..|a + b| - 1] == a + b[..|b| - 1];
      FilterAppend(a, b[..|b| - 1], p);
    }
  }

  /** A list whose every element satisfies `p` is its own filter, and rejects to nothing. */
  lemma {:induction false} FilterAll<T>(s: seq<T>, p: T -> bool)
    requires forall k :: 0 <= k < |s| ==> p(s[k])
    ensures Filter(s, p) == s && Reject(s, p) == []
  {
    if s != [] {
      FilterAll(s[..|s| - 1], p);
      assert s == s[..|s| - 1] + [s[|s| - 1]];
    }
  }

  /** A list whose every element fails `p` is its own rejection, and filters to nothing. */
  lemma {:induction false} FilterNone<T>(s: seq<T>, p: T -> bool)
    requires forall k :: 0 <= k < |s| ==> !p(s[k])
    ensures Filter(s, p) == [] && Reject(s, p) == s
  {
    if s != [] {
      FilterNone(s[..|s| - 1], p);
      assert s == s[..|s| - 1] + [s[|s| - 1]];
    }
  }

  /** `sub` is `s` with some elements left out, the others kept in order. */
  predicate IsSubsequence<T(==)>(sub: seq<T>, s: seq<T>) {
    if sub == [] then true
    else if s == [] then false
    else
      || (sub[|sub| - 1] == s[|s| - 1] && IsSubsequence(sub[..|sub| - 1], s[..|s| - 1]))
      || IsSubsequence(sub, s[..|s| - 1])
  }

  /** `Filter` keeps a subsequence of its input. */
  lemma {:induction false} FilterIsSubsequence<T>(s: seq<T>, p: T -> bool)
    ensures IsSubsequence(Filter(s, p), s)
  {
    if s != [] {
      var init := s[..|s| - 1];
      FilterIsSubsequence(init, p);
      var f := Filter(s, p);
      if p(s[|s| - 1]) {
        assert f[..|f| - 1] == Filter(init, p);
      } else {
        assert f == Filter(init, p);
      }
    }
  }

  /** `Reject` keeps a subsequence of its input. */
  lemma {:induction false} RejectIsSubsequence<T>(s: seq<T>, p: T -> bool)
    ensures IsSubsequence(Reject(s, p), s)
  {
    if s != [] {
      var init := s[..|s| - 1];
      RejectIsSubsequence(init, p);
      var f := Reject(s, p);
      if !p(s[|s| - 1]) {
        assert f[..|f| - 1] == Reject(init, p);
      } else {
        assert f == Reject(init, p);
      }
    }
  }

  /** Elements of a permutation keep a property all the original elements have. */
  lemma PermutationKeeps<T>(a: seq<T>, b: seq<T>, p: T -> bool)
    requires multiset(a) == multiset(b)
    requires forall k :: 0 <= k < |b| ==> p(b[k])
    ensures forall k :: 0 <= k < |a| ==> p(a[k])
  {
    forall k | 0 <= k < |a| ensures p(a[k]) {
      assert a[k] in multiset(b);
      var j :| 0 <= j < |b| && b[j] == a[k];
    }
  }

  /** The elements satisfying `p`, sorted, followed by the others, sorted. */
  function SortedPartition(s: seq<string>, p: string -> bool): seq<string> {
    SortStrings(Filter(s, p)) + SortStrings(Reject(s, p))
  }

  /** Two sorted lists, the first all satisfying `p`, the second none: their
      concatenation puts every `p` element first and is sorted within each part. */
  lemma SortedParts(sf: seq<string>, sr: seq<string>, p: string -> bool)
    requires Sorted(sf) && Sorted(sr)
    requires forall k :: 0 <= k < |sf| ==> p(sf[k])
    requires forall k :: 0 <= k < |sr| ==> !p(sr[k])
    ensures forall i, j :: 0 <= i < j < |sf + sr| && !p((sf + sr)[i]) ==> !p((sf + sr)[j])
    ensures forall i, j :: 0 <= i < j < |sf + sr| && p((sf + sr)[i]) == p((sf + sr)[j]) ==> Below((sf + sr)[i], (sf + sr)[j])
  {
    var r := sf + sr;
    assert forall k :: 0 <= k < |r| ==> (p(r[k]) <==> k < |sf|) by {
      forall k | 0 <= k < |r| ensures p(r[k]) <==> k < |sf| {
        if k < |sf| { assert r[k] == sf[k]; } else { assert r[k] == sr[k - |sf|]; }
      }
    }
    forall i, j | 0 <= i < j < |r| && p(r[i]) == p(r[j]) ensures Below(r[i], r[j]) {
      if i < |sf| {
        assert r[i] == sf[i] && r[j] == sf[j];
      } else {
        assert r[i] == sr[i - |sf|] && r[j] == sr[j - |sf|];
      }
    }
  }

  /** `SortedPartition` is a permutation of its input in which no element
      satisfying `p` follows one that does not, and each part is sorted. */
  lemma SortedPartitionShape(s: seq<string>, p: string -> bool)
    ensures multiset(SortedPartition(s, p)) == multiset(s)
    ensures var r := SortedPartition(s, p);
      forall i, j :: 0 <= i < j < |r| && !p(r[i]) ==> !p(r[j])
    ensures var r := SortedPartition(s, p);
      forall i, j :: 0 <= i < j < |r| && p(r[i]) == p(r[j]) ==> Below(r[i], r[j])
  {
    var sf := SortStrings(Filter(s, p));
    var sr := SortStrings(Reject(s, p));
    SortStringsShape(Filter(s, p));
    SortStringsShape(Reject(s, p));
    FilterRejectMultiset(s, p);
    PermutationKeeps(sf, Filter(s, p), p);
    PermutationKeeps(sr, Reject(s, p), (c: string) => !p(c));
    SortedParts(sf, sr, p);
  }

  /** The elements satisfying `p` followed by the others: a permutation of `s`
      in which no element satisfying `p` follows one that does not. */
  lemma PartitionShape<T>(s: seq<T>, p: T -> bool)
    ensures multiset(Filter(s, p) + Reject(s, p)) == multiset(s)
    ensures var r := Filter(s, p) + Reject(s, p);
      forall i, j :: 0 <= i < j < |r| && !p(r[i]) ==> !p(r[j])
  {
    var f := Filter(s, p);
    var o := Reject(s, p);
    var r := f + o;
    FilterRejectMultiset(s, p);
    forall k | 0 <= k < |r| ensures p(r[k]) <==> k < |f| {
      if k < |f| { assert r[k] == f[k]; } else { assert r[k] == o[k - |f|]; }
    }
  }
}
