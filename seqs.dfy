/** Order-preserving filtering, mapping, first-match search and keyed writes over sequences
    (`Array.filter`, `Array.map`, `Array.find`, a `for … of` loop that assigns into an object). */
module Seqs {
  import opened Wrappers

  /** `a` can be obtained from `b` by deleting elements, keeping the order of the rest. */
  predicate IsSubsequence<T(==)>(a: seq<T>, b: seq<T>)
    decreases |b|
  {
    if b == [] then a == []
    else (a != [] && a[0] == b[0] && IsSubsequence(a[1..], b[1..])) || IsSubsequence(a, b[1..])
  }

  /** No element occurs twice in `s`. */
  predicate NoDuplicates<T(==)>(s: seq<T>) {
    forall i, j :: 0 <= i < j < |s| ==> s[i] != s[j]
  }

  /** Every element of a subsequence is an element of the sequence. */
  lemma {:induction false} SubsequenceMembers<T>(a: seq<T>, b: seq<T>)
    requires IsSubsequence(a, b)
    ensures forall x :: x in a ==> x in b
    decreases |b|
  {
    if b != [] {
      if a != [] && a[0] == b[0] && IsSubsequence(a[1..], b[1..]) {
        SubsequenceMembers(a[1..], b[1..]);
        assert forall x :: x in a ==> x == a[0] || x in a[1..];
      } else {
        SubsequenceMembers(a, b[1..]);
      }
      assert forall x :: x in b[1..] ==> x in b;
    }
  }

  /** A subsequence of a sequence without duplicates has none either. */
  lemma {:induction false} SubsequenceNoDuplicates<T>(a: seq<T>, b: seq<T>)
    requires IsSubsequence(a, b) && NoDuplicates(b)
    ensures NoDuplicates(a)
    decreases |b|
  {
    if b != [] {
      assert NoDuplicates(b[1..]) by {
        forall i, j | 0 <= i < j < |b[1..]| ensures b[1..][i] != b[1..][j] {
          assert b[1..][i] == b[i + 1] && b[1..][j] == b[j + 1];
        }
      }
      if a != [] && a[0] == b[0] && IsSubsequence(a[1..], b[1..]) {
        SubsequenceNoDuplicates(a[1..], b[1..]);
        SubsequenceMembers(a[1..], b[1..]);
        assert b[0] !in b[1..] by {
          forall k | 0 <= k < |b[1..]| ensures b[1..][k] != b[0] {
            assert b[1..][k] == b[k + 1];
          }
        }
        forall i, j | 0 <= i < j < |a| ensures a[i] != a[j] {
          if i == 0 {
            assert a[j] == a[1..][j - 1] && a[j] in a[1..];
          } else {
            assert a[i] == a[1..][i - 1] && a[j] == a[1..][j - 1];
          }
        }
      } else {
        SubsequenceNoDuplicates(a, b[1..]);
      }
    }
  }

  /** The elements of `s` that satisfy `p`, in their order in `s`. */
  function Filter<T(==,!new)>(s: seq<T>, p: T -> bool): (r: seq<T>)
    ensures |r| <= |s|
    ensures forall x :: x in r <==> x in s && p(x)
    ensures IsSubsequence(r, s)
  {
    if s == [] then []
    else
      var rest := Filter(s[1..], p);
      if p(s[0]) then
        assert ([s[0]] + rest)[1..] == rest;
        [s[0]] + rest
      else
        rest
  }

  /** Filtering keeps everything when every element passes. */
  lemma {:induction false} FilterAll<T(!new)>(s: seq<T>, p: T -> bool)
    requires forall x :: x in s ==> p(x)
    ensures Filter(s, p) == s
  {
    if s != [] {
      assert forall x :: x in s[1..] ==> x in s;
      FilterAll(s[1..], p);
      assert [s[0]] + s[1..] == s;
    }
  }

  /** Filtering keeps nothing when no element passes. */
  lemma {:induction false} FilterNone<T(!new)>(s: seq<T>, p: T -> bool)
    requires forall x :: x in s ==> !p(x)
    ensures Filter(s, p) == []
  {
    if s != [] {
      assert forall x :: x in s[1..] ==> x in s;
      FilterNone(s[1..], p);
    }
  }

  /** `f` applied to each element of `s`, in order. */
  function Map<A, B>(s: seq<A>, f: A -> B): (r: seq<B>)
    ensures |r| == |s| && forall i :: 0 <= i < |s| ==> r[i] == f(s[i])
  {
    seq(|s|, i requires 0 <= i < |s| => f(s[i]))
  }

  /** Mapping keeps a subsequence a subsequence. */
  lemma {:induction false} MapSubsequence<A, B>(a: seq<A>, b: seq<A>, f: A -> B)
    requires IsSubsequence(a, b)
    ensures IsSubsequence(Map(a, f), Map(b, f))
    decreases |b|
  {
    if b != [] {
      assert Map(b, f)[1..] == Map(b[1..], f);
      if a != [] && a[0] == b[0] && IsSubsequence(a[1..], b[1..]) {
        MapSubsequence(a[1..], b[1..], f);
        assert Map(a, f)[1..] == Map(a[1..], f);
      } else {
        MapSubsequence(a, b[1..], f);
      }
    }
  }

  /** The first element of `s` that satisfies `p`, or None. */
  function FindFirst<T(!new)>(s: seq<T>, p: T -> bool): (r: Option<T>)
    ensures r.Some? <==> exists i :: 0 <= i < |s| && p(s[i])
    ensures r.Some? ==> exists i :: 0 <= i < |s| && s[i] == r.value && p(s[i]) &&
                                   forall j :: 0 <= j < i ==> !p(s[j])
  {
    if s == [] then None
    else if p(s[0]) then Some(s[0])
    else
      var r := FindFirst(s[1..], p);
      assert forall i :: 1 <= i < |s| ==> s[i] == s[1..][i - 1];
      r
  }

  /** The object a loop builds by visiting `s` in order and, for each element that has an
      entry, assigning the entry's value to the entry's key; a later write replaces an
      earlier one. */
  function WriteAll<T, K, V>(s: seq<T>, entry: T -> Option<(K, V)>): map<K, V>
    decreases |s|
  {
    if s == [] then map[]
    else
      var before := WriteAll(s[..|s| - 1], entry);
      match entry(s[|s| - 1])
      case Some(kv) => before[kv.0 := kv.1]
      case None => before
  }

  /** One more step of the loop. */
  lemma WriteAllStep<T, K, V>(s: seq<T>, i: nat, entry: T -> Option<(K, V)>)
    requires i < |s|
    ensures WriteAll(s[..i + 1], entry) ==
      match entry(s[i])
      case Some(kv) => WriteAll(s[..i], entry)[kv.0 := kv.1]
      case None => WriteAll(s[..i], entry)
  {
    assert s[..i + 1][..i] == s[..i];
  }

  /** A key is written exactly when some visited element has an entry with that key. */
  lemma {:induction false} WriteAllKeys<T(!new), K, V>(s: seq<T>, entry: T -> Option<(K, V)>, k: K)
    ensures k in WriteAll(s, entry) <==> exists x :: x in s && entry(x).Some? && entry(x).value.0 == k
    decreases |s|
  {
    if s != [] {
      var init, last := s[..|s| - 1], s[|s| - 1];
      assert s == init + [last];
      WriteAllKeys(init, entry, k);
      if exists x :: x in init && entry(x).Some? && entry(x).value.0 == k {
        var x :| x in init && entry(x).Some? && entry(x).value.0 == k;
        assert x in s;
      }
    }
  }

  /** When every visited element that writes key `k` writes the same value `v`, the value
      under `k` is `v`. */
  lemma {:induction false} WriteAllValue<T(!new), K, V>(s: seq<T>, entry: T -> Option<(K, V)>, k: K, v: V)
    requires forall x :: x in s && entry(x).Some? && entry(x).value.0 == k ==> entry(x).value.1 == v
    requires k in WriteAll(s, entry)
    ensures WriteAll(s, entry)[k] == v
    decreases |s|
  {
    var init, last := s[..|s| - 1], s[|s| - 1];
    assert s == init + [last];
    if !(entry(last).Some? && entry(last).value.0 == k) {
      forall x | x in init && entry(x).Some? && entry(x).value.0 == k ensures entry(x).value.1 == v {
        assert x in s;
      }
      WriteAllValue(init, entry, k, v);
    }
  }

}
