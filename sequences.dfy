/** Order-preserving selections from sequences: the shapes of `drop_duplicates`, `dropna`, generator filters and `list.remove`. */
module Sequences {

  /** No element occurs twice. */
  predicate Distinct<T(==)>(s: seq<T>) {
    forall i, j :: 0 <= i < j < |s| ==> s[i] != s[j]
  }

  /** `a` is `b` with some elements deleted and the rest kept in their order. */
  predicate Subsequence<T(==)>(a: seq<T>, b: seq<T>)
    decreases |b|
  {
    a == [] ||
    (b != [] &&
     ((a[|a| - 1] == b[|b| - 1] && Subsequence(a[..|a| - 1], b[..|b| - 1])) ||
      Subsequence(a, b[..|b| - 1])))
  }

  lemma {:induction false} SubsequenceExtend<T>(a: seq<T>, b: seq<T>, x: T)
    requires Subsequence(a, b)
    ensures Subsequence(a + [x], b + [x])
    ensures Subsequence(a, b + [x])
  {
    assert (a + [x])[..|a|] == a;
    assert (b + [x])[..|b|] == b;
  }

  lemma {:induction false} SubsequenceReflexive<T>(s: seq<T>)
    ensures Subsequence(s, s)
    decreases |s|
  {
    if s != [] {
      SubsequenceReflexive(s[..|s| - 1]);
    }
  }

  lemma {:induction false} SubsequenceTransitive<T>(a: seq<T>, b: seq<T>, c: seq<T>)
    requires Subsequence(a, b) && Subsequence(b, c)
    ensures Subsequence(a, c)
    decreases |c|
  {
    if a != [] {
      var b', c' := b[..|b| - 1], c[..|c| - 1];
      if Subsequence(b, c') {
        SubsequenceTransitive(a, b, c');
      } else if a[|a| - 1] == b[|b| - 1] && Subsequence(a[..|a| - 1], b') {
        SubsequenceTransitive(a[..|a| - 1], b', c');
      } else {
        SubsequenceTransitive(a, b', c');
      }
    }
  }

  /** A subsequence is no longer than the sequence and holds only elements of the sequence. */
  lemma {:induction false} SubsequenceMembers<T>(a: seq<T>, b: seq<T>)
    requires Subsequence(a, b)
    ensures |a| <= |b|
    ensures forall x :: x in a ==> x in b
    decreases |b|
  {
    if a != [] {
      var a', b' := a[..|a| - 1], b[..|b| - 1];
      assert a == a' + [a[|a| - 1]];
      assert b == b' + [b[|b| - 1]];
      if a[|a| - 1] == b[|b| - 1] && Subsequence(a', b') {
        SubsequenceMembers(a', b');
      } else {
        SubsequenceMembers(a, b');
      }
    }
  }

  lemma {:induction false} SubsequenceOfDistinct<T>(a: seq<T>, b: seq<T>)
    requires Subsequence(a, b) && Distinct(b)
    ensures Distinct(a)
    decreases |b|
  {
    if a != [] {
      var a', b' := a[..|a| - 1], b[..|b| - 1];
      assert a == a' + [a[|a| - 1]];
      if a[|a| - 1] == b[|b| - 1] && Subsequence(a', b') {
        SubsequenceOfDistinct(a', b');
        SubsequenceMembers(a', b');
        assert b[|b| - 1] !in b';
      } else {
        SubsequenceOfDistinct(a, b');
      }
    }
  }

  /** Deleting the element at one position leaves a subsequence. */
  lemma {:induction false} SubsequenceSplice<T>(s: seq<T>, i: nat)
    requires i < |s|
    ensures Subsequence(s[..i] + s[i + 1..], s)
    decreases |s|
  {
    var s' := s[..|s| - 1];
    if i == |s| - 1 {
      assert s[..i] + s[i + 1..] == s';
      SubsequenceReflexive(s');
    } else {
      SubsequenceSplice(s', i);
      assert s'[..i] + s'[i + 1..] + [s[|s| - 1]] == s[..i] + s[i + 1..];
      assert s' + [s[|s| - 1]] == s;
      SubsequenceExtend(s'[..i] + s'[i + 1..], s', s[|s| - 1]);
    }
  }

  /** The elements of `s` that satisfy `p`, in order. */
  function Filter<T(==,!new)>(s: seq<T>, p: T -> bool): (r: seq<T>)
    ensures Subsequence(r, s)
    ensures forall x :: x in r <==> x in s && p(x)
    decreases |s|
  {
    if s == [] then []
    else
      var init, last := s[..|s| - 1], s[|s| - 1];
      assert s == init + [last];
      SubsequenceExtend(Filter(init, p), init, last);
      if p(last) then Filter(init, p) + [last] else Filter(init, p)
  }

  /** Filtering keeps everything when every element satisfies the filter. */
  lemma {:induction false} FilterAll<T(!new)>(s: seq<T>, p: T -> bool)
    requires forall i :: 0 <= i < |s| ==> p(s[i])
    ensures Filter(s, p) == s
    decreases |s|
  {
    if s != [] {
      var init := s[..|s| - 1];
      FilterAll(init, p);
      assert s == init + [s[|s| - 1]];
    }
  }

  /** Some element of `s` satisfies `p`. */
  predicate Any<T>(s: seq<T>, p: T -> bool) {
    exists i :: 0 <= i < |s| && p(s[i])
  }

  /** Sequences with the same elements have an element satisfying `p` alike. */
  lemma AnySameMembers<T>(a: seq<T>, b: seq<T>, p: T -> bool)
    requires forall x :: x in a <==> x in b
    ensures Any(a, p) == Any(b, p)
  {
    if Any(a, p) {
      var i :| 0 <= i < |a| && p(a[i]);
      assert a[i] in b;
    }
    if Any(b, p) {
      var i :| 0 <= i < |b| && p(b[i]);
      assert b[i] in a;
    }
  }

  /** Two equally long sequences whose elements agree position by position on `p` and `q` have an element satisfying `p` exactly when they have one satisfying `q`. */
  lemma ExistsCorresponding<T, U>(a: seq<T>, b: seq<U>, p: T -> bool, q: U -> bool)
    requires |a| == |b|
    requires forall k :: 0 <= k < |a| ==> p(a[k]) == q(b[k])
    ensures Any(a, p) == Any(b, q)
  {
  }

  function MapSeq<T, U>(s: seq<T>, f: T -> U): (r: seq<U>)
    ensures |r| == |s|
    ensures forall i :: 0 <= i < |s| ==> r[i] == f(s[i])
  {
    seq(|s|, i requires 0 <= i < |s| => f(s[i]))
  }

  /** Filtering after a map equals mapping after the filter when the map does not change what the filter looks at. */
  lemma {:induction false} FilterMapCommute<T(!new), U(!new)>(s: seq<T>, f: T -> U, p: T -> bool, q: U -> bool)
    requires forall x :: q(f(x)) == p(x)
    ensures Filter(MapSeq(s, f), q) == MapSeq(Filter(s, p), f)
    decreases |s|
  {
    if s != [] {
      var init, last := s[..|s| - 1], s[|s| - 1];
      FilterMapCommute(init, f, p, q);
      assert MapSeq(s, f)[..|s| - 1] == MapSeq(init, f);
      assert MapSeq(s, f)[|s| - 1] == f(last);
      if p(last) {
        assert MapSeq(Filter(init, p) + [last], f) == MapSeq(Filter(init, p), f) + [f(last)];
      }
    }
  }

  /** `s` with every repeated element dropped after its first occurrence. */
  function Dedup<T(==,!new)>(s: seq<T>): (r: seq<T>)
    ensures Subsequence(r, s)
    ensures Distinct(r)
    ensures forall x :: x in r <==> x in s
    decreases |s|
  {
    if s == [] then []
    else
      var init, last := s[..|s| - 1], s[|s| - 1];
      assert s == init + [last];
      SubsequenceExtend(Dedup(init), init, last);
      if last in init then Dedup(init) else Dedup(init) + [last]
  }

  /** Deduplicating a prefix gives a prefix of the deduplicated whole: each kept element is a first occurrence, kept in the order of first occurrences. */
  lemma {:induction false} DedupKeepsFirstOccurrences<T(!new)>(s: seq<T>, n: nat)
    requires n <= |s|
    ensures Dedup(s[..n]) <= Dedup(s)
    decreases |s|
  {
    if n == |s| {
      assert s[..n] == s;
    } else {
      var init := s[..|s| - 1];
      assert s[..n] == init[..n];
      DedupKeepsFirstOccurrences(init, n);
    }
  }

  /** A sequence without repetitions is its own deduplication. */
  lemma {:induction false} DedupOfDistinct<T(!new)>(s: seq<T>)
    requires Distinct(s)
    ensures Dedup(s) == s
    decreases |s|
  {
    if s != [] {
      var init := s[..|s| - 1];
      DedupOfDistinct(init);
      assert s == init + [s[|s| - 1]];
    }
  }

  /** The position of the first occurrence of `x`. */
  function IndexOf<T(==)>(s: seq<T>, x: T): (i: nat)
    requires x in s
    ensures i < |s| && s[i] == x && x !in s[..i]
  {
    if s[0] == x then 0
    else
      var i := 1 + IndexOf(s[1..], x);
      assert s[..i] == [s[0]] + s[1..][..i - 1];
      i
  }

  /** Python's `list.remove`: delete the first occurrence of `x`. */
  function Remove<T(==,!new)>(s: seq<T>, x: T): (r: seq<T>)
    requires x in s
    ensures |r| == |s| - 1
    ensures exists i :: 0 <= i < |s| && s[i] == x && x !in s[..i] && r == s[..i] + s[i + 1..]
    ensures Subsequence(r, s)
    ensures Distinct(s) ==> Distinct(r) && forall y :: y in r <==> y in s && y != x
  {
    var i := IndexOf(s, x);
    SubsequenceSplice(s, i);
    SpliceOfDistinct(s, i);
    s[..i] + s[i + 1..]
  }

  lemma SpliceOfDistinct<T>(s: seq<T>, i: nat)
    requires i < |s|
    ensures Distinct(s) ==> Distinct(s[..i] + s[i + 1..])
    ensures Distinct(s) ==> forall y :: y in s[..i] + s[i + 1..] <==> y in s && y != s[i]
  {
    if Distinct(s) {
      SubsequenceSplice(s, i);
      SubsequenceOfDistinct(s[..i] + s[i + 1..], s);
      assert s == s[..i] + [s[i]] + s[i + 1..];
    }
  }
}
