/** Generic sequence helpers shared by the whole model: an optional value and
    the order-preserving filter that the JavaScript code uses everywhere
    (`Array.prototype.filter`). */
module Collections {

  /** A value that may be missing (`null`, `undefined` or an absent field). */
  datatype Option<T> = None | Some(value: T)

  /** The elements of `s` that satisfy `p`, in their original order. */
  function Filter<T>(s: seq<T>, p: T -> bool): (r: seq<T>)
    ensures |r| <= |s|
    ensures forall i :: 0 <= i < |r| ==> r[i] in s && p(r[i])
    ensures forall i :: 0 <= i < |s| && p(s[i]) ==> s[i] in r
    decreases |s|
  {
    if s == [] then []
    else
      var init, last := s[..|s| - 1], s[|s| - 1];
      assert s == init + [last];
      Filter(init, p) + (if p(last) then [last] else [])
  }

  /** Filtering a concatenation filters each part. */
  lemma {:induction false} FilterAppend<T>(a: seq<T>, b: seq<T>, p: T -> bool)
    ensures Filter(a + b, p) == Filter(a, p) + Filter(b, p)
    decreases |b|
  {
    if b == [] {
      assert a + b == a;
    } else {
      var init, last := b[..|b| - 1], b[|b| - 1];
      assert (a + b)[..|a + b| - 1] == a + init;
      FilterAppend(a, init, p);
    }
  }

  /** A filter that keeps every element is the identity. */
  lemma {:induction false} FilterKeepsAll<T>(s: seq<T>, p: T -> bool)
    requires forall i :: 0 <= i < |s| ==> p(s[i])
    ensures Filter(s, p) == s
    decreases |s|
  {
    if s != [] {
      var init, last := s[..|s| - 1], s[|s| - 1];
      FilterKeepsAll(init, p);
      assert p(last);
      assert Filter(s, p) == Filter(init, p) + [last];
      assert s == init + [last];
    }
  }

  /** Two predicates that agree on every element of `s` filter it alike. */
  lemma {:induction false} FilterCongruent<T>(s: seq<T>, p: T -> bool, q: T -> bool)
    requires forall i :: 0 <= i < |s| ==> p(s[i]) == q(s[i])
    ensures Filter(s, p) == Filter(s, q)
    decreases |s|
  {
    if s != [] {
      FilterCongruent(s[..|s| - 1], p, q);
    }
  }

  /** The filtered elements form a sub-multiset of the input: nothing is
      duplicated or invented. */
  lemma {:induction false} FilterSubMultiset<T>(s: seq<T>, p: T -> bool)
    ensures multiset(Filter(s, p)) <= multiset(s)
    decreases |s|
  {
    if s != [] {
      var init, last := s[..|s| - 1], s[|s| - 1];
      assert s == init + [last];
      FilterSubMultiset(init, p);
    }
  }

  /** `r` is `s` with some elements left out, the rest in their order. */
  ghost predicate SubsequenceOf<T>(r: seq<T>, s: seq<T>)
    decreases |s|
  {
    if s == [] then r == []
    else
      (r != [] && r[|r| - 1] == s[|s| - 1] && SubsequenceOf(r[..|r| - 1], s[..|s| - 1]))
      || SubsequenceOf(r, s[..|s| - 1])
  }

  /** A filter keeps the order of what it keeps. */
  lemma {:induction false} FilterSubsequence<T>(s: seq<T>, p: T -> bool)
    ensures SubsequenceOf(Filter(s, p), s)
    decreases |s|
  {
    if s != [] {
      var init, last := s[..|s| - 1], s[|s| - 1];
      FilterSubsequence(init, p);
      var r := Filter(s, p);
      if p(last) {
        assert r[..|r| - 1] == Filter(init, p);
      } else {
        assert r == Filter(init, p);
      }
    }
  }

  /** `s.filter(x => x !== v)`: every element but the copies of `v`. */
  function Without<T(==)>(s: seq<T>, v: T): seq<T> {
    Filter(s, (x: T) => x != v)
  }

  /** Removing a value takes out all its copies and keeps every other
      element as often as before, in order. */
  lemma {:induction false} WithoutSpec<T>(s: seq<T>, v: T)
    ensures multiset(Without(s, v)) == multiset(s)[v := 0]
    ensures SubsequenceOf(Without(s, v), s)
    decreases |s|
  {
    FilterSubsequence(s, (x: T) => x != v);
    if s != [] {
      var init, last := s[..|s| - 1], s[|s| - 1];
      WithoutSpec(init, v);
      assert s == init + [last];
      assert multiset(s) == multiset(init) + multiset{last};
    }
  }

  /** Removing a value from a list that does not hold it changes nothing. */
  lemma WithoutAbsent<T>(s: seq<T>, v: T)
    requires v !in s
    ensures Without(s, v) == s
  {
    FilterKeepsAll(s, (x: T) => x != v);
  }

  /** Removing a value from a concatenation removes it from each part. */
  lemma WithoutAppend<T>(a: seq<T>, b: seq<T>, v: T)
    ensures Without(a + b, v) == Without(a, v) + Without(b, v)
  {
    FilterAppend(a, b, (x: T) => x != v);
  }
}
