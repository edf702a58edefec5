/** Failure-compatible wrappers shared by every other module, and the
    order-preserving subsequence relation used to state what a filter keeps. */
module Base {

  /** A value that may be absent: a missing dictionary key, an omitted argument. */
  datatype Option<T> = None | Some(value: T) {
    function GetOr(default: T): T {
      match this
      case Some(v) => v
      case None => default
    }
  }

  /** The result of Python code that either returns a value or raises an
      exception; `message` is what `str(e)` would show. */
  datatype Outcome<T> = Ok(value: T) | Raised(message: string)

  /** `a` is obtained from `b` by deleting elements, keeping the order of the rest. */
  predicate IsSubsequence<T(==)>(a: seq<T>, b: seq<T>)
    decreases |b|
  {
    if a == [] then true
    else if b == [] then false
    else (a[|a| - 1] == b[|b| - 1] && IsSubsequence(a[..|a| - 1], b[..|b| - 1]))
         || IsSubsequence(a, b[..|b| - 1])
  }

  /** Every element of a subsequence occurs in the sequence it was taken from. */
  lemma {:induction false} SubsequenceMembers<T>(a: seq<T>, b: seq<T>, x: T)
    requires IsSubsequence(a, b) && x in a
    ensures x in b
    decreases |b|
  {
    var la, lb := |a| - 1, |b| - 1;
    if a[la] == b[lb] && IsSubsequence(a[..la], b[..lb]) {
      if x != a[la] {
        assert x in a[..la] by { assert a == a[..la] + [a[la]]; }
        SubsequenceMembers(a[..la], b[..lb], x);
      }
      assert b == b[..lb] + [b[lb]];
    } else {
      SubsequenceMembers(a, b[..lb], x);
      assert b == b[..lb] + [b[lb]];
    }
  }

  /** Appending the same element to both sides keeps the relation. */
  lemma SubsequenceExtend<T>(a: seq<T>, b: seq<T>, x: T)
    requires IsSubsequence(a, b)
    ensures IsSubsequence(a + [x], b + [x])
  {
    assert (a + [x])[..|a|] == a;
    assert (b + [x])[..|b|] == b;
  }

  /** Appending an element to the longer side only keeps the relation. */
  lemma {:induction false} SubsequenceSkip<T>(a: seq<T>, b: seq<T>, x: T)
    requires IsSubsequence(a, b)
    ensures IsSubsequence(a, b + [x])
  {
    if a != [] {
      assert (b + [x])[..|b|] == b;
    }
  }

  /** The elements of `s` that satisfy `p`, in their order: what a Python loop
      `for x in s: if p(x): out.append(x)` builds. */
  function Filter<T>(s: seq<T>, p: T -> bool): (r: seq<T>)
    ensures |r| <= |s|
    decreases |s|
  {
    if s == [] then [] else Filter(s[..|s| - 1], p) + (if p(s[|s| - 1]) then [s[|s| - 1]] else [])
  }

  /** A filtered sequence is an order-preserving subsequence of its input. */
  lemma {:induction false} FilterIsSubsequence<T>(s: seq<T>, p: T -> bool)
    ensures IsSubsequence(Filter(s, p), s)
    decreases |s|
  {
    if s != [] {
      var n := |s| - 1;
      FilterIsSubsequence(s[..n], p);
      assert s == s[..n] + [s[n]];
      if p(s[n]) {
        SubsequenceExtend(Filter(s[..n], p), s[..n], s[n]);
      } else {
        SubsequenceSkip(Filter(s[..n], p), s[..n], s[n]);
        assert Filter(s, p) == Filter(s[..n], p) + [] == Filter(s[..n], p);
      }
    }
  }

  /** An element is kept exactly when it occurs in the input and satisfies `p`. */
  lemma {:induction false} FilterMembers<T>(s: seq<T>, p: T -> bool, x: T)
    ensures x in Filter(s, p) <==> x in s && p(x)
    decreases |s|
  {
    if s != [] {
      var n := |s| - 1;
      FilterMembers(s[..n], p, x);
      assert s == s[..n] + [s[n]];
    }
  }

  /** Filtering with a predicate that holds everywhere on the input keeps it whole. */
  lemma {:induction false} FilterAll<T>(s: seq<T>, p: T -> bool)
    requires forall k :: 0 <= k < |s| ==> p(s[k])
    ensures Filter(s, p) == s
    decreases |s|
  {
    if s != [] {
      var n := |s| - 1;
      FilterAll(s[..n], p);
      assert s == s[..n] + [s[n]];
    }
  }
}
