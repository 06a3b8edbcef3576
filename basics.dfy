/** Small generic helpers shared by the other modules: optional values,
    results, contiguous containment and counting. */
module Basics {

  datatype Option<+T> = None | Some(value: T)

  datatype Result<+T, +E> = Success(value: T) | Failure(error: E)

  /** `t` occurs in `s` as a contiguous block (Python's `t in s` for strings). */
  predicate Contains<T(==)>(s: seq<T>, t: seq<T>)
  {
    exists k :: 0 <= k <= |s| - |t| && t == s[k..][..|t|]
  }

  lemma ContainsInfix<T>(a: seq<T>, t: seq<T>, b: seq<T>)
    ensures Contains(a + t + b, t)
  {
    var s := a + t + b;
    assert t == s[|a|..][..|t|];
  }

  lemma ContainsPrefix<T>(a: seq<T>, b: seq<T>)
    ensures Contains(a + b, a)
  {
    assert a == (a + b)[0..][..|a|];
  }

  lemma ContainsSuffix<T>(a: seq<T>, b: seq<T>)
    ensures Contains(a + b, b)
  {
    assert b == (a + b)[|a|..][..|b|];
  }

  /** Containment is transitive. */
  lemma ContainsTransitive<T>(s: seq<T>, t: seq<T>, u: seq<T>)
    requires Contains(s, t) && Contains(t, u)
    ensures Contains(s, u)
  {
    var i :| 0 <= i <= |s| - |t| && t == s[i..][..|t|];
    var j :| 0 <= j <= |t| - |u| && u == t[j..][..|u|];
    forall n | 0 <= n < |u| ensures u[n] == s[i + j..][..|u|][n] {
      assert u[n] == t[j + n] == s[i + j + n];
    }
    assert u == s[i + j..][..|u|];
  }

  /** The number of elements of `s` that satisfy `p`. */
  function CountIf<T>(s: seq<T>, p: T -> bool): (n: nat)
    ensures n <= |s|
  {
    if s == [] then 0 else (if p(s[0]) then 1 else 0) + CountIf(s[1..], p)
  }

  lemma {:induction false} CountIfConcat<T>(a: seq<T>, b: seq<T>, p: T -> bool)
    ensures CountIf(a + b, p) == CountIf(a, p) + CountIf(b, p)
  {
    if a == [] {
      assert a + b == b;
    } else {
      assert (a + b)[1..] == a[1..] + b;
      CountIfConcat(a[1..], b, p);
    }
  }

  lemma CountIfOfTwo<T>(a: T, b: T, p: T -> bool)
    ensures CountIf([a, b], p) == (if p(a) then 1 else 0) + (if p(b) then 1 else 0)
  {
    assert [a, b][1..] == [b];
  }

  lemma CountIfOfThree<T>(a: T, b: T, c: T, p: T -> bool)
    ensures CountIf([a, b, c], p) == (if p(a) then 1 else 0) + (if p(b) then 1 else 0) + (if p(c) then 1 else 0)
  {
    assert [a, b, c][1..] == [b, c];
    CountIfOfTwo(b, c, p);
  }

  lemma {:induction false} CountIfNone<T>(s: seq<T>, p: T -> bool)
    requires forall i :: 0 <= i < |s| ==> !p(s[i])
    ensures CountIf(s, p) == 0
  {
    if s != [] {
      CountIfNone(s[1..], p);
    }
  }
}
