/**
  Finite sums of reals, in the two shapes the engines use: a sum over an index
  range (`Sigma`) and a sum over the elements of a sequence (`SumBy`).
 */
module Sums {

  /** f(0) + f(1) + ... + f(n-1) */
  function Sigma(n: nat, f: int -> real): real {
    if n == 0 then 0.0 else Sigma(n - 1, f) + f(n - 1)
  }

  lemma {:induction false} SigmaCong(n: nat, f: int -> real, g: int -> real)
    requires forall i :: 0 <= i < n ==> f(i) == g(i)
    ensures Sigma(n, f) == Sigma(n, g)
  {
    if n > 0 {
      SigmaCong(n - 1, f, g);
    }
  }

  lemma {:induction false} SigmaScale(n: nat, k: real, f: int -> real, g: int -> real)
    requires forall i :: 0 <= i < n ==> g(i) == k * f(i)
    ensures Sigma(n, g) == k * Sigma(n, f)
  {
    if n > 0 {
      SigmaScale(n - 1, k, f, g);
    }
  }

  lemma {:induction false} SigmaAdd(n: nat, f: int -> real, g: int -> real, h: int -> real)
    requires forall i :: 0 <= i < n ==> h(i) == f(i) + g(i)
    ensures Sigma(n, h) == Sigma(n, f) + Sigma(n, g)
  {
    if n > 0 {
      SigmaAdd(n - 1, f, g, h);
    }
  }

  lemma AffineStep(a: real, s: real, x: real, c: real, t: real, y: real, u: real, z: real)
    requires u == a * s + c * t && z == a * x + c * y
    ensures u + z == a * (s + x) + c * (t + y)
  {
  }

  lemma {:induction false} SigmaAffine(n: nat, a: real, f: int -> real, c: real, g: int -> real, h: int -> real)
    requires forall i :: 0 <= i < n ==> h(i) == a * f(i) + c * g(i)
    ensures Sigma(n, h) == a * Sigma(n, f) + c * Sigma(n, g)
  {
    if n > 0 {
      SigmaAffine(n - 1, a, f, c, g, h);
      AffineStep(a, Sigma(n - 1, f), f(n - 1), c, Sigma(n - 1, g), g(n - 1), Sigma(n - 1, h), h(n - 1));
    }
  }

  /** The sum of f over the elements of s. */
  function SumBy<T>(f: T -> real, s: seq<T>): real {
    if |s| == 0 then 0.0 else SumBy(f, s[..|s| - 1]) + f(s[|s| - 1])
  }

  lemma SumByAppend<T>(f: T -> real, s: seq<T>, x: T)
    ensures SumBy(f, s + [x]) == SumBy(f, s) + f(x)
  {
    assert (s + [x])[..|s|] == s;
  }

  /** One step of an accumulating loop. */
  lemma SumByStep<T>(f: T -> real, s: seq<T>, i: nat)
    requires i < |s|
    ensures SumBy(f, s[..i + 1]) == SumBy(f, s[..i]) + f(s[i])
  {
    assert s[..i + 1][..i] == s[..i];
  }

  lemma {:induction false} SumByConcat<T>(f: T -> real, a: seq<T>, b: seq<T>)
    ensures SumBy(f, a + b) == SumBy(f, a) + SumBy(f, b)
  {
    if |b| == 0 {
      assert a + b == a;
    } else {
      var c, x := b[..|b| - 1], b[|b| - 1];
      assert a + b == (a + c) + [x];
      SumByAppend(f, a + c, x);
      SumByConcat(f, a, c);
    }
  }

  lemma {:induction false} SumByCong<T>(f: T -> real, g: T -> real, s: seq<T>)
    requires forall x :: x in s ==> f(x) == g(x)
    ensures SumBy(f, s) == SumBy(g, s)
  {
    if |s| > 0 {
      SumByCong(f, g, s[..|s| - 1]);
    }
  }

  lemma {:induction false} SumByScale<T>(k: real, f: T -> real, g: T -> real, s: seq<T>)
    requires forall x :: x in s ==> g(x) == k * f(x)
    ensures SumBy(g, s) == k * SumBy(f, s)
  {
    if |s| > 0 {
      SumByScale(k, f, g, s[..|s| - 1]);
    }
  }

  lemma {:induction false} SumByAdd<T>(f: T -> real, g: T -> real, h: T -> real, s: seq<T>)
    requires forall x :: x in s ==> h(x) == f(x) + g(x)
    ensures SumBy(h, s) == SumBy(f, s) + SumBy(g, s)
  {
    if |s| > 0 {
      SumByAdd(f, g, h, s[..|s| - 1]);
    }
  }

  lemma CombineStep(b: real, c: real, f: real, g: real, k: real, f': real, g': real, k': real)
    ensures (f + b * g + c * k) + (f' + b * g' + c * k') == (f + f') + b * (g + g') + c * (k + k')
  {
  }

  lemma {:induction false} SumByCombine<T>(f: T -> real, b: real, g: T -> real, c: real, k: T -> real, h: T -> real,
                                           s: seq<T>)
    requires forall x :: x in s ==> h(x) == f(x) + b * g(x) + c * k(x)
    ensures SumBy(h, s) == SumBy(f, s) + b * SumBy(g, s) + c * SumBy(k, s)
  {
    if |s| > 0 {
      var t, e := s[..|s| - 1], s[|s| - 1];
      SumByCombine(f, b, g, c, k, h, t);
      CombineStep(b, c, SumBy(f, t), SumBy(g, t), SumBy(k, t), f(e), g(e), k(e));
    }
  }

  lemma {:induction false} SumByMonotone<T>(f: T -> real, g: T -> real, s: seq<T>)
    requires forall x :: x in s ==> f(x) <= g(x)
    ensures SumBy(f, s) <= SumBy(g, s)
  {
    if |s| > 0 {
      SumByMonotone(f, g, s[..|s| - 1]);
    }
  }

  lemma {:induction false} SumByNonNegative<T>(f: T -> real, s: seq<T>)
    requires forall x :: x in s ==> f(x) >= 0.0
    ensures SumBy(f, s) >= 0.0
    ensures SumBy(f, s) == 0.0 <==> forall x :: x in s ==> f(x) == 0.0
  {
    if |s| > 0 {
      var t, last := s[..|s| - 1], s[|s| - 1];
      SumByNonNegative(f, t);
      assert last in s && forall x :: x in s <==> x in t || x == last by {
        assert s == t + [last];
      }
    }
  }

  lemma SumByWithout<T>(f: T -> real, l: seq<T>, x: T, r: seq<T>)
    ensures SumBy(f, l + [x] + r) == SumBy(f, l + r) + f(x)
  {
    SumByConcat(f, l + [x], r);
    SumByAppend(f, l, x);
    SumByConcat(f, l, r);
  }

  lemma MultisetWithout<T>(a: seq<T>, l: seq<T>, x: T, r: seq<T>)
    requires multiset(a + [x]) == multiset(l + [x] + r)
    ensures multiset(a) == multiset(l + r)
  {
    assert multiset(a + [x]) == multiset(a) + multiset{x};
    assert multiset(l + [x] + r) == multiset(l + r) + multiset{x};
    assert multiset(a) == multiset(a) + multiset{x} - multiset{x};
    assert multiset(l + r) == multiset(l + r) + multiset{x} - multiset{x};
  }

  /** A sum does not depend on the order in which the elements are visited. */
  lemma {:induction false} SumByPermutation<T>(f: T -> real, a: seq<T>, b: seq<T>)
    requires multiset(a) == multiset(b)
    ensures SumBy(f, a) == SumBy(f, b)
    decreases |a|
  {
    if |a| == 0 {
      assert |multiset(b)| == 0;
      assert |b| == 0;
    } else {
      var a', x := a[..|a| - 1], a[|a| - 1];
      assert a == a' + [x];
      assert x in multiset(b);
      var j :| 0 <= j < |b| && b[j] == x;
      var l, r := b[..j], b[j + 1..];
      assert b == l + [x] + r;
      MultisetWithout(a', l, x, r);
      SumByPermutation(f, a', l + r);
      SumByWithout(f, l, x, r);
    }
  }
}
