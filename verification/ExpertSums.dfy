/** Sums of reals over sequences, and what does not change them. */
module ExpertSums {
  import opened Basics

  function SumOver<T>(s: seq<T>, g: T -> real): real {
    if s == [] then 0.0 else SumOver(s[..|s| - 1], g) + g(s[|s| - 1])
  }

  lemma {:induction false} SumConcat<T>(s: seq<T>, u: seq<T>, g: T -> real)
    ensures SumOver(s + u, g) == SumOver(s, g) + SumOver(u, g)
  {
    if u == [] {
      assert s + u == s;
    } else {
      var n := |u| - 1;
      assert (s + u)[..|s + u| - 1] == s + u[..n];
      SumConcat(s, u[..n], g);
    }
  }

  lemma {:induction false} SumPointwise<T, U>(s: seq<T>, g: T -> real, u: seq<U>, h: U -> real)
    requires |s| == |u| && forall i :: 0 <= i < |s| ==> g(s[i]) == h(u[i])
    ensures SumOver(s, g) == SumOver(u, h)
  {
    if s != [] {
      SumPointwise(s[..|s| - 1], g, u[..|u| - 1], h);
    }
  }

  lemma {:induction false} SumZero<T>(s: seq<T>, g: T -> real)
    requires forall i :: 0 <= i < |s| ==> g(s[i]) == 0.0
    ensures SumOver(s, g) == 0.0
  {
    if s != [] {
      SumZero(s[..|s| - 1], g);
    }
  }

  lemma {:induction false} SumAdd<T>(s: seq<T>, g: T -> real, h: T -> real, k: T -> real)
    requires forall i :: 0 <= i < |s| ==> k(s[i]) == g(s[i]) + h(s[i])
    ensures SumOver(s, k) == SumOver(s, g) + SumOver(s, h)
  {
    if s != [] {
      SumAdd(s[..|s| - 1], g, h, k);
    }
  }

  lemma SumOne<T>(x: T, g: T -> real)
    ensures SumOver([x], g) == g(x)
  {
    assert [x][..0] == [];
    assert SumOver([x][..0], g) == 0.0;
  }

  lemma SumHead<T>(s: seq<T>, n: nat, g: T -> real)
    requires n <= |s| && forall i :: n <= i < |s| ==> g(s[i]) == 0.0
    ensures SumOver(s, g) == SumOver(s[..n], g)
  {
    assert s == s[..n] + s[n..];
    SumConcat(s[..n], s[n..], g);
    SumZero(s[n..], g);
  }

  // One element may be taken out anywhere.
  lemma SumTakeOut<T>(s: seq<T>, i: nat, g: T -> real)
    requires i < |s|
    ensures SumOver(s, g) == SumOver(s[..i] + s[i + 1..], g) + g(s[i])
  {
    hide SumOver;
    assert s == s[..i] + ([s[i]] + s[i + 1..]);
    SumConcat(s[..i], [s[i]] + s[i + 1..], g);
    SumConcat([s[i]], s[i + 1..], g);
    SumConcat(s[..i], s[i + 1..], g);
    SumOne(s[i], g);
  }

  lemma TakeOut<T>(s: seq<T>, i: nat)
    requires i < |s|
    ensures multiset(s) == multiset(s[..i] + s[i + 1..]) + multiset{s[i]}
  {
    assert s == s[..i] + ([s[i]] + s[i + 1..]);
  }

  lemma Cancel<T>(a: multiset<T>, b: multiset<T>, x: T)
    requires a + multiset{x} == b + multiset{x}
    ensures a == b
  {
    assert a == (a + multiset{x}) - multiset{x} && b == (b + multiset{x}) - multiset{x};
  }

  /** A sum depends only on what is added how often. */
  lemma {:induction false} SumPermuted<T>(s: seq<T>, u: seq<T>, g: T -> real)
    requires multiset(s) == multiset(u)
    ensures SumOver(s, g) == SumOver(u, g)
    decreases |s|
  {
    if s == [] {
      SameEmpty(s, u);
    } else {
      var n := |s| - 1;
      assert s[n] in multiset(u);
      var i :| 0 <= i < |u| && u[i] == s[n];
      SumTakeOut(u, i, g);
      TakeOut(u, i);
      assert multiset(s) == multiset(s[..n]) + multiset{s[n]} by { assert s == s[..n] + [s[n]]; }
      Cancel(multiset(s[..n]), multiset(u[..i] + u[i + 1..]), s[n]);
      SumPermuted(s[..n], u[..i] + u[i + 1..], g);
    }
  }

  lemma SameEmpty<T>(s: seq<T>, u: seq<T>)
    requires multiset(s) == multiset(u) && s == []
    ensures u == []
  {
    assert |multiset(u)| == |u|;
  }

  /** Images of the same elements, each as often as before. */
  lemma {:induction false} MapPermuted<T, U>(s: seq<T>, u: seq<T>, h: T -> U)
    requires multiset(s) == multiset(u)
    ensures multiset(Map(s, h)) == multiset(Map(u, h))
    decreases |s|
  {
    if s == [] {
      SameEmpty(s, u);
    } else {
      var n := |s| - 1;
      assert s[n] in multiset(u);
      var i :| 0 <= i < |u| && u[i] == s[n];
      var rest := u[..i] + u[i + 1..];
      MapTakeOut(s, n, h);
      MapTakeOut(u, i, h);
      assert s[..n] + s[n + 1..] == s[..n];
      Cancel(multiset(s[..n]), multiset(rest), s[n]);
      MapPermuted(s[..n], rest, h);
    }
  }

  lemma MapTakeOut<T, U>(u: seq<T>, i: nat, h: T -> U)
    requires i < |u|
    ensures multiset(u) == multiset(u[..i] + u[i + 1..]) + multiset{u[i]}
    ensures multiset(Map(u, h)) == multiset(Map(u[..i] + u[i + 1..], h)) + multiset{h(u[i])}
  {
    assert u == u[..i] + ([u[i]] + u[i + 1..]);
    assert Map(u, h) == Map(u[..i], h) + ([h(u[i])] + Map(u[i + 1..], h));
    assert Map(u[..i] + u[i + 1..], h) == Map(u[..i], h) + Map(u[i + 1..], h);
  }
}
