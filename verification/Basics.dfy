/** A few types and functions that several modules share. */
module Basics {

  datatype Option<+T> = None | Some(value: T)

  // A finite logit, or the mask.
  datatype Logit = NegInf | Fin(value: real)

  function MaxOf(s: seq<nat>): (m: nat)
    ensures forall i :: 0 <= i < |s| ==> s[i] <= m
    ensures s != [] ==> m in s
  {
    if s == [] then 0 else
      var m := MaxOf(s[1..]);
      if s[0] > m then s[0] else m
  }

  // 0, 1, ..., n - 1
  function Iota(n: nat): (s: seq<nat>)
    ensures |s| == n
  {
    seq(n, i requires 0 <= i < n => i)
  }

  function Map<T, U>(s: seq<T>, h: T -> U): (u: seq<U>)
    ensures |u| == |s|
  {
    seq(|s|, i requires 0 <= i < |s| => h(s[i]))
  }

  function CeilDiv(n: nat, d: nat): nat
    requires 0 < d
  {
    (n + (d - 1)) / d
  }

  lemma TimesMono(a: nat, b: nat, p: nat)
    requires a <= b
    ensures a * p <= b * p
  {
  }
}
