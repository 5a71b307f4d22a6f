/** Indices into flat buffers of fixed-size blocks. */
module FlatIndex {

  // Place b of block r, in blocks of k.
  function Place(r: nat, k: nat, b: nat): nat { r * k + b }

  lemma PlaceNext(r: nat, k: nat, b: nat)
    ensures Place(r, k, b) == Place(r, k, 0) + b && Place(r + 1, k, 0) == Place(r, k, k) && Place(0, k, b) == b
  {
    assert (r + 1) * k == r * k + k;
  }

  // A place of one of the first n blocks lies before the n-th block.
  lemma {:induction false} PlaceBelow(r: nat, k: nat, b: nat, n: nat)
    requires r < n && b < k
    ensures Place(r, k, b) < Place(n, k, 0)
    decreases n
  {
    hide Place;
    PlaceNext(n - 1, k, k);
    PlaceNext(r, k, b);
    PlaceNext(r, k, k);
    if r + 1 < n {
      PlaceBelow(r, k, b, n - 1);
    }
  }

  // Every place before the n-th block lies in one of the first n blocks.
  lemma PlaceOf(m: nat, k: nat, n: nat) returns (r: nat, b: nat)
    requires m < Place(n, k, 0)
    ensures r < n && b < k && m == Place(r, k, b)
    decreases n
  {
    hide Place;
    if n == 0 {
      PlaceNext(0, k, 0);
    } else {
      PlaceNext(n - 1, k, k);
      if m < Place(n - 1, k, 0) {
        r, b := PlaceOf(m, k, n - 1);
      } else {
        r, b := n - 1, m - Place(n - 1, k, 0);
        PlaceNext(r, k, b);
      }
    }
  }

  // Different places have different indices.
  lemma PlaceApart(r: nat, s: nat, k: nat, b: nat, c: nat)
    requires b < k && c < k && Place(r, k, b) == Place(s, k, c)
    ensures r == s && b == c
  {
    hide Place;
    PlaceNext(r, k, b);
    PlaceNext(s, k, c);
    if r < s { PlaceBelow(r, k, b, s); }
    if s < r { PlaceBelow(s, k, c, r); }
  }
}
