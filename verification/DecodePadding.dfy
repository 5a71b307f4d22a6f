/** Decode tokens of requests with different numbers of tokens, in a padded grid: one row per
    request, its tokens in order, then padding. */
module DecodePadding {
  import opened Basics
  import opened ExpertTables
  import opened FlatIndex

  // ---- the scatter indices --------------------------------------------------------------

  // `repeat_interleave`: each entry as often as its count says.
  function Repeat<T>(xs: seq<T>, counts: seq<nat>): (s: seq<T>)
    requires |xs| == |counts|
    ensures |s| == Total(counts)
  {
    if xs == [] then [] else
      var n := |xs| - 1;
      Repeat(xs[..n], counts[..n]) + seq(counts[n], _ => xs[n])
  }

  // The run a position of the repeated sequence belongs to.
  function RunAt(counts: seq<nat>, v: nat): nat { SearchRight(Ends(counts), v) }

  lemma {:induction false} RepeatAt<T>(xs: seq<T>, counts: seq<nat>, v: nat)
    requires |xs| == |counts| && v < Total(counts)
    ensures RunAt(counts, v) < |xs| && Repeat(xs, counts)[v] == xs[RunAt(counts, v)]
  {
    hide Begins, Ends, SearchRight;
    var n := |xs| - 1;
    Located(counts, v);
    if v < Total(counts[..n]) {
      RepeatAt(xs[..n], counts[..n], v);
      Located(counts[..n], v);
      var d := RunAt(counts[..n], v);
      BeginsCut(counts, n, d);
      LocatedOnly(counts, d, v);
    } else {
      BeginsIs(counts, n);
      LocatedOnly(counts, n, v);
    }
  }

  // `cumsum` of the lengths shifted by one: where each request's tokens begin.
  function CumSum(s: seq<nat>): (c: seq<nat>)
    ensures |c| == |s|
  {
    seq(|s|, i requires 0 <= i < |s| => Total(s[..i + 1]))
  }

  function Starts(lens: seq<nat>): (s: seq<nat>)
    requires lens != []
    ensures |s| == |lens|
  {
    CumSum([0] + lens[..|lens| - 1])
  }

  lemma {:induction false} TotalShifted(lens: seq<nat>, i: nat)
    requires i < |lens|
    ensures Total(([0] + lens[..|lens| - 1])[..i + 1]) == Total(lens[..i])
  {
    var s := [0] + lens[..|lens| - 1];
    if i == 0 {
      assert s[..1] == [0] && [0][..0] == [] && lens[..0] == [];
      assert Total(s[..1]) == Total(s[..1][..0]) + 0;
    } else {
      TotalShifted(lens, i - 1);
      assert s[..i + 1][..i] == s[..i] && lens[..i][..i - 1] == lens[..i - 1];
    }
  }

  lemma StartsAreBegins(lens: seq<nat>)
    requires lens != []
    ensures Starts(lens) == Begins(lens)
  {
    forall i | 0 <= i < |lens| ensures Starts(lens)[i] == Begins(lens)[i] {
      TotalShifted(lens, i);
    }
  }

  // `_build_decode_scatter_indices`
  function RequestIds(lens: seq<nat>): (s: seq<nat>)
    ensures |s| == Total(lens)
  {
    Repeat(Iota(|lens|), lens)
  }

  function Intra(lens: seq<nat>): (s: seq<int>)
    requires lens != []
    ensures |s| == Total(lens)
  {
    var starts := Repeat(Starts(lens), lens);
    seq(Total(lens), v requires 0 <= v < Total(lens) => v - starts[v])
  }

  /** Token v is token `Intra[v]` of request `RequestIds[v]`. */
  lemma ScatterIndices(lens: seq<nat>, v: nat)
    requires v < Total(lens)
    ensures lens != []
    ensures
      var r := RequestIds(lens)[v];
      r < |lens| && 0 <= Intra(lens)[v] < lens[r] && v == Begins(lens)[r] + Intra(lens)[v]
  {
    RepeatAt(Iota(|lens|), lens, v);
    Located(lens, v);
    if lens != [] {
      StartsAreBegins(lens);
      RepeatAt(Starts(lens), lens, v);
    }
  }

  /** Different tokens go to different places of the grid. */
  lemma ScatterApart(lens: seq<nat>, v: nat, u: nat)
    requires v < Total(lens) && u < Total(lens) && lens != []
    requires RequestIds(lens)[v] == RequestIds(lens)[u] && Intra(lens)[v] == Intra(lens)[u]
    ensures v == u
  {
    ScatterIndices(lens, v);
    ScatterIndices(lens, u);
  }

  // ---- the grid ---------------------------------------------------------------------------

  // What the padded grid holds for token t of request r.
  function Padded<T>(tokens: seq<T>, pad: T, lens: seq<nat>, r: nat, t: nat): T
    requires |tokens| == Total(lens) && r < |lens|
  {
    if t < lens[r] then
      RunInside(lens, r);
      tokens[Begins(lens)[r] + t]
    else pad
  }

  // The first n tokens are in the grid, and nothing else is.
  ghost predicate Scattered<T>(grid: seq<T>, tokens: seq<T>, pad: T, lens: seq<nat>, lmax: nat, n: nat)
    requires |tokens| == Total(lens) && |grid| == Place(|lens|, lmax, 0)
  {
    forall r, t :: 0 <= r < |lens| && 0 <= t < lmax ==> CellHolds(grid, tokens, pad, lens, lmax, n, r, t)
  }

  ghost predicate CellHolds<T>(grid: seq<T>, tokens: seq<T>, pad: T, lens: seq<nat>, lmax: nat, n: nat, r: nat, t: nat)
    requires |tokens| == Total(lens) && |grid| == Place(|lens|, lmax, 0) && r < |lens| && t < lmax
  {
    PlaceBelow(r, lmax, t, |lens|);
    grid[Place(r, lmax, t)] == if Begins(lens)[r] + t < n then Padded(tokens, pad, lens, r, t) else pad
  }

  // Writing the next token fills its own cell only.
  lemma NextCell<T>(grid: seq<T>, tokens: seq<T>, pad: T, lens: seq<nat>, lmax: nat, n: nat, r: nat, t: nat)
    requires |tokens| == Total(lens) && |grid| == Place(|lens|, lmax, 0) && r < |lens| && t < lmax && n < Total(lens)
    requires CellHolds(grid, tokens, pad, lens, lmax, n, r, t) && forall q :: 0 <= q < |lens| ==> lens[q] <= lmax
    ensures lens != [] && RequestIds(lens)[n] < |lens| && 0 <= Intra(lens)[n] < lmax
    ensures
      var i := Place(RequestIds(lens)[n], lmax, Intra(lens)[n]);
      i < |grid| && CellHolds(grid[i := tokens[n]], tokens, pad, lens, lmax, n + 1, r, t)
  {
    hide Place, Begins, RequestIds, Intra;
    ScatterIndices(lens, n);
    var q, k := RequestIds(lens)[n], Intra(lens)[n];
    PlaceBelow(q, lmax, k, |lens|);
    PlaceBelow(r, lmax, t, |lens|);
    if Place(q, lmax, k) == Place(r, lmax, t) { PlaceApart(q, r, lmax, k, t); }
    if Begins(lens)[r] + t == n && t < lens[r] { OwnCell(lens, n, r, t); }
  }

  lemma OwnCell(lens: seq<nat>, n: nat, r: nat, t: nat)
    requires n < Total(lens) && r < |lens| && t < lens[r] && Begins(lens)[r] + t == n
    ensures RequestIds(lens)[n] == r && Intra(lens)[n] == t
  {
    LocatedOnly(lens, r, n);
    RepeatAt(Iota(|lens|), lens, n);
    ScatterIndices(lens, n);
  }

  lemma NextGrid<T>(before: seq<T>, after: seq<T>, tokens: seq<T>, pad: T, lens: seq<nat>, lmax: nat, n: nat)
    requires |tokens| == Total(lens) && |before| == |after| == Place(|lens|, lmax, 0) && lens != [] && n < Total(lens)
    requires Scattered(before, tokens, pad, lens, lmax, n) && forall q :: 0 <= q < |lens| ==> lens[q] <= lmax
    requires RequestIds(lens)[n] < |lens| && 0 <= Intra(lens)[n] < lmax
    requires Place(RequestIds(lens)[n], lmax, Intra(lens)[n]) < |before|
    requires after == before[Place(RequestIds(lens)[n], lmax, Intra(lens)[n]) := tokens[n]]
    ensures Scattered(after, tokens, pad, lens, lmax, n + 1)
  {
    hide Place, RequestIds, Intra, CellHolds;
    var next := n + 1;
    forall r, t | 0 <= r < |lens| && 0 <= t < lmax ensures CellHolds(after, tokens, pad, lens, lmax, next, r, t) {
      NextCell(before, tokens, pad, lens, lmax, n, r, t);
    }
  }

  // `_scatter_decode_tokens_by_request`
  method Scatter<T(0)>(tokens: seq<T>, pad: T, lens: seq<nat>, lmax: nat) returns (grid: array<T>)
    requires lens != [] && |tokens| == Total(lens) && forall r :: 0 <= r < |lens| ==> lens[r] <= lmax
    ensures grid.Length == Place(|lens|, lmax, 0)
    ensures forall r, t :: 0 <= r < |lens| && 0 <= t < lmax ==> GridHolds(grid[..], tokens, pad, lens, lmax, r, t)
  {
    hide Place, RequestIds, Intra, Begins, CellHolds;
    var ids, intra := RequestIds(lens), Intra(lens);
    grid := new T[Place(|lens|, lmax, 0)](_ => pad);
    EmptyGrid(grid[..], tokens, pad, lens, lmax);
    for v := 0 to |tokens|
      invariant Scattered(grid[..], tokens, pad, lens, lmax, v)
    {
      ghost var before := grid[..];
      ScatterIndices(lens, v);
      PlaceBelow(ids[v], lmax, intra[v], |lens|);
      grid[Place(ids[v], lmax, intra[v])] := tokens[v];
      assert grid[..] == before[Place(ids[v], lmax, intra[v]) := tokens[v]];
      NextGrid(before, grid[..], tokens, pad, lens, lmax, v);
    }
    forall r, t | 0 <= r < |lens| && 0 <= t < lmax ensures GridHolds(grid[..], tokens, pad, lens, lmax, r, t) {
      FullCell(grid[..], tokens, pad, lens, lmax, r, t);
    }
  }

  ghost predicate GridHolds<T>(grid: seq<T>, tokens: seq<T>, pad: T, lens: seq<nat>, lmax: nat, r: nat, t: nat)
    requires |tokens| == Total(lens) && |grid| == Place(|lens|, lmax, 0) && r < |lens| && t < lmax
  {
    PlaceBelow(r, lmax, t, |lens|);
    grid[Place(r, lmax, t)] == Padded(tokens, pad, lens, r, t)
  }

  lemma EmptyGrid<T>(grid: seq<T>, tokens: seq<T>, pad: T, lens: seq<nat>, lmax: nat)
    requires |tokens| == Total(lens) && |grid| == Place(|lens|, lmax, 0)
    requires forall i :: 0 <= i < |grid| ==> grid[i] == pad
    ensures Scattered(grid, tokens, pad, lens, lmax, 0)
  {
    hide Place, Begins;
    forall r, t | 0 <= r < |lens| && 0 <= t < lmax ensures CellHolds(grid, tokens, pad, lens, lmax, 0, r, t) {
      PlaceBelow(r, lmax, t, |lens|);
    }
  }

  lemma FullCell<T>(grid: seq<T>, tokens: seq<T>, pad: T, lens: seq<nat>, lmax: nat, r: nat, t: nat)
    requires |tokens| == Total(lens) && |grid| == Place(|lens|, lmax, 0) && r < |lens| && t < lmax
    requires CellHolds(grid, tokens, pad, lens, lmax, |tokens|, r, t)
    ensures GridHolds(grid, tokens, pad, lens, lmax, r, t)
  {
    hide Place, Begins;
    RunInside(lens, r);
  }

  /** Reading the grid back at the scatter indices gives the tokens again: padding is dropped and
      nothing else is lost. */
  lemma GatherBack<T>(grid: seq<T>, tokens: seq<T>, pad: T, lens: seq<nat>, lmax: nat, v: nat)
    requires |tokens| == Total(lens) && |grid| == Place(|lens|, lmax, 0) && v < |tokens|
    requires forall r :: 0 <= r < |lens| ==> lens[r] <= lmax
    requires forall r, t :: 0 <= r < |lens| && 0 <= t < lmax ==> GridHolds(grid, tokens, pad, lens, lmax, r, t)
    ensures lens != [] && RequestIds(lens)[v] < |lens| && 0 <= Intra(lens)[v] < lmax
    ensures
      var i := Place(RequestIds(lens)[v], lmax, Intra(lens)[v]);
      i < |grid| && grid[i] == tokens[v]
  {
    hide Place, RequestIds, Intra, Begins;
    ScatterIndices(lens, v);
    var r, t := RequestIds(lens)[v], Intra(lens)[v];
    PlaceBelow(r, lmax, t, |lens|);
    assert GridHolds(grid, tokens, pad, lens, lmax, r, t);
  }

  // ---- sequence lengths by grid row ---------------------------------------------------------

  // `_decode_topk_seq_lens`
  method DecodeSeqLens(positions: seq<int>, lens: seq<nat>, nextN: nat, requiresPadding: bool) returns (out: seq<int>)
    requires lens != [] && Total(lens) <= |positions| && forall b :: 0 <= b < |lens| ==> lens[b] <= nextN
    requires !requiresPadding ==> forall b :: 0 <= b < |lens| ==> lens[b] == nextN
    ensures |out| == Place(|lens|, nextN, 0)
    ensures forall b, t :: 0 <= b < |lens| && 0 <= t < nextN ==> RowRight(out, positions, lens, nextN, b, t)
  {
    hide Place, Begins;
    var n := Place(|lens|, nextN, 0);
    if !requiresPadding {
      UniformTotal(lens, nextN, |lens|);
      assert lens[..|lens|] == lens;
      out := PlusOne(positions[..n]);
      forall b, t | 0 <= b < |lens| && 0 <= t < nextN ensures RowRight(out, positions, lens, nextN, b, t) {
        UniformTotal(lens, nextN, b);
        BeginsIs(lens, b);
        PlaceBelow(b, nextN, t, |lens|);
        PlaceNext(b, nextN, t);
      }
      return;
    }
    var grid := Scatter(positions[..Total(lens)], -1, lens, nextN);
    out := PlusOne(grid[..]);
    forall b, t | 0 <= b < |lens| && 0 <= t < nextN ensures RowRight(out, positions, lens, nextN, b, t) {
      assert GridHolds(grid[..], positions[..Total(lens)], -1, lens, nextN, b, t);
      PlaceBelow(b, nextN, t, |lens|);
      RunInside(lens, b);
    }
  }

  function PlusOne(s: seq<int>): (r: seq<int>)
    ensures |r| == |s|
  {
    seq(|s|, i requires 0 <= i < |s| => s[i] + 1)
  }

  // Row (b, t) of the grid gets one more than the position of its own token, or nothing.
  ghost predicate RowRight(out: seq<int>, positions: seq<int>, lens: seq<nat>, nextN: nat, b: nat, t: nat)
    requires Total(lens) <= |positions| && |out| == Place(|lens|, nextN, 0) && b < |lens| && t < nextN
  {
    PlaceBelow(b, nextN, t, |lens|);
    RunInside(lens, b);
    out[Place(b, nextN, t)] == if t < lens[b] then positions[Begins(lens)[b] + t] + 1 else 0
  }

  lemma {:induction false} UniformTotal(lens: seq<nat>, n: nat, b: nat)
    requires b <= |lens| && forall i :: 0 <= i < b ==> lens[i] == n
    ensures Total(lens[..b]) == Place(b, n, 0)
  {
    hide Place;
    if b == 0 {
      PlaceNext(0, n, 0);
    } else {
      UniformTotal(lens, n, b - 1);
      assert lens[..b][..b - 1] == lens[..b - 1];
      PlaceNext(b - 1, n, n);
    }
  }

  /** Cutting the flat positions into rows of `nextN` gives row b its own tokens exactly when every
      request before b is full. */
  lemma {:induction false} FlatMisaligns(lens: seq<nat>, nextN: nat, b: nat)
    requires b < |lens| && forall r :: 0 <= r < |lens| ==> lens[r] <= nextN
    ensures Begins(lens)[b] <= Place(b, nextN, 0)
    ensures Begins(lens)[b] == Place(b, nextN, 0) <==> forall r :: 0 <= r < b ==> lens[r] == nextN
  {
    hide Place;
    BeginsIs(lens, b);
    if b == 0 {
      PlaceNext(0, nextN, 0);
    } else {
      FlatMisaligns(lens, nextN, b - 1);
      BeginsEnds(lens, b - 1);
      PlaceNext(b - 1, nextN, nextN);
    }
  }
}
