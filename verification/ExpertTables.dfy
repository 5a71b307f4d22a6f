/** The table arithmetic of the mixture-of-experts launch: prefix sums, right-sided search, and
    the row, segment and tile tables built from them. */
module ExpertTables {
  import opened Basics

  function Total(x: seq<nat>): nat {
    if x == [] then 0 else Total(x[..|x| - 1]) + x[|x| - 1]
  }

  // `_excl_cumsum`: where each entry's run begins, and where it ends.
  function Begins(x: seq<nat>): (b: seq<nat>)
    ensures |b| == |x|
  {
    seq(|x|, e requires 0 <= e < |x| => Total(x[..e]))
  }

  function Ends(x: seq<nat>): (c: seq<nat>)
    ensures |c| == |x|
  {
    seq(|x|, e requires 0 <= e < |x| => Total(x[..e + 1]))
  }

  // `searchsorted(..., right=True)` on an ascending table: how many entries are at most `v`.
  function SearchRight(cum: seq<nat>, v: nat): (e: nat)
    ensures e <= |cum|
    ensures forall i :: 0 <= i < e ==> cum[i] <= v
    ensures e < |cum| ==> cum[e] > v
  {
    if cum == [] || cum[0] > v then 0 else 1 + SearchRight(cum[1..], v)
  }

  lemma BeginsEnds(x: seq<nat>, e: nat)
    requires e < |x|
    ensures Ends(x)[e] == Begins(x)[e] + x[e]
    ensures e + 1 < |x| ==> Begins(x)[e + 1] == Ends(x)[e]
    ensures e + 1 == |x| ==> Ends(x)[e] == Total(x)
  {
    assert x[..e + 1][..e] == x[..e];
    assert e + 1 == |x| ==> x[..e + 1] == x;
  }

  lemma BeginsIs(x: seq<nat>, e: nat)
    requires e < |x|
    ensures Begins(x)[e] == Total(x[..e]) && Ends(x)[e] == Total(x[..e + 1])
  {
  }

  lemma {:induction false} EndsAscend(x: seq<nat>, d: nat, e: nat)
    requires d <= e < |x|
    ensures Ends(x)[d] <= Ends(x)[e] && Begins(x)[d] <= Begins(x)[e]
    decreases e
  {
    if d < e {
      EndsAscend(x, d, e - 1);
      BeginsEnds(x, e - 1);
      BeginsEnds(x, e);
    }
  }

  /** The search finds the run a position lies in. */
  lemma Located(x: seq<nat>, v: nat)
    requires v < Total(x)
    ensures
      var e := SearchRight(Ends(x), v);
      e < |x| && Begins(x)[e] <= v < Begins(x)[e] + x[e]
  {
    var e := SearchRight(Ends(x), v);
    BeginsEnds(x, |x| - 1);
    if 0 < e { BeginsEnds(x, e - 1); }
    if e < |x| { BeginsEnds(x, e); }
  }

  /** No other run holds that position. */
  lemma LocatedOnly(x: seq<nat>, e: nat, v: nat)
    requires e < |x| && Begins(x)[e] <= v < Begins(x)[e] + x[e]
    ensures SearchRight(Ends(x), v) == e && v < Total(x)
  {
    hide Begins, Ends;
    var f := SearchRight(Ends(x), v);
    BeginsEnds(x, e);
    BeginsEnds(x, |x| - 1);
    EndsAscend(x, e, |x| - 1);
    if f < e {
      EndsAscend(x, f, e - 1);
      BeginsEnds(x, e - 1);
    }
  }

  lemma RunInside(x: seq<nat>, e: nat)
    requires e < |x|
    ensures Begins(x)[e] + x[e] <= Total(x)
  {
    hide Begins, Ends, Total;
    BeginsEnds(x, e);
    EndsAscend(x, e, |x| - 1);
    BeginsEnds(x, |x| - 1);
  }

  // ---- rows -----------------------------------------------------------------------

  // A row of the sorted buffer, and the expert it is given to.
  datatype Row = Row(pos: nat, expert: nat)

  function Strip(base: nat, n: nat, expert: nat): (s: seq<Row>)
    ensures |s| == n
  {
    seq(n, i requires 0 <= i < n => Row(base + i, expert))
  }

  // Expert after expert, `x[e]` rows from `base[e]` on.
  function Rows(base: seq<nat>, x: seq<nat>): (s: seq<Row>)
    requires |base| == |x|
    ensures |s| == Total(x)
  {
    if x == [] then [] else
      var n := |x| - 1;
      Rows(base[..n], x[..n]) + Strip(base[n], x[n], n)
  }

  lemma {:induction false} RowsAt(base: seq<nat>, x: seq<nat>, v: nat)
    requires |base| == |x| && v < Total(x)
    ensures
      var e := SearchRight(Ends(x), v);
      e < |x| && Begins(x)[e] <= v && Rows(base, x)[v] == Row(base[e] + (v - Begins(x)[e]), e)
  {
    hide Begins, Ends, SearchRight;
    Located(x, v);
    var n := |x| - 1;
    if v < Total(x[..n]) {
      RowsAt(base[..n], x[..n], v);
      var d := SearchRight(Ends(x[..n]), v);
      Located(x[..n], v);
      BeginsCut(x, n, d);
      LocatedOnly(x, d, v);
    } else {
      BeginsIs(x, n);
      LocatedOnly(x, n, v);
    }
  }

  lemma BeginsCut(x: seq<nat>, n: nat, d: nat)
    requires d < n <= |x|
    ensures Begins(x[..n])[d] == Begins(x)[d]
  {
    assert x[..n][..d] == x[..d];
  }

  // Only the runs that are not empty need a base.
  lemma {:induction false} RowsBase(base: seq<nat>, other: seq<nat>, x: seq<nat>)
    requires |base| == |other| == |x| && forall e :: 0 <= e < |x| && x[e] > 0 ==> base[e] == other[e]
    ensures Rows(base, x) == Rows(other, x)
  {
    if x != [] {
      var n := |x| - 1;
      RowsBase(base[..n], other[..n], x[..n]);
      assert Strip(base[n], x[n], n) == Strip(other[n], x[n], n);
    }
  }

  function Plus(x: seq<nat>, y: seq<nat>): (z: seq<nat>)
    requires |x| == |y|
    ensures |z| == |x|
  {
    seq(|x|, e requires 0 <= e < |x| => x[e] + y[e])
  }

  lemma RowsLast(base: seq<nat>, x: seq<nat>, n: nat)
    requires |base| == |x| == n + 1
    ensures multiset(Rows(base, x)) == multiset(Rows(base[..n], x[..n])) + multiset(Strip(base[n], x[n], n))
  {
  }

  lemma NoRows(base: seq<nat>, x: seq<nat>)
    requires |base| == |x| == 0
    ensures Rows(base, x) == []
  {
  }

  lemma PlusCut(x: seq<nat>, y: seq<nat>, n: nat)
    requires |x| == |y| == n + 1
    ensures Plus(x, y)[..n] == Plus(x[..n], y[..n]) && Plus(x, y)[n] == x[n] + y[n]
  {
  }

  lemma StripJoin(base: nat, m: nat, k: nat, e: nat)
    ensures multiset(Strip(base, m + k, e)) == multiset(Strip(base, m, e)) + multiset(Strip(base + m, k, e))
  {
    assert Strip(base, m + k, e) == Strip(base, m, e) + Strip(base + m, k, e);
  }

  /** Taking `x[e]` rows of each expert and then the next `y[e]` is taking `x[e] + y[e]`, each
      row exactly once. */
  lemma {:induction false} RowsJoin(base: seq<nat>, x: seq<nat>, y: seq<nat>)
    requires |base| == |x| == |y|
    ensures multiset(Rows(base, x)) + multiset(Rows(Plus(base, x), y)) == multiset(Rows(base, Plus(x, y)))
  {
    hide Rows, Strip, Plus;
    if x == [] {
      NoRows(base, x);
      NoRows(Plus(base, x), y);
      NoRows(base, Plus(x, y));
    } else {
      var n := |x| - 1;
      var next, all := Plus(base, x), Plus(x, y);
      PlusCut(base, x, n);
      PlusCut(x, y, n);
      RowsJoin(base[..n], x[..n], y[..n]);
      RowsLast(base, x, n);
      RowsLast(next, y, n);
      RowsLast(base, all, n);
      StripJoin(base[n], x[n], y[n], n);
    }
  }

  // Runs laid end to end are the rows in order.
  lemma RowsInOrder(x: seq<nat>, v: nat)
    requires v < Total(x)
    ensures Rows(Begins(x), x)[v] == Row(v, SearchRight(Ends(x), v))
  {
    RowsAt(Begins(x), x, v);
  }

  // ---- fat and thin experts ---------------------------------------------------------

  function FatOf(counts: seq<nat>, cap: nat): (x: seq<nat>)
    ensures |x| == |counts|
  {
    seq(|counts|, e requires 0 <= e < |counts| => if counts[e] > cap then counts[e] else 0)
  }

  // What a launch that skips oversized experts processes.
  function ThinOf(counts: seq<nat>, cap: nat): (x: seq<nat>)
    ensures |x| == |counts|
  {
    seq(|counts|, e requires 0 <= e < |counts| => if counts[e] > cap then 0 else counts[e])
  }

  /** The thin launch and the fat slices together take every row exactly once. */
  lemma ThinAndFat(counts: seq<nat>, cap: nat)
    ensures multiset(Rows(Begins(counts), ThinOf(counts, cap))) + multiset(Rows(Begins(counts), FatOf(counts, cap)))
         == multiset(Rows(Begins(counts), counts))
  {
    var base, thin, fat := Begins(counts), ThinOf(counts, cap), FatOf(counts, cap);
    RowsJoin(base, thin, fat);
    RowsBase(base, Plus(base, thin), fat);
    assert Plus(thin, fat) == counts;
  }

  lemma {:induction false} TotalLeq(x: seq<nat>, y: seq<nat>)
    requires |x| == |y| && forall e :: 0 <= e < |x| ==> x[e] <= y[e]
    ensures Total(x) <= Total(y)
  {
    if x != [] {
      TotalLeq(x[..|x| - 1], y[..|y| - 1]);
    }
  }

  // ---- the grouped tables -----------------------------------------------------------

  datatype Tables = Tables(
    segExpert: seq<nat>, segRow0: seq<int>, segRows: seq<int>, numSegs: nat,
    rowExpert: seq<nat>, rowSrc: seq<int>, numRows: nat)

  function ClampMax(v: int, top: int): int { if v > top then top else v }

  function Clamp(v: int, low: int, top: int): int { if v < low then low else if v > top then top else v }

  // Where tile `i` begins.
  function TileStart(i: int, tile: nat): (r: int)
    ensures 0 <= i ==> 0 <= r
  {
    i * tile
  }

  function TilesOf(fat: seq<nat>, tile: nat): (x: seq<nat>)
    requires 0 < tile
    ensures |x| == |fat|
  {
    seq(|fat|, e requires 0 <= e < |fat| => CeilDiv(fat[e], tile))
  }

  function MaxSegs(counts: seq<nat>, rowsCap: nat, tile: nat): nat
    requires 0 < tile
  {
    CeilDiv(rowsCap, tile) + |counts|
  }

  // Which run a table entry belongs to, clamped to the last expert.
  function RunOf(x: seq<nat>, v: nat): (e: nat)
    requires x != []
    ensures e < |x|
  {
    ClampMax(SearchRight(Ends(x), v), |x| - 1)
  }

  function SegRow0(fat: seq<nat>, tile: nat, j: nat): int
    requires fat != [] && 0 < tile
  {
    var e := RunOf(TilesOf(fat, tile), j);
    Begins(fat)[e] + TileStart(j - Begins(TilesOf(fat, tile))[e], tile)
  }

  function SegRows(fat: seq<nat>, tile: nat, j: nat): int
    requires fat != [] && 0 < tile
  {
    var e := RunOf(TilesOf(fat, tile), j);
    Clamp(fat[e] - TileStart(j - Begins(TilesOf(fat, tile))[e], tile), 0, tile)
  }

  function RowSrc(counts: seq<nat>, fat: seq<nat>, rowsCap: nat, r: nat): int
    requires fat != [] && |counts| == |fat|
  {
    var e := RunOf(fat, r);
    ClampMax(Begins(counts)[e] + (r - Begins(fat)[e]), rowsCap - 1)
  }

  // `build_grouped_fat_tables`
  function Grouped(counts: seq<nat>, cap: nat, rowsCap: nat, tile: nat): Tables
    requires counts != [] && 0 < tile
  {
    var fat := FatOf(counts, cap);
    var tiles := TilesOf(fat, tile);
    var maxSegs := MaxSegs(counts, rowsCap, tile);
    Tables(
      seq(maxSegs, j requires 0 <= j => RunOf(tiles, j)),
      seq(maxSegs, j requires 0 <= j => SegRow0(fat, tile, j)),
      seq(maxSegs, j requires 0 <= j => SegRows(fat, tile, j)),
      Total(tiles),
      seq(rowsCap, r requires 0 <= r => RunOf(fat, r)),
      seq(rowsCap, r requires 0 <= r => RowSrc(counts, fat, rowsCap, r)),
      Total(fat))
  }

  /** The live rows are exactly the fat experts' slices of the sorted buffer, one after the other
      in expert order; the clamp of the source index changes none of them. */
  lemma GroupedRows(counts: seq<nat>, cap: nat, rowsCap: nat, tile: nat)
    requires counts != [] && 0 < tile && Total(counts) <= rowsCap
    ensures
      var t := Grouped(counts, cap, rowsCap, tile);
      var rows := Rows(Begins(counts), FatOf(counts, cap));
      && t.numRows == |rows| <= rowsCap
      && forall r :: 0 <= r < t.numRows ==>
           0 <= t.rowSrc[r] < Total(counts) && Row(t.rowSrc[r], t.rowExpert[r]) == rows[r] && counts[t.rowExpert[r]] > cap
  {
    var t, fat := Grouped(counts, cap, rowsCap, tile), FatOf(counts, cap);
    TotalLeq(fat, counts);
    forall r | 0 <= r < t.numRows
      ensures
        && 0 <= t.rowSrc[r] < Total(counts) && counts[t.rowExpert[r]] > cap
        && Row(t.rowSrc[r], t.rowExpert[r]) == Rows(Begins(counts), fat)[r]
    {
      GroupedRow(counts, cap, rowsCap, r);
    }
  }

  lemma GroupedRow(counts: seq<nat>, cap: nat, rowsCap: nat, r: nat)
    requires counts != [] && Total(counts) <= rowsCap && r < Total(FatOf(counts, cap))
    ensures
      var fat := FatOf(counts, cap);
      && 0 <= RowSrc(counts, fat, rowsCap, r) < Total(counts) && counts[RunOf(fat, r)] > cap
      && Row(RowSrc(counts, fat, rowsCap, r), RunOf(fat, r)) == Rows(Begins(counts), fat)[r]
  {
    hide Begins, Ends, Total, Rows;
    var fat := FatOf(counts, cap);
    Located(fat, r);
    RowsAt(Begins(counts), fat, r);
    var e := RunOf(fat, r);
    BeginsEnds(counts, e);
    EndsAscend(counts, e, |counts| - 1);
    BeginsEnds(counts, |counts| - 1);
  }

  // ---- the segments -----------------------------------------------------------------

  lemma {:induction false} TotalAscends(x: seq<nat>, d: nat, e: nat)
    requires d <= e <= |x|
    ensures Total(x[..d]) <= Total(x[..e])
    ensures Total(x[..d]) == Total(x[..e]) <==> forall i :: d <= i < e ==> x[i] == 0
    decreases e
  {
    if d < e {
      TotalAscends(x, d, e - 1);
      assert x[..e][..e - 1] == x[..e - 1];
    }
  }

  lemma CeilZero(n: nat, d: nat)
    requires 0 < d
    ensures CeilDiv(n, d) == 0 <==> n == 0
    ensures n <= TileStart(CeilDiv(n, d), d) <= n + (d - 1)
  {
  }

  lemma TileAdd(a: int, b: int, tile: nat)
    ensures TileStart(a + b, tile) == TileStart(a, tile) + TileStart(b, tile)
    ensures TileStart(1, tile) == tile && TileStart(0, tile) == 0
  {
  }

  lemma {:induction false} TileMono(a: nat, b: nat, tile: nat)
    requires 0 < tile
    ensures a <= b ==> TileStart(a, tile) <= TileStart(b, tile)
    ensures a < b ==> TileStart(a, tile) < TileStart(b, tile)
    ensures 0 <= TileStart(b, tile)
    decreases b
  {
    hide TileStart;
    if b == 0 {
      TileAdd(0, 0, tile);
    } else {
      TileMono(a, b - 1, tile);
      TileAdd(b - 1, 1, tile);
    }
  }

  lemma {:induction false} TilesBound(fat: seq<nat>, tile: nat)
    requires 0 < tile
    ensures TileStart(Total(TilesOf(fat, tile)), tile) <= Total(fat) + TileStart(|fat|, tile) - |fat|
  {
    if fat != [] {
      var n := |fat| - 1;
      assert TilesOf(fat, tile)[..n] == TilesOf(fat[..n], tile);
      TilesBoundNext(Total(TilesOf(fat[..n], tile)), n, fat[n], tile);
      TilesBound(fat[..n], tile);
    }
  }

  lemma TilesBoundNext(before: nat, n: nat, last: nat, tile: nat)
    requires 0 < tile
    ensures TileStart(before + CeilDiv(last, tile), tile) <= TileStart(before, tile) + last + (tile - 1)
    ensures TileStart(n + 1, tile) == TileStart(n, tile) + tile
  {
    hide CeilDiv, TileStart;
    CeilZero(last, tile);
    TileAdd(before, CeilDiv(last, tile), tile);
    TileAdd(n, 1, tile);
  }

  lemma SegsBound(segs: nat, n: nat, rows: nat, rowsCap: nat, tile: nat)
    requires 0 < n && 0 < tile && rows <= rowsCap
    requires TileStart(segs, tile) <= rows + TileStart(n, tile) - n
    ensures segs <= CeilDiv(rowsCap, tile) + n
  {
    hide CeilDiv, TileStart;
    CeilZero(rowsCap, tile);
    var room := CeilDiv(rowsCap, tile);
    TileAdd(room, n, tile);
    TileMono(room + n, segs, tile);
  }

  /** The segments in use never outgrow the segment table. */
  lemma SegsFit(counts: seq<nat>, cap: nat, rowsCap: nat, tile: nat)
    requires counts != [] && 0 < tile && Total(counts) <= rowsCap
    ensures Grouped(counts, cap, rowsCap, tile).numSegs <= MaxSegs(counts, rowsCap, tile)
  {
    hide CeilDiv, TileStart;
    var fat := FatOf(counts, cap);
    TotalLeq(fat, counts);
    TilesBound(fat, tile);
    SegsBound(Total(TilesOf(fat, tile)), |counts|, Total(fat), rowsCap, tile);
  }

  // The tile of run `e` that table entry `j` stands for.
  lemma SegAt(fat: seq<nat>, tile: nat, j: nat)
    requires 0 < tile && j < Total(TilesOf(fat, tile))
    ensures fat != []
    ensures
      var tiles := TilesOf(fat, tile);
      var e := RunOf(tiles, j);
      var i := j - Begins(tiles)[e];
      && 0 <= i < tiles[e] && 0 <= TileStart(i, tile) < fat[e]
      && SegRow0(fat, tile, j) == Begins(fat)[e] + TileStart(i, tile)
      && SegRows(fat, tile, j) == (if i + 1 < tiles[e] then tile else fat[e] - TileStart(i, tile))
      && 1 <= SegRows(fat, tile, j) <= tile
  {
    hide TileStart, CeilDiv;
    var tiles := TilesOf(fat, tile);
    Located(tiles, j);
    var e := RunOf(tiles, j);
    var i := j - Begins(tiles)[e];
    CeilZero(fat[e], tile);
    TileInside(fat[e], tile, i);
  }

  lemma TileInside(n: nat, tile: nat, i: nat)
    requires 0 < tile && i < CeilDiv(n, tile)
    ensures 0 <= TileStart(i, tile) < n
    ensures i + 1 < CeilDiv(n, tile) ==> tile < n - TileStart(i, tile)
    ensures i + 1 == CeilDiv(n, tile) ==> n - TileStart(i, tile) <= tile
  {
    hide TileStart, CeilDiv;
    var c := CeilDiv(n, tile);
    CeilZero(n, tile);
    TileAdd(i, 1, tile);
    TileAdd(i + 1, 1, tile);
    TileMono(i + 1, c, tile);
    TileMono(i + 2, c, tile);
    TileMono(i, i, tile);
  }

  // The rows of segment `j` are rows of its own expert.
  lemma SegInside(fat: seq<nat>, tile: nat, j: nat, r: nat)
    requires 0 < tile && j < Total(TilesOf(fat, tile)) && fat != []
    requires SegRow0(fat, tile, j) <= r < SegRow0(fat, tile, j) + SegRows(fat, tile, j)
    ensures r < Total(fat) && RunOf(fat, r) == RunOf(TilesOf(fat, tile), j)
  {
    hide TileStart, CeilDiv;
    SegAt(fat, tile, j);
    var e := RunOf(TilesOf(fat, tile), j);
    var i := j - Begins(TilesOf(fat, tile))[e];
    if i + 1 < TilesOf(fat, tile)[e] { TileInside(fat[e], tile, i); }
    LocatedOnly(fat, e, r);
  }

  lemma SegFirst(fat: seq<nat>, tile: nat)
    requires 0 < tile && 0 < Total(TilesOf(fat, tile))
    ensures fat != [] && SegRow0(fat, tile, 0) == 0
  {
    hide CeilDiv;
    var tiles := TilesOf(fat, tile);
    SegAt(fat, tile, 0);
    SkipEmpty(fat, tile, 0, RunOf(tiles, 0));
  }

  // Runs without tiles have no rows.
  lemma SkipEmpty(fat: seq<nat>, tile: nat, d: nat, e: nat)
    requires 0 < tile && d <= e <= |fat| && Total(TilesOf(fat, tile)[..d]) == Total(TilesOf(fat, tile)[..e])
    ensures Total(fat[..d]) == Total(fat[..e])
  {
    hide CeilDiv;
    var tiles := TilesOf(fat, tile);
    TotalAscends(tiles, d, e);
    forall i | d <= i < e ensures fat[i] == 0 {
      assert tiles[i] == 0;
      CeilZero(fat[i], tile);
    }
    TotalAscends(fat, d, e);
  }

  lemma SegNextSame(fat: seq<nat>, tile: nat, j: nat)
    requires 0 < tile && j < Total(TilesOf(fat, tile)) && fat != []
    requires
      var tiles := TilesOf(fat, tile);
      j + 1 < Begins(tiles)[RunOf(tiles, j)] + tiles[RunOf(tiles, j)]
    ensures j + 1 < Total(TilesOf(fat, tile))
    ensures SegRow0(fat, tile, j) + SegRows(fat, tile, j) == SegRow0(fat, tile, j + 1)
  {
    hide TileStart, CeilDiv;
    var tiles := TilesOf(fat, tile);
    SegAt(fat, tile, j);
    var e := RunOf(tiles, j);
    LocatedOnly(tiles, e, j + 1);
    SegAt(fat, tile, j + 1);
    TileAdd(j - Begins(tiles)[e], 1, tile);
  }

  // The last segment of a run ends where the run ends; the next one begins a later run.
  lemma SegNextRun(fat: seq<nat>, tile: nat, j: nat)
    requires 0 < tile && j < Total(TilesOf(fat, tile)) && fat != []
    requires
      var tiles := TilesOf(fat, tile);
      j + 1 == Begins(tiles)[RunOf(tiles, j)] + tiles[RunOf(tiles, j)]
    ensures SegRow0(fat, tile, j) + SegRows(fat, tile, j) ==
      if j + 1 < Total(TilesOf(fat, tile)) then SegRow0(fat, tile, j + 1) else Total(fat)
  {
    hide TileStart, CeilDiv, SegRow0, SegRows, RunOf;
    var tiles := TilesOf(fat, tile);
    SegAt(fat, tile, j);
    var e := RunOf(tiles, j);
    BeginsEnds(tiles, e);
    BeginsEnds(fat, e);
    if j + 1 < Total(tiles) {
      RunStart(fat, tile, j + 1, e);
    } else {
      assert tiles[..|tiles|] == tiles && fat[..|fat|] == fat;
      SkipEmpty(fat, tile, e + 1, |fat|);
    }
  }

  // A segment that is the first after run `e` begins at the end of run `e`.
  lemma RunStart(fat: seq<nat>, tile: nat, j: nat, e: nat)
    requires 0 < tile && j < Total(TilesOf(fat, tile)) && e < |fat| && Ends(TilesOf(fat, tile))[e] == j
    ensures SegRow0(fat, tile, j) == Ends(fat)[e]
  {
    hide CeilDiv, SegRow0, SegRows, Begins, Ends, Total, TilesOf, TileStart;
    var tiles := TilesOf(fat, tile);
    SegAt(fat, tile, j);
    Located(tiles, j);
    var d := RunOf(tiles, j);
    if d <= e { EndsAscend(tiles, d, e); }
    BeginsEnds(tiles, d);
    BeginsIs(tiles, e);
    BeginsIs(tiles, d);
    BeginsIs(fat, e);
    BeginsIs(fat, d);
    TileZero(fat, tile, j);
    TotalAscends(tiles, e + 1, d);
    SkipEmpty(fat, tile, e + 1, d);
  }

  lemma TileZero(fat: seq<nat>, tile: nat, j: nat)
    requires 0 < tile && j < Total(TilesOf(fat, tile)) && fat != []
    ensures
      var e := RunOf(TilesOf(fat, tile), j);
      j == Begins(TilesOf(fat, tile))[e] ==> SegRow0(fat, tile, j) == Begins(fat)[e]
  {
  }

  /** Each segment begins where the one before it ends, and the last ends at the last row. */
  lemma SegNext(fat: seq<nat>, tile: nat, j: nat)
    requires 0 < tile && j < Total(TilesOf(fat, tile))
    ensures fat != []
    ensures SegRow0(fat, tile, j) + SegRows(fat, tile, j) ==
      if j + 1 < Total(TilesOf(fat, tile)) then SegRow0(fat, tile, j + 1) else Total(fat)
  {
    hide CeilDiv, SegRow0, SegRows, TileStart;
    var tiles := TilesOf(fat, tile);
    SegAt(fat, tile, j);
    Located(tiles, j);
    if j + 1 < Begins(tiles)[RunOf(tiles, j)] + tiles[RunOf(tiles, j)] {
      SegNextSame(fat, tile, j);
    } else {
      SegNextRun(fat, tile, j);
    }
  }

  /** The live segments cut the live rows into pieces of one to `tile` rows, end to end, and every
      row of a piece belongs to the expert of the piece. */
  lemma GroupedSegments(counts: seq<nat>, cap: nat, rowsCap: nat, tile: nat, j: nat)
    requires counts != [] && 0 < tile && Total(counts) <= rowsCap
    requires j < Grouped(counts, cap, rowsCap, tile).numSegs
    ensures
      var t := Grouped(counts, cap, rowsCap, tile);
      && t.numSegs <= |t.segRow0| == |t.segRows| == |t.segExpert| && t.numRows <= |t.rowExpert|
      && 1 <= t.segRows[j] <= tile
      && (j == 0 ==> t.segRow0[j] == 0)
      && t.segRow0[j] + t.segRows[j] == (if j + 1 < t.numSegs then t.segRow0[j + 1] else t.numRows)
      && 0 <= t.segRow0[j] && t.segRow0[j] + t.segRows[j] <= t.numRows
      && forall r :: t.segRow0[j] <= r < t.segRow0[j] + t.segRows[j] ==> t.rowExpert[r] == t.segExpert[j]
  {
    hide Grouped, CeilDiv, SegRow0, SegRows, TileStart, FatOf, TilesOf, RunOf, Total;
    var t, fat := Grouped(counts, cap, rowsCap, tile), FatOf(counts, cap);
    GroupedShape(counts, cap, rowsCap, tile);
    SegStart(fat, tile, j);
    SegNext(fat, tile, j);
    if j == 0 { SegFirst(fat, tile); }
    SegInside(fat, tile, j, SegRow0(fat, tile, j) + SegRows(fat, tile, j) - 1);
    forall r | t.segRow0[j] <= r < t.segRow0[j] + t.segRows[j] ensures t.rowExpert[r] == t.segExpert[j] {
      SegInside(fat, tile, j, r);
    }
  }

  lemma GroupedShape(counts: seq<nat>, cap: nat, rowsCap: nat, tile: nat)
    requires counts != [] && 0 < tile && Total(counts) <= rowsCap
    ensures
      var t := Grouped(counts, cap, rowsCap, tile);
      var fat := FatOf(counts, cap);
      var tiles := TilesOf(fat, tile);
      && |t.segRow0| == |t.segRows| == |t.segExpert| && |t.rowExpert| == |t.rowSrc| == rowsCap
      && t.numSegs == Total(tiles) <= |t.segRow0| && t.numRows == Total(fat) <= rowsCap
      && (forall j :: 0 <= j < t.numSegs ==>
            && t.segRow0[j] == SegRow0(fat, tile, j) && t.segRows[j] == SegRows(fat, tile, j)
            && t.segExpert[j] == RunOf(tiles, j))
      && forall r :: 0 <= r < t.numRows ==> t.rowExpert[r] == RunOf(fat, r)
  {
    SegsFit(counts, cap, rowsCap, tile);
    TotalLeq(FatOf(counts, cap), counts);
  }

  lemma SegStart(fat: seq<nat>, tile: nat, j: nat)
    requires 0 < tile && j < Total(TilesOf(fat, tile))
    ensures fat != [] && 0 <= SegRow0(fat, tile, j) && 1 <= SegRows(fat, tile, j) <= tile
  {
    SegAt(fat, tile, j);
  }

  // ---- row tiles --------------------------------------------------------------------

  // What tile `row0 / tile` takes of each expert.
  function TileCounts(counts: seq<nat>, row0: nat, tile: nat): (x: seq<nat>)
    ensures |x| == |counts|
  {
    seq(|counts|, e requires 0 <= e < |counts| => Clamp(counts[e] - row0, 0, tile))
  }

  function Shifted(base: seq<nat>, row0: nat): (x: seq<nat>)
    ensures |x| == |base|
  {
    seq(|base|, e requires 0 <= e < |base| => base[e] + row0)
  }

  // The rows of the sorted buffer that one tile launches.
  function TileRows(counts: seq<nat>, row0: nat, tile: nat): seq<Row> {
    Rows(Shifted(Begins(counts), row0), TileCounts(counts, row0, tile))
  }

  // The first `row0` rows of each expert.
  function HeadOf(counts: seq<nat>, row0: nat): (x: seq<nat>)
    ensures |x| == |counts|
  {
    seq(|counts|, e requires 0 <= e < |counts| => if counts[e] < row0 then counts[e] else row0)
  }

  lemma HeadPlus(counts: seq<nat>, row0: nat, tile: nat)
    ensures Plus(HeadOf(counts, row0), TileCounts(counts, row0, tile)) == HeadOf(counts, row0 + tile)
    ensures forall e :: 0 <= e < |counts| && TileCounts(counts, row0, tile)[e] > 0 ==>
      Plus(Begins(counts), HeadOf(counts, row0))[e] == Shifted(Begins(counts), row0)[e]
  {
    hide Begins;
  }

  lemma TileAdds(counts: seq<nat>, row0: nat, tile: nat)
    ensures multiset(Rows(Begins(counts), HeadOf(counts, row0))) + multiset(TileRows(counts, row0, tile))
         == multiset(Rows(Begins(counts), HeadOf(counts, row0 + tile)))
  {
    hide Rows, Plus, HeadOf, TileCounts, Shifted, Begins;
    var base, head, more := Begins(counts), HeadOf(counts, row0), TileCounts(counts, row0, tile);
    HeadPlus(counts, row0, tile);
    RowsJoin(base, head, more);
    RowsBase(Plus(base, head), Shifted(base, row0), more);
  }

  // All rows launched by the first `n` tiles.
  function Launched(counts: seq<nat>, tile: nat, n: nat): multiset<Row> {
    if n == 0 then multiset{} else
      Launched(counts, tile, n - 1) + multiset(TileRows(counts, TileStart(n - 1, tile), tile))
  }

  lemma {:induction false} LaunchedHead(counts: seq<nat>, tile: nat, n: nat)
    requires 0 < tile
    ensures Launched(counts, tile, n) == multiset(Rows(Begins(counts), HeadOf(counts, TileStart(n, tile))))
  {
    hide TileStart, HeadOf, TileRows, Rows, Begins;
    if n == 0 {
      TileAdd(0, 0, tile);
      NoHead(counts);
    } else {
      LaunchedHead(counts, tile, n - 1);
      TileAdd(n - 1, 1, tile);
      TileAdds(counts, TileStart(n - 1, tile), tile);
    }
  }

  lemma {:induction false} NothingTaken(base: seq<nat>, x: seq<nat>)
    requires |base| == |x| && forall e :: 0 <= e < |x| ==> x[e] == 0
    ensures Rows(base, x) == []
  {
    if x != [] {
      NothingTaken(base[..|x| - 1], x[..|x| - 1]);
    }
  }

  lemma NoHead(counts: seq<nat>)
    ensures Rows(Begins(counts), HeadOf(counts, 0)) == []
  {
    NothingTaken(Begins(counts), HeadOf(counts, 0));
  }

  /** Over all tiles, every row of every expert is launched exactly once. */
  lemma TilesCover(counts: seq<nat>, tile: nat, maxRows: nat)
    requires 0 < tile && forall e :: 0 <= e < |counts| ==> counts[e] <= maxRows
    ensures Launched(counts, tile, CeilDiv(maxRows, tile)) == multiset(Rows(Begins(counts), counts))
  {
    hide TileStart, CeilDiv, Rows, Begins;
    var n := CeilDiv(maxRows, tile);
    LaunchedHead(counts, tile, n);
    CeilZero(maxRows, tile);
    assert HeadOf(counts, TileStart(n, tile)) == counts;
  }

  // Where entry `v` of a tile's gathered buffers comes from.
  function TileSrc(counts: seq<nat>, row0: nat, tile: nat, v: nat): int
    requires counts != []
  {
    var x := TileCounts(counts, row0, tile);
    var e := RunOf(x, v);
    Begins(counts)[e] + row0 + (v - (Ends(x)[e] - x[e]))
  }

  /** A tile's kernel sees, at entry `v`, exactly the row of the sorted buffer that the tile owes
      the expert there; no expert exceeds the tile, and no index leaves the buffer. */
  lemma TileGathers(counts: seq<nat>, row0: nat, tile: nat, v: nat)
    requires v < Total(TileCounts(counts, row0, tile))
    ensures counts != []
    ensures
      var x := TileCounts(counts, row0, tile);
      && (forall e :: 0 <= e < |x| ==> x[e] <= tile)
      && 0 <= TileSrc(counts, row0, tile, v) < Total(counts)
      && TileRows(counts, row0, tile)[v] == Row(TileSrc(counts, row0, tile, v), Rows(Begins(x), x)[v].expert)
      && Rows(Begins(x), x)[v].pos == v
  {
    hide Begins, Ends, Total, Rows;
    var x := TileCounts(counts, row0, tile);
    Located(x, v);
    RowsAt(Shifted(Begins(counts), row0), x, v);
    RowsInOrder(x, v);
    var e := RunOf(x, v);
    BeginsEnds(x, e);
    BeginsEnds(counts, e);
    EndsAscend(counts, e, |counts| - 1);
    BeginsEnds(counts, |counts| - 1);
  }
}
