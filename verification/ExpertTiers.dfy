/** The tiers that run the experts, each adding into one output buffer. */
module ExpertTiers {
  import opened Basics
  import opened ExpertTables
  import opened ExpertSums
  import opened ExpertRouting

  // The output after the given rows have been added to it.
  function Added(a: seq<real>, buf: Buffer, f: (nat, nat) -> real, rows: seq<Row>): (c: seq<real>)
    ensures |c| == |a|
  {
    seq(|a|, t requires 0 <= t < |a| => a[t] + Share(buf, f, rows, t))
  }

  // Every token index is an output index.
  predicate Fits(buf: Buffer, n: nat) {
    |buf.token| == |buf.weight| && forall i :: 0 <= i < |buf.token| ==> buf.token[i] < n
  }

  lemma AddedTwice(a: seq<real>, buf: Buffer, f: (nat, nat) -> real, rows: seq<Row>, more: seq<Row>)
    ensures Added(Added(a, buf, f, rows), buf, f, more) == Added(a, buf, f, rows + more)
  {
    forall t | 0 <= t < |a| ensures Share(buf, f, rows + more, t) == Share(buf, f, rows, t) + Share(buf, f, more, t) {
      SumConcat(rows, more, RowTerm(buf, f, t));
    }
  }

  function Bumped(a: seq<real>, t: nat, x: real): (c: seq<real>)
    requires t < |a|
    ensures |c| == |a|
  {
    a[t := a[t] + x]
  }

  lemma AddedOne(a: seq<real>, buf: Buffer, f: (nat, nat) -> real, r: Row)
    requires Fits(buf, |a|) && r.pos < |buf.token|
    ensures Added(a, buf, f, [r]) == Bumped(a, buf.token[r.pos], Worth(buf, f, r))
  {
    var c := Added(a, buf, f, [r]);
    forall t | 0 <= t < |a| ensures c[t] == if t == buf.token[r.pos] then a[t] + Worth(buf, f, r) else a[t] {
      SumOne(r, RowTerm(buf, f, t));
    }
  }

  lemma AddedNothing(a: seq<real>, buf: Buffer, f: (nat, nat) -> real)
    ensures Added(a, buf, f, []) == a
  {
  }

  // The order in which rows are added does not matter.
  lemma AddedPermuted(a: seq<real>, buf: Buffer, f: (nat, nat) -> real, rows: seq<Row>, others: seq<Row>)
    requires multiset(rows) == multiset(others)
    ensures Added(a, buf, f, rows) == Added(a, buf, f, others)
  {
    forall t | 0 <= t < |a| ensures Share(buf, f, rows, t) == Share(buf, f, others, t) {
      SumPermuted(rows, others, RowTerm(buf, f, t));
    }
  }

  // `index_add_` of one expert's contiguous slice.
  method AddSlice(base: nat, n: nat, e: nat, buf: Buffer, f: (nat, nat) -> real, out: array<real>)
    requires Fits(buf, out.Length) && base + n <= |buf.token|
    modifies out
    ensures out[..] == Added(old(out[..]), buf, f, Strip(base, n, e))
  {
    ghost var a := out[..];
    AddedNothing(a, buf, f);
    assert Strip(base, 0, e) == [];
    for i := 0 to n
      invariant out[..] == Added(a, buf, f, Strip(base, i, e))
    {
      var t := buf.token[base + i];
      AddedOne(out[..], buf, f, Row(base + i, e));
      AddedTwice(a, buf, f, Strip(base, i, e), [Row(base + i, e)]);
      assert Strip(base, i + 1, e) == Strip(base, i, e) + [Row(base + i, e)];
      ghost var before := out[..];
      out[t] := out[t] + Worth(buf, f, Row(base + i, e));
      assert out[..] == Bumped(before, t, Worth(buf, f, Row(base + i, e)));
    }
  }

  lemma RowsGrow(base: seq<nat>, x: seq<nat>, e: nat)
    requires |base| == |x| && e < |x|
    ensures Rows(base[..e + 1], x[..e + 1]) == Rows(base[..e], x[..e]) + Strip(base[e], x[e], e)
  {
    assert base[..e + 1][..e] == base[..e] && x[..e + 1][..e] == x[..e];
  }

  // The fused kernel: it walks the experts' runs and skips any with more than `cap` rows.
  method Launch(counts: seq<nat>, cap: nat, buf: Buffer, f: (nat, nat) -> real, out: array<real>)
    requires Fits(buf, out.Length) && Total(counts) <= |buf.token|
    modifies out
    ensures out[..] == Added(old(out[..]), buf, f, Rows(Begins(counts), ThinOf(counts, cap)))
  {
    ghost var a := out[..];
    ghost var base, thin := Begins(counts), ThinOf(counts, cap);
    AddedNothing(a, buf, f);
    var offset := 0;
    for e := 0 to |counts|
      invariant offset == Total(counts[..e])
      invariant out[..] == Added(a, buf, f, Rows(base[..e], thin[..e]))
    {
      RunInside(counts, e);
      BeginsEnds(counts, e);
      if counts[e] <= cap {
        AddSlice(offset, counts[e], e, buf, f, out);
      } else {
        AddedNothing(out[..], buf, f);
      }
      AddedTwice(a, buf, f, Rows(base[..e], thin[..e]), Strip(base[e], thin[e], e));
      RowsGrow(base, thin, e);
      offset := offset + counts[e];
    }
    assert base[..|counts|] == base && thin[..|counts|] == thin;
  }

  // `apply_exl3_sorted_fat`; the batched tier and its kernels take the same slices.
  method SortedFat(counts: seq<nat>, cap: nat, buf: Buffer, f: (nat, nat) -> real, out: array<real>)
    requires Fits(buf, out.Length) && Total(counts) <= |buf.token|
    modifies out
    ensures out[..] == Added(old(out[..]), buf, f, Rows(Begins(counts), FatOf(counts, cap)))
  {
    ghost var a := out[..];
    ghost var base, fat := Begins(counts), FatOf(counts, cap);
    AddedNothing(a, buf, f);
    var offset := 0;
    for e := 0 to |counts|
      invariant offset == Total(counts[..e])
      invariant out[..] == Added(a, buf, f, Rows(base[..e], fat[..e]))
    {
      RunInside(counts, e);
      BeginsEnds(counts, e);
      var start := offset;
      offset := offset + counts[e];
      if counts[e] > cap {
        AddSlice(start, counts[e], e, buf, f, out);
      } else {
        AddedNothing(out[..], buf, f);
      }
      AddedTwice(a, buf, f, Rows(base[..e], fat[..e]), Strip(base[e], fat[e], e));
      RowsGrow(base, fat, e);
    }
    assert base[..|counts|] == base && fat[..|counts|] == fat;
  }

  // ---- row tiles --------------------------------------------------------------------

  function Gathered(counts: seq<nat>, row0: nat, tile: nat, buf: Buffer): Buffer
    requires counts != [] && Total(counts) <= |buf.token| == |buf.weight|
  {
    var n := Total(TileCounts(counts, row0, tile));
    Buffer(
      seq(n, v requires 0 <= v < n => TileGathers(counts, row0, tile, v); buf.token[TileSrc(counts, row0, tile, v)]),
      seq(n, v requires 0 <= v < n => TileGathers(counts, row0, tile, v); buf.weight[TileSrc(counts, row0, tile, v)]))
  }

  /** A tile's launch on its gathered buffers adds exactly the rows the tile owes. */
  lemma TileAdded(a: seq<real>, counts: seq<nat>, row0: nat, tile: nat, buf: Buffer, f: (nat, nat) -> real)
    requires counts != [] && Total(counts) <= |buf.token| && Fits(buf, |a|)
    ensures
      var x := TileCounts(counts, row0, tile);
      && Fits(Gathered(counts, row0, tile, buf), |a|) && Total(x) == |Gathered(counts, row0, tile, buf).token|
      && Added(a, Gathered(counts, row0, tile, buf), f, Rows(Begins(x), ThinOf(x, tile)))
         == Added(a, buf, f, TileRows(counts, row0, tile))
  {
    hide RowTerm, Gathered, TileRows, TileCounts, Begins;
    var x := TileCounts(counts, row0, tile);
    var rows, mine := TileRows(counts, row0, tile), Rows(Begins(x), x);
    var buf' := Gathered(counts, row0, tile, buf);
    TileFits(counts, row0, tile, buf, |a|);
    assert Added(a, buf', f, mine) == Added(a, buf, f, rows) by {
      forall t | 0 <= t < |a| ensures Share(buf', f, mine, t) == Share(buf, f, rows, t) {
        forall v | 0 <= v < Total(x) ensures RowTerm(buf', f, t)(mine[v]) == RowTerm(buf, f, t)(rows[v]) {
          TileTerm(counts, row0, tile, buf, f, t, v);
        }
        SumPointwise(mine, RowTerm(buf', f, t), rows, RowTerm(buf, f, t));
      }
    }
  }

  lemma TileFits(counts: seq<nat>, row0: nat, tile: nat, buf: Buffer, n: nat)
    requires counts != [] && Total(counts) <= |buf.token| && Fits(buf, n)
    ensures
      var x := TileCounts(counts, row0, tile);
      && Fits(Gathered(counts, row0, tile, buf), n) && Total(x) == |Gathered(counts, row0, tile, buf).token|
      && ThinOf(x, tile) == x && |TileRows(counts, row0, tile)| == Total(x)
  {
    hide TileSrc;
    var x := TileCounts(counts, row0, tile);
    assert ThinOf(x, tile) == x;
    var buf' := Gathered(counts, row0, tile, buf);
    forall v | 0 <= v < Total(x) ensures buf'.token[v] < n {
      TileGathers(counts, row0, tile, v);
    }
  }

  lemma TileTerm(counts: seq<nat>, row0: nat, tile: nat, buf: Buffer, f: (nat, nat) -> real, t: nat, v: nat)
    requires counts != [] && Total(counts) <= |buf.token| == |buf.weight| && v < Total(TileCounts(counts, row0, tile))
    ensures
      var x := TileCounts(counts, row0, tile);
      RowTerm(Gathered(counts, row0, tile, buf), f, t)(Rows(Begins(x), x)[v])
      == RowTerm(buf, f, t)(TileRows(counts, row0, tile)[v])
  {
    TileGathers(counts, row0, tile, v);
  }

  // `_exl3_moe_row_tiles`
  method RowTiles(counts: seq<nat>, tile: nat, maxRows: nat, buf: Buffer, f: (nat, nat) -> real, out: array<real>)
    requires counts != [] && 0 < tile && Fits(buf, out.Length) && Total(counts) <= |buf.token|
    requires forall e :: 0 <= e < |counts| ==> counts[e] <= maxRows
    modifies out
    ensures out[..] == Added(old(out[..]), buf, f, Rows(Begins(counts), counts))
  {
    hide TileStart, CeilDiv, Added, Rows, Begins, HeadOf, TileRows, Gathered, TileCounts, ThinOf;
    ghost var a := out[..];
    ghost var base := Begins(counts);
    var tiles := CeilDiv(maxRows, tile);
    AddedNothing(a, buf, f);
    NoHead(counts);
    TileAdd(0, 0, tile);
    for t := 0 to tiles
      invariant out[..] == Added(a, buf, f, Rows(base, HeadOf(counts, TileStart(t, tile))))
    {
      var row0 := TileStart(t, tile);
      ghost var before := out[..];
      TileAdded(before, counts, row0, tile, buf, f);
      if Total(TileCounts(counts, row0, tile)) == 0 {
        NoTileRows(counts, row0, tile);
        AddedNothing(before, buf, f);
      } else {
        Launch(TileCounts(counts, row0, tile), tile, Gathered(counts, row0, tile, buf), f, out);
      }
      var head := Rows(base, HeadOf(counts, row0));
      AddedTwice(a, buf, f, head, TileRows(counts, row0, tile));
      TileAdds(counts, row0, tile);
      TileAdd(t, 1, tile);
      AddedPermuted(a, buf, f, head + TileRows(counts, row0, tile), Rows(base, HeadOf(counts, row0 + tile)));
    }
    AllHeads(counts, tile, maxRows);
  }

  lemma NoTileRows(counts: seq<nat>, row0: nat, tile: nat)
    requires Total(TileCounts(counts, row0, tile)) == 0
    ensures TileRows(counts, row0, tile) == []
  {
  }

  lemma AllHeads(counts: seq<nat>, tile: nat, maxRows: nat)
    requires 0 < tile && forall e :: 0 <= e < |counts| ==> counts[e] <= maxRows
    ensures HeadOf(counts, TileStart(CeilDiv(maxRows, tile), tile)) == counts
  {
    hide TileStart, CeilDiv;
    CeilZero(maxRows, tile);
  }

  // ---- the grouped tier -------------------------------------------------------------

  // An expert's three stages, one kernel each.
  datatype Stages<!H> = Stages(gather: (nat, nat) -> H, gateUp: (nat, H) -> H, down: (nat, H) -> real)

  // Expert `e` on token `t`, stage by stage.
  function Staged<H>(st: Stages<H>, e: nat, t: nat): real {
    st.down(e, st.gateUp(e, st.gather(e, t)))
  }

  // `apply_exl3_grouped_fat`: gather, then gate and up by one set of segments, then down by another.
  method GroupedFat<H(0)>(counts: seq<nat>, cap: nat, buf: Buffer, st: Stages<H>, f: (nat, nat) -> real,
                          tileUp: nat, tileDown: nat, out: array<real>)
    requires counts != [] && 0 < tileUp && 0 < tileDown && Fits(buf, out.Length) && Total(counts) <= |buf.token|
    requires forall e: nat, t: nat :: f(e, t) == Staged(st, e, t)
    modifies out
    ensures out[..] == Added(old(out[..]), buf, f, Rows(Begins(counts), FatOf(counts, cap)))
  {
    hide Grouped, Added, Begins, FatOf, Total, Rows;
    ghost var a := out[..];
    var rowsCap := |buf.token|;
    ghost var rows := Rows(Begins(counts), FatOf(counts, cap));
    var tg := Grouped(counts, cap, rowsCap, tileUp);
    var td := Grouped(counts, cap, rowsCap, tileDown);
    GroupedRows(counts, cap, rowsCap, tileUp);
    SameRows(counts, cap, rowsCap, tileUp, tileDown);
    SegmentsEnd(counts, cap, rowsCap, tileUp);
    SegmentsEnd(counts, cap, rowsCap, tileDown);
    var h13 := new H[rowsCap];
    var h2 := new H[rowsCap];
    for r := 0 to tg.numRows
      invariant out[..] == a
      invariant forall i :: 0 <= i < r ==> h13[i] == st.gather(tg.rowExpert[i], buf.token[tg.rowSrc[i]])
    {
      h13[r] := st.gather(tg.rowExpert[r], buf.token[tg.rowSrc[r]]);
    }
    GateUp(counts, cap, rowsCap, tileUp, st, h13, h2);
    forall r | 0 <= r < td.numRows
      ensures st.down(td.rowExpert[r], h2[r]) == f(td.rowExpert[r], buf.token[td.rowSrc[r]])
    {
      assert f(td.rowExpert[r], buf.token[td.rowSrc[r]]) == Staged(st, td.rowExpert[r], buf.token[td.rowSrc[r]]);
    }
    Down(counts, cap, rowsCap, tileDown, buf, st, f, h2, out);
  }

  method Down<H>(counts: seq<nat>, cap: nat, rowsCap: nat, tile: nat, buf: Buffer, st: Stages<H>, f: (nat, nat) -> real,
                 h2: array<H>, out: array<real>)
    requires counts != [] && 0 < tile && Fits(buf, out.Length) && Total(counts) <= rowsCap == |buf.token| == h2.Length
    requires
      var t := Grouped(counts, cap, rowsCap, tile);
      && |t.rowExpert| == |t.rowSrc| == rowsCap && t.numRows <= rowsCap
      && forall r :: 0 <= r < t.numRows ==>
           0 <= t.rowSrc[r] < Total(counts) && st.down(t.rowExpert[r], h2[r]) == f(t.rowExpert[r], buf.token[t.rowSrc[r]])
    requires (h2 as object) != out
    modifies out
    ensures out[..] == Added(old(out[..]), buf, f, Rows(Begins(counts), FatOf(counts, cap)))
  {
    hide Grouped, Added, Begins, FatOf, Total, Rows;
    ghost var a := out[..];
    ghost var rows := Rows(Begins(counts), FatOf(counts, cap));
    var t := Grouped(counts, cap, rowsCap, tile);
    GroupedRows(counts, cap, rowsCap, tile);
    SegmentsEnd(counts, cap, rowsCap, tile);
    AddedNothing(a, buf, f);
    assert rows[..0] == [];
    ghost var done: nat := 0;
    for j := 0 to t.numSegs
      invariant done == (if j < t.numSegs then t.segRow0[j] else t.numRows) <= t.numRows
      invariant out[..] == Added(a, buf, f, rows[..done])
    {
      GroupedSegments(counts, cap, rowsCap, tile, j);
      for i := 0 to t.segRows[j]
        invariant done == t.segRow0[j] + i
        invariant out[..] == Added(a, buf, f, rows[..done])
      {
        var r := t.segRow0[j] + i;
        ghost var before := out[..];
        ghost var worth := Worth(buf, f, rows[r]);
        assert rows[r] == Row(t.rowSrc[r], t.rowExpert[r]) && t.rowExpert[r] == t.segExpert[j];
        assert worth == buf.weight[t.rowSrc[r]] * st.down(t.segExpert[j], h2[r]);
        out[buf.token[t.rowSrc[r]]] := out[buf.token[t.rowSrc[r]]] + buf.weight[t.rowSrc[r]] * st.down(t.segExpert[j], h2[r]);
        assert out[..] == Bumped(before, buf.token[t.rowSrc[r]], worth);
        AddedOne(before, buf, f, rows[r]);
        AddedTwice(a, buf, f, rows[..r], [rows[r]]);
        assert rows[..r + 1] == rows[..r] + [rows[r]];
        done := r + 1;
      }
    }
    assert rows[..|rows|] == rows;
  }

  method GateUp<H>(counts: seq<nat>, cap: nat, rowsCap: nat, tile: nat, st: Stages<H>, h13: array<H>, h2: array<H>)
    requires counts != [] && 0 < tile && Total(counts) <= rowsCap == h13.Length == h2.Length && h13 != h2
    modifies h2
    ensures
      var t := Grouped(counts, cap, rowsCap, tile);
      && t.numRows <= rowsCap == |t.rowExpert|
      && forall r :: 0 <= r < t.numRows ==> h2[r] == st.gateUp(t.rowExpert[r], h13[r])
  {
    hide Grouped, Total;
    var t := Grouped(counts, cap, rowsCap, tile);
    SegmentsEnd(counts, cap, rowsCap, tile);
    ghost var done: nat := 0;
    for j := 0 to t.numSegs
      invariant done == (if j < t.numSegs then t.segRow0[j] else t.numRows) <= t.numRows
      invariant forall r :: 0 <= r < done ==> h2[r] == st.gateUp(t.rowExpert[r], h13[r])
    {
      GroupedSegments(counts, cap, rowsCap, tile, j);
      for i := 0 to t.segRows[j]
        invariant done == t.segRow0[j] + i
        invariant forall r :: 0 <= r < done ==> h2[r] == st.gateUp(t.rowExpert[r], h13[r])
      {
        var r := t.segRow0[j] + i;
        h2[r] := st.gateUp(t.segExpert[j], h13[r]);
        done := r + 1;
      }
    }
  }

  // The shape of the tables, and where the first segment begins.
  lemma SegmentsEnd(counts: seq<nat>, cap: nat, rowsCap: nat, tile: nat)
    requires counts != [] && 0 < tile && Total(counts) <= rowsCap
    ensures
      var t := Grouped(counts, cap, rowsCap, tile);
      && |t.rowExpert| == |t.rowSrc| == rowsCap && t.numRows <= rowsCap
      && t.numSegs <= |t.segRow0| == |t.segRows| == |t.segExpert|
      && (if 0 < t.numSegs then t.segRow0[0] == 0 else t.numRows == 0)
  {
    hide Grouped, FatOf, Total, TilesOf, CeilDiv, SegRow0, SegRows, RunOf;
    var fat := FatOf(counts, cap);
    GroupedShape(counts, cap, rowsCap, tile);
    if Total(TilesOf(fat, tile)) == 0 {
      assert fat[..|fat|] == fat && TilesOf(fat, tile)[..|fat|] == TilesOf(fat, tile);
      assert fat[..0] == TilesOf(fat, tile)[..0] == [];
      NoTotal();
      SkipEmpty(fat, tile, 0, |fat|);
    } else {
      GroupedSegments(counts, cap, rowsCap, tile, 0);
    }
  }

  lemma NoTotal()
    ensures Total([]) == 0
  {
  }

  // The row tables do not depend on the tile.
  lemma SameRows(counts: seq<nat>, cap: nat, rowsCap: nat, tile: nat, other: nat)
    requires counts != [] && 0 < tile && 0 < other
    ensures
      var t, u := Grouped(counts, cap, rowsCap, tile), Grouped(counts, cap, rowsCap, other);
      t.rowExpert == u.rowExpert && t.rowSrc == u.rowSrc && t.numRows == u.numRows
  {
  }

  // ---- the per-expert loop ----------------------------------------------------------

  function AddedSlots(a: seq<real>, b: Batch, plan: Plan): (c: seq<real>)
    requires 0 < b.topk
    ensures |c| == |a|
  {
    seq(|a|, t requires 0 <= t < |a| => a[t] + SlotSum(b, plan, t))
  }

  // The slots the loop runs: those whose raw id it gives to one of `only`.
  function LoopPlan(b: Batch, only: set<nat>): (plan: Plan)
    ensures |plan| == b.Slots()
  {
    seq(b.Slots(), s requires 0 <= s < b.Slots() =>
      var e := LoopExpert(b, b.ids[s]);
      if e.Some? && e.value in only then e else None)
  }

  function Nowhere(n: nat): (plan: Plan)
    ensures |plan| == n
  {
    seq(n, _ => None)
  }

  lemma NothingPlanned(a: seq<real>, b: Batch)
    requires b.Valid()
    ensures AddedSlots(a, b, Nowhere(b.Slots())) == a
  {
    forall t | 0 <= t < |a| ensures SlotSum(b, Nowhere(b.Slots()), t) == 0.0 {
      SumZero(Iota(b.Slots()), SlotTerm(b, Nowhere(b.Slots()), t));
    }
  }

  function SlotWorth(b: Batch, s: nat, e: nat): real
    requires 0 < b.topk && s < |b.weight|
  {
    b.weight[s] * b.expert(e, s / b.topk)
  }

  lemma SlotPlanned(a: seq<real>, b: Batch, plan: Plan, s: nat, e: nat)
    requires b.Valid() && |plan| == b.Slots() && s < b.Slots() && plan[s] == None && s / b.topk < |a|
    ensures AddedSlots(a, b, plan[s := Some(e)]) == Bumped(AddedSlots(a, b, plan), s / b.topk, SlotWorth(b, s, e))
  {
    var more := plan[s := Some(e)];
    forall t | 0 <= t < |a|
      ensures SlotSum(b, more, t) == SlotSum(b, plan, t) + if t == s / b.topk then SlotWorth(b, s, e) else 0.0
    {
      SlotSummed(b, plan, s, e, t);
    }
    assert AddedSlots(a, b, more) == Bumped(AddedSlots(a, b, plan), s / b.topk, SlotWorth(b, s, e));
  }

  lemma SlotSummed(b: Batch, plan: Plan, s: nat, e: nat, t: nat)
    requires b.Valid() && |plan| == b.Slots() && s < b.Slots() && plan[s] == None
    ensures SlotSum(b, plan[s := Some(e)], t) == SlotSum(b, plan, t) + if t == s / b.topk then SlotWorth(b, s, e) else 0.0
  {
    hide SlotTerm;
    var n := b.Slots();
    var g, h := SlotTerm(b, plan, t), SlotTerm(b, plan[s := Some(e)], t);
    var rest := Iota(n)[..s] + Iota(n)[s + 1..];
    SumTakeOut(Iota(n), s, g);
    SumTakeOut(Iota(n), s, h);
    forall i | 0 <= i < |rest| ensures g(rest[i]) == h(rest[i]) {
      assert rest[i] == if i < s then i else i + 1;
      TermAt(b, plan, s, e, t, rest[i]);
    }
    SumPointwise(rest, g, rest, h);
    TermAt(b, plan, s, e, t, s);
  }

  lemma TermAt(b: Batch, plan: Plan, s: nat, e: nat, t: nat, u: nat)
    requires b.Valid() && |plan| == b.Slots() && s < b.Slots() && plan[s] == None
    ensures u != s ==> SlotTerm(b, plan[s := Some(e)], t)(u) == SlotTerm(b, plan, t)(u)
    ensures SlotTerm(b, plan, t)(s) == 0.0
    ensures SlotTerm(b, plan[s := Some(e)], t)(s) == if t == s / b.topk then SlotWorth(b, s, e) else 0.0
  {
  }

  // `apply_exl3_python_loop`; the order of the distinct raw ids does not matter.
  method PythonLoop(b: Batch, only: set<nat>, out: array<real>)
    requires b.Valid() && out.Length == b.tokens
    modifies out
    ensures out[..] == AddedSlots(old(out[..]), b, LoopPlan(b, only))
  {
    hide AddedSlots, LoopExpert, SlotWorth;
    ghost var a := out[..];
    ghost var plan := Nowhere(b.Slots());
    NothingPlanned(a, b);
    var todo := set raw | raw in b.ids;
    while todo != {}
      invariant out[..] == AddedSlots(a, b, plan) && |plan| == b.Slots()
      invariant forall s :: 0 <= s < b.Slots() ==> plan[s] == if b.ids[s] in todo then None else LoopPlan(b, only)[s]
      decreases todo
    {
      var raw :| raw in todo;
      var e := LoopExpert(b, raw);
      if e.Some? && e.value in only {
        for s := 0 to b.Slots()
          invariant out[..] == AddedSlots(a, b, plan) && |plan| == b.Slots()
          invariant forall i :: 0 <= i < b.Slots() ==>
            plan[i] == if b.ids[i] in todo && (b.ids[i] != raw || i >= s) then None else LoopPlan(b, only)[i]
        {
          if b.ids[s] == raw {
            TokenOf(b, s);
            var t := s / b.topk;
            ghost var before := out[..];
            SlotPlanned(a, b, plan, s, e.value);
            out[t] := out[t] + SlotWorth(b, s, e.value);
            assert out[..] == Bumped(before, t, SlotWorth(b, s, e.value));
            plan := plan[s := e];
          }
        }
      }
      todo := todo - {raw};
    }
    assert plan == LoopPlan(b, only);
  }

  lemma TokenOf(b: Batch, s: nat)
    requires b.Valid() && s < b.Slots()
    ensures s / b.topk < b.tokens
  {
    if s / b.topk >= b.tokens {
      DivBack(s, b.topk, b.tokens);
    }
  }

  lemma DivBack(s: nat, k: nat, n: nat)
    requires 0 < k && n <= s / k
    ensures n * k <= s
  {
    assert s == (s / k) * k + s % k;
    assert (s / k - n) * k >= 0;
    assert (s / k) * k == (s / k - n) * k + n * k;
  }
}
