/** Routing of a batch to the local experts: the map from global ids, the sort by expert, and what
    each routed slot is worth. One output coordinate is modelled; every coordinate goes the same way. */
module ExpertRouting {
  import opened Basics
  import opened ExpertTables
  import opened ExpertSums

  // Slot s is choice s % topk of token s / topk. `expert(e, t)` is expert e's output for token t.
  datatype Batch = Batch(
    tokens: nat, topk: nat, experts: nat, ids: seq<int>, expertMap: Option<seq<int>>,
    weight: seq<real>, expert: (nat, nat) -> real)
  {
    ghost predicate Valid() {
      && 0 < topk && 0 < experts && |ids| == |weight| == tokens * topk
    }

    function Slots(): nat { |ids| }
  }

  // `map_topk_to_local`, one slot: the local expert, or `experts` for none.
  function LocalOf(b: Batch, id: int): (e: nat)
    ensures e <= b.experts
  {
    if b.expertMap.None? then
      if id < 0 || id >= b.experts then b.experts else id
    else
      var m := b.expertMap.value;
      var safe := Clamp(id, 0, if |m| == 0 then 0 else |m| - 1);
      var mapped := if |m| == 0 then b.experts else m[safe];
      if id < 0 || id >= |m| || mapped < 0 || mapped >= b.experts then b.experts else mapped
  }

  // The expert the per-expert loop gives a raw id to; an id beyond the map is taken as local.
  function LoopExpert(b: Batch, raw: int): Option<nat> {
    if raw < 0 then None
    else
      var e := if b.expertMap.Some? && |b.expertMap.value| > raw then b.expertMap.value[raw] else raw;
      if e < 0 || e >= b.experts then None else Some(e)
  }

  predicate BeyondMap(b: Batch, id: int) {
    b.expertMap.Some? && |b.expertMap.value| <= id < b.experts
  }

  function Wanted(b: Batch, id: int): Option<nat> {
    if LocalOf(b, id) < b.experts then Some(LocalOf(b, id)) else None
  }

  /** The loop and the sort agree on an id exactly when it does not lie beyond the expert map. */
  lemma LoopAgrees(b: Batch, id: int)
    ensures LoopExpert(b, id) == Wanted(b, id) <==> !BeyondMap(b, id)
    ensures BeyondMap(b, id) ==> LoopExpert(b, id) == Some(id) && Wanted(b, id) == None
  {
  }

  function Locals(b: Batch): (s: seq<nat>)
    ensures |s| == b.Slots()
  {
    Map(b.ids, id => LocalOf(b, id))
  }

  // `scatter_add_` of ones, without the sentinel's bucket.
  function Counts(b: Batch): (c: seq<nat>)
    ensures |c| == b.experts
  {
    seq(b.experts, e => multiset(Locals(b))[e])
  }

  // Any order that sorts the slots by local expert.
  ghost predicate Sorts(b: Batch, order: seq<nat>) {
    && multiset(order) == multiset(Iota(b.Slots()))
    && (forall p :: 0 <= p < |order| ==> order[p] < b.Slots())
    && forall p, q :: 0 <= p < q < |order| ==> Locals(b)[order[p]] <= Locals(b)[order[q]]
  }

  // ---- sorted slots lie in runs -------------------------------------------------------

  function Below(s: seq<nat>, e: nat): nat {
    if s == [] then 0 else Below(s[..|s| - 1], e) + if s[|s| - 1] < e then 1 else 0
  }

  lemma {:induction false} BelowNext(s: seq<nat>, e: nat)
    ensures Below(s, e + 1) == Below(s, e) + multiset(s)[e]
    ensures Below(s, 0) == 0 && Below(s, e) <= |s|
  {
    if s != [] {
      var n := |s| - 1;
      BelowNext(s[..n], e);
      assert s == s[..n] + [s[n]];
    }
  }

  lemma {:induction false} BelowCounts(s: seq<nat>, x: seq<nat>, e: nat)
    requires e <= |x| && forall d :: 0 <= d < |x| ==> x[d] == multiset(s)[d]
    ensures Below(s, e) == Total(x[..e])
  {
    if e == 0 {
      BelowNext(s, 0);
    } else {
      BelowCounts(s, x, e - 1);
      BelowNext(s, e - 1);
      assert x[..e][..e - 1] == x[..e - 1];
    }
  }

  ghost predicate Ascending(s: seq<nat>) {
    forall p, q :: 0 <= p < q < |s| ==> s[p] <= s[q]
  }

  lemma {:induction false} BelowFirst(s: seq<nat>, e: nat, p: nat)
    requires Ascending(s) && p < |s|
    ensures s[p] < e <==> p < Below(s, e)
  {
    var n := |s| - 1;
    BelowNext(s[..n], e);
    if p < n {
      BelowFirst(s[..n], e, p);
      if s[n] < e { AllBelow(s[..n], e); }
    } else if s[n] < e {
      AllBelow(s[..n], e);
    }
  }

  lemma {:induction false} AllBelow(s: seq<nat>, e: nat)
    requires forall p :: 0 <= p < |s| ==> s[p] < e
    ensures Below(s, e) == |s|
  {
    if s != [] {
      AllBelow(s[..|s| - 1], e);
    }
  }

  /** In sorted order, the first `Total(Counts)` positions are the routed slots, and each lies in
      its own expert's run; the positions after them have no local expert. */
  lemma SortedRuns(b: Batch, order: seq<nat>, p: nat)
    requires Sorts(b, order) && p < |order|
    ensures |order| == b.Slots() && order[p] < |Locals(b)|
    ensures
      var e := Locals(b)[order[p]];
      var c := Counts(b);
      if p < Total(c) then e < b.experts && SearchRight(Ends(c), p) == e else e == b.experts
  {
    var h := (x: nat) => if x < |Locals(b)| then Locals(b)[x] else 0;
    SortedLocals(b, order);
    hide Locals, Sorts, SearchRight, Ends;
    RunOfSorted(Map(order, h), Counts(b), p);
  }

  lemma RunOfSorted(s: seq<nat>, c: seq<nat>, p: nat)
    requires Ascending(s) && p < |s| && s[p] <= |c| && forall d :: 0 <= d < |c| ==> c[d] == multiset(s)[d]
    ensures if p < Total(c) then s[p] < |c| && SearchRight(Ends(c), p) == s[p] else s[p] == |c|
  {
    hide SearchRight, Ascending, Below;
    var e := s[p];
    assert c[..|c|] == c;
    BelowCounts(s, c, |c|);
    BelowFirst(s, |c|, p);
    if e < |c| {
      BelowFirst(s, e, p);
      BelowFirst(s, e + 1, p);
      BelowCounts(s, c, e);
      BelowCounts(s, c, e + 1);
      BeginsEnds(c, e);
      LocatedOnly(c, e, p);
    }
  }

  lemma SortedLocals(b: Batch, order: seq<nat>)
    requires Sorts(b, order)
    ensures |order| == b.Slots()
    ensures
      var s := Map(order, (x: nat) => if x < |Locals(b)| then Locals(b)[x] else 0);
      && Ascending(s) && multiset(s) == multiset(Locals(b))
      && forall p :: 0 <= p < |order| ==> order[p] < |Locals(b)| && s[p] == Locals(b)[order[p]] <= b.experts
  {
    var h := (x: nat) => if x < |Locals(b)| then Locals(b)[x] else 0;
    MapPermuted(order, Iota(b.Slots()), h);
    assert |multiset(order)| == |multiset(Iota(b.Slots()))|;
    assert Map(Iota(b.Slots()), h) == Locals(b);
  }

  // ---- what rows and slots are worth --------------------------------------------------

  // The gathered inputs of a launch: row v works on `token[v]` with `weight[v]`.
  datatype Buffer = Buffer(token: seq<nat>, weight: seq<real>)

  function SortedBuffer(b: Batch, order: seq<nat>): Buffer
    requires 0 < b.topk && forall p :: 0 <= p < |order| ==> order[p] < |b.weight|
  {
    Buffer(seq(|order|, p requires 0 <= p < |order| => order[p] / b.topk),
           seq(|order|, p requires 0 <= p < |order| => b.weight[order[p]]))
  }

  // What a row adds to its token's output.
  function Worth(buf: Buffer, f: (nat, nat) -> real, r: Row): real
    requires r.pos < |buf.token| && r.pos < |buf.weight|
  {
    buf.weight[r.pos] * f(r.expert, buf.token[r.pos])
  }

  // What one row adds to the output of token `t`.
  function RowTerm(buf: Buffer, f: (nat, nat) -> real, t: nat): Row -> real {
    (r: Row) => if r.pos < |buf.token| && r.pos < |buf.weight| && buf.token[r.pos] == t
         then Worth(buf, f, r) else 0.0
  }

  function Share(buf: Buffer, f: (nat, nat) -> real, rows: seq<Row>, t: nat): real {
    SumOver(rows, RowTerm(buf, f, t))
  }

  // Which expert, if any, each slot is given to.
  type Plan = seq<Option<nat>>

  function SlotTerm(b: Batch, plan: Plan, t: nat): nat -> real
    requires 0 < b.topk
  {
    (s: nat) => if s < |plan| && s < |b.weight| && plan[s].Some? && s / b.topk == t
         then b.weight[s] * b.expert(plan[s].value, t) else 0.0
  }

  function SlotSum(b: Batch, plan: Plan, t: nat): real
    requires 0 < b.topk
  {
    SumOver(Iota(b.Slots()), SlotTerm(b, plan, t))
  }

  // The slots of the experts that have rows in `x`.
  function PlanOf(b: Batch, x: seq<nat>): (plan: Plan)
    requires |x| == b.experts
    ensures |plan| == b.Slots()
  {
    seq(b.Slots(), s requires 0 <= s < b.Slots() =>
      var e := LocalOf(b, b.ids[s]);
      if e < b.experts && x[e] > 0 then Some(e) else None)
  }

  function Masked(x: seq<nat>, g: Row -> real): Row -> real {
    (r: Row) => if r.expert < |x| && x[r.expert] > 0 then g(r) else 0.0
  }

  lemma RowsSum(base: seq<nat>, x: seq<nat>, m: nat, g: Row -> real)
    requires |base| == |x| && m < |x|
    ensures SumOver(Rows(base[..m + 1], x[..m + 1]), g)
         == SumOver(Rows(base[..m], x[..m]), g) + SumOver(Strip(base[m], x[m], m), g)
  {
    assert base[..m + 1][..m] == base[..m] && x[..m + 1][..m] == x[..m];
    SumConcat(Rows(base[..m], x[..m]), Strip(base[m], x[m], m), g);
  }

  // Leaving out whole experts is giving their rows nothing.
  lemma {:induction false} LeftOut(base: seq<nat>, c: seq<nat>, x: seq<nat>, n: nat, g: Row -> real)
    requires |base| == |c| == |x| && n <= |x| && forall e :: 0 <= e < |x| ==> x[e] == 0 || x[e] == c[e]
    ensures SumOver(Rows(base[..n], x[..n]), g) == SumOver(Rows(base[..n], c[..n]), Masked(x, g))
  {
    if n > 0 {
      hide Masked, Strip, Rows;
      var m := n - 1;
      LeftOut(base, c, x, m, g);
      RowsSum(base, x, m, g);
      RowsSum(base, c, m, Masked(x, g));
      LeftOutStrip(base[m], c[m], x, m, g);
    }
  }

  lemma LeftOutStrip(base: nat, n: nat, x: seq<nat>, e: nat, g: Row -> real)
    requires e < |x| && (x[e] == 0 || x[e] == n)
    ensures SumOver(Strip(base, x[e], e), g) == SumOver(Strip(base, n, e), Masked(x, g))
  {
    if x[e] == 0 {
      SumZero(Strip(base, n, e), Masked(x, g));
    } else {
      SumPointwise(Strip(base, x[e], e), g, Strip(base, n, e), Masked(x, g));
    }
  }

  /** What the rows of some experts add up to is what their slots are worth. */
  lemma RowsAreSlots(b: Batch, order: seq<nat>, x: seq<nat>, t: nat)
    requires b.Valid() && Sorts(b, order) && |x| == b.experts
    requires forall e :: 0 <= e < |x| ==> x[e] == 0 || x[e] == Counts(b)[e]
    ensures Share(SortedBuffer(b, order), b.expert, Rows(Begins(Counts(b)), x), t) == SlotSum(b, PlanOf(b, x), t)
  {
    var c, buf := Counts(b), SortedBuffer(b, order);
    var base, g := Begins(c), RowTerm(buf, b.expert, t);
    LeftOut(base, c, x, |x|, g);
    assert base[..|x|] == base && x[..|x|] == x && c[..|x|] == c;
    PositionsAreSlots(b, order, x, t);
    SumPermuted(order, Iota(b.Slots()), SlotTerm(b, PlanOf(b, x), t));
  }

  lemma PositionsAreSlots(b: Batch, order: seq<nat>, x: seq<nat>, t: nat)
    requires b.Valid() && Sorts(b, order) && |x| == b.experts
    ensures
      SumOver(Rows(Begins(Counts(b)), Counts(b)), Masked(x, RowTerm(SortedBuffer(b, order), b.expert, t)))
      == SumOver(order, SlotTerm(b, PlanOf(b, x), t))
  {
    hide Counts, Begins, SlotTerm, Masked, RowTerm, SortedBuffer, PlanOf, Rows;
    var c := Counts(b);
    var rows, h := Rows(Begins(c), c), SlotTerm(b, PlanOf(b, x), t);
    var g := Masked(x, RowTerm(SortedBuffer(b, order), b.expert, t));
    RunsFit(b, order);
    forall p | 0 <= p < |rows| ensures g(rows[p]) == h(order[..|rows|][p]) {
      PositionTerm(b, order, x, t, p);
    }
    SumPointwise(rows, g, order[..|rows|], h);
    forall p | |rows| <= p < |order| ensures h(order[p]) == 0.0 {
      PositionZero(b, order, x, t, p);
    }
    SumHead(order, |rows|, h);
  }

  lemma PositionZero(b: Batch, order: seq<nat>, x: seq<nat>, t: nat, p: nat)
    requires b.Valid() && Sorts(b, order) && |x| == b.experts && Total(Counts(b)) <= p < |order|
    ensures SlotTerm(b, PlanOf(b, x), t)(order[p]) == 0.0
  {
    SortedRuns(b, order, p);
  }

  lemma PositionTerm(b: Batch, order: seq<nat>, x: seq<nat>, t: nat, p: nat)
    requires b.Valid() && Sorts(b, order) && |x| == b.experts && p < Total(Counts(b)) && p < |order|
    ensures
      Masked(x, RowTerm(SortedBuffer(b, order), b.expert, t))(Rows(Begins(Counts(b)), Counts(b))[p])
      == SlotTerm(b, PlanOf(b, x), t)(order[p])
  {
    hide Rows, Begins, Ends, SearchRight, Total, Counts;
    SortedRuns(b, order, p);
    RowsInOrder(Counts(b), p);
  }

  // There are no more routed slots than slots.
  lemma RunsFit(b: Batch, order: seq<nat>)
    requires Sorts(b, order)
    ensures Total(Counts(b)) <= |order| == b.Slots()
  {
    SortedLocals(b, order);
    BelowCounts(Locals(b), Counts(b), b.experts);
    assert Counts(b)[..b.experts] == Counts(b);
    BelowNext(Locals(b), b.experts);
  }
}
