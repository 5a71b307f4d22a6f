/** The choice between the tiers, and what every choice computes. */
module ExpertDispatch {
  import opened Basics
  import opened ExpertTables
  import opened ExpertSums
  import opened ExpertRouting
  import opened ExpertTiers
  import opened FlatIndex

  // The switches the dispatch reads.
  datatype Flags = Flags(rowTiles: bool, groupedFat: bool, tierGrouped: bool, fatKernel: bool,
                         batchedFat: bool, sortedFat: bool, sharedSuh: bool)
  {
    predicate Grouped() { groupedFat && !rowTiles && tierGrouped }
    predicate WantKernel() { fatKernel || groupedFat }
    predicate WantBatched() { batchedFat || WantKernel() }
    predicate UseSorted() { sortedFat || WantBatched() }
    predicate UseBatched() { WantBatched() && sharedSuh }
    // Fat experts are left to the per-expert loop.
    predicate Legacy() { !Grouped() && !rowTiles && !UseSorted() }
  }

  /** The per-expert loop is left the fat experts exactly if every switch for another tier is off. */
  lemma LegacyWhen(flags: Flags)
    ensures flags.Legacy() <==>
      !flags.rowTiles && !flags.groupedFat && !flags.fatKernel && !flags.batchedFat && !flags.sortedFat
  {
  }

  function FatExperts(b: Batch, cap: nat): set<nat> {
    set e | 0 <= e < b.experts && Counts(b)[e] > cap
  }

  // The expert each slot is run with, if any.
  function Executed(b: Batch, flags: Flags, cap: nat): (plan: Plan)
    ensures |plan| == b.Slots()
  {
    if b.tokens <= cap then PlanOf(b, ThinOf(Counts(b), cap))
    else if flags.Legacy() then Either(PlanOf(b, ThinOf(Counts(b), cap)), LoopPlan(b, FatExperts(b, cap)))
    else PlanOf(b, Counts(b))
  }

  function Either(p: Plan, q: Plan): (plan: Plan)
    requires |p| == |q|
    ensures |plan| == |p|
  {
    seq(|p|, s requires 0 <= s < |p| => if p[s].Some? then p[s] else q[s])
  }

  // The direct computation: every choice with a local expert, token by token.
  function DirectTerm(b: Batch, t: nat): nat -> real {
    (k: nat) => var s := t * b.topk + k;
      if 0 <= s < |b.ids| && s < |b.weight| && Wanted(b, b.ids[s]).Some?
      then b.weight[s] * b.expert(Wanted(b, b.ids[s]).value, t) else 0.0
  }

  function Direct(b: Batch, t: nat): real {
    SumOver(Iota(b.topk), DirectTerm(b, t))
  }

  // The output in which every token has what its slots are worth under the plan.
  function Worths(b: Batch, plan: Plan): (c: seq<real>)
    requires 0 < b.topk
    ensures |c| == b.tokens
  {
    seq(b.tokens, t requires 0 <= t < b.tokens => SlotSum(b, plan, t))
  }

  function Zeros(n: nat): (c: seq<real>)
    ensures |c| == n
  {
    seq(n, _ => 0.0)
  }

  lemma RowsDone(b: Batch, order: seq<nat>, x: seq<nat>)
    requires b.Valid() && Sorts(b, order) && |x| == b.experts
    requires forall e :: 0 <= e < |x| ==> x[e] == 0 || x[e] == Counts(b)[e]
    ensures Added(Zeros(b.tokens), SortedBuffer(b, order), b.expert, Rows(Begins(Counts(b)), x)) == Worths(b, PlanOf(b, x))
  {
    hide Sorts, Share, SlotSum, PlanOf, SortedBuffer, Rows, Begins;
    SortsInside(b, order);
    forall t | 0 <= t < b.tokens
      ensures Share(SortedBuffer(b, order), b.expert, Rows(Begins(Counts(b)), x), t) == SlotSum(b, PlanOf(b, x), t)
    {
      RowsAreSlots(b, order, x, t);
    }
  }

  lemma SortsInside(b: Batch, order: seq<nat>)
    requires b.Valid() && Sorts(b, order)
    ensures forall p :: 0 <= p < |order| ==> order[p] < |b.weight|
    ensures Fits(SortedBuffer(b, order), b.tokens) && |SortedBuffer(b, order).token| == |order|
    ensures Total(Counts(b)) <= |order|
  {
    hide Counts;
    forall p | 0 <= p < |order| ensures order[p] / b.topk < b.tokens {
      TokenOf(b, order[p]);
    }
    RunsFit(b, order);
  }

  // A slot is never taken by both the kernel and the loop.
  lemma NeverBoth(b: Batch, cap: nat, s: nat)
    requires s < b.Slots()
    ensures PlanOf(b, ThinOf(Counts(b), cap))[s] == None || LoopPlan(b, FatExperts(b, cap))[s] == None
  {
    LoopAgrees(b, b.ids[s]);
  }

  lemma LegacyDone(b: Batch, cap: nat)
    requires b.Valid()
    ensures
      var p, q := PlanOf(b, ThinOf(Counts(b), cap)), LoopPlan(b, FatExperts(b, cap));
      AddedSlots(Worths(b, p), b, q) == Worths(b, Either(p, q))
  {
    hide PlanOf, LoopPlan, FatExperts, ThinOf, Counts;
    var p, q := PlanOf(b, ThinOf(Counts(b), cap)), LoopPlan(b, FatExperts(b, cap));
    forall t | 0 <= t < b.tokens ensures SlotSum(b, Either(p, q), t) == SlotSum(b, p, t) + SlotSum(b, q, t) {
      forall s | 0 <= s < b.Slots()
        ensures SlotTerm(b, Either(p, q), t)(s) == SlotTerm(b, p, t)(s) + SlotTerm(b, q, t)(s)
      {
        NeverBoth(b, cap, s);
      }
      SumAdd(Iota(b.Slots()), SlotTerm(b, p, t), SlotTerm(b, q, t), SlotTerm(b, Either(p, q), t));
    }
  }

  // Without fat experts the loop has nothing to do.
  lemma OnlyThin(b: Batch, flags: Flags, cap: nat)
    requires forall e :: 0 <= e < b.experts ==> Counts(b)[e] <= cap
    ensures ThinOf(Counts(b), cap) == Counts(b)
    ensures Executed(b, flags, cap) == PlanOf(b, Counts(b))
  {
    assert ThinOf(Counts(b), cap) == Counts(b);
    assert FatExperts(b, cap) == {};
    var p := PlanOf(b, Counts(b));
    assert Either(p, LoopPlan(b, {})) == p;
  }

  // The rows of the thin launch, of the fat slices, and of both.
  lemma ThinThenFat(b: Batch, order: seq<nat>, cap: nat)
    requires b.Valid() && Sorts(b, order)
    ensures forall p :: 0 <= p < |order| ==> order[p] < |b.weight|
    ensures
      var c, buf, z := Counts(b), SortedBuffer(b, order), Zeros(b.tokens);
      var thin, fat := Rows(Begins(c), ThinOf(c, cap)), Rows(Begins(c), FatOf(c, cap));
      && Added(z, buf, b.expert, thin) == Worths(b, PlanOf(b, ThinOf(c, cap)))
      && Added(z, buf, b.expert, Rows(Begins(c), c)) == Worths(b, PlanOf(b, c))
      && Added(Added(z, buf, b.expert, thin), buf, b.expert, fat) == Worths(b, PlanOf(b, c))
  {
    SortsInside(b, order);
    var c := Counts(b);
    RowsDone(b, order, ThinOf(c, cap));
    RowsDone(b, order, c);
    hide Sorts, SortedBuffer, Rows, Begins, PlanOf, ThinOf, FatOf, Added;
    var buf, z := SortedBuffer(b, order), Zeros(b.tokens);
    var thin, fat := Rows(Begins(c), ThinOf(c, cap)), Rows(Begins(c), FatOf(c, cap));
    AddedTwice(z, buf, b.expert, thin, fat);
    ThinAndFat(c, cap);
    AddedPermuted(z, buf, b.expert, thin + fat, Rows(Begins(c), c));
  }

  /** `apply_exl3_fused_moe`: whichever tiers are taken, every slot is run at most once, by the
      expert the plan names, and the output is what those slots are worth. */
  method Fused<H(0)>(b: Batch, order: seq<nat>, flags: Flags, cap: nat, st: Stages<H>, tileUp: nat, tileDown: nat)
    returns (result: seq<real>)
    requires b.Valid() && Sorts(b, order) && 0 < cap && 0 < tileUp && 0 < tileDown
    requires forall e: nat, t: nat :: b.expert(e, t) == Staged(st, e, t)
    ensures result == Worths(b, Executed(b, flags, cap))
  {
    hide Sorts, Added, Rows, Begins, Counts, FatOf, ThinOf, PlanOf, LoopPlan, Worths, AddedSlots;
    SortsInside(b, order);
    ThinThenFat(b, order, cap);
    var buf, counts := SortedBuffer(b, order), Counts(b);
    hide SortedBuffer;
    var out := new real[b.tokens](_ => 0.0);
    assert out[..] == Zeros(b.tokens);
    if b.tokens <= cap {
      Launch(counts, cap, buf, b.expert, out);
      return out[..];
    }
    if flags.Grouped() {
      Launch(counts, cap, buf, b.expert, out);
      GroupedFat(counts, cap, buf, st, b.expert, tileUp, tileDown, out);
      return out[..];
    }
    var launched := false;
    if flags.UseBatched() && !flags.rowTiles {
      Launch(counts, cap, buf, b.expert, out);
      launched := true;
    }
    var maxRows := MaxOf(counts);
    if maxRows <= cap {
      OnlyThin(b, flags, cap);
      if !launched {
        Launch(counts, cap, buf, b.expert, out);
      }
      return out[..];
    }
    if flags.rowTiles {
      RowTiles(counts, cap, maxRows, buf, b.expert, out);
      return out[..];
    }
    if !launched {
      Launch(counts, cap, buf, b.expert, out);
    }
    if flags.UseBatched() || flags.UseSorted() {
      SortedFat(counts, cap, buf, b.expert, out);
    } else {
      LegacyDone(b, cap);
      PythonLoop(b, FatExperts(b, cap), out);
    }
    return out[..];
  }

  // ---- when the plan is the routing -----------------------------------------------------

  // A launch that is not followed by another tier has no oversized expert, and the per-expert loop
  // meets no id beyond the expert map that it would give to a fat expert.
  ghost predicate Faithful(b: Batch, flags: Flags, cap: nat) {
    && (b.tokens <= cap ==> forall e :: 0 <= e < b.experts ==> Counts(b)[e] <= cap)
    && (b.tokens > cap && flags.Legacy() ==>
          forall s :: 0 <= s < b.Slots() && BeyondMap(b, b.ids[s]) ==> Counts(b)[b.ids[s]] <= cap)
  }

  lemma CountedSlot(b: Batch, s: nat)
    requires s < b.Slots() && LocalOf(b, b.ids[s]) < b.experts
    ensures Counts(b)[LocalOf(b, b.ids[s])] > 0
  {
    assert Locals(b)[s] == LocalOf(b, b.ids[s]);
    assert Locals(b)[s] in multiset(Locals(b));
  }

  lemma SlotOfExpert(b: Batch, e: nat) returns (s: nat)
    requires e < b.experts && Counts(b)[e] > 0
    ensures s < b.Slots() && LocalOf(b, b.ids[s]) == e
  {
    assert e in multiset(Locals(b));
    s :| 0 <= s < |Locals(b)| && Locals(b)[s] == e;
  }

  lemma WantedPlan(b: Batch, s: nat)
    requires s < b.Slots()
    ensures PlanOf(b, Counts(b))[s] == Wanted(b, b.ids[s])
  {
    if LocalOf(b, b.ids[s]) < b.experts { CountedSlot(b, s); }
  }

  lemma ThinPlan(b: Batch, cap: nat, s: nat)
    requires s < b.Slots()
    ensures
      var e := LocalOf(b, b.ids[s]);
      PlanOf(b, ThinOf(Counts(b), cap))[s] == if e < b.experts && Counts(b)[e] <= cap then Some(e) else None
  {
    if LocalOf(b, b.ids[s]) < b.experts { CountedSlot(b, s); }
  }

  /** Every slot with a local expert is run by it exactly once, and no other slot is run, exactly
      when the dispatch is faithful. */
  lemma ExactlyOnce(b: Batch, flags: Flags, cap: nat)
    requires b.Valid()
    ensures (forall s :: 0 <= s < b.Slots() ==> Executed(b, flags, cap)[s] == Wanted(b, b.ids[s])) <==>
            Faithful(b, flags, cap)
  {
    hide Counts, PlanOf, ThinOf;
    if Faithful(b, flags, cap) {
      forall s | 0 <= s < b.Slots() ensures Executed(b, flags, cap)[s] == Wanted(b, b.ids[s]) {
        FaithfulSlot(b, flags, cap, s);
      }
    } else if b.tokens <= cap {
      var e :| 0 <= e < b.experts && Counts(b)[e] > cap;
      var s := SlotOfExpert(b, e);
      ThinPlan(b, cap, s);
      assert Executed(b, flags, cap)[s] != Wanted(b, b.ids[s]);
    } else {
      var s :| 0 <= s < b.Slots() && BeyondMap(b, b.ids[s]) && Counts(b)[b.ids[s]] > cap;
      ThinPlan(b, cap, s);
      LoopAgrees(b, b.ids[s]);
      assert Executed(b, flags, cap)[s] != Wanted(b, b.ids[s]);
    }
  }

  lemma FaithfulSlot(b: Batch, flags: Flags, cap: nat, s: nat)
    requires b.Valid() && Faithful(b, flags, cap) && s < b.Slots()
    ensures Executed(b, flags, cap)[s] == Wanted(b, b.ids[s])
  {
    hide Counts, PlanOf, ThinOf;
    WantedPlan(b, s);
    ThinPlan(b, cap, s);
    LoopAgrees(b, b.ids[s]);
  }

  // The sum over the first slots, one slot at a time.
  lemma OneMoreSlot(b: Batch, plan: Plan, t: nat, m: nat)
    requires b.Valid()
    ensures SumOver(Iota(m + 1), SlotTerm(b, plan, t)) == SumOver(Iota(m), SlotTerm(b, plan, t)) + SlotTerm(b, plan, t)(m)
  {
    assert Iota(m + 1)[..m] == Iota(m);
  }

  lemma OneMoreChoice(b: Batch, t: nat, n: nat)
    ensures SumOver(Iota(n + 1), DirectTerm(b, t)) == SumOver(Iota(n), DirectTerm(b, t)) + DirectTerm(b, t)(n)
  {
    assert Iota(n + 1)[..n] == Iota(n);
  }

  lemma SlotIsChoice(b: Batch, plan: Plan, t: nat, n: nat)
    requires b.Valid() && |plan| == b.Slots() && t < b.tokens && n < b.topk
    requires forall s :: 0 <= s < b.Slots() ==> plan[s] == Wanted(b, b.ids[s])
    ensures 0 <= t * b.topk && SlotTerm(b, plan, t)(t * b.topk + n) == DirectTerm(b, t)(n)
  {
    BlockFits(t, b.tokens, b.topk);
    BlockToken(t * b.topk + n, t, b.topk);
  }

  lemma OtherSlots(b: Batch, plan: Plan, t: nat)
    requires b.Valid() && |plan| == b.Slots() && t < b.tokens
    ensures 0 <= t * b.topk && SumOver(Iota(t * b.topk), SlotTerm(b, plan, t)) == 0.0
    ensures forall s :: t * b.topk + b.topk <= s ==> SlotTerm(b, plan, t)(s) == 0.0
  {
    BlockFits(t, b.tokens, b.topk);
    var base, g := t * b.topk, SlotTerm(b, plan, t);
    forall s | 0 <= s < base ensures g(Iota(base)[s]) == 0.0 {
      BlockToken(s, t, b.topk);
    }
    SumZero(Iota(base), g);
    forall s | base + b.topk <= s ensures g(s) == 0.0 {
      BlockToken(s, t, b.topk);
    }
  }

  lemma {:induction false} TokenSlots(b: Batch, plan: Plan, t: nat, n: nat)
    requires b.Valid() && |plan| == b.Slots() && t < b.tokens && n <= b.topk
    requires forall s :: 0 <= s < b.Slots() ==> plan[s] == Wanted(b, b.ids[s])
    ensures 0 <= t * b.topk
    ensures SumOver(Iota(t * b.topk + n), SlotTerm(b, plan, t)) == SumOver(Iota(n), DirectTerm(b, t))
  {
    hide SlotTerm, DirectTerm;
    OtherSlots(b, plan, t);
    if n > 0 {
      TokenSlots(b, plan, t, n - 1);
      OneMoreSlot(b, plan, t, t * b.topk + n - 1);
      OneMoreChoice(b, t, n - 1);
      SlotIsChoice(b, plan, t, n - 1);
    }
  }

  lemma BlockFits(t: nat, tokens: nat, topk: nat)
    requires t < tokens
    ensures 0 <= t * topk && t * topk + topk <= tokens * topk
  {
    assert (tokens - t - 1) * topk >= 0;
    assert tokens * topk == (tokens - t - 1) * topk + t * topk + topk;
  }

  // Slot s belongs to token t exactly if it lies in t's block of choices.
  lemma BlockToken(s: nat, t: nat, topk: nat)
    requires 0 < topk
    ensures s / topk == t <==> t * topk <= s < t * topk + topk
  {
    var q := s / topk;
    QuotientBlock(s, topk);
    if q < t {
      TileMono(q + 1, t, topk);
      TileAdd(q, 1, topk);
    } else if t < q {
      TileMono(t + 1, q, topk);
      TileAdd(t, 1, topk);
    }
  }

  lemma QuotientBlock(s: nat, topk: nat)
    requires 0 < topk
    ensures TileStart(s / topk, topk) <= s < TileStart(s / topk, topk) + topk
  {
    assert s == (s / topk) * topk + s % topk;
  }

  /** A plan that is the routing gives every token the direct sum over its choices. */
  lemma PlanIsDirect(b: Batch, plan: Plan, t: nat)
    requires b.Valid() && |plan| == b.Slots() && t < b.tokens
    requires forall s :: 0 <= s < b.Slots() ==> plan[s] == Wanted(b, b.ids[s])
    ensures SlotSum(b, plan, t) == Direct(b, t)
  {
    hide SlotTerm, DirectTerm;
    TokenSlots(b, plan, t, b.topk);
    OtherSlots(b, plan, t);
    BlockFits(t, b.tokens, b.topk);
    var n := t * b.topk + b.topk;
    assert Iota(b.Slots())[..n] == Iota(n);
    SumHead(Iota(b.Slots()), n, SlotTerm(b, plan, t));
  }

  /** So a faithful dispatch computes the direct per-token sum, whichever tiers it takes. */
  lemma FusedIsDirect(b: Batch, flags: Flags, cap: nat, t: nat)
    requires b.Valid() && Faithful(b, flags, cap) && t < b.tokens
    ensures Worths(b, Executed(b, flags, cap))[t] == Direct(b, t)
  {
    hide Faithful, Executed;
    forall s | 0 <= s < b.Slots() ensures Executed(b, flags, cap)[s] == Wanted(b, b.ids[s]) {
      FaithfulSlot(b, flags, cap, s);
    }
    PlanIsDirect(b, Executed(b, flags, cap), t);
  }

  // ---- batches that fit the kernel ------------------------------------------------------

  // No token names one local expert twice.
  ghost predicate Distinct(b: Batch) {
    forall s, u :: 0 <= s < u < b.Slots() && b.topk > 0 && s / b.topk == u / b.topk && LocalOf(b, b.ids[s]) < b.experts ==>
      LocalOf(b, b.ids[s]) != LocalOf(b, b.ids[u])
  }

  lemma {:induction false} AtMostOnce(s: seq<nat>, e: nat)
    requires forall i, j :: 0 <= i < j < |s| && s[i] == e ==> s[j] != e
    ensures multiset(s)[e] <= 1
  {
    if s != [] {
      var n := |s| - 1;
      assert s == s[..n] + [s[n]];
      AtMostOnce(s[..n], e);
      if s[n] == e {
        assert e !in s[..n];
        assert e !in multiset(s[..n]);
      }
    }
  }

  lemma {:induction false} OncePerToken(b: Batch, e: nat, t: nat)
    requires b.Valid() && Distinct(b) && e < b.experts && t <= b.tokens
    ensures Place(t, b.topk, 0) <= b.Slots()
    ensures multiset(Locals(b)[..Place(t, b.topk, 0)])[e] <= t
  {
    hide Distinct, Place;
    if t == 0 {
      PlaceNext(0, b.topk, 0);
    } else {
      var lo := Place(t - 1, b.topk, 0);
      OncePerToken(b, e, t - 1);
      OnceInBlock(b, e, t - 1);
      PlaceNext(t - 1, b.topk, b.topk);
      assert Locals(b)[..lo + b.topk] == Locals(b)[..lo] + Locals(b)[lo..lo + b.topk];
    }
  }

  lemma OnceInBlock(b: Batch, e: nat, t: nat)
    requires b.Valid() && Distinct(b) && e < b.experts && t < b.tokens
    ensures Place(t, b.topk, 0) + b.topk <= b.Slots()
    ensures multiset(Locals(b)[Place(t, b.topk, 0)..Place(t, b.topk, 0) + b.topk])[e] <= 1
  {
    BlockFits(t, b.tokens, b.topk);
    var lo := Place(t, b.topk, 0);
    var block := Locals(b)[lo..lo + b.topk];
    forall i, j | 0 <= i < j < |block| ensures block[i] == e ==> block[j] != e {
      BlockToken(lo + i, t, b.topk);
      BlockToken(lo + j, t, b.topk);
      assert block[i] == LocalOf(b, b.ids[lo + i]) && block[j] == LocalOf(b, b.ids[lo + j]);
    }
    AtMostOnce(block, e);
  }

  /** If no token names one expert twice, a batch that fits the kernel has no oversized expert. */
  lemma DistinctFits(b: Batch, cap: nat, e: nat)
    requires b.Valid() && Distinct(b) && b.tokens <= cap && e < b.experts
    ensures Counts(b)[e] <= cap
  {
    OncePerToken(b, e, b.tokens);
    assert Locals(b)[..Place(b.tokens, b.topk, 0)] == Locals(b);
  }

  /** One token that names its expert twice, and a kernel of one row: the only launch skips the
      expert, and the token gets nothing. */
  lemma TwiceNamed(f: (nat, nat) -> real, flags: Flags)
    ensures
      var b := Batch(1, 2, 1, [0, 0], None, [1.0, 1.0], f);
      && b.Valid() && b.tokens <= 1 && !Faithful(b, flags, 1)
      && Worths(b, Executed(b, flags, 1))[0] == 0.0 && Direct(b, 0) == 2.0 * f(0, 0)
  {
    var b := Batch(1, 2, 1, [0, 0], None, [1.0, 1.0], f);
    assert Locals(b) == [0, 0];
    assert Counts(b) == [2];
    var plan := Executed(b, flags, 1);
    assert plan == [None, None];
    SumZero(Iota(2), SlotTerm(b, plan, 0));
    OneMoreChoice(b, 0, 0);
    OneMoreChoice(b, 0, 1);
    assert Iota(0) == [];
    assert Wanted(b, b.ids[0]) == Wanted(b, b.ids[1]) == Some(0);
    assert DirectTerm(b, 0)(0) == b.weight[0] * f(0, 0) && DirectTerm(b, 0)(1) == b.weight[1] * f(0, 0);
  }

  // Three tokens, of which the third names id 1; the expert map holds only id 0, as local expert 1.
  function ShortMap(f: (nat, nat) -> real): Batch {
    Batch(3, 1, 2, [0, 0, 1], Some([1]), [1.0, 1.0, 1.0], f)
  }

  lemma ShortMapPlan(f: (nat, nat) -> real, flags: Flags)
    requires flags.Legacy()
    ensures !Faithful(ShortMap(f), flags, 1) && Executed(ShortMap(f), flags, 1)[2] == Some(1)
  {
    var b := ShortMap(f);
    assert Locals(b) == [1, 1, 2];
    assert Counts(b) == [0, 2];
    assert BeyondMap(b, b.ids[2]) && Counts(b)[b.ids[2]] == 2;
  }

  /** The sort drops the third choice, which the expert map does not hold; the per-expert loop takes
      its id as local and runs fat expert 1 on the token. */
  lemma BeyondTheMap(f: (nat, nat) -> real, flags: Flags)
    requires flags.Legacy()
    ensures
      var b := ShortMap(f);
      && b.Valid() && b.tokens > 1 && !Faithful(b, flags, 1)
      && Worths(b, Executed(b, flags, 1))[2] == f(1, 2) && Direct(b, 2) == 0.0
  {
    hide Executed, Faithful, Counts;
    var b, plan := ShortMap(f), Executed(ShortMap(f), flags, 1);
    ShortMapPlan(f, flags);
    assert Iota(0) == [];
    OneMoreSlot(b, plan, 2, 0);
    OneMoreSlot(b, plan, 2, 1);
    OneMoreSlot(b, plan, 2, 2);
    OneMoreChoice(b, 2, 0);
    assert Wanted(b, b.ids[2]) == None && DirectTerm(b, 2)(0) == 0.0;
  }
}
