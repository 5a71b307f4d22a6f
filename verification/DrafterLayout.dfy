/** How the block drafter's cache layers are laid out beside the target model's: in the same tensors
    when their page can be made to fit exactly, in tensors of their own otherwise. */
module DrafterLayout {
  import opened Basics

  // The target model's part: page and block size of its attention layers, and its index layers.
  datatype Geometry = Geometry(mlaPage: nat, mlaBlock: nat, mlaLayers: nat, idxPage: nat, idxLayers: nat, tails: bool)
  {
    predicate Valid() { 0 < mlaPage && 0 < mlaBlock && 0 < mlaLayers }
  }

  // A drafter whose layers share one spec; a page is so many bytes per token.
  datatype Drafter = Drafter(bytesPerToken: nat, block: nat, layers: nat)
  {
    predicate Valid() { 0 < bytesPerToken && 0 < block && 0 < layers }
    function Page(): nat { block * bytesPerToken }
  }

  // ---- choosing the mode --------------------------------------------------------------

  function FitBlock(g: Geometry, d: Drafter): nat
    requires d.Valid()
  {
    if g.mlaPage % d.bytesPerToken == 0 then g.mlaPage / d.bytesPerToken else 0
  }

  predicate ExactFit(g: Geometry, d: Drafter)
    requires g.Valid() && d.Valid()
  {
    var fit := FitBlock(g, d);
    && fit != 0 && fit % 64 == 0
    && (fit % g.mlaBlock == 0 || g.mlaBlock % fit == 0)
    && d.layers <= g.mlaLayers
  }

  /** A drafter is fitted exactly if a whole number of its tokens, a multiple of 64, fills the target's page,
      one of the two block sizes divides the other, and there is a target layer for each of its own. */
  lemma FittedWhen(g: Geometry, d: Drafter)
    requires g.Valid() && d.Valid()
    ensures ExactFit(g, d) <==>
      && d.layers <= g.mlaLayers
      && exists fit: nat ::
           fit * d.bytesPerToken == g.mlaPage && 0 < fit && fit % 64 == 0 && (fit % g.mlaBlock == 0 || g.mlaBlock % fit == 0)
    ensures ExactFit(g, d) ==> Grouped(g, d).block * d.bytesPerToken == g.mlaPage
  {
    if g.mlaPage % d.bytesPerToken == 0 {
      DivExact(g.mlaPage, d.bytesPerToken);
    }
    forall fit: nat | fit * d.bytesPerToken == g.mlaPage
      ensures g.mlaPage % d.bytesPerToken == 0 && g.mlaPage / d.bytesPerToken == fit
    {
      ExactDiv(fit, d.bytesPerToken);
    }
  }

  lemma ExactDiv(n: nat, d: nat)
    requires 0 < d
    ensures (n * d) % d == 0 && (n * d) / d == n
  {
    var m, q := n * d, (n * d) / d;
    Quotient(m, d);
    assert (n + 1) * d == n * d + d;
    if n < q {
      TimesMono(n + 1, q, d);
      assert false;
    }
    if q < n {
      TimesMono(q + 1, n, d);
      assert false;
    }
    assert m == (m / d) * d + m % d;
  }

  // The drafter as the extra group holds it.
  function Grouped(g: Geometry, d: Drafter): Drafter
    requires g.Valid() && d.Valid()
  {
    if ExactFit(g, d) then d.(block := FitBlock(g, d)) else d
  }

  // The layout is refused if there are more sharing drafter layers than tensors to share.
  predicate Accepted(g: Geometry, d: Drafter) {
    !(d.Page() == g.mlaPage && d.layers > g.mlaLayers)
  }

  // Every later site tells the modes apart by the page alone.
  predicate Shares(g: Geometry, d: Drafter) { d.Page() == g.mlaPage }

  lemma DivExact(n: nat, d: nat)
    requires 0 < d && n % d == 0
    ensures (n / d) * d == n
  {
  }

  /** A drafter that was fitted fills the target's page to the byte, and its layout is accepted. */
  lemma FitFills(g: Geometry, d: Drafter)
    requires g.Valid() && d.Valid() && ExactFit(g, d)
    ensures Grouped(g, d).Valid() && Shares(g, Grouped(g, d)) && Accepted(g, Grouped(g, d))
    ensures Grouped(g, d).block % 64 == 0
  {
    DivExact(g.mlaPage, d.bytesPerToken);
  }

  /** The later sites see a sharing drafter exactly when it was fitted or its own page happens to be
      the target's: a drafter that failed the fit may still be made to share. */
  lemma SharesWhen(g: Geometry, d: Drafter)
    requires g.Valid() && d.Valid()
    ensures Shares(g, Grouped(g, d)) <==> ExactFit(g, d) || d.Page() == g.mlaPage
  {
    if ExactFit(g, d) { FitFills(g, d); }
  }

  /** Such a drafter: its page is the target's, but no kernel block size divides its block. */
  lemma SharesUnfitted()
    ensures
      var g, d := Geometry(1000, 100, 4, 8, 1, false), Drafter(10, 100, 2);
      g.Valid() && d.Valid() && !ExactFit(g, d) && Accepted(g, Grouped(g, d)) && Shares(g, Grouped(g, d))
      && Grouped(g, d).block % 64 != 0 && Grouped(g, d).block % 16 != 0
  {
  }

  // ---- kernel blocks --------------------------------------------------------------------

  // Where kernel block j of manager block b begins in the contiguous view.
  function KernelOffset(d: Drafter, kernel: nat, b: nat, j: nat): nat
    requires 0 < kernel
  {
    (b * (d.block / kernel) + j) * (kernel * d.bytesPerToken)
  }

  lemma Spread(b: nat, n: nat, j: nat, p: nat)
    ensures (b * n + j) * p == b * (n * p) + j * p
  {
    assert (b * n + j) * p == (b * n) * p + j * p;
    Assoc(b, n, p);
  }

  lemma Assoc(a: nat, b: nat, c: nat)
    ensures (a * b) * c == a * (b * c)
  {
  }

  // A whole manager block of kernel blocks is a page.
  lemma KernelsFillPage(d: Drafter, kernel: nat)
    requires 0 < kernel && d.block % kernel == 0
    ensures (d.block / kernel) * (kernel * d.bytesPerToken) == d.Page()
  {
    DivExact(d.block, kernel);
    Assoc(d.block / kernel, kernel, d.bytesPerToken);
  }

  /** Under any clean split, kernel block j of manager block b lies inside block b's own page. */
  lemma KernelInside(g: Geometry, d: Drafter, kernel: nat, b: nat, j: nat)
    requires 0 < kernel && d.block % kernel == 0 && Shares(g, d) && j < d.block / kernel
    ensures KernelOffset(d, kernel, b, j) == b * g.mlaPage + j * (kernel * d.bytesPerToken)
    ensures b * g.mlaPage <= KernelOffset(d, kernel, b, j)
    ensures KernelOffset(d, kernel, b, j) + kernel * d.bytesPerToken <= b * g.mlaPage + g.mlaPage
  {
    var n, p := d.block / kernel, kernel * d.bytesPerToken;
    KernelsFillPage(d, kernel);
    Spread(b, n, j, p);
    Spread(1, j, 1, p);
    TimesMono(j + 1, n, p);
    assert (j + 1) * p == j * p + p;
  }

  /** So kernel blocks of different manager blocks never overlap. */
  lemma PagesApart(g: Geometry, d: Drafter, kernel: nat, b: nat, j: nat, c: nat, i: nat)
    requires 0 < kernel && d.block % kernel == 0 && Shares(g, d) && j < d.block / kernel && i < d.block / kernel && b < c
    ensures KernelOffset(d, kernel, b, j) + kernel * d.bytesPerToken <= KernelOffset(d, kernel, c, i)
  {
    KernelInside(g, d, kernel, b, j);
    KernelInside(g, d, kernel, c, i);
    TimesMono(b + 1, c, g.mlaPage);
    assert (b + 1) * g.mlaPage == b * g.mlaPage + g.mlaPage;
  }

  /** The view covers the shared tensor exactly, for every kernel block size the backends know. */
  lemma ViewCovers(g: Geometry, d: Drafter, kernel: nat, blocks: nat)
    requires g.Valid() && d.Valid() && ExactFit(g, d) && (kernel == 16 || kernel == 32 || kernel == 64)
    ensures Grouped(g, d).block % kernel == 0
    ensures (blocks * (Grouped(g, d).block / kernel)) * (kernel * d.bytesPerToken) == blocks * g.mlaPage
  {
    FitFills(g, d);
    var f := Grouped(g, d);
    assert f.block % kernel == 0;
    KernelsFillPage(f, kernel);
    Assoc(blocks, f.block / kernel, kernel * d.bytesPerToken);
  }

  predicate Divides(a: nat, n: nat)
    requires 0 < a
  {
    n % a == 0
  }

  ghost predicate IsLcm(m: nat, a: nat, b: nat)
    requires 0 < a && 0 < b
  {
    && 0 < m && Divides(a, m) && Divides(b, m)
    && forall n: nat :: 0 < n && Divides(a, n) && Divides(b, n) ==> m <= n
  }

  /** A fitted drafter leaves the scheduler's common block size at the larger of the two. */
  lemma FitLcm(g: Geometry, d: Drafter)
    requires g.Valid() && d.Valid() && ExactFit(g, d)
    ensures
      var f := Grouped(g, d).block;
      0 < f && IsLcm(if f > g.mlaBlock then f else g.mlaBlock, f, g.mlaBlock)
  {
    var f := Grouped(g, d).block;
    if f % g.mlaBlock == 0 {
      MultipleNotLess(f, g.mlaBlock);
    } else {
      MultipleNotLess(g.mlaBlock, f);
    }
  }

  lemma MultipleNotLess(n: nat, a: nat)
    requires 0 < n && 0 < a && n % a == 0
    ensures a <= n && forall m: nat :: 0 < m && Divides(n, m) ==> n <= m
  {
    forall m: nat | 0 < m && Divides(n, m) ensures n <= m {}
  }

  // ---- accounting -------------------------------------------------------------------------

  // What one more block id costs in all tensors together.
  function PerBlock(g: Geometry, draft: Option<Drafter>): nat {
    g.mlaLayers * g.mlaPage + g.idxLayers * g.idxPage + OwnBytes(g, draft)
  }

  // `_pool_bytes_per_block`
  method PoolBytesPerBlock(g: Geometry, draft: Option<Drafter>) returns (perBlock: nat)
    ensures perBlock == PerBlock(g, draft)
  {
    perBlock := g.mlaLayers * g.mlaPage + g.idxLayers * g.idxPage;
    if draft.Some? {
      var draftPage := draft.value.Page();
      if draftPage != g.mlaPage {
        perBlock := perBlock + draft.value.layers * draftPage;
      }
    }
  }

  // `_max_memory_usage_bytes_from_groups`, from the blocks the other groups need.
  method MaxMemoryBytes(g: Geometry, draft: Option<Drafter>, others: nat, draftPages: nat) returns (bytes: nat)
    ensures bytes == (others + (if g.tails then 1 else 0) + if draft.Some? then draftPages else 0) * PerBlock(g, draft)
  {
    var blocks := others;
    if g.tails {
      blocks := blocks + 1;
    }
    var perBlock := g.mlaLayers * g.mlaPage + g.idxLayers * g.idxPage;
    if draft.Some? {
      blocks := blocks + draftPages;
      var draftPage := draft.value.Page();
      if draftPage != g.mlaPage {
        perBlock := perBlock + draft.value.layers * draftPage;
      }
    }
    return blocks * perBlock;
  }

  datatype Layer = Attention(i: nat) | Index(i: nat) | Tail(i: nat) | Draft(i: nat)

  datatype Tensor = Tensor(size: nat, sharedBy: seq<Layer>)

  function SizeSum(ts: seq<Tensor>): nat {
    if ts == [] then 0 else SizeSum(ts[..|ts| - 1]) + ts[|ts| - 1].size
  }

  lemma {:induction false} SizeSumConcat(ts: seq<Tensor>, us: seq<Tensor>)
    ensures SizeSum(ts + us) == SizeSum(ts) + SizeSum(us)
  {
    if us == [] {
      assert ts + us == ts;
    } else {
      var n := |us| - 1;
      assert (ts + us)[..|ts + us| - 1] == ts + us[..n];
      SizeSumConcat(ts, us[..n]);
    }
  }

  lemma {:induction false} SameSizes(ts: seq<Tensor>, size: nat)
    requires forall i :: 0 <= i < |ts| ==> ts[i].size == size
    ensures SizeSum(ts) == |ts| * size
  {
    if ts != [] {
      SameSizes(ts[..|ts| - 1], size);
      assert |ts| * size == (|ts| - 1) * size + size;
    }
  }

  function AttentionTensors(g: Geometry, draft: Option<Drafter>, blocks: nat): (ts: seq<Tensor>)
    ensures |ts| == g.mlaLayers
  {
    seq(g.mlaLayers, i requires 0 <= i =>
      Tensor(g.mlaPage * blocks,
             [Attention(i)] + if draft.Some? && Shares(g, draft.value) && i < draft.value.layers then [Draft(i)] else []))
  }

  function IndexTensors(g: Geometry, blocks: nat): (ts: seq<Tensor>)
    ensures |ts| == g.idxLayers
  {
    seq(g.idxLayers, i requires 0 <= i => Tensor(g.idxPage * blocks, [Index(i)] + if g.tails then [Tail(i)] else []))
  }

  function DraftTensors(g: Geometry, draft: Option<Drafter>, blocks: nat): (ts: seq<Tensor>)
    ensures |ts| == if draft.Some? && !Shares(g, draft.value) then draft.value.layers else 0
  {
    if draft.Some? && !Shares(g, draft.value)
    then seq(draft.value.layers, i requires 0 <= i => Tensor(draft.value.Page() * blocks, [Draft(i)]))
    else []
  }

  // The tensors of `get_kv_cache_config_from_groups`.
  function Tensors(g: Geometry, draft: Option<Drafter>, blocks: nat): seq<Tensor> {
    AttentionTensors(g, draft, blocks) + IndexTensors(g, blocks) + DraftTensors(g, draft, blocks)
  }

  lemma AttentionSize(g: Geometry, draft: Option<Drafter>, blocks: nat)
    ensures SizeSum(AttentionTensors(g, draft, blocks)) == (g.mlaLayers * g.mlaPage) * blocks
  {
    SameSizes(AttentionTensors(g, draft, blocks), g.mlaPage * blocks);
    Assoc(g.mlaLayers, g.mlaPage, blocks);
  }

  lemma IndexSize(g: Geometry, blocks: nat)
    ensures SizeSum(IndexTensors(g, blocks)) == (g.idxLayers * g.idxPage) * blocks
  {
    SameSizes(IndexTensors(g, blocks), g.idxPage * blocks);
    Assoc(g.idxLayers, g.idxPage, blocks);
  }

  // A drafter's bytes per block, beyond the tensors it shares.
  function OwnBytes(g: Geometry, draft: Option<Drafter>): nat {
    if draft.Some? && !Shares(g, draft.value) then draft.value.layers * draft.value.Page() else 0
  }

  lemma DraftSize(g: Geometry, draft: Option<Drafter>, blocks: nat)
    ensures SizeSum(DraftTensors(g, draft, blocks)) == OwnBytes(g, draft) * blocks
  {
    if draft.Some? && !Shares(g, draft.value) {
      hide Drafter.Page;
      SameSizes(DraftTensors(g, draft, blocks), draft.value.Page() * blocks);
      Assoc(draft.value.layers, draft.value.Page(), blocks);
    }
  }

  lemma TensorSizes(g: Geometry, draft: Option<Drafter>, blocks: nat)
    ensures SizeSum(Tensors(g, draft, blocks)) == blocks * PerBlock(g, draft)
  {
    hide AttentionTensors, IndexTensors, DraftTensors, SizeSum, OwnBytes;
    var a, x, d := AttentionTensors(g, draft, blocks), IndexTensors(g, blocks), DraftTensors(g, draft, blocks);
    SizeSumConcat(a + x, d);
    SizeSumConcat(a, x);
    AttentionSize(g, draft, blocks);
    IndexSize(g, blocks);
    DraftSize(g, draft, blocks);
    Sum3(g.mlaLayers * g.mlaPage, g.idxLayers * g.idxPage, OwnBytes(g, draft), blocks);
  }

  lemma Sum3(a: nat, b: nat, c: nat, n: nat)
    ensures n * (a + b + c) == a * n + b * n + c * n
  {
  }

  /** The pool: as many blocks as the memory holds, and tensors that use exactly the accounted bytes
      for them. */
  method CacheConfig(g: Geometry, draft: Option<Drafter>, available: nat) returns (blocks: nat, tensors: seq<Tensor>)
    requires 0 < PerBlock(g, draft)
    ensures tensors == Tensors(g, draft, blocks)
    ensures SizeSum(tensors) == blocks * PerBlock(g, draft) <= available < (blocks + 1) * PerBlock(g, draft)
  {
    var shared := draft.Some? && draft.value.Page() == g.mlaPage;
    var perBlock := g.mlaLayers * g.mlaPage + g.idxLayers * g.idxPage;
    if draft.Some? && !shared {
      perBlock := perBlock + draft.value.layers * draft.value.Page();
    }
    blocks := available / perBlock;
    tensors := Tensors(g, draft, blocks);
    TensorSizes(g, draft, blocks);
    Quotient(available, perBlock);
  }

  lemma Quotient(n: nat, d: nat)
    requires 0 < d
    ensures (n / d) * d <= n < (n / d + 1) * d
  {
    assert n == (n / d) * d + n % d;
    assert (n / d + 1) * d == (n / d) * d + d;
  }

  // A layer's own page size.
  function PageOf(g: Geometry, draft: Option<Drafter>, l: Layer): nat {
    match l
    case Attention(_) => g.mlaPage
    case Draft(_) => if draft.Some? then draft.value.Page() else 0
    case _ => g.idxPage
  }

  // The tensor that holds drafter layer i.
  function HomeOf(g: Geometry, d: Drafter, i: nat): nat {
    if Shares(g, d) then i else g.mlaLayers + g.idxLayers + i
  }

  /** In an accepted layout every drafter layer lives in exactly one tensor, and every tensor has,
      for each layer in it, exactly one page of that layer's size per block. */
  lemma EveryLayerHoused(g: Geometry, d: Drafter, blocks: nat, i: nat)
    requires Accepted(g, d) && i < d.layers
    ensures
      var ts := Tensors(g, Some(d), blocks);
      && HomeOf(g, d, i) < |ts| && Draft(i) in ts[HomeOf(g, d, i)].sharedBy
      && forall t :: 0 <= t < |ts| && Draft(i) in ts[t].sharedBy ==> t == HomeOf(g, d, i)
  {
    var ts := Tensors(g, Some(d), blocks);
    forall t | 0 <= t < |ts| ensures Draft(i) in ts[t].sharedBy ==> t == HomeOf(g, d, i) {
      if t < g.mlaLayers {
        assert ts[t] == AttentionTensors(g, Some(d), blocks)[t];
      } else if t < g.mlaLayers + g.idxLayers {
        assert ts[t] == IndexTensors(g, blocks)[t - g.mlaLayers];
      } else {
        assert ts[t] == DraftTensors(g, Some(d), blocks)[t - g.mlaLayers - g.idxLayers];
      }
    }
  }

  /** So do the target's own layers, whatever the drafter: attention layer i in tensor i, index layer i and,
      where there are tails, its tail in the i-th tensor after them. */
  lemma TargetHoused(g: Geometry, draft: Option<Drafter>, blocks: nat, i: nat)
    ensures
      var ts := Tensors(g, draft, blocks);
      && (i < g.mlaLayers ==> i < |ts| && forall t :: 0 <= t < |ts| ==> (Attention(i) in ts[t].sharedBy <==> t == i))
      && (i < g.idxLayers ==> g.mlaLayers + i < |ts|)
      && (forall t :: 0 <= t < |ts| && i < g.idxLayers ==>
            && (Index(i) in ts[t].sharedBy <==> t == g.mlaLayers + i)
            && (Tail(i) in ts[t].sharedBy <==> g.tails && t == g.mlaLayers + i))
  {
    var ts := Tensors(g, draft, blocks);
    forall t | 0 <= t < |ts|
      ensures Attention(i) in ts[t].sharedBy <==> i < g.mlaLayers && t == i
      ensures Index(i) in ts[t].sharedBy <==> i < g.idxLayers && t == g.mlaLayers + i
      ensures Tail(i) in ts[t].sharedBy <==> g.tails && i < g.idxLayers && t == g.mlaLayers + i
    {
      if t < g.mlaLayers {
        assert ts[t] == AttentionTensors(g, draft, blocks)[t];
      } else if t < g.mlaLayers + g.idxLayers {
        assert ts[t] == IndexTensors(g, blocks)[t - g.mlaLayers];
      } else {
        assert ts[t] == DraftTensors(g, draft, blocks)[t - g.mlaLayers - g.idxLayers];
      }
    }
  }

  lemma PagesFit(g: Geometry, draft: Option<Drafter>, blocks: nat, t: nat, l: Layer)
    requires t < |Tensors(g, draft, blocks)| && l in Tensors(g, draft, blocks)[t].sharedBy
    ensures Tensors(g, draft, blocks)[t].size == PageOf(g, draft, l) * blocks
  {
    var ts := Tensors(g, draft, blocks);
    if t < g.mlaLayers {
      assert ts[t] == AttentionTensors(g, draft, blocks)[t];
    } else if t < g.mlaLayers + g.idxLayers {
      assert ts[t] == IndexTensors(g, blocks)[t - g.mlaLayers];
    } else {
      assert ts[t] == DraftTensors(g, draft, blocks)[t - g.mlaLayers - g.idxLayers];
    }
  }
}
