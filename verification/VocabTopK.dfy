/** Vocab-parallel top-k: each shard selects its k best logits, the selections are gathered, and
    the k best of those are the k best of the whole vocabulary. */
module VocabTopK {
  import opened Basics
  import opened FlatIndex

  predicate Leq(a: Logit, b: Logit) {
    a.NegInf? || (b.Fin? && a.value <= b.value)
  }

  predicate Less(a: Logit, b: Logit) { !Leq(b, a) }

  // One rank's part of the vocabulary: ids from `start` on, with `pad` unused entries at the end.
  datatype Shard = Shard(logits: seq<Logit>, start: nat, pad: nat)
  {
    predicate Valid() { pad <= |logits| }
    function Real(): nat
      requires Valid()
    {
      |logits| - pad
    }
  }

  // A selection: the values in descending order, and where they are.
  datatype Pick = Pick(ids: seq<nat>, values: seq<Logit>)

  predicate Chosen(p: Pick, i: nat) { i in p.ids }

  /** What a top-k promises: k distinct places with their values, best first, and nothing left out
      is better than what was taken. Ties may go either way. */
  ghost predicate IsTopK(scores: seq<Logit>, k: nat, p: Pick) {
    && |p.ids| == |p.values| == k
    && (forall i :: 0 <= i < k ==> p.ids[i] < |scores| && p.values[i] == scores[p.ids[i]])
    && (forall i, j :: 0 <= i < j < k ==> p.ids[i] != p.ids[j] && Leq(p.values[j], p.values[i]))
    && (forall x, i :: 0 <= x < |scores| && !Chosen(p, x) && 0 <= i < k ==> Leq(scores[x], p.values[i]))
  }

  // ---- what a top-k determines --------------------------------------------------------

  // The places of the first n picks.
  function First(p: Pick, n: nat): (s: set<nat>)
    requires n <= |p.ids|
    ensures forall x :: x in s <==> exists i :: 0 <= i < n && p.ids[i] == x
  {
    set i | 0 <= i < n :: p.ids[i]
  }

  lemma {:induction false} FirstSize(p: Pick, n: nat)
    requires n <= |p.ids| && forall i, j :: 0 <= i < j < |p.ids| ==> p.ids[i] != p.ids[j]
    ensures |First(p, n)| == n
  {
    if n > 0 {
      hide First;
      FirstSize(p, n - 1);
      FirstNext(p, n);
    }
  }

  lemma FirstNext(p: Pick, n: nat)
    requires 0 < n <= |p.ids| && forall i :: 0 <= i < n - 1 ==> p.ids[i] != p.ids[n - 1]
    ensures First(p, n) == First(p, n - 1) + {p.ids[n - 1]} && p.ids[n - 1] !in First(p, n - 1)
  {
  }

  lemma SubsetSize(s: set<nat>, u: set<nat>)
    requires s <= u
    ensures |s| <= |u|
  {
    if s != u {
      assert u == s + (u - s);
    }
  }

  // The i-th value of one selection is no better than the i-th value of any other.
  lemma NoBetter(scores: seq<Logit>, k: nat, p: Pick, q: Pick, i: nat)
    requires IsTopK(scores, k, p) && IsTopK(scores, k, q) && i < k
    ensures Leq(p.values[i], q.values[i])
  {
    if Less(q.values[i], p.values[i]) {
      forall x | x in First(p, i + 1) ensures x in First(q, i) {
        var j :| 0 <= j < i + 1 && p.ids[j] == x;
        BetterIsEarlier(scores, k, q, i, x);
      }
      FirstSize(p, i + 1);
      FirstSize(q, i);
      SubsetSize(First(p, i + 1), First(q, i));
    }
  }

  // Whatever is better than the i-th pick was picked before it.
  lemma BetterIsEarlier(scores: seq<Logit>, k: nat, q: Pick, i: nat, x: nat)
    requires IsTopK(scores, k, q) && i < k && x < |scores| && Less(q.values[i], scores[x])
    ensures x in First(q, i)
  {
    assert Chosen(q, x);
    var j :| 0 <= j < k && q.ids[j] == x;
    assert j < i;
  }

  /** The values of a top-k do not depend on how ties are broken. */
  lemma ValuesUnique(scores: seq<Logit>, k: nat, p: Pick, q: Pick)
    requires IsTopK(scores, k, p) && IsTopK(scores, k, q)
    ensures p.values == q.values
  {
    forall i | 0 <= i < k ensures p.values[i] == q.values[i] {
      NoBetter(scores, k, p, q, i);
      NoBetter(scores, k, q, p, i);
    }
  }

  // ---- one shard ------------------------------------------------------------------------

  function Masked(logits: seq<Logit>, pad: nat): (m: seq<Logit>)
    requires pad <= |logits|
    ensures |m| == |logits|
  {
    seq(|logits|, i requires 0 <= i < |logits| => if i < |logits| - pad then logits[i] else NegInf)
  }

  // `logits[..., -num_pad:] = -inf`
  method MaskPadding(logits: array<Logit>, pad: nat)
    requires pad <= logits.Length
    modifies logits
    ensures logits[..] == Masked(old(logits[..]), pad)
  {
    if pad > 0 {
      for i := logits.Length - pad to logits.Length
        invariant forall j :: 0 <= j < logits.Length ==>
          logits[j] == if logits.Length - pad <= j < i then NegInf else old(logits[..])[j]
      {
        logits[i] := NegInf;
      }
    }
  }

  // ---- the whole vocabulary ---------------------------------------------------------------

  // The shards hold consecutive ranges of ids, from 0 on.
  ghost predicate Sharded(shards: seq<Shard>) {
    && (forall r :: 0 <= r < |shards| ==> shards[r].Valid())
    && (shards != [] ==> shards[0].start == 0)
    && forall r :: 0 <= r < |shards| - 1 ==> shards[r + 1].start == shards[r].start + shards[r].Real()
  }

  function Vocab(shards: seq<Shard>): seq<Logit>
    requires forall r :: 0 <= r < |shards| ==> shards[r].Valid()
  {
    if shards == [] then [] else
      var n := |shards| - 1;
      Vocab(shards[..n]) + shards[n].logits[..shards[n].Real()]
  }

  lemma {:induction false} VocabAt(shards: seq<Shard>, r: nat, i: nat)
    requires Sharded(shards) && r < |shards| && i < shards[r].Real()
    ensures shards[r].start + i < |Vocab(shards)| && Vocab(shards)[shards[r].start + i] == shards[r].logits[i]
  {
    var n := |shards| - 1;
    ShardedCut(shards, n);
    VocabSize(shards[..n]);
    if r < n {
      VocabAt(shards[..n], r, i);
      VocabFirst(shards, shards[r].start + i);
    } else {
      VocabLast(shards, i);
    }
  }

  lemma VocabFirst(shards: seq<Shard>, x: nat)
    requires (forall r :: 0 <= r < |shards| ==> shards[r].Valid()) && shards != []
    requires x < |Vocab(shards[..|shards| - 1])|
    ensures x < |Vocab(shards)| && Vocab(shards)[x] == Vocab(shards[..|shards| - 1])[x]
  {
  }

  lemma VocabLast(shards: seq<Shard>, i: nat)
    requires (forall r :: 0 <= r < |shards| ==> shards[r].Valid()) && shards != []
    requires i < shards[|shards| - 1].Real()
    ensures
      var before := |Vocab(shards[..|shards| - 1])|;
      before + i < |Vocab(shards)| && Vocab(shards)[before + i] == shards[|shards| - 1].logits[i]
  {
  }

  lemma ShardedCut(shards: seq<Shard>, n: nat)
    requires Sharded(shards) && n + 1 == |shards|
    ensures Sharded(shards[..n]) && shards[n].Valid()
    ensures shards[n].start == if n == 0 then 0 else shards[n - 1].start + shards[n - 1].Real()
  {
  }

  lemma {:induction false} VocabSize(shards: seq<Shard>)
    requires Sharded(shards)
    ensures |Vocab(shards)| == if shards == [] then 0 else shards[|shards| - 1].start + shards[|shards| - 1].Real()
  {
    if shards != [] {
      VocabSize(shards[..|shards| - 1]);
    }
  }

  // Every id has a shard.
  lemma {:induction false} ShardOf(shards: seq<Shard>, x: nat) returns (r: nat, i: nat)
    requires Sharded(shards) && x < |Vocab(shards)|
    ensures r < |shards| && i < shards[r].Real() && x == shards[r].start + i
  {
    var n := |shards| - 1;
    VocabSize(shards);
    VocabSize(shards[..n]);
    if x < shards[n].start {
      r, i := ShardOf(shards[..n], x);
    } else {
      r, i := n, x - shards[n].start;
    }
  }

  // ---- gathering --------------------------------------------------------------------------

  function Offset(ids: seq<nat>, start: nat): (s: seq<nat>)
    ensures |s| == |ids|
  {
    seq(|ids|, i requires 0 <= i < |ids| => ids[i] + start)
  }

  // Each rank's selection, with global ids.
  function Globals(shards: seq<Shard>, picks: seq<Pick>): Pick
    requires |shards| == |picks|
  {
    if picks == [] then Pick([], []) else
      var n := |picks| - 1;
      var before := Globals(shards[..n], picks[..n]);
      Pick(before.ids + Offset(picks[n].ids, shards[n].start),
           before.values + picks[n].values)
  }

  ghost predicate LocalPicks(shards: seq<Shard>, picks: seq<Pick>, k: nat) {
    && |shards| == |picks| && (forall r :: 0 <= r < |shards| ==> shards[r].Valid())
    && forall r :: 0 <= r < |shards| ==> IsTopK(Masked(shards[r].logits, shards[r].pad), k, picks[r])
  }

  lemma {:induction false} GlobalsAt(shards: seq<Shard>, picks: seq<Pick>, k: nat, r: nat, i: nat)
    requires LocalPicks(shards, picks, k) && r < |picks| && i < k
    ensures |picks[r].ids| == |picks[r].values| == k
    ensures Place(r, k, i) < |Globals(shards, picks).ids| == |Globals(shards, picks).values|
    ensures Globals(shards, picks).ids[Place(r, k, i)] == picks[r].ids[i] + shards[r].start
    ensures Globals(shards, picks).values[Place(r, k, i)] == picks[r].values[i]
  {
    hide Place, IsTopK;
    var n := |picks| - 1;
    PicksCut(shards, picks, k);
    GlobalsSize(shards, picks, k);
    GlobalsSize(shards[..n], picks[..n], k);
    PlaceNext(n, k, i);
    PlaceNext(n, k, k);
    PlaceBelow(r, k, i, n + 1);
    if r < n {
      PlaceBelow(r, k, i, n);
      GlobalsAt(shards[..n], picks[..n], k, r, i);
    }
  }

  lemma PicksCut(shards: seq<Shard>, picks: seq<Pick>, k: nat)
    requires LocalPicks(shards, picks, k) && picks != []
    ensures LocalPicks(shards[..|picks| - 1], picks[..|picks| - 1], k)
    ensures forall r :: 0 <= r < |picks| ==> |picks[r].ids| == |picks[r].values| == k
  {
  }

  lemma {:induction false} GlobalsSize(shards: seq<Shard>, picks: seq<Pick>, k: nat)
    requires LocalPicks(shards, picks, k)
    ensures |Globals(shards, picks).ids| == |Globals(shards, picks).values| == Place(|picks|, k, 0)
  {
    hide Place, IsTopK;
    if picks != [] {
      var n := |picks| - 1;
      PicksCut(shards, picks, k);
      GlobalsSize(shards[..n], picks[..n], k);
      PlaceNext(n, k, k);
    } else {
      PlaceNext(0, k, 0);
    }
  }

  // What the second selection takes.
  function Selected(gathered: Pick, second: Pick): Pick
    requires |gathered.ids| == |gathered.values| && forall i :: 0 <= i < |second.ids| ==> second.ids[i] < |gathered.ids|
  {
    Pick(seq(|second.ids|, i requires 0 <= i < |second.ids| => gathered.ids[second.ids[i]]), second.values)
  }

  // At least k ids of the vocabulary have a finite logit.
  ghost predicate EnoughFinite(vocab: seq<Logit>, k: nat) {
    exists s: set<nat> :: |s| >= k && AllFinite(vocab, s)
  }

  ghost predicate AllFinite(vocab: seq<Logit>, s: set<nat>) {
    forall x :: x in s ==> x < |vocab| && vocab[x].Fin?
  }

  // ---- the second selection -----------------------------------------------------------------

  // Everything the two selections of a step have in common.
  ghost predicate Step(shards: seq<Shard>, picks: seq<Pick>, second: Pick, k: nat) {
    && Sharded(shards) && LocalPicks(shards, picks, k) && 0 < k
    && |Globals(shards, picks).ids| == |Globals(shards, picks).values|
    && IsTopK(Globals(shards, picks).values, k, second)
  }

  // Place b of shard r's selection is the j-th of the second selection.
  predicate Takes(second: Pick, k: nat, r: nat, b: nat, j: nat) {
    j < |second.ids| && second.ids[j] == Place(r, k, b)
  }

  // What the second selection takes, it takes from some shard's selection.
  lemma TakenFrom(shards: seq<Shard>, picks: seq<Pick>, second: Pick, k: nat, j: nat) returns (r: nat, b: nat)
    requires Step(shards, picks, second, k) && j < k
    ensures r < |shards| && b < k && Takes(second, k, r, b, j) && |picks[r].ids| == |picks[r].values| == k
    ensures second.ids[j] < |Globals(shards, picks).ids|
    ensures Globals(shards, picks).ids[second.ids[j]] == picks[r].ids[b] + shards[r].start
    ensures second.values[j] == picks[r].values[b]
  {
    hide Place, Globals, IsTopK;
    TakenInside(shards, picks, second, k, j);
    GlobalsSize(shards, picks, k);
    r, b := PlaceOf(second.ids[j], k, |picks|);
    GlobalsAt(shards, picks, k, r, b);
  }

  lemma TakenInside(shards: seq<Shard>, picks: seq<Pick>, second: Pick, k: nat, j: nat)
    requires Step(shards, picks, second, k) && j < k
    ensures j < |second.ids| && j < |second.values| && second.ids[j] < |Globals(shards, picks).ids|
    ensures second.ids[j] < |Globals(shards, picks).values| && second.values[j] == Globals(shards, picks).values[second.ids[j]]
    ensures forall i, l :: 0 <= i < l < k ==> second.ids[i] != second.ids[l] && Leq(second.values[l], second.values[i])
    ensures |second.ids| == |second.values| == k
  {
  }

  // A place of some shard's selection is taken, or is no better than anything that is.
  lemma PlaceTaken(shards: seq<Shard>, picks: seq<Pick>, second: Pick, k: nat, r: nat, b: nat, i: nat) returns (j: nat)
    requires Step(shards, picks, second, k) && r < |shards| && b < k && i < k
    ensures |picks[r].values| == k
    ensures Less(second.values[i], picks[r].values[b]) ==> j < k && Takes(second, k, r, b, j)
  {
    GlobalsAt(shards, picks, k, r, b);
    j := 0;
    if Less(second.values[i], picks[r].values[b]) {
      assert Chosen(second, Place(r, k, b));
      j :| 0 <= j < k && second.ids[j] == Place(r, k, b);
    }
  }

  // The places of shard r's selection.
  function Block(r: nat, k: nat, n: nat): set<nat> {
    set b | 0 <= b < n :: Place(r, k, b)
  }

  lemma {:induction false} BlockSize(r: nat, k: nat, n: nat)
    ensures |Block(r, k, n)| == n
  {
    if n > 0 {
      BlockSize(r, k, n - 1);
      assert Block(r, k, n) == Block(r, k, n - 1) + {Place(r, k, n - 1)};
    }
  }

  lemma SameSize(s: set<nat>, u: set<nat>)
    requires s <= u && |u| <= |s|
    ensures s == u
  {
    assert u == s + (u - s);
    assert |u - s| == 0;
  }

  // What a shard did not select is no better than anything the second selection took.
  lemma LeftByShard(shards: seq<Shard>, picks: seq<Pick>, second: Pick, k: nat, r: nat, a: nat, i: nat)
    requires Step(shards, picks, second, k) && r < |shards| && i < k
    requires a < |shards[r].logits| && !Chosen(picks[r], a)
    ensures Leq(Masked(shards[r].logits, shards[r].pad)[a], second.values[i])
  {
    var worth := Masked(shards[r].logits, shards[r].pad)[a];
    if Less(second.values[k - 1], worth) {
      forall m | m in Block(r, k, k) ensures m in First(second, k) {
        var b :| 0 <= b < k && Place(r, k, b) == m;
        var j := PlaceTaken(shards, picks, second, k, r, b, k - 1);
        assert second.ids[j] == m;
      }
      BlockSize(r, k, k);
      FirstSize(second, k);
      SameSize(Block(r, k, k), First(second, k));
      assert second.ids[k - 1] in First(second, k);
      var b :| 0 <= b < k && Place(r, k, b) == second.ids[k - 1];
      GlobalsAt(shards, picks, k, r, b);
    }
  }

  // A logit of the vocabulary is taken, or is no better than anything that is.
  lemma Dominated(shards: seq<Shard>, picks: seq<Pick>, second: Pick, k: nat, r: nat, a: nat, i: nat) returns (j: nat)
    requires Step(shards, picks, second, k) && r < |shards| && a < shards[r].Real() && i < k
    ensures Less(second.values[i], shards[r].logits[a]) ==>
      && j < k && second.ids[j] < |Globals(shards, picks).ids|
      && Globals(shards, picks).ids[second.ids[j]] == shards[r].start + a && second.values[j] == shards[r].logits[a]
  {
    j := 0;
    if Less(second.values[i], shards[r].logits[a]) {
      assert Masked(shards[r].logits, shards[r].pad)[a] == shards[r].logits[a];
      if Chosen(picks[r], a) {
        var b :| 0 <= b < k && picks[r].ids[b] == a;
        j := PlaceTaken(shards, picks, second, k, r, b, i);
        GlobalsAt(shards, picks, k, r, b);
      } else {
        LeftByShard(shards, picks, second, k, r, a, i);
      }
    }
  }

  function TakenId(shards: seq<Shard>, picks: seq<Pick>, second: Pick, k: nat, j: nat): nat
    requires Step(shards, picks, second, k) && j < k
  {
    Globals(shards, picks).ids[second.ids[j]]
  }

  // A finite logit is taken ahead of a last place that holds minus infinity.
  lemma FiniteAhead(shards: seq<Shard>, picks: seq<Pick>, second: Pick, k: nat, x: nat) returns (i: nat)
    requires Step(shards, picks, second, k) && 0 < k && second.values[k - 1].NegInf?
    requires x < |Vocab(shards)| && Vocab(shards)[x].Fin?
    ensures i < k - 1 && TakenId(shards, picks, second, k, i) == x
  {
    var r, a := ShardOf(shards, x);
    VocabAt(shards, r, a);
    i := Dominated(shards, picks, second, k, r, a, k - 1);
  }

  // With enough finite logits the second selection takes only finite ones.
  lemma AllTakenFinite(shards: seq<Shard>, picks: seq<Pick>, second: Pick, k: nat, j: nat)
    requires Step(shards, picks, second, k) && EnoughFinite(Vocab(shards), k) && j < k
    ensures second.values[j].Fin?
  {
    if second.values[k - 1].NegInf? {
      var finite: set<nat> :| |finite| >= k && AllFinite(Vocab(shards), finite);
      var p := Pick(seq(k, i requires 0 <= i < k => TakenId(shards, picks, second, k, i)), second.values);
      forall x | x in finite ensures x in First(p, k - 1) {
        var i := FiniteAhead(shards, picks, second, k, x);
        assert p.ids[i] == x;
      }
      FirstAtMost(p, k - 1);
      SubsetSize(finite, First(p, k - 1));
    }
  }

  lemma {:induction false} FirstAtMost(p: Pick, n: nat)
    requires n <= |p.ids|
    ensures |First(p, n)| <= n
  {
    if n > 0 {
      FirstAtMost(p, n - 1);
      assert First(p, n) == First(p, n - 1) + {p.ids[n - 1]};
    }
  }

  lemma {:induction false} StartsAscend(shards: seq<Shard>, r: nat, s: nat)
    requires Sharded(shards) && r < s < |shards|
    ensures shards[r].start + shards[r].Real() <= shards[s].start
    decreases s
  {
    if r + 1 < s {
      StartsAscend(shards, r, s - 1);
    }
  }

  // Ids of different places are different.
  lemma IdsApart(shards: seq<Shard>, r: nat, a: nat, s: nat, c: nat)
    requires Sharded(shards) && r < |shards| && s < |shards| && a < shards[r].Real() && c < shards[s].Real()
    requires shards[r].start + a == shards[s].start + c
    ensures r == s && a == c
  {
    if r < s { StartsAscend(shards, r, s); }
    if s < r { StartsAscend(shards, s, r); }
  }

  // A finite logit that was taken is a real entry of the vocabulary.
  lemma TakenIsReal(shards: seq<Shard>, picks: seq<Pick>, second: Pick, k: nat, j: nat) returns (r: nat, b: nat)
    requires Step(shards, picks, second, k) && j < k && second.values[j].Fin?
    ensures r < |shards| && b < k && Takes(second, k, r, b, j) && |picks[r].ids| == k
    ensures picks[r].ids[b] < shards[r].Real() && TakenId(shards, picks, second, k, j) == shards[r].start + picks[r].ids[b]
    ensures TakenId(shards, picks, second, k, j) < |Vocab(shards)|
    ensures Vocab(shards)[TakenId(shards, picks, second, k, j)] == second.values[j]
  {
    hide Place, Globals, IsTopK, Vocab, Sharded;
    r, b := TakenFrom(shards, picks, second, k, j);
    PickReal(shards[r], k, picks[r], b);
    VocabAt(shards, r, picks[r].ids[b]);
  }

  // A finite pick is not padding.
  lemma PickReal(shard: Shard, k: nat, p: Pick, b: nat)
    requires shard.Valid() && IsTopK(Masked(shard.logits, shard.pad), k, p) && b < k && p.values[b].Fin?
    ensures p.ids[b] < shard.Real() && p.values[b] == shard.logits[p.ids[b]]
  {
  }

  lemma TakenApart(shards: seq<Shard>, picks: seq<Pick>, second: Pick, k: nat, i: nat, j: nat)
    requires Step(shards, picks, second, k) && i < j < k && second.values[i].Fin? && second.values[j].Fin?
    ensures TakenId(shards, picks, second, k, i) != TakenId(shards, picks, second, k, j)
  {
    var r, b := TakenIsReal(shards, picks, second, k, i);
    var s, c := TakenIsReal(shards, picks, second, k, j);
    if TakenId(shards, picks, second, k, i) == TakenId(shards, picks, second, k, j) {
      IdsApart(shards, r, picks[r].ids[b], s, picks[s].ids[c]);
    }
  }

  lemma BetterIsTaken(shards: seq<Shard>, picks: seq<Pick>, second: Pick, k: nat, x: nat, i: nat)
    requires Step(shards, picks, second, k) && x < |Vocab(shards)| && i < k
    ensures Less(second.values[i], Vocab(shards)[x]) ==> exists j :: 0 <= j < k && TakenId(shards, picks, second, k, j) == x
  {
    var r, a := ShardOf(shards, x);
    VocabAt(shards, r, a);
    var j := Dominated(shards, picks, second, k, r, a, i);
    if Less(second.values[i], Vocab(shards)[x]) {
      assert TakenId(shards, picks, second, k, j) == x;
    }
  }

  /** The k best of the shards' k best are the k best of the whole vocabulary: the ids are distinct
      and unpadded, carry their values, and nothing better was left out. */
  lemma TwoStage(shards: seq<Shard>, picks: seq<Pick>, second: Pick, k: nat)
    requires Step(shards, picks, second, k) && EnoughFinite(Vocab(shards), k)
    ensures forall i :: 0 <= i < k ==> second.ids[i] < |Globals(shards, picks).ids|
    ensures IsTopK(Vocab(shards), k, Selected(Globals(shards, picks), second))
  {
    var p := Selected(Globals(shards, picks), second);
    forall i | 0 <= i < k
      ensures p.ids[i] == TakenId(shards, picks, second, k, i) && p.ids[i] < |Vocab(shards)|
      ensures p.values[i] == Vocab(shards)[p.ids[i]] && second.values[i].Fin?
    {
      AllTakenFinite(shards, picks, second, k, i);
      var r, b := TakenIsReal(shards, picks, second, k, i);
    }
    forall i, j | 0 <= i < j < k ensures p.ids[i] != p.ids[j] && Leq(p.values[j], p.values[i]) {
      TakenApart(shards, picks, second, k, i, j);
    }
    forall x, i | 0 <= x < |Vocab(shards)| && 0 <= i < k ensures Leq(Vocab(shards)[x], p.values[i]) || Chosen(p, x) {
      BetterIsTaken(shards, picks, second, k, x, i);
    }
  }

  // What a selection is worth when there may be fewer than k finite logits: its finite values are real,
  // distinct and in order, and a place that was not taken with its value beats no value taken.
  ghost predicate IsPartialTopK(scores: seq<Logit>, k: nat, p: Pick) {
    && |p.ids| == |p.values| == k
    && (forall i :: 0 <= i < k && p.values[i].Fin? ==> p.ids[i] < |scores| && p.values[i] == scores[p.ids[i]])
    && (forall i, j :: 0 <= i < j < k ==>
          Leq(p.values[j], p.values[i]) && (p.values[i].Fin? && p.values[j].Fin? ==> p.ids[i] != p.ids[j]))
    && (forall x, i :: 0 <= x < |scores| && 0 <= i < k ==> Leq(scores[x], p.values[i]) || TakenWith(p, x, scores[x]))
  }

  ghost predicate TakenWith(p: Pick, x: nat, v: Logit) {
    exists j :: 0 <= j < |p.ids| && j < |p.values| && p.ids[j] == x && p.values[j] == v
  }

  /** Whatever the vocabulary: no logit better than a value taken is left out, so with fewer than k finite
      logits all of them are taken, and the rest of the selection is masked. */
  lemma TwoStageAny(shards: seq<Shard>, picks: seq<Pick>, second: Pick, k: nat)
    requires Step(shards, picks, second, k)
    ensures forall i :: 0 <= i < k ==> second.ids[i] < |Globals(shards, picks).ids|
    ensures IsPartialTopK(Vocab(shards), k, Selected(Globals(shards, picks), second))
  {
    var p := Selected(Globals(shards, picks), second);
    forall i | 0 <= i < k && p.values[i].Fin?
      ensures p.ids[i] < |Vocab(shards)| && p.values[i] == Vocab(shards)[p.ids[i]]
    {
      var r, b := TakenIsReal(shards, picks, second, k, i);
    }
    forall i, j | 0 <= i < j < k && p.values[i].Fin? && p.values[j].Fin? ensures p.ids[i] != p.ids[j] {
      TakenApart(shards, picks, second, k, i, j);
    }
    forall x, i | 0 <= x < |Vocab(shards)| && 0 <= i < k
      ensures Leq(Vocab(shards)[x], p.values[i]) || TakenWith(p, x, Vocab(shards)[x])
    {
      TakenBetter(shards, picks, second, k, x, i);
    }
  }

  lemma TakenBetter(shards: seq<Shard>, picks: seq<Pick>, second: Pick, k: nat, x: nat, i: nat)
    requires Step(shards, picks, second, k) && x < |Vocab(shards)| && i < k
    requires forall j :: 0 <= j < k ==> second.ids[j] < |Globals(shards, picks).ids|
    ensures
      var p := Selected(Globals(shards, picks), second);
      Leq(Vocab(shards)[x], p.values[i]) || TakenWith(p, x, Vocab(shards)[x])
  {
    var p := Selected(Globals(shards, picks), second);
    var r, a := ShardOf(shards, x);
    VocabAt(shards, r, a);
    var j := Dominated(shards, picks, second, k, r, a, i);
    if Less(second.values[i], Vocab(shards)[x]) {
      assert p.ids[j] == x && p.values[j] == Vocab(shards)[x];
    }
  }

  /** With fewer than k finite logits, every one of them is selected. */
  lemma AllFiniteTaken(scores: seq<Logit>, k: nat, p: Pick, x: nat)
    requires IsPartialTopK(scores, k, p) && 0 < k && p.values[k - 1].NegInf? && x < |scores| && scores[x].Fin?
    ensures TakenWith(p, x, scores[x])
  {
    assert !Leq(scores[x], p.values[k - 1]);
  }

  // ---- scaling and capping only the winners ----------------------------------------------------

  // What is done to the k values afterwards; it may flatten, but it never reverses.
  ghost predicate Monotone(f: Logit -> Logit) {
    forall a, b :: Leq(a, b) ==> Leq(f(a), f(b))
  }

  /** Applying a monotone map to the winners alone gives a top-k of the mapped vocabulary. */
  lemma WinnersSuffice(scores: seq<Logit>, k: nat, p: Pick, f: Logit -> Logit)
    requires IsTopK(scores, k, p) && Monotone(f)
    ensures IsTopK(Map(scores, f), k, Pick(p.ids, Map(p.values, f)))
  {
    var q := Pick(p.ids, Map(p.values, f));
    forall x, i | 0 <= x < |scores| && !Chosen(q, x) && 0 <= i < k ensures Leq(f(scores[x]), q.values[i]) {
      assert !Chosen(p, x);
    }
  }

  function Scaled(a: Logit, scale: real): Logit {
    if a.NegInf? then NegInf else Fin(a.value * scale)
  }

  // The soft cap is any increasing function; minus infinity goes to its lower end.
  datatype Cap = Cap(low: real, f: real -> real)

  ghost predicate CapOk(c: Cap) {
    (forall x, y :: x <= y ==> c.f(x) <= c.f(y)) && (forall x :: c.low <= c.f(x))
  }

  function Capped(a: Logit, c: Option<Cap>): Logit {
    if c.None? then a else if a.NegInf? then Fin(c.value.low) else Fin(c.value.f(a.value))
  }

  function Finish(scale: real, c: Option<Cap>): Logit -> Logit {
    (a: Logit) => Capped(if scale != 1.0 then Scaled(a, scale) else a, c)
  }

  lemma ScaleUp(x: real, y: real, scale: real)
    requires x <= y && 0.0 < scale
    ensures x * scale <= y * scale
  {
  }

  lemma ScaledMonotone(a: Logit, b: Logit, scale: real)
    requires Leq(a, b) && 0.0 < scale
    ensures Leq(Scaled(a, scale), Scaled(b, scale))
  {
    if a.Fin? { ScaleUp(a.value, b.value, scale); }
  }

  lemma FinishMonotone(scale: real, c: Option<Cap>)
    requires 0.0 < scale && (c.Some? ==> CapOk(c.value))
    ensures Monotone(Finish(scale, c))
  {
    hide Scaled;
    forall a, b | Leq(a, b) ensures Leq(Finish(scale, c)(a), Finish(scale, c)(b)) {
      ScaledMonotone(a, b, scale);
      var u, v := if scale != 1.0 then Scaled(a, scale) else a, if scale != 1.0 then Scaled(b, scale) else b;
      assert Finish(scale, c)(a) == Capped(u, c) && Finish(scale, c)(b) == Capped(v, c);
      CapMonotone(u, v, c);
    }
  }

  lemma CapMonotone(a: Logit, b: Logit, c: Option<Cap>)
    requires Leq(a, b) && (c.Some? ==> CapOk(c.value))
    ensures Leq(Capped(a, c), Capped(b, c))
  {
  }

  /** A scale that is not positive is refused, and with reason: a negative one turns the best into
      the worst. */
  lemma NegativeScaleReverses(x: real, y: real, scale: real)
    requires x < y && scale < 0.0
    ensures IsTopK([Fin(x), Fin(y)], 1, Pick([1], [Fin(y)]))
    ensures !IsTopK(Map([Fin(x), Fin(y)], Finish(scale, None)), 1, Pick([1], Map([Fin(y)], Finish(scale, None))))
  {
    hide Scaled;
    var f := Finish(scale, None);
    ScaleDown(x, y, scale);
    assert f(Fin(x)) == Scaled(Fin(x), scale) && f(Fin(y)) == Scaled(Fin(y), scale);
    var scores, p := [Fin(x), Fin(y)], Pick([1], [Fin(y)]);
    var mapped, q := Map(scores, f), Pick([1], Map([Fin(y)], f));
    assert mapped[0] == f(scores[0]) && q.values[0] == f(Fin(y));
    assert !Chosen(q, 0) && !Chosen(p, 0) && Less(q.values[0], mapped[0]);
  }

  lemma ScaleDown(x: real, y: real, scale: real)
    requires x < y && scale < 0.0
    ensures Less(Scaled(Fin(y), scale), Scaled(Fin(x), scale))
  {
  }

  // ---- the operation -----------------------------------------------------------------------------

  // `_topk`: the best of what is left, k times.
  method TopK(scores: seq<Logit>, k: nat) returns (p: Pick)
    requires k <= |scores|
    ensures IsTopK(scores, k, p)
  {
    p := Pick([], []);
    while |p.ids| < k
      invariant |p.ids| <= k && IsTopK(scores, |p.ids|, p)
    {
      var n := |p.ids|;
      var best: nat := Unchosen(scores, p);
      for x := 0 to |scores|
        invariant best < |scores| && !Chosen(p, best)
        invariant forall y :: 0 <= y < x && !Chosen(p, y) ==> Leq(scores[y], scores[best])
      {
        if !Chosen(p, x) && Less(scores[best], scores[x]) {
          best := x;
        }
      }
      p := Pick(p.ids + [best], p.values + [scores[best]]);
      assert forall x :: Chosen(p, x) <==> x == best || x in p.ids[..n];
    }
  }

  // Some place is still free.
  method Unchosen(scores: seq<Logit>, p: Pick) returns (x: nat)
    requires |p.ids| < |scores|
    ensures x < |scores| && !Chosen(p, x)
  {
    x := 0;
    while x < |scores| && Chosen(p, x)
      invariant x <= |scores| && forall y :: 0 <= y < x ==> Chosen(p, y)
    {
      x := x + 1;
    }
    if x == |scores| {
      AllChosen(p, x);
    }
  }

  lemma AllChosen(p: Pick, n: nat)
    requires forall y :: 0 <= y < n ==> Chosen(p, y)
    ensures n <= |p.ids|
  {
    FirstAtMost(p, |p.ids|);
    forall y | y in UpTo(n) ensures y in First(p, |p.ids|) {
      assert Chosen(p, y);
    }
    SubsetSize(UpTo(n), First(p, |p.ids|));
  }

  function UpTo(n: nat): (s: set<nat>)
    ensures |s| == n && forall x: nat :: x in s <==> x < n
  {
    if n == 0 then {} else UpTo(n - 1) + {n - 1}
  }

  /** `get_top_k_tokens`, all ranks together: an error exactly for a scale that is not positive. Otherwise
      a partial top-k of the vocabulary with its values finished, and if there are k finite logits
      the k best of the finished vocabulary. */
  method GetTopKTokens(shards: seq<Shard>, k: nat, scale: real, c: Option<Cap>) returns (p: Option<Pick>)
    requires Sharded(shards) && shards != [] && 0 < k && (c.Some? ==> CapOk(c.value))
    requires forall r :: 0 <= r < |shards| ==> k <= |shards[r].logits|
    ensures p.None? <==> scale <= 0.0
    ensures p.Some? ==> exists q ::
      IsPartialTopK(Vocab(shards), k, q) && p.value == Pick(q.ids, Map(q.values, Finish(scale, c)))
    ensures p.Some? && EnoughFinite(Vocab(shards), k) ==> IsTopK(Map(Vocab(shards), Finish(scale, c)), k, p.value)
  {
    if scale <= 0.0 && scale != 1.0 {
      return None;
    }
    var picks: seq<Pick> := [];
    for r := 0 to |shards|
      invariant |picks| == r
      invariant forall q :: 0 <= q < r ==> IsTopK(Masked(shards[q].logits, shards[q].pad), k, picks[q])
    {
      var mine := TopK(Masked(shards[r].logits, shards[r].pad), k);
      picks := picks + [mine];
    }
    var gathered := Globals(shards, picks);
    GlobalsSize(shards, picks, k);
    PlaceBelow(0, k, k - 1, |shards|);
    PlaceNext(0, k, k - 1);
    var second := TopK(gathered.values, k);
    TwoStageAny(shards, picks, second, k);
    var chosen := Selected(gathered, second);
    if EnoughFinite(Vocab(shards), k) {
      TwoStage(shards, picks, second, k);
      FinishMonotone(scale, c);
      WinnersSuffice(Vocab(shards), k, chosen, Finish(scale, c));
    }
    return Some(Pick(chosen.ids, Map(chosen.values, Finish(scale, c))));
  }
}
