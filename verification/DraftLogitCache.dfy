/** The dense draft logits, kept sparse: a write erases what the row held before, using the ids it
    remembers, and stores only the new candidates. */
module DraftLogitCache {
  import opened Basics
  import opened FlatIndex

  // ---- one row ------------------------------------------------------------------------

  // Minus infinity at every one of the ids.
  function Cleared(row: seq<Logit>, ids: seq<nat>): (r: seq<Logit>)
    requires forall i :: 0 <= i < |ids| ==> ids[i] < |row|
    ensures |r| == |row|
  {
    if ids == [] then row else
      var n := |ids| - 1;
      Cleared(row, ids[..n])[ids[n] := NegInf]
  }

  // The scores at their ids, in order.
  function Stored(row: seq<Logit>, ids: seq<nat>, scores: seq<Logit>): (r: seq<Logit>)
    requires |ids| == |scores| && forall i :: 0 <= i < |ids| ==> ids[i] < |row|
    ensures |r| == |row|
  {
    if ids == [] then row else
      var n := |ids| - 1;
      Stored(row, ids[..n], scores[..n])[ids[n] := scores[n]]
  }

  // Only remembered ids hold anything.
  ghost predicate OnlyAt(row: seq<Logit>, ids: seq<nat>) {
    && (forall i :: 0 <= i < |ids| ==> ids[i] < |row|)
    && forall t :: 0 <= t < |row| && row[t] != NegInf ==> t in ids
  }

  ghost predicate Distinct(ids: seq<nat>) {
    forall i, j :: 0 <= i < j < |ids| ==> ids[i] != ids[j]
  }

  // The row is the map from candidates to scores, and nothing else.
  ghost predicate IsSparse(row: seq<Logit>, ids: seq<nat>, scores: seq<Logit>) {
    && OnlyAt(row, ids) && |ids| == |scores|
    && forall i :: 0 <= i < |ids| ==> row[ids[i]] == scores[i]
  }

  lemma {:induction false} ClearedAt(row: seq<Logit>, ids: seq<nat>, t: nat)
    requires (forall i :: 0 <= i < |ids| ==> ids[i] < |row|) && t < |row|
    ensures Cleared(row, ids)[t] == if t in ids then NegInf else row[t]
  {
    if ids != [] {
      var n := |ids| - 1;
      ClearedAt(row, ids[..n], t);
      assert ids == ids[..n] + [ids[n]];
    }
  }

  /** Erasing the remembered ids empties the row. */
  lemma ClearedEmpty(row: seq<Logit>, ids: seq<nat>)
    requires OnlyAt(row, ids)
    ensures forall t :: 0 <= t < |row| ==> Cleared(row, ids)[t] == NegInf
  {
    forall t | 0 <= t < |row| ensures Cleared(row, ids)[t] == NegInf {
      ClearedAt(row, ids, t);
    }
  }

  lemma {:induction false} StoredElsewhere(row: seq<Logit>, ids: seq<nat>, scores: seq<Logit>, t: nat)
    requires |ids| == |scores| && (forall i :: 0 <= i < |ids| ==> ids[i] < |row|) && t < |row| && t !in ids
    ensures Stored(row, ids, scores)[t] == row[t]
  {
    if ids != [] {
      var n := |ids| - 1;
      assert t !in ids[..n] && t != ids[n];
      StoredElsewhere(row, ids[..n], scores[..n], t);
    }
  }

  lemma {:induction false} StoredAt(row: seq<Logit>, ids: seq<nat>, scores: seq<Logit>, i: nat)
    requires |ids| == |scores| && (forall i :: 0 <= i < |ids| ==> ids[i] < |row|) && Distinct(ids) && i < |ids|
    ensures Stored(row, ids, scores)[ids[i]] == scores[i]
  {
    var n := |ids| - 1;
    if i < n {
      StoredAt(row, ids[..n], scores[..n], i);
    }
  }

  // What a write leaves in its row.
  function Written(row: seq<Logit>, last: seq<nat>, ids: seq<nat>, scores: seq<Logit>): (r: seq<Logit>)
    requires |ids| == |scores| && (forall i :: 0 <= i < |ids| ==> ids[i] < |row|)
    requires forall i :: 0 <= i < |last| ==> last[i] < |row|
    ensures |r| == |row|
  {
    Stored(Cleared(row, last), ids, scores)
  }

  /** After a write the row holds nothing but the new candidates, and with distinct candidates it is
      exactly the map from candidates to scores. */
  lemma WrittenSparse(row: seq<Logit>, last: seq<nat>, ids: seq<nat>, scores: seq<Logit>)
    requires OnlyAt(row, last) && |ids| == |scores| && forall i :: 0 <= i < |ids| ==> ids[i] < |row|
    ensures OnlyAt(Written(row, last, ids, scores), ids)
    ensures Distinct(ids) ==> IsSparse(Written(row, last, ids, scores), ids, scores)
  {
    ClearedEmpty(row, last);
    var base, r := Cleared(row, last), Written(row, last, ids, scores);
    forall t | 0 <= t < |row| && r[t] != NegInf ensures t in ids {
      if t !in ids { StoredElsewhere(base, ids, scores, t); }
    }
    if Distinct(ids) {
      forall i | 0 <= i < |ids| ensures r[ids[i]] == scores[i] {
        StoredAt(base, ids, scores, i);
      }
    }
  }

  // ---- rows in flat buffers -------------------------------------------------------------

  // Request states, steps, candidates, vocabulary, and the stride between rows.
  datatype Shape = Shape(states: nat, steps: nat, topK: nat, vocab: nat, stride: nat)
  {
    predicate Valid() { 0 < steps && 0 < vocab <= stride }
    function RowIndex(s: nat, k: nat): nat { Place(s, steps, k) }
    function Rows(): nat { Place(states, steps, 0) }
  }

  // Row `row` of a flat buffer with the given stride.
  function RowOf<T>(buffer: seq<T>, rows: nat, stride: nat, width: nat, row: nat): (r: seq<T>)
    requires width <= stride && row < rows && |buffer| == Place(rows, stride, 0)
    ensures |r| == width
  {
    seq(width, t requires 0 <= t < width => PlaceBelow(row, stride, t, rows); buffer[Place(row, stride, t)])
  }

  lemma RowMembers<T>(buffer: seq<T>, rows: nat, stride: nat, width: nat, row: nat)
    requires width <= stride && row < rows && |buffer| == Place(rows, stride, 0)
    ensures forall t :: 0 <= t < width ==> RowOf(buffer, rows, stride, width, row)[t] in buffer
  {
    hide Place;
    forall t | 0 <= t < width ensures RowOf(buffer, rows, stride, width, row)[t] in buffer {
      PlaceBelow(row, stride, t, rows);
    }
  }

  lemma RowUpdated<T>(buffer: seq<T>, rows: nat, stride: nat, width: nat, row: nat, t: nat, x: T)
    requires width <= stride && row < rows && t < width && |buffer| == Place(rows, stride, 0)
    ensures Place(row, stride, t) < |buffer|
    ensures
      var b := buffer[Place(row, stride, t) := x];
      && RowOf(b, rows, stride, width, row) == RowOf(buffer, rows, stride, width, row)[t := x]
      && forall q :: 0 <= q < rows && q != row ==>
           RowOf(b, rows, stride, width, q) == RowOf(buffer, rows, stride, width, q)
  {
    hide Place;
    PlaceBelow(row, stride, t, rows);
    var b := buffer[Place(row, stride, t) := x];
    forall q | 0 <= q < rows
      ensures RowOf(b, rows, stride, width, q) ==
        if q == row then RowOf(buffer, rows, stride, width, q)[t := x] else RowOf(buffer, rows, stride, width, q)
    {
      var r0, r1 := RowOf(buffer, rows, stride, width, q), RowOf(b, rows, stride, width, q);
      forall u | 0 <= u < width ensures r1[u] == if q == row && u == t then x else r0[u] {
        PlaceBelow(q, stride, u, rows);
        if Place(q, stride, u) == Place(row, stride, t) { PlaceApart(q, row, stride, u, t); }
      }
      assert r1 == if q == row then r0[t := x] else r0;
    }
  }

  // Every row holds only what its remembered ids say.
  ghost predicate Tidy(sh: Shape, dense: seq<Logit>, cached: seq<nat>) {
    && sh.Valid() && |dense| == Place(sh.Rows(), sh.stride, 0) && |cached| == Place(sh.Rows(), sh.topK, 0)
    && forall row :: 0 <= row < sh.Rows() ==>
         OnlyAt(RowOf(dense, sh.Rows(), sh.stride, sh.vocab, row), RowOf(cached, sh.Rows(), sh.topK, sh.topK, row))
  }

  lemma TidyRow(sh: Shape, dense: seq<Logit>, cached: seq<nat>, row: nat)
    requires Tidy(sh, dense, cached) && row < sh.Rows()
    ensures sh.Valid() && |dense| == Place(sh.Rows(), sh.stride, 0) && |cached| == Place(sh.Rows(), sh.topK, 0)
    ensures OnlyAt(RowOf(dense, sh.Rows(), sh.stride, sh.vocab, row), RowOf(cached, sh.Rows(), sh.topK, sh.topK, row))
  {
  }

  lemma TidyAfter(sh: Shape, d0: seq<Logit>, c0: seq<nat>, d1: seq<Logit>, c1: seq<nat>, row: nat)
    requires Tidy(sh, d0, c0) && |d1| == |d0| && |c1| == |c0| && row < sh.Rows()
    requires OnlyAt(RowOf(d1, sh.Rows(), sh.stride, sh.vocab, row), RowOf(c1, sh.Rows(), sh.topK, sh.topK, row))
    requires forall q :: 0 <= q < sh.Rows() && q != row ==>
      && RowOf(d1, sh.Rows(), sh.stride, sh.vocab, q) == RowOf(d0, sh.Rows(), sh.stride, sh.vocab, q)
      && RowOf(c1, sh.Rows(), sh.topK, sh.topK, q) == RowOf(c0, sh.Rows(), sh.topK, sh.topK, q)
    ensures Tidy(sh, d1, c1)
  {
    hide Place, RowOf, OnlyAt;
  }

  lemma EmptyTidy(sh: Shape, dense: seq<Logit>, cached: seq<nat>)
    requires sh.Valid() && |dense| == Place(sh.Rows(), sh.stride, 0) && |cached| == Place(sh.Rows(), sh.topK, 0)
    requires (forall i :: 0 <= i < |dense| ==> dense[i] == NegInf) && (forall i :: 0 <= i < |cached| ==> cached[i] == 0)
    ensures Tidy(sh, dense, cached)
    ensures forall row, t :: 0 <= row < sh.Rows() && 0 <= t < sh.vocab ==>
      RowOf(dense, sh.Rows(), sh.stride, sh.vocab, row)[t] == NegInf
  {
    hide Place, RowOf;
    forall row | 0 <= row < sh.Rows()
      ensures OnlyAt(RowOf(dense, sh.Rows(), sh.stride, sh.vocab, row), RowOf(cached, sh.Rows(), sh.topK, sh.topK, row))
      ensures forall t :: 0 <= t < sh.vocab ==> RowOf(dense, sh.Rows(), sh.stride, sh.vocab, row)[t] == NegInf
    {
      RowMembers(dense, sh.Rows(), sh.stride, sh.vocab, row);
      RowMembers(cached, sh.Rows(), sh.topK, sh.topK, row);
    }
  }

  // One launch: by program, the request state it belongs to and its candidates with their scores.
  datatype Launch = Launch(states: seq<int>, candidates: seq<nat>, scores: seq<Logit>)
  {
    function Programs(): nat { |states| }
  }

  ghost predicate Ready(sh: Shape, w: Launch) {
    && sh.Valid() && |w.candidates| == |w.scores| == Place(w.Programs(), sh.topK, 0)
    && (forall p :: 0 <= p < w.Programs() ==> w.states[p] < sh.states)
    && (forall i :: 0 <= i < |w.candidates| ==> w.candidates[i] < sh.vocab)
  }

  function Ids(sh: Shape, w: Launch, p: nat): (ids: seq<nat>)
    requires Ready(sh, w) && p < w.Programs()
    ensures |ids| == sh.topK && forall i :: 0 <= i < |ids| ==> ids[i] < sh.vocab
  {
    RowMembers(w.candidates, w.Programs(), sh.topK, sh.topK, p);
    RowOf(w.candidates, w.Programs(), sh.topK, sh.topK, p)
  }

  function Scores(sh: Shape, w: Launch, p: nat): (scores: seq<Logit>)
    requires Ready(sh, w) && p < w.Programs()
    ensures |scores| == sh.topK
  {
    RowOf(w.scores, w.Programs(), sh.topK, sh.topK, p)
  }

  // The row a live program writes: its request state, at the step of its place in the request.
  function Target(sh: Shape, w: Launch, p: nat): (row: nat)
    requires Ready(sh, w) && p < w.Programs() && w.states[p] >= 0
    ensures row < sh.Rows()
  {
    PlaceBelow(w.states[p], sh.steps, p % sh.steps, sh.states);
    sh.RowIndex(w.states[p], p % sh.steps)
  }

  class DraftLogits {
    const sh: Shape
    const dense: array<Logit>
    const cached: array<nat>

    ghost predicate Valid()
      reads this, dense, cached
    {
      Tidy(sh, dense[..], cached[..])
    }

    function Row(row: nat): seq<Logit>
      reads this, dense
      requires sh.Valid() && dense.Length == Place(sh.Rows(), sh.stride, 0) && row < sh.Rows()
    {
      RowOf(dense[..], sh.Rows(), sh.stride, sh.vocab, row)
    }

    function Remembered(row: nat): seq<nat>
      reads this, cached
      requires sh.Valid() && cached.Length == Place(sh.Rows(), sh.topK, 0) && row < sh.Rows()
    {
      RowOf(cached[..], sh.Rows(), sh.topK, sh.topK, row)
    }

    // Minus infinity everywhere, and all remembered ids zero.
    constructor (sh: Shape)
      requires sh.Valid()
      ensures Valid() && this.sh == sh && fresh(dense) && fresh(cached)
      ensures forall row :: 0 <= row < sh.Rows() ==> forall t :: 0 <= t < sh.vocab ==> Row(row)[t] == NegInf
    {
      this.sh := sh;
      dense := new Logit[Place(sh.Rows(), sh.stride, 0)](_ => NegInf);
      cached := new nat[Place(sh.Rows(), sh.topK, 0)](_ => 0);
      new;
      EmptyTidy(sh, dense[..], cached[..]);
    }

    // `_cache_draft_logits_kernel`, one program.
    method Write(w: Launch, p: nat)
      requires Valid() && Ready(sh, w) && p < w.Programs()
      modifies dense, cached
      ensures Valid()
      ensures w.states[p] < 0 ==> dense[..] == old(dense[..]) && cached[..] == old(cached[..])
      ensures w.states[p] >= 0 ==>
        var row := Target(sh, w, p);
        && OnlyAt(old(Row(row)), old(Remembered(row)))
        && Row(row) == Written(old(Row(row)), old(Remembered(row)), Ids(sh, w, p), Scores(sh, w, p))
        && Remembered(row) == Ids(sh, w, p)
        && forall q :: 0 <= q < sh.Rows() && q != row ==> Row(q) == old(Row(q)) && Remembered(q) == old(Remembered(q))
    {
      hide Place, OnlyAt, Ids, Scores, RowOf, Tidy, Cleared, Stored;
      if w.states[p] < 0 {
        return;
      }
      var row := Target(sh, w, p);
      ghost var d0, c0 := dense[..], cached[..];
      TidyRow(sh, d0, c0, row);
      ghost var row0, ids0 := Row(row), Remembered(row);
      WrittenSparse(row0, ids0, Ids(sh, w, p), Scores(sh, w, p));
      Erase(row);
      Store(row, Ids(sh, w, p), Scores(sh, w, p));
      Remember(row, Ids(sh, w, p));
      assert Row(row) == Written(row0, ids0, Ids(sh, w, p), Scores(sh, w, p));
      forall q | 0 <= q < sh.Rows() && q != row
        ensures RowOf(dense[..], sh.Rows(), sh.stride, sh.vocab, q) == RowOf(d0, sh.Rows(), sh.stride, sh.vocab, q)
        ensures RowOf(cached[..], sh.Rows(), sh.topK, sh.topK, q) == RowOf(c0, sh.Rows(), sh.topK, sh.topK, q)
      {
        assert Row(q) == old(Row(q)) && Remembered(q) == old(Remembered(q));
      }
      TidyAfter(sh, d0, c0, dense[..], cached[..], row);
    }

    // Minus infinity at every remembered id of the row.
    method Erase(row: nat)
      requires Valid() && row < sh.Rows()
      modifies dense
      ensures sh.Valid() && dense.Length == Place(sh.Rows(), sh.stride, 0) && cached.Length == Place(sh.Rows(), sh.topK, 0)
      ensures OnlyAt(old(Row(row)), Remembered(row))
      ensures Row(row) == Cleared(old(Row(row)), Remembered(row))
      ensures forall q :: 0 <= q < sh.Rows() && q != row ==> Row(q) == old(Row(q))
    {
      hide Place;
      ghost var ids := Remembered(row);
      for c := 0 to sh.topK
        invariant cached[..] == old(cached[..])
        invariant Row(row) == Cleared(old(Row(row)), ids[..c])
        invariant forall q :: 0 <= q < sh.Rows() && q != row ==> Row(q) == old(Row(q))
      {
        PlaceBelow(row, sh.topK, c, sh.Rows());
        var id := cached[Place(row, sh.topK, c)];
        assert id == ids[c] < sh.vocab;
        ghost var before := dense[..];
        RowUpdated(before, sh.Rows(), sh.stride, sh.vocab, row, id, NegInf);
        dense[Place(row, sh.stride, id)] := NegInf;
        assert dense[..] == before[Place(row, sh.stride, id) := NegInf];
        assert ids[..c + 1][..c] == ids[..c];
      }
      assert ids[..sh.topK] == ids;
    }

    method Store(row: nat, ids: seq<nat>, scores: seq<Logit>)
      requires sh.Valid() && dense.Length == Place(sh.Rows(), sh.stride, 0) && row < sh.Rows()
      requires |ids| == |scores| && forall i :: 0 <= i < |ids| ==> ids[i] < sh.vocab
      modifies dense
      ensures Row(row) == Stored(old(Row(row)), ids, scores)
      ensures forall q :: 0 <= q < sh.Rows() && q != row ==> Row(q) == old(Row(q))
    {
      hide Place;
      for c := 0 to |ids|
        invariant Row(row) == Stored(old(Row(row)), ids[..c], scores[..c])
        invariant forall q :: 0 <= q < sh.Rows() && q != row ==> Row(q) == old(Row(q))
      {
        ghost var before := dense[..];
        RowUpdated(before, sh.Rows(), sh.stride, sh.vocab, row, ids[c], scores[c]);
        dense[Place(row, sh.stride, ids[c])] := scores[c];
        assert dense[..] == before[Place(row, sh.stride, ids[c]) := scores[c]];
        assert ids[..c + 1][..c] == ids[..c] && scores[..c + 1][..c] == scores[..c];
      }
      assert ids[..|ids|] == ids && scores[..|ids|] == scores;
    }

    method Remember(row: nat, ids: seq<nat>)
      requires sh.Valid() && cached.Length == Place(sh.Rows(), sh.topK, 0) && row < sh.Rows() && |ids| == sh.topK
      modifies cached
      ensures Remembered(row) == ids
      ensures forall q :: 0 <= q < sh.Rows() && q != row ==> Remembered(q) == old(Remembered(q))
    {
      hide Place;
      for c := 0 to sh.topK
        invariant forall i :: 0 <= i < c ==> Remembered(row)[i] == ids[i]
        invariant forall q :: 0 <= q < sh.Rows() && q != row ==> Remembered(q) == old(Remembered(q))
      {
        ghost var before := cached[..];
        RowUpdated(before, sh.Rows(), sh.topK, sh.topK, row, c, ids[c]);
        cached[Place(row, sh.topK, c)] := ids[c];
        assert cached[..] == before[Place(row, sh.topK, c) := ids[c]];
      }
    }

    /** One launch in which no row is written twice: every live program's row is exactly its own
        candidates with their scores, every other row is as it was, and the whole buffer still holds
        nothing but remembered ids. */
    method Run(w: Launch)
      requires Valid() && Ready(sh, w)
      requires forall p, q :: 0 <= p < q < w.Programs() && w.states[p] >= 0 && w.states[q] >= 0 ==>
        Target(sh, w, p) != Target(sh, w, q)
      modifies dense, cached
      ensures Valid()
      ensures forall p :: 0 <= p < w.Programs() && w.states[p] >= 0 ==>
        && Remembered(Target(sh, w, p)) == Ids(sh, w, p) && OnlyAt(Row(Target(sh, w, p)), Ids(sh, w, p))
        && (Distinct(Ids(sh, w, p)) ==> IsSparse(Row(Target(sh, w, p)), Ids(sh, w, p), Scores(sh, w, p)))
      ensures forall row :: 0 <= row < sh.Rows() && Untargeted(sh, w, w.Programs(), row) ==>
        Row(row) == old(Row(row)) && Remembered(row) == old(Remembered(row))
    {
      hide Place, RowOf, OnlyAt, IsSparse, Ids, Scores, Written, Tidy, Target;
      Shaped();
      for p := 0 to w.Programs()
        invariant Valid()
        invariant sh.Valid() && dense.Length == Place(sh.Rows(), sh.stride, 0) && cached.Length == Place(sh.Rows(), sh.topK, 0)
        invariant forall q :: 0 <= q < p && w.states[q] >= 0 ==>
          Holds(Row(Target(sh, w, q)), Remembered(Target(sh, w, q)), Ids(sh, w, q), Scores(sh, w, q))
        invariant forall row :: 0 <= row < sh.Rows() && Untargeted(sh, w, p, row) ==>
          Row(row) == old(Row(row)) && Remembered(row) == old(Remembered(row))
      {
        ghost var d0, c0 := dense[..], cached[..];
        Write(w, p);
        if w.states[p] >= 0 {
          var row := Target(sh, w, p);
          WrittenSparse(RowOf(d0, sh.Rows(), sh.stride, sh.vocab, row), RowOf(c0, sh.Rows(), sh.topK, sh.topK, row),
                        Ids(sh, w, p), Scores(sh, w, p));
        }
      }
    }

    lemma Shaped()
      requires Valid()
      ensures sh.Valid() && dense.Length == Place(sh.Rows(), sh.stride, 0) && cached.Length == Place(sh.Rows(), sh.topK, 0)
    {
    }
  }

  // A row that holds what a program wrote.
  ghost predicate Holds(row: seq<Logit>, remembered: seq<nat>, ids: seq<nat>, scores: seq<Logit>) {
    remembered == ids && OnlyAt(row, ids) && (Distinct(ids) ==> IsSparse(row, ids, scores))
  }

  // None of the first n programs writes the row.
  ghost predicate Untargeted(sh: Shape, w: Launch, n: nat, row: nat)
    requires Ready(sh, w) && n <= w.Programs()
  {
    forall p :: 0 <= p < n && w.states[p] >= 0 ==> Target(sh, w, p) != row
  }
}
