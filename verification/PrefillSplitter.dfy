/** The prefill splitter of the sparse indexer, and the sizing of the workspace it packs into. */
module PrefillSplitter {
  import opened Basics

  datatype Group = Group(start: nat, stop: nat)

  // A group of requests and a range of the group's query rows.
  datatype Chunk = Chunk(group: Group, first: nat, last: nat)

  // Compressed sequence lengths and query lengths by request, and the two budgets.
  datatype Batch = Batch(lens: seq<nat>, queries: seq<nat>)
  {
    predicate Valid() { |lens| == |queries| }
  }

  function Sum(s: seq<nat>, i: nat, j: nat): nat
    requires i <= j <= |s|
  {
    if i == j then 0 else Sum(s, i, j - 1) + s[j - 1]
  }

  function Rows(b: Batch, g: Group): nat
    requires g.start <= g.stop <= |b.queries|
  {
    Sum(b.queries, g.start, g.stop)
  }

  function Columns(b: Batch, g: Group): nat
    requires g.start <= g.stop <= |b.lens|
  {
    Sum(b.lens, g.start, g.stop)
  }

  // Both budgets admit this many rows and columns.
  predicate Admits(workspace: nat, logits: nat, rows: nat, columns: nat) {
    columns <= workspace && rows * columns <= logits
  }

  // ---- the greedy split, as a function ----------------------------------------------

  function Reach(b: Batch, workspace: nat, logits: nat, end: nat, rows: nat, columns: nat): (stop: nat)
    requires b.Valid() && end <= |b.lens|
    ensures end <= stop <= |b.lens|
    decreases |b.lens| - end
  {
    if end < |b.lens| && Admits(workspace, logits, rows + b.queries[end], columns + b.lens[end])
    then Reach(b, workspace, logits, end + 1, rows + b.queries[end], columns + b.lens[end])
    else end
  }

  function StopOf(b: Batch, workspace: nat, logits: nat, start: nat): (stop: nat)
    requires b.Valid() && start < |b.lens|
    ensures start < stop <= |b.lens|
  {
    var end := Reach(b, workspace, logits, start, 0, 0);
    if end == start then start + 1 else end
  }

  function MaxRows(logits: nat, rows: nat, columns: nat): (most: nat)
    ensures 1 <= most
  {
    if columns > 0 then (if logits / columns > 1 then logits / columns else 1)
    else if rows > 1 then rows else 1
  }

  function Subs(g: Group, rows: nat, most: nat, first: nat): seq<Chunk>
    requires 1 <= most
    decreases rows - first
  {
    if first >= rows then [] else
      [Chunk(g, first, first + if most < rows - first then most else rows - first)]
      + Subs(g, rows, most, first + most)
  }

  function Groups(b: Batch, workspace: nat, logits: nat, start: nat): seq<Group>
    requires b.Valid()
    decreases |b.lens| - start
  {
    if start >= |b.lens| then [] else
      var stop := StopOf(b, workspace, logits, start);
      [Group(start, stop)] + Groups(b, workspace, logits, stop)
  }

  function ChunksOf(b: Batch, logits: nat, g: Group): seq<Chunk>
    requires b.Valid() && g.start <= g.stop <= |b.lens|
  {
    Subs(g, Rows(b, g), MaxRows(logits, Rows(b, g), Columns(b, g)), 0)
  }

  function Chunks(b: Batch, workspace: nat, logits: nat, start: nat): seq<Chunk>
    requires b.Valid()
    decreases |b.lens| - start
  {
    if start >= |b.lens| then [] else
      var stop := StopOf(b, workspace, logits, start);
      ChunksOf(b, logits, Group(start, stop)) + Chunks(b, workspace, logits, stop)
  }

  // `split_prefill_chunks`
  method Split(b: Batch, workspace: nat, maxLogitsBytes: nat) returns (chunks: seq<Chunk>)
    requires b.Valid()
    ensures chunks == Chunks(b, workspace, maxLogitsBytes / 4, 0)
  {
    hide Admits, MaxRows, Subs;
    var n := |b.lens|;
    var logits := maxLogitsBytes / 4;
    chunks := [];
    var end := 0;
    while end < n
      invariant end <= n
      invariant chunks + Chunks(b, workspace, logits, end) == Chunks(b, workspace, logits, 0)
    {
      var start, rows, columns := end, 0, 0;
      while end < n
        invariant start <= end <= n && rows == Sum(b.queries, start, end) && columns == Sum(b.lens, start, end)
        invariant Reach(b, workspace, logits, end, rows, columns) == Reach(b, workspace, logits, start, 0, 0)
      {
        var newRows, newColumns := rows + b.queries[end], columns + b.lens[end];
        if Admits(workspace, logits, newRows, newColumns) {
          rows, columns := newRows, newColumns;
          end := end + 1;
        } else {
          break;
        }
      }
      if end == start {
        rows, columns := b.queries[end], b.lens[end];
        end := end + 1;
        SumOne(b.queries, start);
        SumOne(b.lens, start);
      }
      ghost var before := chunks;
      chunks := AddSubs(chunks, Group(start, end), rows, MaxRows(logits, rows, columns));
      assert chunks == before + ChunksOf(b, logits, Group(start, end));
      assert before + (ChunksOf(b, logits, Group(start, end)) + Chunks(b, workspace, logits, end))
          == chunks + Chunks(b, workspace, logits, end);
    }
  }

  lemma SumOne(s: seq<nat>, i: nat)
    requires i < |s|
    ensures Sum(s, i, i + 1) == s[i]
  {
  }

  // The sub-chunks of one group: at most `most` query rows each.
  method AddSubs(chunks: seq<Chunk>, group: Group, rows: nat, most: nat) returns (more: seq<Chunk>)
    requires 1 <= most
    ensures more == chunks + Subs(group, rows, most, 0)
  {
    more := chunks;
    var first := 0;
    while first < rows
      invariant more + Subs(group, rows, most, first) == chunks + Subs(group, rows, most, 0)
      decreases rows - first
    {
      var count := if most < rows - first then most else rows - first;
      more := more + [Chunk(group, first, first + count)];
      first := first + most;
    }
  }

  // ---- what every split keeps -------------------------------------------------------

  lemma {:induction false} SumSplit(s: seq<nat>, i: nat, k: nat, j: nat)
    requires i <= k <= j <= |s|
    ensures Sum(s, i, j) == Sum(s, i, k) + Sum(s, k, j)
    decreases j
  {
    if k < j {
      SumSplit(s, i, k, j - 1);
    }
  }

  lemma {:induction false} ReachFits(b: Batch, workspace: nat, logits: nat, start: nat, end: nat)
    requires b.Valid() && start <= end <= |b.lens|
    requires start < end ==> Admits(workspace, logits, Sum(b.queries, start, end), Sum(b.lens, start, end))
    ensures
      var stop := Reach(b, workspace, logits, end, Sum(b.queries, start, end), Sum(b.lens, start, end));
      && (start < stop ==> Admits(workspace, logits, Sum(b.queries, start, stop), Sum(b.lens, start, stop)))
      && (stop < |b.lens| ==> !Admits(workspace, logits, Sum(b.queries, start, stop + 1), Sum(b.lens, start, stop + 1)))
    decreases |b.lens| - end
  {
    hide Admits;
    if end < |b.lens| && Admits(workspace, logits, Sum(b.queries, start, end + 1), Sum(b.lens, start, end + 1)) {
      ReachFits(b, workspace, logits, start, end + 1);
    }
  }

  // A group of several requests is within both budgets, and a group within both budgets could not
  // have taken the next request too.
  ghost predicate Greedy(b: Batch, workspace: nat, logits: nat, g: Group)
    requires b.Valid()
  {
    && g.start < g.stop <= |b.lens|
    && (g.stop - g.start > 1 ==> Columns(b, g) <= workspace && Rows(b, g) * Columns(b, g) <= logits)
    && (g.stop < |b.lens| && Columns(b, g) <= workspace && Rows(b, g) * Columns(b, g) <= logits ==>
          var next := Group(g.start, g.stop + 1);
          Columns(b, next) > workspace || Rows(b, next) * Columns(b, next) > logits)
  }

  // Each group begins where the one before it stops.
  ghost predicate Tiled(gs: seq<Group>, start: nat, n: nat) {
    && (gs == [] <==> start >= n)
    && (gs != [] ==> gs[0].start == start && gs[|gs| - 1].stop == n)
    && forall k :: 0 <= k < |gs| - 1 ==> gs[k].stop == gs[k + 1].start
  }

  /** The groups cut the requests into consecutive runs, each as long as the budgets allow. */
  lemma {:induction false} GroupsTile(b: Batch, workspace: nat, logits: nat, start: nat)
    requires b.Valid() && start <= |b.lens|
    ensures
      var gs := Groups(b, workspace, logits, start);
      Tiled(gs, start, |b.lens|) && forall k :: 0 <= k < |gs| ==> Greedy(b, workspace, logits, gs[k])
    decreases |b.lens| - start
  {
    if start < |b.lens| {
      var stop := StopOf(b, workspace, logits, start);
      GroupGreedy(b, workspace, logits, start);
      hide Greedy, StopOf;
      GroupsTile(b, workspace, logits, stop);
    }
  }

  lemma GroupGreedy(b: Batch, workspace: nat, logits: nat, start: nat)
    requires b.Valid() && start < |b.lens|
    ensures Greedy(b, workspace, logits, Group(start, StopOf(b, workspace, logits, start)))
  {
    ReachFits(b, workspace, logits, start, start);
  }

  // The sub-chunks cut the group's query rows into consecutive pieces.
  ghost predicate Cut(cs: seq<Chunk>, g: Group, first: nat, rows: nat, most: nat) {
    && (cs == [] <==> first >= rows)
    && (cs != [] ==> cs[0].first == first && cs[|cs| - 1].last == rows)
    && (forall i :: 0 <= i < |cs| ==> cs[i].group == g && cs[i].first < cs[i].last <= cs[i].first + most)
    && forall i :: 0 <= i < |cs| - 1 ==> cs[i].last == cs[i + 1].first
  }

  lemma {:induction false} SubsCut(g: Group, rows: nat, most: nat, first: nat)
    requires 1 <= most
    ensures Cut(Subs(g, rows, most, first), g, first, rows, most)
    decreases rows - first
  {
    if first < rows {
      SubsCut(g, rows, most, first + most);
    }
  }

  lemma PerRow(columns: nat, logits: nat, rows: nat)
    requires 0 < columns && rows <= logits / columns
    ensures rows * columns <= logits
  {
    assert logits == (logits / columns) * columns + logits % columns;
    assert (logits / columns - rows) * columns >= 0;
    assert (logits / columns) * columns == (logits / columns - rows) * columns + rows * columns;
  }

  lemma RowsPer(columns: nat, logits: nat, rows: nat)
    requires 0 < columns && rows * columns <= logits
    ensures rows <= logits / columns
  {
    var q := logits / columns;
    NextMultiple(columns, logits);
    if q + 1 <= rows {
      TimesMono(q + 1, rows, columns);
    }
  }

  lemma NextMultiple(columns: nat, logits: nat)
    requires 0 < columns
    ensures logits < (logits / columns + 1) * columns
  {
    assert logits == (logits / columns) * columns + logits % columns;
    assert (logits / columns + 1) * columns == (logits / columns) * columns + columns;
  }

  /** Every sub-chunk stays within the logits budget, unless it is a single row. */
  lemma SubWithinBudget(b: Batch, logits: nat, g: Group, i: nat)
    requires b.Valid() && g.start <= g.stop <= |b.lens| && i < |ChunksOf(b, logits, g)|
    ensures
      var c := ChunksOf(b, logits, g)[i];
      c.group == g && c.first < c.last && (c.last - c.first == 1 || (c.last - c.first) * Columns(b, g) <= logits)
  {
    var rows, columns := Rows(b, g), Columns(b, g);
    SubsCut(g, rows, MaxRows(logits, rows, columns), 0);
    var c := ChunksOf(b, logits, g)[i];
    if columns > 0 && c.last - c.first > 1 {
      PerRow(columns, logits, c.last - c.first);
    }
  }

  /** And it could not have been longer: all sub-chunks but the last of a group have the same number of rows,
      one more row would exceed the budget, and a group without columns is not cut. */
  lemma {:induction false} SubsFull(g: Group, rows: nat, columns: nat, logits: nat, first: nat, i: nat)
    requires i < |Subs(g, rows, MaxRows(logits, rows, columns), first)| - 1
    ensures
      var c := Subs(g, rows, MaxRows(logits, rows, columns), first)[i];
      && c.first == first + i * MaxRows(logits, rows, columns) && c.last - c.first == MaxRows(logits, rows, columns)
      && (if columns == 0 then rows <= c.last - c.first else logits < (c.last - c.first + 1) * columns)
    decreases i
  {
    var most := MaxRows(logits, rows, columns);
    if columns > 0 { NextMultiple(columns, logits); TimesMono(logits / columns + 1, most + 1, columns); }
    if i > 0 {
      SubsFull(g, rows, columns, logits, first + most, i - 1);
      assert i * most == (i - 1) * most + most;
    }
  }

  /** A group of several requests is never cut: it is one chunk, or none if it has no query rows. */
  lemma SeveralIsOne(b: Batch, workspace: nat, logits: nat, g: Group)
    requires b.Valid() && Greedy(b, workspace, logits, g) && g.stop - g.start > 1
    ensures Columns(b, g) <= workspace
    ensures ChunksOf(b, logits, g) == if Rows(b, g) > 0 then [Chunk(g, 0, Rows(b, g))] else []
  {
    var rows, columns := Rows(b, g), Columns(b, g);
    if columns > 0 { RowsPer(columns, logits, rows); }
    var most := MaxRows(logits, rows, columns);
    assert rows <= most;
    assert Subs(g, rows, most, most) == [];
  }

  // Chunks come in the order of their groups, and within a group in the order of their rows.
  predicate Before(c: Chunk, d: Chunk) {
    c.group.stop <= d.group.start || (c.group == d.group && c.last <= d.first)
  }

  lemma {:induction false} CutAscends(cs: seq<Chunk>, g: Group, first: nat, rows: nat, most: nat, i: nat, j: nat)
    requires Cut(cs, g, first, rows, most) && i < j < |cs|
    ensures Before(cs[i], cs[j]) && cs[i].last <= cs[j].first
    decreases j
  {
    if i + 1 < j {
      CutAscends(cs, g, first, rows, most, i, j - 1);
    }
  }

  lemma {:induction false} ChunksAscend(b: Batch, workspace: nat, logits: nat, start: nat, i: nat, j: nat)
    requires b.Valid() && start <= |b.lens| && i < |Chunks(b, workspace, logits, start)|
    ensures start <= Chunks(b, workspace, logits, start)[i].group.start
    ensures i < j < |Chunks(b, workspace, logits, start)| ==>
      Before(Chunks(b, workspace, logits, start)[i], Chunks(b, workspace, logits, start)[j])
    decreases |b.lens| - start
  {
    hide MaxRows, Reach, StopOf;
    var g := Group(start, StopOf(b, workspace, logits, start));
    var mine, all := ChunksOf(b, logits, g), Chunks(b, workspace, logits, start);
    var n := |mine|;
    SubsCut(g, Rows(b, g), MaxRows(logits, Rows(b, g), Columns(b, g)), 0);
    if i < n {
      if i < j < n {
        CutAscends(mine, g, 0, Rows(b, g), MaxRows(logits, Rows(b, g), Columns(b, g)), i, j);
      } else if n <= j < |all| {
        ChunksAscend(b, workspace, logits, g.stop, j - n, j - n);
      }
    } else {
      ChunksAscend(b, workspace, logits, g.stop, i - n, if j < n then i - n else j - n);
    }
  }

  lemma {:induction false} CutCovers(cs: seq<Chunk>, g: Group, first: nat, rows: nat, most: nat, x: nat) returns (i: nat)
    requires Cut(cs, g, first, rows, most) && first <= x < rows
    ensures i < |cs| && cs[i].first <= x < cs[i].last
    decreases |cs|
  {
    if x < cs[0].last {
      i := 0;
    } else {
      assert |cs| > 1;
      assert forall k :: 0 <= k < |cs| - 1 ==> cs[1..][k] == cs[k + 1];
      var k := CutCovers(cs[1..], g, cs[0].last, rows, most, x);
      i := k + 1;
    }
  }

  lemma {:induction false} RowInAChunk(b: Batch, workspace: nat, logits: nat, start: nat, k: nat, x: nat)
    returns (i: nat)
    requires b.Valid() && start <= |b.lens| && k < |Groups(b, workspace, logits, start)|
    requires Groups(b, workspace, logits, start)[k].start <= Groups(b, workspace, logits, start)[k].stop <= |b.lens|
    requires x < Rows(b, Groups(b, workspace, logits, start)[k])
    ensures
      var cs, g := Chunks(b, workspace, logits, start), Groups(b, workspace, logits, start)[k];
      i < |cs| && cs[i].group == g && cs[i].first <= x < cs[i].last
    decreases |b.lens| - start
  {
    hide MaxRows, Reach, StopOf, Subs, Sum;
    var g := Group(start, StopOf(b, workspace, logits, start));
    var mine := ChunksOf(b, logits, g);
    if k == 0 {
      SubsCut(g, Rows(b, g), MaxRows(logits, Rows(b, g), Columns(b, g)), 0);
      i := CutCovers(mine, g, 0, Rows(b, g), MaxRows(logits, Rows(b, g), Columns(b, g)), x);
    } else {
      var rest := RowInAChunk(b, workspace, logits, g.stop, k - 1, x);
      i := |mine| + rest;
    }
  }

  /** Every query row of every group is in exactly one chunk of that group. */
  lemma RowInOneChunk(b: Batch, workspace: nat, logits: nat, k: nat, x: nat) returns (i: nat)
    requires b.Valid() && k < |Groups(b, workspace, logits, 0)|
    requires Groups(b, workspace, logits, 0)[k].start <= Groups(b, workspace, logits, 0)[k].stop <= |b.lens|
    requires x < Rows(b, Groups(b, workspace, logits, 0)[k])
    ensures
      var cs, g := Chunks(b, workspace, logits, 0), Groups(b, workspace, logits, 0)[k];
      && i < |cs| && cs[i].group == g && cs[i].first <= x < cs[i].last
      && forall j :: 0 <= j < |cs| && cs[j].group == g && cs[j].first <= x < cs[j].last ==> j == i
  {
    hide Groups, Chunks, Rows;
    i := RowInAChunk(b, workspace, logits, 0, k, x);
    var cs := Chunks(b, workspace, logits, 0);
    ChunkProper(b, workspace, logits, 0, i);
    forall j | 0 <= j < |cs| && cs[j].group == cs[i].group && cs[j].first <= x < cs[j].last ensures j == i {
      if j < i { ChunksAscend(b, workspace, logits, 0, j, i); }
      if i < j { ChunksAscend(b, workspace, logits, 0, i, j); }
    }
  }

  lemma {:induction false} ChunkProper(b: Batch, workspace: nat, logits: nat, start: nat, i: nat)
    requires b.Valid() && start <= |b.lens| && i < |Chunks(b, workspace, logits, start)|
    ensures Chunks(b, workspace, logits, start)[i].group.start < Chunks(b, workspace, logits, start)[i].group.stop
    decreases |b.lens| - start
  {
    hide MaxRows, Reach;
    var g := Group(start, StopOf(b, workspace, logits, start));
    var n := |ChunksOf(b, logits, g)|;
    SubsCut(g, Rows(b, g), MaxRows(logits, Rows(b, g), Columns(b, g)), 0);
    if i >= n {
      ChunkProper(b, workspace, logits, g.stop, i - n);
    }
  }

  // ---- the workspace ----------------------------------------------------------------

  lemma {:induction false} SameReach(b: Batch, one: nat, other: nat, logits: nat, end: nat, rows: nat, columns: nat)
    requires b.Valid() && end <= |b.lens|
    requires columns + Sum(b.lens, end, |b.lens|) <= one && columns + Sum(b.lens, end, |b.lens|) <= other
    ensures Reach(b, one, logits, end, rows, columns) == Reach(b, other, logits, end, rows, columns)
    decreases |b.lens| - end
  {
    if end < |b.lens| {
      SumSplit(b.lens, end, end + 1, |b.lens|);
      SumOne(b.lens, end);
      SameReach(b, one, other, logits, end + 1, rows + b.queries[end], columns + b.lens[end]);
    }
  }

  /** Any two workspaces that hold the whole batch split it in the same way. */
  lemma {:induction false} SameChunks(b: Batch, one: nat, other: nat, logits: nat, start: nat)
    requires b.Valid() && start <= |b.lens|
    requires Sum(b.lens, start, |b.lens|) <= one && Sum(b.lens, start, |b.lens|) <= other
    ensures Chunks(b, one, logits, start) == Chunks(b, other, logits, start)
    decreases |b.lens| - start
  {
    if start < |b.lens| {
      SameReach(b, one, other, logits, start, 0, 0);
      var stop := StopOf(b, one, logits, start);
      SumSplit(b.lens, start, stop, |b.lens|);
      SameChunks(b, one, other, logits, stop);
    }
  }

  datatype Config = Config(maxModelLen: nat, maxNumSeqs: nat, maxBatchedTokens: nat, speculative: int, kpool: int)

  datatype Result<+T> = Ok(value: T) | Err

  function StockEntries(c: Config): nat { c.maxModelLen * 40 }

  function Ratio(c: Config): (r: nat)
    ensures 1 <= r
  {
    if c.kpool > 1 then c.kpool else 1
  }

  function MaxRequests(c: Config): nat {
    var least := if c.maxNumSeqs < c.maxBatchedTokens then c.maxNumSeqs else c.maxBatchedTokens;
    if least > 1 then least else 1
  }

  function Span(c: Config): nat { c.maxModelLen + if c.speculative > 0 then c.speculative else 0 }

  // `_glm53_rightsized_workspace_entries`
  function RightsizedEntries(c: Config): nat {
    var stock := StockEntries(c);
    if Ratio(c) <= 1 then stock
    else
      var legal := CeilDiv(Span(c), Ratio(c)) * MaxRequests(c);
      if legal < stock then legal else stock
  }

  // `get_max_prefill_buffer_size`, with the value of the mode variable if it is set.
  function BufferSize(c: Config, mode: Option<string>): Result<nat> {
    if mode.None? || mode.value == "stock" then Ok(StockEntries(c))
    else if mode.value != "rightsize" then Err
    else if RightsizedEntries(c) >= StockEntries(c) then Ok(StockEntries(c))
    else Ok(RightsizedEntries(c))
  }

  // What the scheduler may form: `tokens[i]` is request i's length before compression.
  ghost predicate Legal(c: Config, b: Batch, tokens: seq<nat>) {
    && b.Valid() && |tokens| == |b.lens| <= c.maxNumSeqs
    && Sum(b.queries, 0, |b.queries|) <= c.maxBatchedTokens
    && (forall i :: 0 <= i < |b.queries| ==> 1 <= b.queries[i])
    && (forall i :: 0 <= i < |tokens| ==> tokens[i] <= Span(c) && b.lens[i] == tokens[i] / Ratio(c))
  }

  lemma {:induction false} AtLeastOneEach(s: seq<nat>, n: nat)
    requires n <= |s| && forall i :: 0 <= i < |s| ==> 1 <= s[i]
    ensures n <= Sum(s, 0, n)
  {
    if n > 0 {
      AtLeastOneEach(s, n - 1);
    }
  }

  lemma {:induction false} AtMostEach(s: seq<nat>, n: nat, most: nat)
    requires n <= |s| && forall i :: 0 <= i < |s| ==> s[i] <= most
    ensures Sum(s, 0, n) <= n * most
  {
    if n > 0 {
      AtMostEach(s, n - 1, most);
      assert n * most == (n - 1) * most + most;
    }
  }

  lemma FloorCeil(tokens: nat, span: nat, d: nat)
    requires 0 < d && tokens <= span
    ensures tokens / d <= CeilDiv(span, d)
  {
    DivMono(tokens, span + d - 1, d);
  }

  lemma DivMono(a: nat, b: nat, d: nat)
    requires 0 < d && a <= b
    ensures a / d <= b / d
  {
    assert a == (a / d) * d + a % d;
    RowsPer(d, b, a / d);
  }

  // The legal maximum holds every legal batch.
  lemma LegalFits(c: Config, b: Batch, tokens: seq<nat>)
    requires Legal(c, b, tokens) && RightsizedEntries(c) < StockEntries(c)
    ensures Sum(b.lens, 0, |b.lens|) <= RightsizedEntries(c)
  {
    var n, per := |b.lens|, CeilDiv(Span(c), Ratio(c));
    AtLeastOneEach(b.queries, n);
    forall i | 0 <= i < n ensures b.lens[i] <= per {
      FloorCeil(tokens[i], Span(c), Ratio(c));
    }
    AtMostEach(b.lens, n, per);
    TimesMono(n, MaxRequests(c), per);
    hide CeilDiv;
  }

  /** Every batch the scheduler may form is split in the same way with the right-sized workspace as
      with the stock one, which is never smaller. */
  lemma WorkspaceIdentity(c: Config, b: Batch, tokens: seq<nat>, logits: nat)
    requires Legal(c, b, tokens)
    ensures
      var size := BufferSize(c, Some("rightsize"));
      && size.Ok? && size.value <= StockEntries(c)
      && Chunks(b, size.value, logits, 0) == Chunks(b, StockEntries(c), logits, 0)
  {
    if RightsizedEntries(c) < StockEntries(c) {
      LegalFits(c, b, tokens);
      SameChunks(b, RightsizedEntries(c), StockEntries(c), logits, 0);
    }
  }

  /** A workspace below stock holds every group of every legal batch. */
  lemma GroupsFit(c: Config, b: Batch, tokens: seq<nat>, logits: nat, k: nat)
    requires Legal(c, b, tokens) && RightsizedEntries(c) < StockEntries(c)
    requires k < |Groups(b, RightsizedEntries(c), logits, 0)|
    ensures
      var g := Groups(b, RightsizedEntries(c), logits, 0)[k];
      g.start <= g.stop <= |b.lens| && Columns(b, g) <= RightsizedEntries(c)
  {
    var g := Groups(b, RightsizedEntries(c), logits, 0)[k];
    GroupsTile(b, RightsizedEntries(c), logits, 0);
    LegalFits(c, b, tokens);
    SumSplit(b.lens, 0, g.start, |b.lens|);
    SumSplit(b.lens, g.start, g.stop, |b.lens|);
  }

  /** Whatever mode is accepted, the workspace is at most stock and every legal batch is split as it
      is with stock; a mode is accepted exactly when it is unset or one of the two names. */
  lemma AnyMode(c: Config, mode: Option<string>, b: Batch, tokens: seq<nat>, logits: nat)
    requires Legal(c, b, tokens)
    ensures BufferSize(c, mode).Ok? <==> mode in {None, Some("stock"), Some("rightsize")}
    ensures BufferSize(c, mode).Ok? ==>
      var size := BufferSize(c, mode).value;
      size <= StockEntries(c) && Chunks(b, size, logits, 0) == Chunks(b, StockEntries(c), logits, 0)
  {
    WorkspaceIdentity(c, b, tokens, logits);
  }

  /** Stock is forty entries per token of the longest sequence. The right-sized workspace is that too, unless
      lengths are compressed and what the most requests of a step can need is less: each request its
      longest sequence and its drafts, compressed and rounded up, and a step no more requests than
      sequences or tokens, but at least one. */
  lemma BufferSizeIs(c: Config, per: nat, most: nat)
    requires most == 1 || (most <= c.maxNumSeqs && most <= c.maxBatchedTokens)
    requires 1 <= most && (c.maxNumSeqs <= most || c.maxBatchedTokens <= most)
    requires c.kpool > 1 ==>
      var span := c.maxModelLen + if c.speculative > 0 then c.speculative else 0;
      span <= per * c.kpool < span + c.kpool
    ensures StockEntries(c) == 40 * c.maxModelLen && BufferSize(c, None) == BufferSize(c, Some("stock")) == Ok(StockEntries(c))
    ensures BufferSize(c, Some("rightsize")) ==
      Ok(if c.kpool > 1 && per * most < 40 * c.maxModelLen then per * most else 40 * c.maxModelLen)
  {
    if c.kpool > 1 {
      CeilIs(Span(c), c.kpool, per);
    }
  }

  lemma CeilIs(n: nat, d: nat, q: nat)
    requires 0 < d && n <= q * d < n + d
    ensures CeilDiv(n, d) == q
  {
    var m := n + (d - 1);
    RowsPer(d, m, q);
    assert (q + 1) * d == q * d + d;
    if q < m / d {
      PerRow(d, m, q + 1);
      assert false;
    }
  }
}
