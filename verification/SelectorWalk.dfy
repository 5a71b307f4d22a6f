/** The candidate walk of the block drafter: it follows a table of edge scores, one step at a time,
    and has to do what scoring each step from the token actually chosen before it would do. */
module SelectorWalk {
  import opened Basics
  import opened FlatIndex

  // Requests, draft steps per request, candidates per step.
  datatype Shape = Shape(rows: nat, steps: nat, topK: nat)
  {
    predicate Valid() { 0 < steps && 0 < topK }

    // Step l of request r, and candidate c at that step.
    function Flat(r: nat, l: nat): nat { Place(r, steps, l) }
    function Candidate(r: nat, l: nat, c: nat): nat { Place(Flat(r, l), topK, c) }
    // Edge from predecessor p to candidate c.
    function Edge(r: nat, l: nat, p: nat, c: nat): nat { Place(Candidate(r, l, p), topK, c) }

    function Flats(): nat { Place(rows, steps, 0) }
    function Candidates(): nat { Place(Flats(), topK, 0) }
    function Edges(): nat { Place(Candidates(), topK, 0) }
  }

  lemma InBounds(sh: Shape, r: nat, l: nat, p: nat, c: nat)
    requires r < sh.rows && l < sh.steps && p < sh.topK && c < sh.topK
    ensures sh.Flat(r, l) < sh.Flats() && sh.Candidate(r, l, c) < sh.Candidates() && sh.Edge(r, l, p, c) < sh.Edges()
  {
    hide Place;
    PlaceBelow(r, sh.steps, l, sh.rows);
    PlaceBelow(sh.Flat(r, l), sh.topK, c, sh.Flats());
    PlaceBelow(sh.Flat(r, l), sh.topK, p, sh.Flats());
    PlaceBelow(sh.Candidate(r, l, p), sh.topK, c, sh.Candidates());
  }

  // What the edge scores are made of, by flat index.
  datatype Model = Model(
    anchor: seq<nat>,             // the token before the first step, by request
    candidates: seq<nat>,
    unary: seq<real>,
    hidden: seq<seq<real>>,
    predecessor: seq<seq<real>>,  // codebooks by token
    successor: seq<seq<real>>,
    rank: nat)

  ghost predicate Fits(sh: Shape, m: Model) {
    && sh.Valid()
    && |m.anchor| == sh.rows && |m.candidates| == |m.unary| == sh.Candidates() && |m.hidden| == sh.Flats()
    && |m.predecessor| == |m.successor|
    && (forall i :: 0 <= i < |m.anchor| ==> m.anchor[i] < |m.predecessor|)
    && (forall i :: 0 <= i < |m.candidates| ==> m.candidates[i] < |m.predecessor|)
    && (forall i :: 0 <= i < |m.predecessor| ==> |m.predecessor[i]| == |m.successor[i]| == m.rank)
    && (forall i :: 0 <= i < |m.hidden| ==> |m.hidden[i]| == m.rank)
  }

  // One entry of the einsum: predecessor times hidden, against successor.
  function Dot(p: seq<real>, h: seq<real>, s: seq<real>): real
    requires |p| == |h| == |s|
  {
    if p == [] then 0.0 else
      var n := |p| - 1;
      Dot(p[..n], h[..n], s[..n]) + (p[n] * h[n]) * s[n]
  }

  lemma DotOne(x: real, y: real, z: real)
    ensures Dot([], [], []) == 0.0 && Dot([x], [y], [z]) == x * y * z
  {
    assert [x][..0] == [];
  }

  // The entry is additive over the coordinates.
  lemma {:induction false} DotJoins(p: seq<real>, h: seq<real>, s: seq<real>, q: seq<real>, g: seq<real>, u: seq<real>)
    requires |p| == |h| == |s| && |q| == |g| == |u|
    ensures Dot(p + q, h + g, s + u) == Dot(p, h, s) + Dot(q, g, u)
    decreases |q|
  {
    if q == [] {
      assert p + q == p && h + g == h && s + u == s;
    } else {
      var n := |q| - 1;
      DotJoins(p, h, s, q[..n], g[..n], u[..n]);
      assert (p + q)[..|p| + n] == p + q[..n] && (h + g)[..|p| + n] == h + g[..n] && (s + u)[..|p| + n] == s + u[..n];
    }
  }

  // The score of candidate c at step l of request r, coming from token t.
  function Score(sh: Shape, m: Model, r: nat, l: nat, t: nat, c: nat): real
    requires Fits(sh, m) && r < sh.rows && l < sh.steps && c < sh.topK && t < |m.predecessor|
  {
    InBounds(sh, r, l, 0, c);
    m.unary[sh.Candidate(r, l, c)] +
    Dot(m.predecessor[t], m.hidden[sh.Flat(r, l)], m.successor[m.candidates[sh.Candidate(r, l, c)]])
  }

  // The predecessor `_score_edges` puts at place p: the anchor at step 0, else a candidate.
  function PredecessorAt(sh: Shape, m: Model, r: nat, l: nat, p: nat): (t: nat)
    requires Fits(sh, m) && r < sh.rows && l < sh.steps && p < sh.topK
    ensures t < |m.predecessor|
  {
    if l == 0 then m.anchor[r] else
      InBounds(sh, r, l - 1, 0, p);
      m.candidates[sh.Candidate(r, l - 1, p)]
  }

  // `_score_edges`: the flat table of all edges.
  ghost predicate IsTable(sh: Shape, m: Model, scores: seq<real>) {
    && Fits(sh, m) && |scores| == sh.Edges()
    && forall r, l, p, c :: 0 <= r < sh.rows && 0 <= l < sh.steps && 0 <= p < sh.topK && 0 <= c < sh.topK ==>
         Entry(sh, m, scores, r, l, p, c)
  }

  ghost predicate Entry(sh: Shape, m: Model, scores: seq<real>, r: nat, l: nat, p: nat, c: nat)
    requires Fits(sh, m) && |scores| == sh.Edges() && r < sh.rows && l < sh.steps && p < sh.topK && c < sh.topK
  {
    InBounds(sh, r, l, p, c);
    scores[sh.Edge(r, l, p, c)] == Score(sh, m, r, l, PredecessorAt(sh, m, r, l, p), c)
  }

  // ---- sampling -----------------------------------------------------------------------

  datatype Sampling = Sampling(temperature: seq<real>, seeds: seq<int>, probabilistic: bool,
                               noise: (int, int, nat) -> real)

  // The value whose maximum is taken: the token keys the noise.
  function Noised(s: Sampling, state: nat, position: int, token: nat, score: real): real
    requires state < |s.temperature| && state < |s.seeds|
  {
    var t := if s.probabilistic then s.temperature[state] else 0.0;
    if t == 0.0 then score else score / t + s.noise(s.seeds[state], position, token)
  }

  // The first of the largest values.
  function Best(v: seq<real>): (i: nat)
    requires v != []
    ensures i < |v|
    ensures forall j :: 0 <= j < |v| ==> v[j] <= v[i]
    ensures forall j :: 0 <= j < i ==> v[j] < v[i]
  {
    var n := |v| - 1;
    if n == 0 then 0 else
      var i := Best(v[..n]);
      if v[n] > v[i] then n else i
  }

  // The same over a block of lanes; masked lanes hold minus infinity.
  function BestLane(lanes: seq<Option<real>>): (i: nat)
    requires lanes != []
    ensures i < |lanes|
    ensures forall j :: 0 <= j < |lanes| && lanes[j].Some? ==> lanes[i].Some? && lanes[j].value <= lanes[i].value
    ensures forall j :: 0 <= j < i ==>
      (lanes[i].Some? && (lanes[j].None? || lanes[j].value < lanes[i].value))
  {
    var n := |lanes| - 1;
    if n == 0 then 0 else
      var i := BestLane(lanes[..n]);
      if lanes[n].Some? && (lanes[i].None? || lanes[n].value > lanes[i].value) then n else i
  }

  /** Masked lanes never win: the block's argmax is the argmax of its live lanes. */
  lemma LanesAreValues(lanes: seq<Option<real>>, v: seq<real>)
    requires 0 < |v| <= |lanes|
    requires forall i :: 0 <= i < |lanes| ==> lanes[i] == if i < |v| then Some(v[i]) else None
    ensures BestLane(lanes) == Best(v)
  {
    var i, j := BestLane(lanes), Best(v);
    assert lanes[0].Some? && lanes[j].Some?;
    assert i < |v|;
  }

  // ---- direct chain scoring ---------------------------------------------------------------

  datatype Launch = Launch(sh: Shape, m: Model, s: Sampling, states: seq<int>, positions: seq<int>)

  ghost predicate Ready(w: Launch) {
    && Fits(w.sh, w.m) && |w.states| == |w.positions| == w.sh.Flats()
    && forall i :: 0 <= i < |w.states| ==> w.states[i] < |w.s.temperature| && w.states[i] < |w.s.seeds|
  }

  // The request state of a row is read at its first step.
  function StateOf(w: Launch, r: nat): int
    requires Ready(w) && r < w.sh.rows
  {
    InBounds(w.sh, r, 0, 0, 0);
    w.states[w.sh.Flat(r, 0)]
  }

  function PositionAt(w: Launch, r: nat, l: nat): int
    requires Ready(w) && r < w.sh.rows && l < w.sh.steps
  {
    InBounds(w.sh, r, l, 0, 0);
    w.positions[w.sh.Flat(r, l)] - 1
  }

  function TokenAt(w: Launch, r: nat, l: nat, c: nat): (t: nat)
    requires Ready(w) && r < w.sh.rows && l < w.sh.steps && c < w.sh.topK
    ensures t < |w.m.predecessor|
  {
    InBounds(w.sh, r, l, 0, c);
    w.m.candidates[w.sh.Candidate(r, l, c)]
  }

  // The noised scores of a step, coming from token t.
  function StepValues(w: Launch, r: nat, l: nat, t: nat): (v: seq<real>)
    requires Ready(w) && r < w.sh.rows && l < w.sh.steps && t < |w.m.predecessor| && StateOf(w, r) >= 0
    ensures |v| == w.sh.topK
  {
    seq(w.sh.topK, c requires 0 <= c < w.sh.topK =>
      InBounds(w.sh, r, 0, 0, 0);
      Noised(w.s, StateOf(w, r), PositionAt(w, r, l), TokenAt(w, r, l, c), Score(w.sh, w.m, r, l, t, c)))
  }

  /** What a step's value is made of: the score alone if the request is greedy; otherwise, per unit of
      temperature, noise keyed by the request's seed, the position before and the candidate's token. */
  lemma StepValueIs(w: Launch, r: nat, l: nat, t: nat, c: nat)
    requires Ready(w) && r < w.sh.rows && l < w.sh.steps && t < |w.m.predecessor| && StateOf(w, r) >= 0 && c < w.sh.topK
    ensures
      var flat, first := w.sh.Flat(r, l), w.sh.Flat(r, 0);
      && first < |w.states| && 0 <= w.states[first] < |w.s.temperature| && w.states[first] < |w.s.seeds|
      && flat < |w.positions| && flat < |w.m.hidden| && w.sh.Candidate(r, l, c) < |w.m.candidates|
      && var token := w.m.candidates[w.sh.Candidate(r, l, c)];
      var score := w.m.unary[w.sh.Candidate(r, l, c)] + Dot(w.m.predecessor[t], w.m.hidden[flat], w.m.successor[token]);
      var temperature, v := w.s.temperature[w.states[first]], StepValues(w, r, l, t)[c];
      if !w.s.probabilistic || temperature == 0.0 then v == score
      else v * temperature == score + temperature * w.s.noise(w.s.seeds[w.states[first]], w.positions[flat] - 1, token)
  {
    hide Place, Dot;
    InBounds(w.sh, r, l, 0, c);
    InBounds(w.sh, r, 0, 0, 0);
    var temperature := w.s.temperature[w.states[w.sh.Flat(r, 0)]];
    if temperature != 0.0 {
      var token := w.m.candidates[w.sh.Candidate(r, l, c)];
      Unscaled(Score(w.sh, w.m, r, l, t, c), temperature,
               w.s.noise(w.s.seeds[w.states[w.sh.Flat(r, 0)]], w.positions[w.sh.Flat(r, l)] - 1, token));
    }
  }

  lemma Unscaled(score: real, t: real, noise: real)
    requires t != 0.0
    ensures (score / t + noise) * t == score + t * noise
  {
    assert (score / t) * t == score;
  }

  // The token before step l on the chain, and the candidate the chain takes at step l.
  function Before(w: Launch, r: nat, l: nat): (t: nat)
    requires Ready(w) && r < w.sh.rows && l < w.sh.steps && StateOf(w, r) >= 0
    ensures t < |w.m.predecessor|
    decreases l, 0
  {
    if l == 0 then w.m.anchor[r] else TokenAt(w, r, l - 1, Chosen(w, r, l - 1))
  }

  function Chosen(w: Launch, r: nat, l: nat): (c: nat)
    requires Ready(w) && r < w.sh.rows && l < w.sh.steps && StateOf(w, r) >= 0
    ensures c < w.sh.topK
    decreases l, 1
  {
    Best(StepValues(w, r, l, Before(w, r, l)))
  }

  // ---- the kernel ---------------------------------------------------------------------------

  // The first n steps of row r are the chain's.
  ghost predicate Followed(w: Launch, r: nat, n: nat, tokens: seq<nat>, realized: seq<real>)
    requires Ready(w) && r < w.sh.rows && n <= w.sh.steps && StateOf(w, r) >= 0
    requires |tokens| == w.sh.Flats() && |realized| == w.sh.Candidates()
  {
    forall l :: 0 <= l < n ==> StepFollowed(w, r, l, tokens, realized)
  }

  ghost predicate StepFollowed(w: Launch, r: nat, l: nat, tokens: seq<nat>, realized: seq<real>)
    requires Ready(w) && r < w.sh.rows && l < w.sh.steps && StateOf(w, r) >= 0
    requires |tokens| == w.sh.Flats() && |realized| == w.sh.Candidates()
  {
    InBounds(w.sh, r, l, 0, 0);
    && tokens[w.sh.Flat(r, l)] == TokenAt(w, r, l, Chosen(w, r, l))
    && forall c :: 0 <= c < w.sh.topK ==> Realized(w, r, l, c, realized)
  }

  ghost predicate Realized(w: Launch, r: nat, l: nat, c: nat, realized: seq<real>)
    requires Ready(w) && r < w.sh.rows && l < w.sh.steps && c < w.sh.topK && StateOf(w, r) >= 0
    requires |realized| == w.sh.Candidates()
  {
    InBounds(w.sh, r, l, 0, c);
    realized[w.sh.Candidate(r, l, c)] == Score(w.sh, w.m, r, l, Before(w, r, l), c)
  }

  // Step l of row q is as it was.
  ghost predicate StepKept(w: Launch, q: nat, l: nat, t0: seq<nat>, s0: seq<real>, t1: seq<nat>, s1: seq<real>)
    requires Ready(w) && q < w.sh.rows && l < w.sh.steps
    requires |t0| == |t1| == w.sh.Flats() && |s0| == |s1| == w.sh.Candidates()
  {
    InBounds(w.sh, q, l, 0, 0);
    && t0[w.sh.Flat(q, l)] == t1[w.sh.Flat(q, l)]
    && forall c :: 0 <= c < w.sh.topK ==> PlaceKept(w, q, l, c, s0, s1)
  }

  ghost predicate PlaceKept(w: Launch, q: nat, l: nat, c: nat, s0: seq<real>, s1: seq<real>)
    requires Ready(w) && q < w.sh.rows && l < w.sh.steps && c < w.sh.topK && |s0| == |s1| == w.sh.Candidates()
  {
    InBounds(w.sh, q, l, 0, c);
    s0[w.sh.Candidate(q, l, c)] == s1[w.sh.Candidate(q, l, c)]
  }

  lemma Elsewhere(sh: Shape, r: nat, l: nat, c: nat, q: nat, k: nat, d: nat)
    requires sh.Valid() && l < sh.steps && k < sh.steps && c < sh.topK && d < sh.topK && (r != q || l != k)
    ensures sh.Flat(r, l) != sh.Flat(q, k) && sh.Candidate(r, l, c) != sh.Candidate(q, k, d)
  {
    hide Place;
    if sh.Flat(r, l) == sh.Flat(q, k) { PlaceApart(r, q, sh.steps, l, k); }
    if sh.Candidate(r, l, c) == sh.Candidate(q, k, d) { PlaceApart(sh.Flat(r, l), sh.Flat(q, k), sh.topK, c, d); }
  }

  // The scores a step loads: those of the edges from place `previous`.
  function Loaded(w: Launch, scores: seq<real>, r: nat, l: nat, previous: nat): (v: seq<real>)
    requires IsTable(w.sh, w.m, scores) && r < w.sh.rows && l < w.sh.steps && previous < w.sh.topK
    ensures |v| == w.sh.topK
  {
    seq(w.sh.topK, c requires 0 <= c < w.sh.topK =>
      InBounds(w.sh, r, l, previous, c);
      scores[w.sh.Edge(r, l, previous, c)])
  }

  /** At the first step every place has the anchor as its predecessor: where the walk starts is
      immaterial. */
  lemma StartImmaterial(w: Launch, scores: seq<real>, r: nat, p: nat, q: nat)
    requires IsTable(w.sh, w.m, scores) && r < w.sh.rows && p < w.sh.topK && q < w.sh.topK
    ensures Loaded(w, scores, r, 0, p) == Loaded(w, scores, r, 0, q)
  {
    hide Place;
    forall c | 0 <= c < w.sh.topK ensures Loaded(w, scores, r, 0, p)[c] == Loaded(w, scores, r, 0, q)[c] {
      assert Entry(w.sh, w.m, scores, r, 0, p, c) && Entry(w.sh, w.m, scores, r, 0, q, c);
    }
  }

  // From the place chosen before, the table gives the scores of the chain.
  lemma LoadedIsChain(w: Launch, scores: seq<real>, r: nat, l: nat, previous: nat, c: nat)
    requires Ready(w) && IsTable(w.sh, w.m, scores) && r < w.sh.rows && l < w.sh.steps && StateOf(w, r) >= 0
    requires previous < w.sh.topK && (l > 0 ==> previous == Chosen(w, r, l - 1)) && c < w.sh.topK
    ensures Loaded(w, scores, r, l, previous)[c] == Score(w.sh, w.m, r, l, Before(w, r, l), c)
  {
    hide Place, Score;
    assert Entry(w.sh, w.m, scores, r, l, previous, c);
  }

  // The lanes of the argmax.
  function Lanes(w: Launch, r: nat, l: nat, loaded: seq<real>, block: nat): (v: seq<Option<real>>)
    requires Ready(w) && r < w.sh.rows && l < w.sh.steps && StateOf(w, r) >= 0 && |loaded| == w.sh.topK <= block
    ensures |v| == block
  {
    seq(block, i requires 0 <= i < block =>
      if i < w.sh.topK then
        InBounds(w.sh, r, 0, 0, 0);
        Some(Noised(w.s, StateOf(w, r), PositionAt(w, r, l), TokenAt(w, r, l, i), loaded[i]))
      else None)
  }

  lemma LanesChoose(w: Launch, scores: seq<real>, r: nat, l: nat, previous: nat, block: nat)
    requires Ready(w) && IsTable(w.sh, w.m, scores) && r < w.sh.rows && l < w.sh.steps && StateOf(w, r) >= 0
    requires previous < w.sh.topK <= block && (l > 0 ==> previous == Chosen(w, r, l - 1))
    ensures BestLane(Lanes(w, r, l, Loaded(w, scores, r, l, previous), block)) == Chosen(w, r, l)
  {
    hide Place, Score, Noised, Loaded, IsTable;
    var v := StepValues(w, r, l, Before(w, r, l));
    var lanes := Lanes(w, r, l, Loaded(w, scores, r, l, previous), block);
    forall i | 0 <= i < block ensures lanes[i] == if i < |v| then Some(v[i]) else None {
      if i < w.sh.topK { LoadedIsChain(w, scores, r, l, previous, i); }
    }
    LanesAreValues(lanes, v);
  }

  lemma StoreRealizes(w: Launch, r: nat, l: nat, c: nat, d: nat, x: real, s0: seq<real>, s1: seq<real>)
    requires Ready(w) && r < w.sh.rows && l < w.sh.steps && StateOf(w, r) >= 0 && d <= c < w.sh.topK
    requires |s0| == |s1| == w.sh.Candidates() && w.sh.Candidate(r, l, c) < |s0| && s1 == s0[w.sh.Candidate(r, l, c) := x]
    requires if d < c then Realized(w, r, l, d, s0) else x == Score(w.sh, w.m, r, l, Before(w, r, l), c)
    ensures Realized(w, r, l, d, s1)
  {
    hide Place, Score, Before;
    InBounds(w.sh, r, l, 0, d);
    if d < c && w.sh.Candidate(r, l, c) == w.sh.Candidate(r, l, d) {
      PlaceApart(w.sh.Flat(r, l), w.sh.Flat(r, l), w.sh.topK, c, d);
    }
  }

  lemma StoreKeeps(w: Launch, r: nat, l: nat, c: nat, x: real, q: nat, k: nat, d: nat, s: seq<real>, s0: seq<real>, s1: seq<real>)
    requires Ready(w) && r < w.sh.rows && l < w.sh.steps && c < w.sh.topK
    requires q < w.sh.rows && k < w.sh.steps && d < w.sh.topK && (q != r || k != l)
    requires |s| == |s0| == |s1| == w.sh.Candidates() && w.sh.Candidate(r, l, c) < |s0|
    requires s1 == s0[w.sh.Candidate(r, l, c) := x] && PlaceKept(w, q, k, d, s, s0)
    ensures PlaceKept(w, q, k, d, s, s1)
  {
    hide Place;
    Elsewhere(w.sh, r, l, c, q, k, d);
    InBounds(w.sh, q, k, 0, d);
  }

  // The masked store of one row of scores.
  method StoreRow(w: Launch, scores: seq<real>, r: nat, l: nat, previous: nat, realized: array<real>)
    requires Ready(w) && IsTable(w.sh, w.m, scores) && r < w.sh.rows && l < w.sh.steps && StateOf(w, r) >= 0
    requires previous < w.sh.topK && (l > 0 ==> previous == Chosen(w, r, l - 1)) && realized.Length == w.sh.Candidates()
    modifies realized
    ensures forall c :: 0 <= c < w.sh.topK ==> Realized(w, r, l, c, realized[..])
    ensures forall q, k, d :: 0 <= q < w.sh.rows && 0 <= k < w.sh.steps && 0 <= d < w.sh.topK && (q != r || k != l) ==>
      PlaceKept(w, q, k, d, old(realized[..]), realized[..])
  {
    hide Place, Score, IsTable, Loaded, Realized, PlaceKept, Before;
    ghost var s := realized[..];
    AllKept(w, s);
    var loaded := Loaded(w, scores, r, l, previous);
    for c := 0 to w.sh.topK
      invariant forall d :: 0 <= d < c ==> Realized(w, r, l, d, realized[..])
      invariant forall q, k, d :: 0 <= q < w.sh.rows && 0 <= k < w.sh.steps && 0 <= d < w.sh.topK && (q != r || k != l) ==>
        PlaceKept(w, q, k, d, s, realized[..])
    {
      ghost var before := realized[..];
      InBounds(w.sh, r, l, 0, c);
      LoadedIsChain(w, scores, r, l, previous, c);
      realized[w.sh.Candidate(r, l, c)] := loaded[c];
      assert realized[..] == before[w.sh.Candidate(r, l, c) := loaded[c]];
      forall d | 0 <= d < c + 1 ensures Realized(w, r, l, d, realized[..]) {
        StoreRealizes(w, r, l, c, d, loaded[c], before, realized[..]);
      }
      forall q, k, d | 0 <= q < w.sh.rows && 0 <= k < w.sh.steps && 0 <= d < w.sh.topK && (q != r || k != l)
        ensures PlaceKept(w, q, k, d, s, realized[..])
      {
        StoreKeeps(w, r, l, c, loaded[c], q, k, d, s, before, realized[..]);
      }
    }
  }

  lemma AllKept(w: Launch, s: seq<real>)
    requires Ready(w) && |s| == w.sh.Candidates()
    ensures forall q, k, d :: 0 <= q < w.sh.rows && 0 <= k < w.sh.steps && 0 <= d < w.sh.topK ==> PlaceKept(w, q, k, d, s, s)
  {
  }

  // One step of the walk: store the row of scores and the chosen token.
  method Step(w: Launch, scores: seq<real>, block: nat, r: nat, l: nat, previous: nat,
              tokens: array<nat>, realized: array<real>) returns (index: nat)
    requires Ready(w) && IsTable(w.sh, w.m, scores) && r < w.sh.rows && l < w.sh.steps && StateOf(w, r) >= 0
    requires previous < w.sh.topK <= block && (l > 0 ==> previous == Chosen(w, r, l - 1))
    requires tokens.Length == w.sh.Flats() && realized.Length == w.sh.Candidates()
    modifies tokens, realized
    ensures index == Chosen(w, r, l) && StepFollowed(w, r, l, tokens[..], realized[..])
    ensures forall q, k :: 0 <= q < w.sh.rows && 0 <= k < w.sh.steps && (q != r || k != l) ==>
      StepKept(w, q, k, old(tokens[..]), old(realized[..]), tokens[..], realized[..])
  {
    hide Place, Score, IsTable, Lanes, Loaded, Realized, PlaceKept, Chosen, TokenAt;
    ghost var t0, s0 := tokens[..], realized[..];
    index := BestLane(Lanes(w, r, l, Loaded(w, scores, r, l, previous), block));
    LanesChoose(w, scores, r, l, previous, block);
    StoreRow(w, scores, r, l, previous, realized);
    InBounds(w.sh, r, l, 0, 0);
    tokens[w.sh.Flat(r, l)] := TokenAt(w, r, l, index);
    forall q, k | 0 <= q < w.sh.rows && 0 <= k < w.sh.steps && (q != r || k != l)
      ensures StepKept(w, q, k, t0, s0, tokens[..], realized[..])
    {
      Elsewhere(w.sh, r, l, 0, q, k, 0);
      InBounds(w.sh, q, k, 0, 0);
    }
  }

  lemma StillFollowed(w: Launch, r: nat, l: nat, t0: seq<nat>, s0: seq<real>, t1: seq<nat>, s1: seq<real>)
    requires Ready(w) && r < w.sh.rows && l < w.sh.steps && StateOf(w, r) >= 0
    requires |t0| == |t1| == w.sh.Flats() && |s0| == |s1| == w.sh.Candidates()
    requires StepFollowed(w, r, l, t0, s0) && StepKept(w, r, l, t0, s0, t1, s1)
    ensures StepFollowed(w, r, l, t1, s1)
  {
    hide Place, Score, Before, Chosen, TokenAt;
    forall c | 0 <= c < w.sh.topK ensures Realized(w, r, l, c, s1) {
      assert Realized(w, r, l, c, s0) && PlaceKept(w, r, l, c, s0, s1);
    }
  }

  lemma KeptTwice(w: Launch, q: nat, l: nat, t0: seq<nat>, s0: seq<real>, t1: seq<nat>, s1: seq<real>, t2: seq<nat>,
                  s2: seq<real>)
    requires Ready(w) && q < w.sh.rows && l < w.sh.steps
    requires |t0| == |t1| == |t2| == w.sh.Flats() && |s0| == |s1| == |s2| == w.sh.Candidates()
    requires StepKept(w, q, l, t0, s0, t1, s1) && StepKept(w, q, l, t1, s1, t2, s2)
    ensures StepKept(w, q, l, t0, s0, t2, s2)
  {
    hide Place;
    forall c | 0 <= c < w.sh.topK ensures PlaceKept(w, q, l, c, s0, s2) {
      assert PlaceKept(w, q, l, c, s0, s1) && PlaceKept(w, q, l, c, s1, s2);
    }
  }

  lemma KeptAll(w: Launch, q: nat, l: nat, t: seq<nat>, s: seq<real>)
    requires Ready(w) && q < w.sh.rows && l < w.sh.steps && |t| == w.sh.Flats() && |s| == w.sh.Candidates()
    ensures StepKept(w, q, l, t, s, t, s)
  {
    hide Place;
    forall c | 0 <= c < w.sh.topK ensures PlaceKept(w, q, l, c, s, s) {}
  }

  /** `_selector_walk_kernel`, one program: a live row's stored scores are, at every step, those of
      direct scoring from the token actually chosen before it, and its tokens are the chain's; a
      padded row stores nothing, and no other row is touched. */
  method Walk(w: Launch, scores: seq<real>, block: nat, r: nat, tokens: array<nat>, realized: array<real>)
    requires Ready(w) && IsTable(w.sh, w.m, scores) && r < w.sh.rows && w.sh.topK <= block
    requires tokens.Length == w.sh.Flats() && realized.Length == w.sh.Candidates()
    modifies tokens, realized
    ensures StateOf(w, r) >= 0 ==> Followed(w, r, w.sh.steps, tokens[..], realized[..])
    ensures StateOf(w, r) < 0 ==> tokens[..] == old(tokens[..]) && realized[..] == old(realized[..])
    ensures forall q, k :: 0 <= q < w.sh.rows && q != r && 0 <= k < w.sh.steps ==>
      StepKept(w, q, k, old(tokens[..]), old(realized[..]), tokens[..], realized[..])
  {
    hide Place, Score, IsTable, Chosen, StepKept, StepFollowed;
    ghost var t0, s0 := tokens[..], realized[..];
    forall q, k | 0 <= q < w.sh.rows && 0 <= k < w.sh.steps ensures StepKept(w, q, k, t0, s0, t0, s0) {
      KeptAll(w, q, k, t0, s0);
    }
    var valid := StateOf(w, r) >= 0;
    var previous: nat := 0;
    for l := 0 to w.sh.steps
      invariant valid ==> previous < w.sh.topK && (l > 0 ==> previous == Chosen(w, r, l - 1))
      invariant valid ==> Followed(w, r, l, tokens[..], realized[..])
      invariant !valid ==> tokens[..] == t0 && realized[..] == s0
      invariant forall q, k :: 0 <= q < w.sh.rows && q != r && 0 <= k < w.sh.steps ==>
        StepKept(w, q, k, t0, s0, tokens[..], realized[..])
    {
      if valid {
        ghost var t1, s1 := tokens[..], realized[..];
        previous := Step(w, scores, block, r, l, previous, tokens, realized);
        forall k | 0 <= k < l + 1 ensures StepFollowed(w, r, k, tokens[..], realized[..]) {
          if k < l { StillFollowed(w, r, k, t1, s1, tokens[..], realized[..]); }
        }
        forall q, k | 0 <= q < w.sh.rows && q != r && 0 <= k < w.sh.steps
          ensures StepKept(w, q, k, t0, s0, tokens[..], realized[..])
        {
          KeptTwice(w, q, k, t0, s0, t1, s1, tokens[..], realized[..]);
        }
      } else {
        // Every lane is masked; what is chosen is never stored or loaded from.
        previous := BestLane(seq(block, _ => None));
      }
    }
  }

  /** The whole launch: every live row follows its own chain, in whatever order the rows run. */
  method WalkAll(w: Launch, scores: seq<real>, block: nat, tokens: array<nat>, realized: array<real>)
    requires Ready(w) && IsTable(w.sh, w.m, scores) && w.sh.topK <= block
    requires tokens.Length == w.sh.Flats() && realized.Length == w.sh.Candidates()
    modifies tokens, realized
    ensures forall r :: 0 <= r < w.sh.rows && StateOf(w, r) >= 0 ==> Followed(w, r, w.sh.steps, tokens[..], realized[..])
    ensures forall r, k :: 0 <= r < w.sh.rows && StateOf(w, r) < 0 && 0 <= k < w.sh.steps ==>
      StepKept(w, r, k, old(tokens[..]), old(realized[..]), tokens[..], realized[..])
  {
    hide Place, Score, IsTable, StepKept, StepFollowed;
    ghost var t0, s0 := tokens[..], realized[..];
    forall q, k | 0 <= q < w.sh.rows && 0 <= k < w.sh.steps ensures StepKept(w, q, k, t0, s0, t0, s0) {
      KeptAll(w, q, k, t0, s0);
    }
    for r := 0 to w.sh.rows
      invariant forall q :: 0 <= q < r && StateOf(w, q) >= 0 ==> Followed(w, q, w.sh.steps, tokens[..], realized[..])
      invariant forall q, k :: 0 <= q < w.sh.rows && (q >= r || StateOf(w, q) < 0) && 0 <= k < w.sh.steps ==>
        StepKept(w, q, k, t0, s0, tokens[..], realized[..])
    {
      ghost var t1, s1 := tokens[..], realized[..];
      Walk(w, scores, block, r, tokens, realized);
      forall q | 0 <= q < r && StateOf(w, q) >= 0 ensures Followed(w, q, w.sh.steps, tokens[..], realized[..]) {
        forall k | 0 <= k < w.sh.steps ensures StepFollowed(w, q, k, tokens[..], realized[..]) {
          StillFollowed(w, q, k, t1, s1, tokens[..], realized[..]);
        }
      }
      forall q, k | 0 <= q < w.sh.rows && (q >= r + 1 || StateOf(w, q) < 0) && 0 <= k < w.sh.steps
        ensures StepKept(w, q, k, t0, s0, tokens[..], realized[..])
      {
        if q != r { KeptTwice(w, q, k, t0, s0, t1, s1, tokens[..], realized[..]); }
      }
    }
  }
}
