/** The adaptive draft length: a running average of accepted tokens per request picks the prefix of
    the draft that is verified, one length for the whole batch. */
module AdaptiveK {
  import opened Basics

  type RequestId = string

  function Low(s: seq<int>): (m: int)
    requires s != []
    ensures m in s && forall v :: v in s ==> m <= v
  {
    var n := |s| - 1;
    assert s == s[..n] + [s[n]];
    if n == 0 then s[0] else
      var m := Low(s[..n]);
      if s[n] < m then s[n] else m
  }

  function High(s: seq<int>): (m: int)
    requires s != []
    ensures m in s && forall v :: v in s ==> v <= m
  {
    var n := |s| - 1;
    assert s == s[..n] + [s[n]];
    if n == 0 then s[0] else
      var m := High(s[..n]);
      if s[n] > m then s[n] else m
  }

  function AtMost(s: seq<int>, top: int): (r: seq<int>)
    ensures forall v :: v in r <==> v in s && v <= top
  {
    if s == [] then [] else
      var n := |s| - 1;
      assert s == s[..n] + [s[n]];
      AtMost(s[..n], top) + if s[n] <= top then [s[n]] else []
  }

  function Min(a: int, b: int): int { if a < b then a else b }
  function Max(a: int, b: int): int { if a > b then a else b }

  function Ceil(x: real): int { -((-x).Floor) }

  // ---- one request ----------------------------------------------------------------------

  // The length for a target: the largest candidate not above it, but never above k or below one.
  function LengthFor(ks: seq<int>, target: int, k: int): int
    requires ks != []
  {
    var fit := AtMost(ks, Min(target, k));
    var n := if fit != [] then High(fit) else Low(ks);
    Max(1, Min(n, k))
  }

  // A candidate that a request may be given: at most k, and less than one above what is reached.
  predicate Fits(v: int, reach: real, k: int) { v <= k && (v as real) - 1.0 < reach }

  // The largest candidate that fits; if none does, the smallest one. Never above k or below one.
  ghost predicate IsLength(ks: seq<int>, reach: real, k: int, n: int) {
    if exists v :: v in ks && Fits(v, reach, k) then
      exists m :: m in ks && Fits(m, reach, k) && n == (if m < 1 then 1 else m) && Largest(ks, reach, k, m)
    else
      exists m :: m in ks && n == (if k < m then k else if m < 1 then 1 else m) && forall v :: v in ks ==> m <= v
  }

  ghost predicate Largest(ks: seq<int>, reach: real, k: int, m: int) {
    forall v :: v in ks && Fits(v, reach, k) ==> v <= m
  }

  lemma CeilMeans(x: real, v: int)
    ensures v <= Ceil(x) <==> (v as real) - 1.0 < x
  {
  }

  /** The length for an average plus margin, whatever the candidates. */
  lemma LengthMeans(ks: seq<int>, reach: real, k: int)
    requires ks != [] && 0 < k
    ensures IsLength(ks, reach, k, LengthFor(ks, Ceil(reach), k))
  {
    var fit := AtMost(ks, Min(Ceil(reach), k));
    forall v ensures v in fit <==> v in ks && Fits(v, reach, k) { CeilMeans(reach, v); }
    if fit != [] {
      assert High(fit) in fit && Largest(ks, reach, k, High(fit));
    } else {
      assert Low(ks) in ks;
    }
  }

  /** There is only one such length. */
  lemma LengthUnique(ks: seq<int>, reach: real, k: int, m: int, n: int)
    requires IsLength(ks, reach, k, m) && IsLength(ks, reach, k, n)
    ensures m == n
  {
  }

  // What a step's outcome is taken for.
  function Observed(kMax: int, draft: int, accepted: int, saturateN: bool): real {
    if accepted >= draft && !saturateN then Max(kMax, draft) as real else accepted as real
  }

  function Averaged(alpha: real, observed: real, average: real): real {
    observed * alpha + average * (1.0 - alpha)
  }

  /** A length is between one and k; unless the candidates include one that is not positive, it is k
      or a candidate. */
  lemma LengthIs(ks: seq<int>, target: int, k: int)
    requires ks != [] && 0 < k
    ensures 1 <= LengthFor(ks, target, k) <= k
    ensures (forall v :: v in ks ==> 0 < v) ==> LengthFor(ks, target, k) == k || LengthFor(ks, target, k) in ks
  {
  }

  // ---- graphs -----------------------------------------------------------------------------

  // `_glm53_adaptive_k_query_lens`: the decode lengths that get a graph.
  function GraphLengths(lens: set<int>, bootSet: seq<int>, decodeLength: int): set<int> {
    lens + (set v | v in bootSet && 0 < v + 1 <= decodeLength :: v + 1) + {decodeLength}
  }

  predicate Captured(lens: set<int>, bootSet: seq<int>, decodeLength: int, length: int) {
    length + 1 in GraphLengths(lens, bootSet, decodeLength)
  }

  /** A length has a graph if the decode lengths had it anyway, if it is the full one, or if it is a
      candidate at boot that is no longer than that; nothing else has. */
  lemma CapturedIs(lens: set<int>, bootSet: seq<int>, k: int, length: int)
    ensures Captured(lens, bootSet, k + 1, length) <==>
      length + 1 in lens || length == k || (length in bootSet && 0 <= length <= k)
  {
    var extra := set v | v in bootSet && 0 < v + 1 <= k + 1 :: v + 1;
    assert length + 1 in extra <==> length in bootSet && 0 <= length <= k;
  }

  /** Whatever the averages, every length has a graph exactly when no candidate is below one, or
      length one has a graph anyway. */
  lemma AllCaptured(lens: set<int>, bootSet: seq<int>, ks: seq<int>, k: int)
    requires ks != [] && 0 < k && forall v :: v in ks ==> v in bootSet
    ensures (forall target: int :: target >= 0 ==> Captured(lens, bootSet, k + 1, LengthFor(ks, target, k))) <==>
            (forall v :: v in ks ==> 0 < v) || Captured(lens, bootSet, k + 1, 1)
  {
    if forall v :: v in ks ==> 0 < v {
      forall target: int | target >= 0 ensures Captured(lens, bootSet, k + 1, LengthFor(ks, target, k)) {
        LengthIs(ks, target, k);
      }
    } else if Captured(lens, bootSet, k + 1, 1) {
      forall target: int | target >= 0 ensures Captured(lens, bootSet, k + 1, LengthFor(ks, target, k)) {
        OneOrCandidate(ks, target, k);
      }
    } else {
      assert LengthFor(ks, 0, k) == 1 by { NothingPositive(ks, k); }
    }
  }

  lemma OneOrCandidate(ks: seq<int>, target: int, k: int)
    requires ks != [] && 0 < k
    ensures var n := LengthFor(ks, target, k); n == 1 || n == k || (n in ks && n <= k)
  {
  }

  lemma NothingPositive(ks: seq<int>, k: int)
    requires ks != [] && 0 < k && exists v :: v in ks && v <= 0
    ensures LengthFor(ks, 0, k) == 1
  {
    var v :| v in ks && v <= 0;
    assert v in AtMost(ks, Min(0, k));
  }

  // ---- recovery -----------------------------------------------------------------------------

  // The average after n steps in which everything was accepted.
  function AfterFull(alpha: real, kMax: int, average: real, n: nat): real {
    if n == 0 then average else Averaged(alpha, kMax as real, AfterFull(alpha, kMax, average, n - 1))
  }

  lemma GapStep(alpha: real, top: real, average: real)
    requires 0.0 < alpha <= 1.0
    ensures top - Averaged(alpha, top, average) == (top - average) - alpha * (top - average)
    ensures top - average < 1.0 ==> top - Averaged(alpha, top, average) < 1.0
    ensures top - average >= 1.0 ==> top - Averaged(alpha, top, average) <= (top - average) - alpha
  {
    var gap := top - average;
    assert average * (1.0 - alpha) == average - average * alpha;
    assert top * alpha - average * alpha == gap * alpha;
    assert gap * alpha == alpha * gap;
    if gap >= 1.0 {
      Scale(alpha, 1.0, gap);
    } else if gap >= 0.0 {
      Scale(alpha, 0.0, gap);
      assert alpha * gap >= 0.0;
      assert top - Averaged(alpha, top, average) == gap - alpha * gap;
    } else {
      ScaleDown(alpha, gap);
    }
  }

  lemma Scale(alpha: real, x: real, y: real)
    requires 0.0 < alpha && x <= y
    ensures alpha * x <= alpha * y
  {
  }

  // A negative gap shrinks towards zero.
  lemma ScaleDown(alpha: real, gap: real)
    requires 0.0 < alpha <= 1.0 && gap < 0.0
    ensures gap - alpha * gap < 1.0
  {
    assert (1.0 - alpha) * gap <= 0.0;
    assert (1.0 - alpha) * gap == gap - alpha * gap;
  }

  lemma {:induction false} GapAfter(alpha: real, kMax: int, average: real, n: nat)
    requires 0.0 < alpha <= 1.0
    ensures
      var gap := kMax as real - AfterFull(alpha, kMax, average, n);
      gap < 1.0 || gap <= kMax as real - average - (n as real) * alpha
  {
    if n > 0 {
      GapAfter(alpha, kMax, average, n - 1);
      GapStep(alpha, kMax as real, AfterFull(alpha, kMax, average, n - 1));
      assert (n as real) * alpha == ((n - 1) as real) * alpha + alpha;
    }
  }

  /** With saturation at the maximum, a fully accepted step of any length counts as a full one. */
  lemma FullObserved(kMax: int, draft: int, accepted: int)
    requires draft <= kMax && draft <= accepted
    ensures Observed(kMax, draft, accepted, false) == kMax as real
  {
  }

  // The running average of one request, and how many outcomes went into it.
  datatype Stat = Stat(average: real, steps: int)

  // What `observe` makes of one outcome.
  function Observing(state: map<RequestId, Stat>, kMax: int, alpha: real, saturateN: bool, id: RequestId, draft: int,
                     accepted: int): map<RequestId, Stat>
  {
    if draft <= 0 then state else
      var seen := Observed(kMax, draft, accepted, saturateN);
      var last := if id in state then state[id] else Stat(kMax as real, 0);
      state[id := Stat(Averaged(alpha, seen, last.average), last.steps + 1)]
  }

  datatype Outcome = Outcome(id: RequestId, draft: int, accepted: int)

  // The outcomes of many steps and requests, in order, with saturation at the maximum.
  function ObservingAll(state: map<RequestId, Stat>, kMax: int, alpha: real, os: seq<Outcome>): map<RequestId, Stat> {
    if os == [] then state else
      var o := os[|os| - 1];
      Observing(ObservingAll(state, kMax, alpha, os[..|os| - 1]), kMax, alpha, false, o.id, o.draft, o.accepted)
  }

  function StepsOf(os: seq<Outcome>, id: RequestId): nat {
    if os == [] then 0 else StepsOf(os[..|os| - 1], id) + if os[|os| - 1].id == id then 1 else 0
  }

  // Every step of this request accepted its whole draft.
  ghost predicate AllAccepted(os: seq<Outcome>, id: RequestId, kMax: int) {
    forall i :: 0 <= i < |os| && os[i].id == id ==> 0 < os[i].draft <= kMax && os[i].draft <= os[i].accepted
  }

  function Before(state: map<RequestId, Stat>, id: RequestId, kMax: int): Stat {
    if id in state then state[id] else Stat(kMax as real, 0)
  }

  // Outcomes of other requests make no difference.
  lemma {:induction false} AverageAfter(state: map<RequestId, Stat>, kMax: int, alpha: real, os: seq<Outcome>, id: RequestId)
    requires AllAccepted(os, id, kMax)
    ensures
      var after, before, n := ObservingAll(state, kMax, alpha, os), Before(state, id, kMax), StepsOf(os, id);
      && (id in after <==> id in state || 0 < n)
      && Before(after, id, kMax) == Stat(AfterFull(alpha, kMax, before.average, n), before.steps + n)
  {
    if os != [] {
      var rest, o := os[..|os| - 1], os[|os| - 1];
      assert AllAccepted(rest, id, kMax);
      AverageAfter(state, kMax, alpha, rest, id);
      if o.id == id {
        FullObserved(kMax, o.draft, o.accepted);
      }
    }
  }

  /** An outcome moves the average of its own request by the share alpha towards what was seen: the
      accepted count, or the most there is to accept if everything was accepted and that saturates.
      Nothing was seen if nothing was drafted. */
  lemma Approaches(state: map<RequestId, Stat>, kMax: int, alpha: real, saturateN: bool, o: Outcome, id: RequestId)
    ensures
      var after, last := Observing(state, kMax, alpha, saturateN, o.id, o.draft, o.accepted), Before(state, id, kMax);
      if id != o.id || o.draft <= 0 then (id in after <==> id in state) && Before(after, id, kMax) == last
      else
        var seen: real := if o.accepted < o.draft || saturateN then o.accepted as real
                          else if o.draft < kMax then kMax as real else o.draft as real;
        && id in after && after[id].steps == last.steps + 1
        && after[id].average - seen == (1.0 - alpha) * (last.average - seen)
  {
  }

  // ---- one request's length -----------------------------------------------------------------------

  datatype Settings = Settings(enabled: bool, alpha: real, margin: real, minSteps: int, saturateN: bool, kSet: seq<int>)

  // `choose`. None: the request has to stay at full length.
  function ChooseWith(g: Settings, stats: map<RequestId, Stat>, id: RequestId, k: int, structured: bool): Option<int>
    requires g.kSet != []
  {
    if !g.enabled || structured || k <= 0 then None
    else if id !in stats || stats[id].steps < g.minSteps then None
    else Some(LengthFor(g.kSet, Ceil(stats[id].average + g.margin), k))
  }

  /** A length exactly for an enabled policy and an unstructured, sufficiently observed request: the
      one for its average plus margin. */
  lemma Chosen(g: Settings, stats: map<RequestId, Stat>, id: RequestId, k: int, structured: bool)
    requires g.kSet != []
    ensures
      var n := ChooseWith(g, stats, id, k, structured);
      && (n.Some? <==> g.enabled && !structured && 0 < k && id in stats && stats[id].steps >= g.minSteps)
      && (n.Some? ==> 1 <= n.value <= k && IsLength(g.kSet, stats[id].average + g.margin, k, n.value))
  {
    hide LengthFor, Ceil, IsLength;
    if ChooseWith(g, stats, id, k, structured).Some? {
      LengthIs(g.kSet, Ceil(stats[id].average + g.margin), k);
      LengthMeans(g.kSet, stats[id].average + g.margin, k);
    }
  }

  // The largest candidate not above k; if there is none, the smallest one as far as k allows.
  ghost predicate IsFull(ks: seq<int>, k: int, n: int) {
    if exists v :: v in ks && v <= k then
      exists m :: m in ks && m <= k && n == (if m < 1 then 1 else m) && forall v :: v in ks && v <= k ==> v <= m
    else n == k
  }

  /** From any average, once a request has had so many fully accepted steps that their number times alpha
      exceeds the gap to the maximum, it is given the largest candidate it may have, whatever the other
      requests did meanwhile. */
  lemma Recovers(g: Settings, kMax: int, stats: map<RequestId, Stat>, os: seq<Outcome>, id: RequestId, k: int)
    requires g.kSet != [] && 0 < k && 0.0 < g.alpha <= 1.0 && 0.0 <= g.margin && (forall v :: v in g.kSet ==> v <= kMax)
    requires g.enabled && AllAccepted(os, id, kMax) && 0 < StepsOf(os, id)
    requires g.minSteps <= Before(stats, id, kMax).steps + StepsOf(os, id)
    requires kMax as real - Before(stats, id, kMax).average < (StepsOf(os, id) as real) * g.alpha
    ensures
      var n := ChooseWith(g, ObservingAll(stats, kMax, g.alpha, os), id, k, false);
      n.Some? && IsFull(g.kSet, k, n.value)
  {
    hide ChooseWith, IsLength, IsFull, AfterFull, ObservingAll, StepsOf, AllAccepted;
    var after, n := ObservingAll(stats, kMax, g.alpha, os), StepsOf(os, id);
    AverageAfter(stats, kMax, g.alpha, os, id);
    GapAfter(g.alpha, kMax, Before(stats, id, kMax).average, n);
    Chosen(g, after, id, k, false);
    FullReach(g.kSet, kMax, after[id].average + g.margin, k, ChooseWith(g, after, id, k, false).value);
  }

  // Within one of the maximum every candidate is reached.
  lemma FullReach(ks: seq<int>, kMax: int, reach: real, k: int, n: int)
    requires (forall v :: v in ks ==> v <= kMax) && kMax as real - reach < 1.0 && IsLength(ks, reach, k, n)
    ensures IsFull(ks, k, n)
  {
    assert forall v :: v in ks ==> (Fits(v, reach, k) <==> v <= k);
  }

  // ---- the whole batch ------------------------------------------------------------------------

  // A request that has to be given a length: its draft slots, and whether its output is structured.
  datatype Ask = Ask(id: RequestId, k: int, structured: bool)

  function Answer(g: Settings, stats: map<RequestId, Stat>, a: Ask): Option<int>
    requires g.kSet != []
  {
    ChooseWith(g, stats, a.id, a.k, a.structured)
  }

  // Every request may be trimmed.
  ghost predicate Trimmable(g: Settings, stats: map<RequestId, Stat>, asks: seq<Ask>)
    requires g.kSet != []
  {
    forall i :: 0 <= i < |asks| ==> Answer(g, stats, asks[i]).Some?
  }

  // The shortest length that any request asks for.
  ghost predicate Shortest(g: Settings, stats: map<RequestId, Stat>, asks: seq<Ask>, n: int)
    requires g.kSet != []
  {
    && (forall i :: 0 <= i < |asks| ==> Answer(g, stats, asks[i]).Some? && n <= Answer(g, stats, asks[i]).value)
    && exists i :: 0 <= i < |asks| && Answer(g, stats, asks[i]) == Some(n)
  }

  // ---- the policy object ----------------------------------------------------------------------

  // A key of the override file: missing, unreadable, or a value.
  datatype Field<+T> = Missing | Bad | Good(value: T)

  // The override file: its modification time, and what is in it if it parses at all.
  datatype Override = Override(mode: bool, alpha: Field<real>, margin: Field<real>, minSteps: Field<int>,
                               saturateN: Option<bool>, wanted: Field<set<int>>)
  datatype File = Absent | Present(mtime: int, content: Option<Override>)

  // What a runtime override makes of the candidates: those of boot time that it wants, or all of them.
  function Restricted(boot: seq<int>, wanted: set<int>): (r: seq<int>)
    ensures forall v :: v in r ==> v in boot
    ensures boot != [] ==> r != []
    ensures (exists v :: v in boot && v in wanted) ==> forall v :: v in r <==> v in boot && v in wanted
    ensures r == boot || exists v :: v in boot && v in wanted
  {
    var kept := Keep(boot, wanted);
    if kept == [] then boot else
      var first := kept[0];
      assert first in kept;
      kept
  }

  function Keep(boot: seq<int>, wanted: set<int>): (r: seq<int>)
    ensures forall v :: v in r <==> v in boot && v in wanted
  {
    if boot == [] then [] else
      var n := |boot| - 1;
      assert boot == boot[..n] + [boot[n]];
      Keep(boot[..n], wanted) + if boot[n] in wanted then [boot[n]] else []
  }

  class Request {
    const id: RequestId
    const structured: bool
    var draft: seq<int>

    constructor (id: RequestId, structured: bool, draft: seq<int>)
      ensures this.id == id && this.structured == structured && this.draft == draft
    {
      this.id, this.structured, this.draft := id, structured, draft;
    }
  }

  // How many of alpha, margin, minimum steps and candidates can be read before the first bad one.
  function Readable(o: Override): nat {
    if o.alpha.Bad? then 0 else if o.margin.Bad? then 1 else if o.minSteps.Bad? then 2 else if o.wanted.Bad? then 3 else 4
  }

  lemma ReadableMeans(o: Override)
    ensures 0 < Readable(o) <==> !o.alpha.Bad?
    ensures 1 < Readable(o) <==> !o.alpha.Bad? && !o.margin.Bad?
    ensures 2 < Readable(o) <==> !o.alpha.Bad? && !o.margin.Bad? && !o.minSteps.Bad?
    ensures Readable(o) == 4 <==> !o.alpha.Bad? && !o.margin.Bad? && !o.minSteps.Bad? && !o.wanted.Bad?
  {
  }

  function Taken<T>(f: Field<T>, last: T): T { if f.Good? then f.value else last }

  // Everything of a policy that changes.
  datatype State = State(g: Settings, stats: map<RequestId, Stat>, hist: map<int, nat>, mtime: Option<int>)

  // What a look at the override file makes of a policy: nothing unless the policy was on at boot and
  // the file is another one; keys are taken up to the first that cannot be read, and the averages
  // are forgotten if there is none.
  ghost predicate Reloads(boot: seq<int>, bootEnabled: bool, s: State, file: File, t: State) {
    var seen := if file.Absent? then None else Some(file.mtime);
    if !bootEnabled || seen == s.mtime then t == s
    else if file.Absent? || file.content.None? then t == s.(mtime := seen)
    else Adopts(boot, s.(mtime := seen, g := s.g.(enabled := file.content.value.mode)), file.content.value, t)
  }

  ghost predicate Adopts(boot: seq<int>, s: State, o: Override, t: State) {
    var n := Readable(o);
    && t.mtime == s.mtime && t.g.enabled == s.g.enabled
    && t.g.alpha == (if 0 < n then Taken(o.alpha, s.g.alpha) else s.g.alpha)
    && t.g.margin == (if 1 < n then Taken(o.margin, s.g.margin) else s.g.margin)
    && t.g.minSteps == (if 2 < n then Taken(o.minSteps, s.g.minSteps) else s.g.minSteps)
    && t.g.saturateN == (if 2 < n && o.saturateN.Some? then o.saturateN.value else s.g.saturateN)
    && t.g.kSet == (if n == 4 && o.wanted.Good? then Restricted(boot, o.wanted.value) else s.g.kSet)
    && t.stats == (if n == 4 then map[] else s.stats)
    && t.hist == (if n == 4 then map[] else s.hist)
  }

  class Policy {
    const bootSet: seq<int>
    const bootEnabled: bool
    const kMax: int
    const histEvery: int
    var enabled: bool
    var alpha: real
    var margin: real
    var minSteps: int
    var saturateN: bool
    var kSet: seq<int>
    var state: map<RequestId, Stat>
    var hist: map<int, nat>
    var steps: nat
    var mtime: Option<int>

    function Now(): Settings
      reads this
    {
      Settings(enabled, alpha, margin, minSteps, saturateN, kSet)
    }

    function All(): State
      reads this
    {
      State(Now(), state, hist, mtime)
    }

    ghost predicate Valid()
      reads this
    {
      && bootSet != [] && kSet != [] && kMax == High(bootSet)
      && (forall v :: v in kSet ==> v in bootSet)
      && (!bootEnabled ==> !enabled)
    }

    // What a call finds before it counts the step: the file is looked at every fifty steps.
    ghost predicate Finds(s: State, at: nat, file: File, t: State) {
      if at % 50 == 0 then Reloads(bootSet, bootEnabled, s, file, t) else t == s
    }

    constructor (bootSet: seq<int>, enabled: bool, alpha: real, margin: real, minSteps: int, saturateN: bool, histEvery: int)
      requires bootSet != []
      ensures Valid() && this.bootSet == bootSet && this.bootEnabled == enabled && this.histEvery == histEvery && steps == 0
      ensures All() == State(Settings(enabled, alpha, margin, minSteps, saturateN, bootSet), map[], map[], None)
    {
      this.bootSet, kSet, kMax := bootSet, bootSet, High(bootSet);
      bootEnabled, this.enabled := enabled, enabled;
      this.alpha, this.margin, this.minSteps, this.saturateN := alpha, margin, minSteps, saturateN;
      this.histEvery := histEvery;
      state, hist, steps, mtime := map[], map[], 0, None;
    }

    /** `_reload`: whatever the file says, and however far it can be read, the candidates stay among
        those that had a graph at boot. */
    method Reload(file: File)
      requires Valid()
      modifies this
      ensures Valid() && steps == old(steps)
      ensures Reloads(bootSet, bootEnabled, old(All()), file, All())
    {
      if !bootEnabled {
        return;
      }
      var seen := if file.Absent? then None else Some(file.mtime);
      if seen == mtime {
        return;
      }
      mtime := seen;
      if file.Absent? || file.content.None? {
        return;
      }
      enabled := file.content.value.mode;
      Adopt(file.content.value);
    }

    // Keys are taken in order; the first unreadable one ends the reload where it stands.
    method Adopt(cfg: Override)
      requires Valid()
      modifies this`alpha, this`margin, this`minSteps, this`saturateN, this`kSet, this`state, this`hist
      ensures Valid() && Adopts(bootSet, old(All()), cfg, All())
    {
      hide Restricted, High;
      var read := AdoptNumbers(cfg);
      if !read {
        return;
      }
      if cfg.wanted.Bad? { return; }
      if cfg.wanted.Good? { kSet := Restricted(bootSet, cfg.wanted.value); }
      state := map[];
      hist := map[];
    }

    method AdoptNumbers(cfg: Override) returns (read: bool)
      modifies this`alpha, this`margin, this`minSteps, this`saturateN
      ensures read <==> 2 < Readable(cfg)
      ensures alpha == if 0 < Readable(cfg) then Taken(cfg.alpha, old(alpha)) else old(alpha)
      ensures margin == if 1 < Readable(cfg) then Taken(cfg.margin, old(margin)) else old(margin)
      ensures minSteps == if 2 < Readable(cfg) then Taken(cfg.minSteps, old(minSteps)) else old(minSteps)
      ensures saturateN == if 2 < Readable(cfg) && cfg.saturateN.Some? then cfg.saturateN.value else old(saturateN)
    {
      if cfg.alpha.Bad? { return false; }
      if cfg.alpha.Good? { alpha := cfg.alpha.value; }
      if cfg.margin.Bad? { return false; }
      if cfg.margin.Good? { margin := cfg.margin.value; }
      if cfg.minSteps.Bad? { return false; }
      if cfg.minSteps.Good? { minSteps := cfg.minSteps.value; }
      if cfg.saturateN.Some? { saturateN := cfg.saturateN.value; }
      return true;
    }

    method Observe(id: RequestId, draft: int, accepted: int)
      requires Valid()
      modifies this`state
      ensures Valid()
      ensures state == if enabled then Observing(old(state), kMax, alpha, saturateN, id, draft, accepted) else old(state)
    {
      if !enabled || draft <= 0 {
        return;
      }
      var seen := Observed(kMax, draft, accepted, saturateN);
      if id !in state {
        state := state[id := Stat(Averaged(alpha, seen, kMax as real), 1)];
      } else {
        var st := state[id];
        state := state[id := Stat(Averaged(alpha, seen, st.average), st.steps + 1)];
      }
    }

    // `_count`
    method Count(n: int, live: set<RequestId>)
      requires Valid()
      modifies this`hist, this`steps, this`state
      ensures Valid() && steps == old(steps) + 1
      ensures hist == old(hist)[n := (if n in old(hist) then old(hist)[n] else 0) + 1]
      ensures state == if histEvery > 0 && steps % histEvery == 0
                       then map id | id in old(state) && id in live :: old(state)[id] else old(state)
    {
      hist := hist[n := (if n in hist then hist[n] else 0) + 1];
      steps := steps + 1;
      if histEvery > 0 && steps % histEvery == 0 {
        state := map id | id in state && id in live :: state[id];
      }
    }

    // What counting a length leaves of a state.
    ghost predicate Counted(s: State, n: int, live: set<RequestId>)
      reads this
    {
      && Now() == s.g && mtime == s.mtime
      && hist == s.hist[n := (if n in s.hist then s.hist[n] else 0) + 1]
      && state == if histEvery > 0 && steps % histEvery == 0
                  then map id | id in s.stats && id in live :: s.stats[id] else s.stats
    }

    /** `batch_k`, over the scheduled decode requests: the shortest length that any of them asks for, or k
        if there is none or one must stay at full length. Every length it gives, now or after any
        reload, has a captured graph. */
    method BatchK(k: int, asks: seq<Ask>, live: set<RequestId>, file: File, ghost lens: set<int>)
      returns (n: int, ghost mid: State)
      requires Valid() && forall i :: 0 <= i < |asks| ==> asks[i].k == k
      modifies this
      ensures Valid() && steps == old(steps) + 1
      ensures Finds(old(All()), old(steps), file, mid) && mid.g.kSet != []
      ensures !mid.g.enabled || k <= 0 ==> n == k && All() == mid
      ensures mid.g.enabled && 0 < k ==>
        && Counted(mid, n, live)
        && (if asks != [] && Trimmable(mid.g, mid.stats, asks) then Shortest(mid.g, mid.stats, asks, n) else n == k)
      ensures (forall v :: v in bootSet ==> 0 < v) ==> Captured(lens, bootSet, k + 1, n)
      ensures n <= k && (0 < k ==> 1 <= n)
    {
      hide ChooseWith, High;
      if steps % 50 == 0 {
        Reload(file);
      }
      mid := All();
      if !enabled || k <= 0 {
        steps := steps + 1;
        return k, mid;
      }
      var all;
      n, all := Least(asks);
      if asks == [] || !all {
        n := k;
      }
      ShortCaptured(mid, k, asks, n, lens);
      Count(n, live);
    }

    // The shortest length that any request asks for, unless one must stay at full length.
    method Least(asks: seq<Ask>) returns (n: int, all: bool)
      requires Valid()
      ensures all <==> Trimmable(Now(), state, asks)
      ensures all && asks != [] ==> Shortest(Now(), state, asks, n)
    {
      hide ChooseWith, High;
      n, all := 0, true;
      for i := 0 to |asks|
        invariant forall j :: 0 <= j < i ==>
          Answer(Now(), state, asks[j]).Some? && n <= Answer(Now(), state, asks[j]).value
        invariant 0 < i ==> exists j :: 0 <= j < i && Answer(Now(), state, asks[j]) == Some(n)
      {
        var mine := Answer(Now(), state, asks[i]);
        if mine.None? {
          return n, false;
        }
        if i == 0 || mine.value < n {
          n := mine.value;
        }
      }
    }

    lemma ShortCaptured(s: State, k: int, asks: seq<Ask>, n: int, lens: set<int>)
      requires s.g.kSet != [] && 0 < k && (forall v :: v in s.g.kSet ==> v in bootSet)
      requires forall i :: 0 <= i < |asks| ==> asks[i].k == k
      requires n == k || Shortest(s.g, s.stats, asks, n)
      ensures 1 <= n <= k && ((forall v :: v in bootSet ==> 0 < v) ==> Captured(lens, bootSet, k + 1, n))
    {
      if n != k {
        var i :| 0 <= i < |asks| && Answer(s.g, s.stats, asks[i]) == Some(n);
        LengthIs(s.g.kSet, Ceil(s.stats[asks[i].id].average + s.g.margin), k);
      }
    }

    function Asks(reqs: seq<Request>): (asks: seq<Ask>)
      reads reqs
      ensures |asks| == |reqs|
      ensures forall i :: 0 <= i < |reqs| ==> asks[i] == Ask(reqs[i].id, |reqs[i].draft|, reqs[i].structured)
    {
      seq(|reqs|, i requires 0 <= i < |reqs| reads reqs => Ask(reqs[i].id, |reqs[i].draft|, reqs[i].structured))
    }

    method Longest(reqs: seq<Request>) returns (n: int)
      requires reqs != []
      ensures (exists i :: 0 <= i < |reqs| && |reqs[i].draft| == n) && forall i :: 0 <= i < |reqs| ==> |reqs[i].draft| <= n
    {
      n := |reqs[0].draft|;
      for i := 1 to |reqs|
        invariant exists j :: 0 <= j < i && |reqs[j].draft| == n
        invariant forall j :: 0 <= j < i ==> |reqs[j].draft| <= n
      {
        n := Max(n, |reqs[i].draft|);
      }
    }

    // Cut every draft longer than n.
    method Trim(reqs: seq<Request>, n: int)
      requires 0 <= n
      modifies reqs
      ensures forall i :: 0 <= i < |reqs| ==>
        reqs[i].draft == if |old(reqs[i].draft)| > n then old(reqs[i].draft)[..n] else old(reqs[i].draft)
    {
      for i := 0 to |reqs|
        invariant forall j :: 0 <= j < |reqs| ==>
          reqs[j].draft == old(reqs[j].draft)
          || (|old(reqs[j].draft)| > n && reqs[j].draft == old(reqs[j].draft)[..n])
        invariant forall j :: 0 <= j < i ==>
          reqs[j].draft == if |old(reqs[j].draft)| > n then old(reqs[j].draft)[..n] else old(reqs[j].draft)
      {
        if |reqs[i].draft| > n {
          reqs[i].draft := reqs[i].draft[..n];
        }
      }
    }

    /** `apply`: if every request is observed and unstructured, all drafts are cut to one length, the
        shortest that any of them asks for; otherwise none is cut, and the longest is counted. */
    method Apply(reqs: seq<Request>, live: set<RequestId>, file: File) returns (ghost n: int, ghost mid: State)
      requires Valid()
      modifies this, reqs
      ensures Valid() && steps == old(steps) + 1
      ensures Finds(old(All()), old(steps), file, mid) && mid.g.kSet != []
      ensures !mid.g.enabled || reqs == [] ==> All() == mid && forall i :: 0 <= i < |reqs| ==> reqs[i].draft == old(reqs[i].draft)
      ensures mid.g.enabled && reqs != [] ==>
        && Counted(mid, n, live)
        && (if Trimmable(mid.g, mid.stats, old(Asks(reqs)))
            then
              && Shortest(mid.g, mid.stats, old(Asks(reqs)), n)
              && forall i :: 0 <= i < |reqs| ==> 0 <= n <= |old(reqs[i].draft)| && reqs[i].draft == old(reqs[i].draft)[..n]
            else
              && (exists i :: 0 <= i < |reqs| && |old(reqs[i].draft)| == n)
              && forall i :: 0 <= i < |reqs| ==> |old(reqs[i].draft)| <= n && reqs[i].draft == old(reqs[i].draft))
    {
      hide ChooseWith, High, Trimmable, Shortest, Reloads, Restricted;
      if steps % 50 == 0 {
        Reload(file);
      }
      mid := All();
      if !enabled || reqs == [] {
        steps := steps + 1;
        n := 0;
        return;
      }
      var cut := Planned(reqs);
      n := cut;
      Trim(reqs, cut);
      Count(cut, live);
    }

    // The common length, or the longest draft if some request must stay at full length.
    method Planned(reqs: seq<Request>) returns (n: int)
      requires Valid() && reqs != []
      ensures 0 <= n
      ensures Trimmable(Now(), state, Asks(reqs)) ==>
        Shortest(Now(), state, Asks(reqs), n) && forall i :: 0 <= i < |reqs| ==> n <= |reqs[i].draft|
      ensures !Trimmable(Now(), state, Asks(reqs)) ==>
        (exists i :: 0 <= i < |reqs| && |reqs[i].draft| == n) && forall i :: 0 <= i < |reqs| ==> |reqs[i].draft| <= n
    {
      hide ChooseWith, High, Trimmable, Shortest;
      var all;
      n, all := Least(Asks(reqs));
      if all {
        ShortWithin(All(), Asks(reqs), n);
      } else {
        n := Longest(reqs);
      }
    }

    // No request asks for more than it has.
    lemma ShortWithin(s: State, asks: seq<Ask>, n: int)
      requires s.g.kSet != [] && Shortest(s.g, s.stats, asks, n)
      ensures 0 <= n && forall i :: 0 <= i < |asks| ==> n <= asks[i].k
    {
      forall i | 0 <= i < |asks| ensures 1 <= Answer(s.g, s.stats, asks[i]).value <= asks[i].k {
        Chosen(s.g, s.stats, asks[i].id, asks[i].k, asks[i].structured);
      }
    }
  }
}
