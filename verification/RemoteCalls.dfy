/** Which calls the loops of the remote coordinator make, in which order, for given answers. */
module RemoteCalls {
  import opened Basics
  import opened Coordination
  import opened LocalStores
  import opened RemoteCleanup
  import P = RemoteProtocol

  // Cleanup calls and their acknowledgements.
  function Tried(work: seq<Entry>, acks: seq<bool>): (calls: seq<Call>)
    requires |work| == |acks|
    ensures |calls| == |work|
  {
    seq(|work|, i requires 0 <= i < |work| => Cleaned(work[i], acks[i]))
  }

  lemma TriedMore(work: seq<Entry>, acks: seq<bool>, e: Entry, ack: bool)
    requires |work| == |acks|
    ensures Tried(work + [e], acks + [ack]) == Tried(work, acks) + [Cleaned(e, ack)]
  {
  }

  // One pass over the log.
  function Replays(log: seq<Entry>, budget: nat, acks: seq<bool>): seq<Call>
    requires budget <= |acks|
    decreases budget
  {
    if budget == 0 || log == [] then []
    else if acks[0] then [Cleaned(log[0], true)] + Replays(log[1..], budget - 1, acks[1..])
    else [Cleaned(log[0], false)]
  }

  /** A pass makes the logged calls in order, up to the first that is refused. */
  lemma {:induction false} ReplaysInOrder(log: seq<Entry>, budget: nat, acks: seq<bool>, n: nat)
    requires n <= budget <= |log| && budget <= |acks| && (forall i :: 0 <= i < n ==> acks[i])
    requires n == budget || !acks[n]
    ensures
      var m := if n == budget then n else n + 1;
      Replays(log, budget, acks) == Tried(log[..m], acks[..m])
    decreases budget
  {
    if n > 0 {
      ReplaysInOrder(log[1..], budget - 1, acks[1..], n - 1);
      var m := if n == budget then n else n + 1;
      assert log[..m] == [log[0]] + log[1..][..m - 1] && acks[..m] == [true] + acks[1..][..m - 1];
    }
  }

  // The calls of an operation, and one pass over the log after them.
  function Cleanups(cfg: Config, c: Coord, work: seq<Entry>, acks: seq<bool>, again: seq<bool>): seq<Call>
    requires 0 < cfg.retryCap && |work| == |acks| && cfg.drainLimit <= |again|
  {
    var d := Calls(cfg, c, work, acks).0;
    Tried(work, acks) + Replays(d.retry, Budget(cfg, d), again)
  }

  // Every rank is asked for a lease; a store is told its own size.
  function Asks(id: Identity, sizes: seq<nat>, answers: seq<P.Answer>): (calls: seq<Call>)
    requires |answers| <= |sizes|
  {
    seq(|answers|, r requires 0 <= r < |answers| =>
      Reserved(r, id, if id.writing then Some(sizes[r]) else None, if answers[r].Got? then Some(answers[r].lease) else None))
  }

  // ---- whole operations -----------------------------------------------------------------

  function ReleaseCalls(cfg: Config, c: Coord, t: Ticket, acks: seq<bool>, again: seq<bool>): seq<Call>
    requires 0 < cfg.retryCap && |acks| == |P.Releases(t.leases, 0)| && cfg.drainLimit <= |again|
  {
    Cleanups(cfg, Retire(c, t.token), P.Releases(t.leases, 0), acks, again)
  }

  // Nobody is called if there are too many vetoes.
  function InvalidateCalls(cfg: Config, c: Coord, pair: Pair, acks: seq<bool>, again: seq<bool>): seq<Call>
    requires 0 < cfg.retryCap && |acks| == |P.Invalidations(cfg.ranks, pair, 0)| && cfg.drainLimit <= |again|
  {
    if !RaiseOk(cfg, c, pair) then []
    else Cleanups(cfg, Raise(cfg, c, pair), P.Invalidations(cfg.ranks, pair, 0), acks, again)
  }

  // The veto of a store, if it is due; a malformed pair is refused by it.
  function VetoBooks(cfg: Config, c: Coord, pair: Pair, due: bool, acks: seq<bool>, again: seq<bool>): (Coord, bool)
    requires 0 < cfg.retryCap && |acks| == |P.Invalidations(cfg.ranks, pair, 0)| && cfg.drainLimit <= |again|
  {
    if !due then (c, true)
    else if !P.InvalidateWellFormed(pair) then (c, false)
    else InvalidateBooks(cfg, c, pair, acks, again)
  }

  function VetoCalls(cfg: Config, c: Coord, pair: Pair, due: bool, acks: seq<bool>, again: seq<bool>): seq<Call>
    requires 0 < cfg.retryCap && |acks| == |P.Invalidations(cfg.ranks, pair, 0)| && cfg.drainLimit <= |again|
  {
    if !due || !P.InvalidateWellFormed(pair) then [] else InvalidateCalls(cfg, c, pair, acks, again)
  }

  // What an admitted reservation meets: the clock before the first call and after the last answer, the
  // answers, and the acknowledgements of what is given back if it comes to nothing.
  datatype Attempt = Attempt(start: real, answers: seq<P.Answer>, now: real, acks: seq<bool>, again: seq<bool>)
  {
    ghost predicate Fits(cfg: Config) {
      && |answers| == cfg.ranks && P.Answered(answers)
      && |acks| == |P.Rollbacks(answers, 0)| && |again| == cfg.drainLimit
    }
  }

  function AttemptCalls(cfg: Config, c: Coord, id: Identity, sizes: seq<nat>, a: Attempt, won: bool): seq<Call>
    requires 0 < cfg.retryCap && |a.answers| <= |sizes|
    requires |a.acks| == |P.Rollbacks(a.answers, 0)| && cfg.drainLimit <= |a.again|
  {
    [Clock(a.start)] + Asks(id, sizes, a.answers) + [Clock(a.now)] +
    if won then [] else Cleanups(cfg, c, P.Rollbacks(a.answers, 0), a.acks, a.again)
  }

  // What a renewal meets: the clock at the first look, before the first call and after the last reply.
  datatype Renewal = Renewal(first: real, start: real, replies: seq<Reply>, checked: real, again: seq<bool>)

  // A good ticket is renewed inside the window already proved, or if every rank renews its lease and
  // the window counted from before the first call is still open.
  predicate Renews(cfg: Config, c: Coord, t: Ticket, rn: Renewal) {
    || Inside(c, t, rn)
    || ((forall r :: 0 <= r < |rn.replies| ==> rn.replies[r].Yes?) && rn.checked < rn.start + cfg.ttl - cfg.margin)
  }

  predicate Inside(c: Coord, t: Ticket, rn: Renewal) { t.token in c.valid && rn.first < c.valid[t.token] }

  // The books before the pass over the log that every renewal at the ranks ends with.
  function WithWindow(cfg: Config, c: Coord, t: Ticket, rn: Renewal): Coord {
    if Renews(cfg, c, t, rn) then c.(valid := c.valid[t.token := rn.start + cfg.ttl - cfg.margin]) else c
  }

  function RenewBooks(cfg: Config, c: Coord, t: Ticket, rn: Renewal): Coord
    requires 0 < cfg.retryCap && cfg.drainLimit <= |rn.again|
  {
    if Inside(c, t, rn) then c else
      var d := WithWindow(cfg, c, t, rn);
      Drain(cfg, d, Budget(cfg, d), rn.again).0
  }

  function RenewCalls(cfg: Config, c: Coord, t: Ticket, rn: Renewal): seq<Call>
    requires cfg.drainLimit <= |rn.again| && |rn.replies| <= |t.leases|
  {
    [Clock(rn.first)] +
    if Inside(c, t, rn) then []
    else [Clock(rn.start)] + Renewals(t.leases, rn.replies) + [Clock(rn.checked)] + Replays(c.retry, Budget(cfg, c), rn.again)
  }

  // What a completed store meets: which ranks have the object, and the acknowledgements of the veto
  // and of the release.
  datatype Completion = Completion(yes: seq<bool>, vetoAcks: seq<bool>, vetoAgain: seq<bool>,
                                   acks: seq<bool>, again: seq<bool>)
}
