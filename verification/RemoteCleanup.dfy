/** What the cleanup loops of the remote coordinator do to its books, for any acknowledgements. */
module RemoteCleanup {
  import opened Coordination
  import opened RemoteProtocol

  // ---- the replay loop ----------------------------------------------------------------

  // The replay loop with the acknowledgements the ranks give in turn: the books afterwards and
  // the verdict.
  function Drain(cfg: Config, c: Coord, budget: nat, acks: seq<bool>): (Coord, bool)
    requires 0 < cfg.retryCap && budget <= |acks|
    decreases budget
  {
    if budget == 0 then (c, c.retry == [] && !c.lost)
    else if c.retry == [] then (c, !c.lost)
    else if acks[0] then Drain(cfg, c.(retry := c.retry[1..]), budget - 1, acks[1..])
    else (Replay(cfg, c.(retry := c.retry[1..]), c.retry[0]), false)
  }

  // How many calls one pass of the loop makes at most.
  function Budget(cfg: Config, c: Coord): nat {
    if |c.retry| < cfg.drainLimit then |c.retry| else cfg.drainLimit
  }

  /** The verdict is positive exactly when no receipt was ever lost, the whole log fits in one
      pass, and every logged call is acknowledged; then the log is empty. */
  lemma {:induction false} DrainVerdict(cfg: Config, c: Coord, budget: nat, acks: seq<bool>)
    requires 0 < cfg.retryCap && budget <= |acks|
    ensures Drain(cfg, c, budget, acks).1 <==>
      !c.lost && |c.retry| <= budget && forall i :: 0 <= i < |c.retry| ==> acks[i]
    ensures Drain(cfg, c, budget, acks).1 ==> Drain(cfg, c, budget, acks).0 == c.(retry := [])
    decreases budget
  {
    if budget > 0 && c.retry != [] && acks[0] {
      var rest := c.(retry := c.retry[1..]);
      DrainVerdict(cfg, rest, budget - 1, acks[1..]);
      assert forall i :: 0 <= i < |rest.retry| && i < |acks[1..]| ==> acks[1..][i] == acks[i + 1];
      if forall i :: 0 <= i < |rest.retry| && i < |acks[1..]| ==> acks[1..][i] {
        forall i | 0 <= i < |c.retry| && i < |acks| ensures acks[i] {
          assert i > 0 ==> acks[i] == acks[1..][i - 1];
        }
      }
    }
  }

  /** A refused replay keeps every call: what was acknowledged is gone, the rest keeps its order
      and the refused call goes to the end. */
  lemma {:induction false} DrainKeeps(cfg: Config, c: Coord, budget: nat, acks: seq<bool>, n: nat)
    requires 0 < cfg.retryCap && budget <= |acks| && n < budget && n < |c.retry| <= cfg.retryCap
    requires !acks[n] && forall i :: 0 <= i < n ==> acks[i]
    requires forall i, j :: 0 <= i < j < |c.retry| ==> c.retry[i] != c.retry[j]
    ensures Drain(cfg, c, budget, acks) == (c.(retry := c.retry[n + 1..] + [c.retry[n]]), false)
    decreases budget
  {
    if n > 0 {
      var rest := c.(retry := c.retry[1..]);
      DrainKeeps(cfg, rest, budget - 1, acks[1..], n - 1);
      assert rest.retry[n..] == c.retry[n + 1..];
    }
  }

  // The first n calls are acknowledged.
  lemma {:induction false} DrainOn(cfg: Config, c: Coord, budget: nat, acks: seq<bool>, n: nat)
    requires 0 < cfg.retryCap && n <= budget <= |acks| && n <= |c.retry| && forall i :: 0 <= i < n ==> acks[i]
    ensures Drain(cfg, c, budget, acks) == Drain(cfg, c.(retry := c.retry[n..]), budget - n, acks[n..])
    decreases n
  {
    if n == 0 {
      assert c.retry[0..] == c.retry && acks[0..] == acks;
    } else {
      var rest := c.(retry := c.retry[1..]);
      DrainOn(cfg, rest, budget - 1, acks[1..], n - 1);
      assert rest.retry[n - 1..] == c.retry[n..] && acks[1..][n - 1..] == acks[n..];
    }
  }

  // A pass over the log touches nothing but the log.
  lemma {:induction false} DrainShape(cfg: Config, c: Coord, budget: nat, acks: seq<bool>)
    requires 0 < cfg.retryCap && budget <= |acks|
    ensures
      var d := Drain(cfg, c, budget, acks).0;
      && d == c.(retry := d.retry, lost := d.lost, closed := d.closed)
    decreases budget
  {
    hide Replay;
    if budget > 0 && c.retry != [] {
      ReplayShape(cfg, c.(retry := c.retry[1..]), c.retry[0]);
      if acks[0] {
        DrainShape(cfg, c.(retry := c.retry[1..]), budget - 1, acks[1..]);
      }
    }
  }

  // ---- calls rank by rank ---------------------------------------------------------------

  // Cleanup calls made in order; a call that is not acknowledged is logged.
  function Calls(cfg: Config, c: Coord, work: seq<Entry>, acks: seq<bool>): (Coord, bool)
    requires 0 < cfg.retryCap && |work| == |acks|
    decreases |work|
  {
    if work == [] then (c, true) else
      var (d, rest) := Calls(cfg, if acks[0] then c else Replay(cfg, c, work[0]), work[1..], acks[1..]);
      (d, acks[0] && rest)
  }

  lemma {:induction false} CallsOneMore(cfg: Config, c: Coord, work: seq<Entry>, acks: seq<bool>, e: Entry, ack: bool)
    requires 0 < cfg.retryCap && |work| == |acks|
    ensures
      var (d, acked) := Calls(cfg, c, work, acks);
      Calls(cfg, c, work + [e], acks + [ack]) == (if ack then d else Replay(cfg, d, e), acked && ack)
    decreases |work|
  {
    hide Replay;
    if work == [] {
      assert Calls(cfg, c, [e], [ack]) == (if ack then c else Replay(cfg, c, e), ack) by {
        assert [e][1..] == [] && [ack][1..] == [];
      }
      assert work + [e] == [e] && acks + [ack] == [ack];
    } else {
      CallsOneMore(cfg, if acks[0] then c else Replay(cfg, c, work[0]), work[1..], acks[1..], e, ack);
      assert (work + [e])[1..] == work[1..] + [e] && (acks + [ack])[1..] == acks[1..] + [ack];
    }
  }

  lemma ReplayShape(cfg: Config, c: Coord, e: Entry)
    requires 0 < cfg.retryCap
    ensures
      var d := Replay(cfg, c, e);
      && d == c.(retry := d.retry, lost := d.lost, closed := d.closed)
      && (c.lost ==> d.lost) && (c.closed ==> d.closed)
      && e in d.retry && (forall x :: x in c.retry && !d.lost ==> x in d.retry)
      && (forall x :: x in d.retry ==> x == e || x in c.retry)
  {
  }

  /** Calls touch nothing but the log. The verdict is positive exactly when every one was
      acknowledged, and what was not acknowledged is in the log afterwards unless a receipt was lost. */
  lemma {:induction false} CallsVerdict(cfg: Config, c: Coord, work: seq<Entry>, acks: seq<bool>)
    requires 0 < cfg.retryCap && |work| == |acks|
    ensures
      var (d, acked) := Calls(cfg, c, work, acks);
      && (acked <==> forall i :: 0 <= i < |work| ==> acks[i]) && (acked ==> d == c)
      && d == c.(retry := d.retry, lost := d.lost, closed := d.closed)
      && (c.lost ==> d.lost) && (c.closed ==> d.closed)
      && (forall e :: e in c.retry && !d.lost ==> e in d.retry)
      && (forall i :: 0 <= i < |work| && !acks[i] && !d.lost ==> work[i] in d.retry)
      && (forall e :: e in d.retry ==> e in c.retry || e in work)
    decreases |work|
  {
    hide Replay;
    if work != [] {
      var b := if acks[0] then c else Replay(cfg, c, work[0]);
      ReplayShape(cfg, c, work[0]);
      CallsVerdict(cfg, b, work[1..], acks[1..]);
      var (d, acked) := Calls(cfg, c, work, acks);
      assert forall i :: 0 <= i < |work| - 1 ==> work[1..][i] == work[i + 1] && acks[1..][i] == acks[i + 1];
      forall i | 0 <= i < |work| && !acks[i] && !d.lost ensures work[i] in d.retry {
        assert i > 0 ==> work[i] == work[1..][i - 1] && acks[i] == acks[1..][i - 1];
      }
      if forall i :: 0 <= i < |work| - 1 ==> acks[1..][i] {
        assert forall i :: 0 < i < |work| ==> acks[i] == acks[1..][i - 1];
      }
    }
  }

  // ---- whole operations -----------------------------------------------------------------

  // The calls of an operation, and one pass over the log after them.
  function Cleanup(cfg: Config, c: Coord, work: seq<Entry>, acks: seq<bool>, again: seq<bool>): (Coord, bool)
    requires 0 < cfg.retryCap && |work| == |acks| && cfg.drainLimit <= |again|
  {
    var (d, direct) := Calls(cfg, c, work, acks);
    var (e, done) := Drain(cfg, d, Budget(cfg, d), again);
    (e, direct && done)
  }

  function ReleaseBooks(cfg: Config, c: Coord, t: Ticket, drop: bool, acks: seq<bool>, again: seq<bool>): (Coord, bool)
    requires 0 < cfg.retryCap && |acks| == |Releases(t.leases, 0)| && cfg.drainLimit <= |again|
  {
    var (d, acked) := Cleanup(cfg, Retire(c, t.token), Releases(t.leases, 0), acks, again);
    (if acked && drop then Drop(d, t.token) else d, acked)
  }

  function InvalidateBooks(cfg: Config, c: Coord, pair: Pair, acks: seq<bool>, again: seq<bool>): (Coord, bool)
    requires 0 < cfg.retryCap && |acks| == |Invalidations(cfg.ranks, pair, 0)| && cfg.drainLimit <= |again|
  {
    if !RaiseOk(cfg, c, pair) then (Raise(cfg, c, pair), false) else
      var (d, acked) := Cleanup(cfg, Raise(cfg, c, pair), Invalidations(cfg.ranks, pair, 0), acks, again);
      (if acked then Acknowledge(d, pair) else d, acked)
  }

  // A reservation that was admitted and came to nothing.
  function RefuseBooks(cfg: Config, c: Coord, id: Identity, answers: seq<Answer>, acks: seq<bool>, again: seq<bool>): Coord
    requires 0 < cfg.retryCap && |acks| == |Rollbacks(answers, 0)| && cfg.drainLimit <= |again|
  {
    Abandon(cfg, Cleanup(cfg, c, Rollbacks(answers, 0), acks, again).0, id)
  }
}
