/** The remote coordinator as the object it is, over ranks that may refuse, fail or lose any call:
    its cleanup loops and its public operations, each run without interruption. */
module RemoteCoordinator {
  import opened Basics
  import opened Coordination
  import opened LocalStores
  import opened StoreLeases
  import opened RemoteCalls
  import opened RemoteCleanup
  import B = LocalBooks

  // ---- cleanup calls at the ranks -----------------------------------------------------------------

  // What a cleanup call may take from the ranks, and what it leaves there once acknowledged.
  function Spent(s: Store, e: Entry): set<RankLease> {
    match e
    case Release(at) => {at}
    case Invalidate(rank, pair) => Writers(s, rank, pair)
  }

  ghost predicate Done(s: Store, e: Entry) {
    match e
    case Release(at) => at !in s.held
    case Invalidate(rank, pair) => Writers(s, rank, pair) == {}
  }

  lemma DoneStays(s: Store, v: Store, spent: set<RankLease>, e: Entry)
    requires Moves(s, v, spent) && v.granted == s.granted && Done(s, e)
    ensures Done(v, e)
  {
    if e.Invalidate? {
      WritersGone(s, v, spent, e.rank, e.pair);
    }
  }

  // What was done stays done.
  ghost predicate StaysDone(s: Store, v: Store) {
    v.granted == s.granted && v.unseen == s.unseen && forall e :: Done(s, e) ==> Done(v, e)
  }

  // A cleanup call never concerns a lease that a live ticket relies on.
  ghost predicate EntryOk(c: Coord, s: Store, e: Entry) {
    match e
    case Release(at) =>
      at in s.granted && forall t :: t in c.tickets && t !in c.retiring ==> !Owns(c.tickets[t], at)
    case Invalidate(rank, pair) => pair in c.invalid
  }

  ghost predicate LogOk(c: Coord, s: Store) { forall e :: e in c.retry ==> EntryOk(c, s, e) }

  // Only the log and what follows from it changed.
  ghost predicate SameBut(c: Coord, d: Coord) { d == c.(retry := d.retry, lost := d.lost, closed := d.closed) }

  lemma SameEntry(c: Coord, d: Coord, s: Store, v: Store, e: Entry)
    requires SameBut(c, d) && s.granted <= v.granted && EntryOk(c, s, e)
    ensures EntryOk(d, v, e)
  {
  }

  lemma SameHand(cfg: Config, c: Coord, d: Coord, s: Store, before: set<RankLease>, hand: set<RankLease>, pair: Pair)
    requires d.tickets == c.tickets && d.valid == c.valid && d.invalid == c.invalid && InHand(cfg, c, s, before, hand, pair)
    ensures InHand(cfg, d, s, before, hand, pair)
  {
    assert forall at :: Owned(d, at) <==> Owned(c, at);
  }

  lemma SameBooks(cfg: Config, c: Coord, d: Coord)
    requires SameBut(c, d) && B.BooksOk(cfg, c)
    ensures B.BooksOk(cfg, d)
  {
    B.SameTickets(cfg, c, d);
  }

  lemma EntryHarmless(cfg: Config, c: Coord, s: Store, e: Entry)
    requires EntryOk(c, s, e) && OwnersOk(c, s) && c.valid.Keys <= c.tickets.Keys - c.retiring
    ensures Harmless(c, Spent(s, e))
  {
  }

  // Where a rollback or a pass over the log stands: the calls made so far, and their effect.
  ghost predicate Made(cfg: Config, c0: Coord, c: Coord, s: Store, work: seq<Entry>, acks: seq<bool>, acked: bool) {
    && 0 < cfg.retryCap && |acks| == |work| && (c, acked) == Calls(cfg, c0, work, acks)
    && forall i :: 0 <= i < |work| && acks[i] ==> Done(s, work[i])
  }

  // The calls and one pass over the log make the whole cleanup.
  lemma CleanupIs(cfg: Config, c: Coord, d: Coord, s: Store, work: seq<Entry>, acks: seq<bool>, acked: bool, again: seq<bool>)
    requires Made(cfg, c, d, s, work, acks, acked) && |acks| == |work| && cfg.drainLimit <= |again|
    ensures
      var (e, done) := Drain(cfg, d, Budget(cfg, d), again);
      Cleanup(cfg, c, work, acks, again) == (e, acked && done)
    ensures Cleanups(cfg, c, work, acks, again) == Tried(work, acks) + Replays(d.retry, Budget(cfg, d), again)
  {
    hide Drain, Calls, Done, Tried, Replays;
  }

  lemma MadeOneMore(cfg: Config, c0: Coord, c: Coord, s: Store, v: Store, work: seq<Entry>, acks: seq<bool>, acked: bool,
                    e: Entry, ack: bool)
    requires Made(cfg, c0, c, s, work, acks, acked) && StaysDone(s, v) && (ack ==> Done(v, e))
    ensures Made(cfg, c0, if ack then c else Replay(cfg, c, e), v, work + [e], acks + [ack], acked && ack)
  {
    hide Calls, Replay, Done;
    CallsOneMore(cfg, c0, work, acks, e, ack);
    forall i | 0 <= i < |work + [e]| && (acks + [ack])[i] ensures Done(v, (work + [e])[i]) {
      if i < |work| { assert (work + [e])[i] == work[i] && (acks + [ack])[i] == acks[i]; }
    }
  }

  lemma StaysDoneTwice(s: Store, u: Store, v: Store)
    requires StaysDone(s, u) && StaysDone(u, v)
    ensures StaysDone(s, v)
  {
    hide Done;
  }

  lemma ReplayOk(cfg: Config, c: Coord, e: Entry)
    requires 0 < cfg.retryCap
    ensures SameBut(c, Replay(cfg, c, e)) && forall x :: x in Replay(cfg, c, e).retry ==> x == e || x in c.retry
  {
    ReplayShape(cfg, c, e);
  }

  // The calls of a rollback up to a rank, and one rank more.
  lemma {:induction false} RollbacksMore(answers: seq<P.Answer>, from: nat, n: nat)
    requires from <= n < |answers|
    ensures
      P.Rollbacks(answers[..n + 1], from) ==
      P.Rollbacks(answers[..n], from) + (if answers[n].Got? then [Release(At(n, answers[n].lease))] else [])
    decreases n - from
  {
    if from < n {
      RollbacksMore(answers, from + 1, n);
      assert answers[..n + 1][from] == answers[from] == answers[..n][from];
    } else {
      assert P.Rollbacks(answers[..n], n) == [];
      assert P.Rollbacks(answers[..n + 1], n + 1) == [];
    }
  }

  // A ticket's leases as the answers of a reservation that every rank granted.
  function AsAnswers(leases: seq<Lease>): (answers: seq<P.Answer>)
    ensures |answers| == |leases|
  {
    seq(|leases|, r requires 0 <= r < |leases| => P.Got(leases[r]))
  }

  lemma {:induction false} RollbacksAreReleases(leases: seq<Lease>, from: nat)
    requires from <= |leases|
    ensures P.Rollbacks(AsAnswers(leases), from) == P.Releases(leases, from)
    decreases |leases| - from
  {
    if from < |leases| {
      RollbacksAreReleases(leases, from + 1);
    }
  }

  lemma {:induction false} InvalidationsMore(ranks: nat, pair: Pair, from: nat)
    requires from <= ranks
    ensures P.Invalidations(ranks + 1, pair, from) == P.Invalidations(ranks, pair, from) + [Invalidate(ranks, pair)]
    decreases ranks - from
  {
    if from < ranks {
      InvalidationsMore(ranks, pair, from + 1);
    } else {
      assert P.Invalidations(ranks + 1, pair, ranks + 1) == [];
    }
  }

  // ---- tickets handed out -----------------------------------------------------------------------------

  // Every ticket ever handed out has leases of its own.
  ghost predicate IssuedOk(c: Coord, s: Store, issued: set<Ticket>) {
    && (forall t :: t in c.tickets ==> c.tickets[t] in issued)
    && (forall k, at :: k in issued && Owns(k, at) ==> at in s.granted)
    && (forall k, l :: k in issued && l in issued && k.token == l.token ==> k == l)
    && (forall k, l, at :: k in issued && l in issued && Owns(k, at) && Owns(l, at) ==> k == l)
  }

  // What every operation keeps.
  ghost predicate Sane(cfg: Config, c: Coord, s: Store, before: set<RankLease>, issued: set<Ticket>) {
    && B.BooksOk(cfg, c) && LeasesOk(cfg, c, s, before) && LogOk(c, s) && IssuedOk(c, s, issued)
    && c.tickets.Keys - c.retiring <= c.valid.Keys
  }

  lemma SaneParts(cfg: Config, c: Coord, s: Store, before: set<RankLease>, issued: set<Ticket>)
    requires Sane(cfg, c, s, before, issued)
    ensures forall x :: x in c.tickets ==> c.tickets[x].token == x && |c.tickets[x].leases| == cfg.ranks
    ensures c.retiring <= c.tickets.Keys && c.valid.Keys == c.tickets.Keys - c.retiring && c.pending == {}
    ensures c.acked <= c.invalid && Sound(s) && LogOk(c, s)
    ensures forall pair :: InHand(cfg, c, s, before, {}, pair)
  {
    forall pair ensures InHand(cfg, c, s, before, {}, pair) {
      InHandStart(cfg, c, s, before, pair);
    }
  }

  // The leases of a ticket that is being released, or is gone, may be called back.
  lemma ReleaseEntry(cfg: Config, c: Coord, s: Store, before: set<RankLease>, issued: set<Ticket>, t: Ticket, at: RankLease)
    requires Sane(cfg, c, s, before, issued) && t in issued && Owns(t, at) && (t.token in c.tickets ==> t.token in c.retiring)
    ensures EntryOk(c, s, Release(at))
  {
    hide LeasesOk, LogOk;
  }

  class RemoteCoordinator {
    const cfg: Config
    const ranks: Ranks
    ghost const before: set<RankLease>   // granted to others before this coordinator was made
    ghost var issued: set<Ticket>        // every ticket handed out
    var tickets: map<Token, Ticket>
    var identities: map<Identity, Token>
    var valid: map<Token, real>
    var pending: set<Identity>
    var retiring: set<Token>
    var invalid: set<Pair>
    var invalidateAcked: set<Pair>
    var bytes: int
    var retry: seq<Entry>
    var cleanupLost: bool
    var closed: bool

    function Books(): Coord
      reads this
    {
      Coord(tickets, identities, valid, pending, retiring, invalid, invalidateAcked, bytes, retry, cleanupLost, closed)
    }

    ghost predicate Fitted() {
      cfg.Valid() && |ranks.seconds| == cfg.ranks && forall r :: 0 <= r < cfg.ranks ==> cfg.ttl <= ranks.seconds[r]
    }

    // The leases of the tickets, and those in the hand of an operation in progress.
    ghost predicate Kept(hand: set<RankLease>, pair: Pair)
      reads this, ranks
    {
      && Fitted() && InHand(cfg, Books(), ranks.s, before, hand, pair) && LogOk(Books(), ranks.s)
      && valid.Keys <= tickets.Keys - retiring
    }

    ghost predicate Valid()
      reads this, ranks
    {
      Fitted() && Sane(cfg, Books(), ranks.s, before, issued)
    }

    constructor (cfg: Config, ranks: Ranks)
      requires cfg.Valid() && Sound(ranks.s)
      requires |ranks.seconds| == cfg.ranks && forall r :: 0 <= r < cfg.ranks ==> cfg.ttl <= ranks.seconds[r]
      ensures Valid() && this.cfg == cfg && this.ranks == ranks && Books() == Empty() && issued == {}
      ensures before == ranks.s.granted
    {
      this.cfg, this.ranks, before, issued := cfg, ranks, ranks.s.granted, {};
      tickets, identities, valid, pending := map[], map[], map[], {};
      retiring, invalid, invalidateAcked, bytes := {}, {}, {}, 0;
      retry, cleanupLost, closed := [], false, false;
      new;
      B.EmptyOk(cfg);
    }

    // ---- vetoes -----------------------------------------------------------------------------------

    // `_clear_veto_if_drained`: scan the tickets, then the pending identities.
    method ClearVetoIfDrained(pair: Pair)
      modifies this
      ensures Books() == ClearVeto(old(Books()), pair) && issued == old(issued)
    {
      if pair !in invalidateAcked {
        return;
      }
      var tokens := tickets.Keys;
      while tokens != {}
        invariant tokens <= tickets.Keys && Books() == old(Books()) && issued == old(issued)
        invariant forall t :: t in tickets && t !in tokens ==> tickets[t].pair != pair
        decreases tokens
      {
        var t :| t in tokens;
        if tickets[t].pair == pair {
          return;
        }
        tokens := tokens - {t};
      }
      var waiting := pending;
      while waiting != {}
        invariant waiting <= pending && Books() == old(Books()) && issued == old(issued)
        invariant forall id :: id in pending && id !in waiting ==> id.pair != pair
        decreases waiting
      {
        var id :| id in waiting;
        if id.pair == pair {
          return;
        }
        waiting := waiting - {id};
      }
      invalid := invalid - {pair};
      invalidateAcked := invalidateAcked - {pair};
    }

    // ---- the log ------------------------------------------------------------------------------------

    // `_replay`: remember a call that was not acknowledged; the log drops its oldest entry when full.
    method ReplayLater(e: Entry)
      requires 0 < cfg.retryCap
      modifies this
      ensures Books() == Replay(cfg, old(Books()), e) && issued == old(issued)
    {
      if e in retry {
        return;
      }
      if |retry| >= cfg.retryCap {
        cleanupLost := true;
        closed := true;
        retry := retry[|retry| - cfg.retryCap + 1..];
      }
      retry := retry + [e];
    }

    // One cleanup call; anything but an explicit acknowledgement counts as none.
    method Make(e: Entry, ghost hand: set<RankLease>, ghost pair: Pair) returns (ack: bool)
      requires Kept(hand, pair) && EntryOk(Books(), ranks.s, e)
      modifies ranks
      ensures Kept(hand, pair) && StaysDone(old(ranks.s), ranks.s) && (ack ==> Done(ranks.s, e))
      ensures !ack && e.Release? ==> e.at in ranks.s.refused
      ensures old(ranks.s).refused <= ranks.s.refused && Moves(old(ranks.s), ranks.s, Spent(old(ranks.s), e))
      ensures ranks.calls == old(ranks.calls) + [Cleaned(e, ack)]
    {
      hide InHand, Moves;
      ghost var s := ranks.s;
      InHandSound(cfg, Books(), s, before, hand, pair);
      var reply: Reply;
      if e.Release? {
        reply := ranks.Release(e.at.rank, e.at.lease);
        assert At(e.at.rank, e.at.lease) == e.at;
      } else {
        reply := ranks.Invalidate(e.rank, e.pair);
      }
      ack := reply.Yes?;
      HandOwners(cfg, Books(), s, before, hand, pair);
      EntryHarmless(cfg, Books(), s, e);
      NoneNew(s, ranks.s, Spent(s, e));
      InHandMove(cfg, Books(), s, ranks.s, before, hand, pair, Spent(s, e));
      forall x | Done(s, x) ensures Done(ranks.s, x) {
        DoneStays(s, ranks.s, Spent(s, e), x);
      }
      forall x | x in retry ensures EntryOk(Books(), ranks.s, x) {
        SameEntry(Books(), Books(), s, ranks.s, x);
      }
    }

    // The oldest logged call is taken out of the log and made again.
    method ReplayFirst(ghost hand: set<RankLease>, ghost pair: Pair) returns (ack: bool)
      requires Kept(hand, pair) && retry != []
      modifies this, ranks
      ensures Kept(hand, pair) && issued == old(issued) && SameBut(old(Books()), Books())
      ensures
        var rest := old(Books()).(retry := old(retry)[1..]);
        Books() == if ack then rest else Replay(cfg, rest, old(retry)[0])
      ensures ranks.calls == old(ranks.calls) + [Cleaned(old(retry)[0], ack)]
      ensures StaysDone(old(ranks.s), ranks.s) && old(ranks.s).refused <= ranks.s.refused
      ensures Followed(old(retry), Books(), ranks.s)
      ensures old(cleanupLost) ==> cleanupLost
    {
      hide Replay, Done, InHand, Moves, EntryOk;
      ghost var c, s := Books(), ranks.s;
      var e := retry[0];
      assert retry == [e] + retry[1..];
      retry := retry[1..];
      ghost var u := Books();
      SameHand(cfg, c, u, s, before, hand, pair);
      LogLess(c, u, s, e);
      ack := Make(e, hand, pair);
      if !ack {
        ghost var v := ranks.s;
        SameEntry(u, u, s, v, e);
        ReplayLater(e);
        ReplayOk(cfg, u, e);
        SameHand(cfg, u, Books(), v, before, hand, pair);
        LogMore(u, Books(), v, e);
        ReplayShape(cfg, u, e);
      }
    }

    // `_retry_cleanup`: one pass over the log.
    method RetryCleanup(ghost hand: set<RankLease>, ghost pair: Pair) returns (done: bool, ghost again: seq<bool>)
      requires Kept(hand, pair)
      modifies this, ranks
      ensures Kept(hand, pair) && issued == old(issued) && SameBut(old(Books()), Books())
      ensures |again| == cfg.drainLimit
      ensures (Books(), done) == Drain(cfg, old(Books()), Budget(cfg, old(Books())), again)
      ensures ranks.calls == old(ranks.calls) + Replays(old(retry), Budget(cfg, old(Books())), again)
      ensures StaysDone(old(ranks.s), ranks.s) && old(ranks.s).refused <= ranks.s.refused
      ensures forall e :: e in old(retry) ==> e in retry || Done(ranks.s, e) || cleanupLost
      ensures done ==> retry == [] && !cleanupLost
      ensures old(cleanupLost) ==> cleanupLost
    {
      hide Drain, Replay, Done, InHand, Moves, ComesTo, Replays, Padded, StaysDone, LogOk, Followed;
      ghost var c0, s0, acks, made := Books(), ranks.s, [], [];
      var limit := if |retry| < cfg.drainLimit then |retry| else cfg.drainLimit;
      StartsThere(cfg, c0, limit);
      FollowedStart(c0, s0);
      var i := 0;
      while i < limit
        invariant Kept(hand, pair) && issued == old(issued) && SameBut(c0, Books())
        invariant |acks| == i <= limit <= cfg.drainLimit && ComesTo(cfg, c0, limit, acks, Books(), made)
        invariant ranks.calls == old(ranks.calls) + made
        invariant StaysDone(s0, ranks.s) && s0.refused <= ranks.s.refused
        invariant Followed(c0.retry, Books(), ranks.s)
        invariant c0.lost ==> cleanupLost
      {
        if retry == [] {
          again := Padded(acks, cfg.drainLimit);
          FollowedIs(c0.retry, Books(), ranks.s);
          ComesToEmpty(cfg, c0, limit, acks, Books(), made, again);
          return !cleanupLost, again;
        }
        ghost var c, s := Books(), ranks.s;
        var ack := ReplayFirst(hand, pair);
        StaysDoneTwice(s0, s, ranks.s);
        FollowedOn(c0.retry, c, s, Books(), ranks.s);
        if !ack {
          again := Padded(acks, cfg.drainLimit);
          FollowedIs(c0.retry, Books(), ranks.s);
          ComesToRefusal(cfg, c0, limit, acks, c, made, again);
          return false, again;
        }
        ComesToNext(cfg, c0, limit, acks, c, made);
        acks, made := acks + [true], made + [Cleaned(c.retry[0], true)];
        i := i + 1;
      }
      again := Padded(acks, cfg.drainLimit);
      FollowedIs(c0.retry, Books(), ranks.s);
      ComesToEnd(cfg, c0, limit, acks, Books(), made, again);
      return retry == [] && !cleanupLost, again;
    }

    // `_rollback`: release every lease that was granted; ranks without one are skipped.
    method RollBack(answers: seq<P.Answer>, ghost hand: set<RankLease>, ghost pair: Pair)
      returns (acked: bool, ghost acks: seq<bool>)
      requires Kept(hand, pair)
      requires forall r :: 0 <= r < |answers| && answers[r].Got? ==>
        EntryOk(Books(), ranks.s, Entry.Release(At(r, answers[r].lease)))
      modifies this, ranks
      ensures Kept(hand, pair) && issued == old(issued) && SameBut(old(Books()), Books())
      ensures Made(cfg, old(Books()), Books(), ranks.s, P.Rollbacks(answers, 0), acks, acked)
      ensures |acks| == |P.Rollbacks(answers, 0)| && ranks.calls == old(ranks.calls) + Tried(P.Rollbacks(answers, 0), acks)
      ensures StaysDone(old(ranks.s), ranks.s) && old(ranks.s).refused <= ranks.s.refused
      ensures forall r :: 0 <= r < |answers| && answers[r].Got? ==>
        At(r, answers[r].lease) !in ranks.s.held || At(r, answers[r].lease) in ranks.s.refused
    {
      hide Made, InHand, Moves, Calls, Replay, Done, EntryOk;
      ghost var c0, s0 := Books(), ranks.s;
      acked, acks := true, [];
      NothingMade(cfg, c0, s0, answers);
      for rank := 0 to |answers|
        invariant Kept(hand, pair) && issued == old(issued) && SameBut(c0, Books())
        invariant Made(cfg, c0, Books(), ranks.s, P.Rollbacks(answers[..rank], 0), acks, acked)
        invariant |acks| == |P.Rollbacks(answers[..rank], 0)|
        invariant ranks.calls == old(ranks.calls) + Tried(P.Rollbacks(answers[..rank], 0), acks)
        invariant StaysDone(s0, ranks.s) && s0.refused <= ranks.s.refused
        invariant forall r :: 0 <= r < rank && answers[r].Got? ==>
          Done(ranks.s, Entry.Release(At(r, answers[r].lease))) || At(r, answers[r].lease) in ranks.s.refused
      {
        RollbacksMore(answers, 0, rank);
        if answers[rank].Got? {
          ghost var c, s := Books(), ranks.s;
          var e := Entry.Release(At(rank, answers[rank].lease));
          SameEntry(c0, c, s0, s, e);
          var ack := Make(e, hand, pair);
          StaysDoneTwice(s0, s, ranks.s);
          MadeOneMore(cfg, c0, c, s, ranks.s, P.Rollbacks(answers[..rank], 0), acks, acked, e, ack);
          TriedMore(P.Rollbacks(answers[..rank], 0), acks, e, ack);
          acks := acks + [ack];
          if !ack {
            acked := false;
            ghost var v := ranks.s;
            SameEntry(c, c, s, v, e);
            ReplayLater(e);
            ReplayOk(cfg, c, e);
            SameHand(cfg, c, Books(), v, before, hand, pair);
            LogMore(c, Books(), v, e);
          }
        } else {
          assert P.Rollbacks(answers[..rank + 1], 0) == P.Rollbacks(answers[..rank], 0);
        }
      }
      assert answers[..|answers|] == answers;
      ReleasedOrRefused(ranks.s, answers);
    }

    // ---- releases ------------------------------------------------------------------------------------

    // The end of a release every rank acknowledged.
    method DropTicket(token: Token)
      modifies this
      ensures Books() == Drop(old(Books()), token) && issued == old(issued)
    {
      if token in tickets {
        var actual := tickets[token];
        tickets := tickets - {token};
        identities := identities - {actual.Id()};
        retiring := retiring - {token};
        bytes := bytes - MaxOf(actual.sizes);
        assert ClearVeto(Books(), actual.pair) == Drop(old(Books()), token);
        ClearVetoIfDrained(actual.pair);
      }
    }

    // The part of a release that calls the ranks.
    method Recall(t: Ticket) returns (ok: bool, ghost acks: seq<bool>, ghost again: seq<bool>)
      requires Valid() && t in issued
      modifies this, ranks
      ensures Valid() && issued == old(issued) && (t.token in tickets ==> t.token in retiring && tickets[t.token] == t)
      ensures |acks| == |P.Releases(t.leases, 0)| && |again| == cfg.drainLimit
      ensures (Books(), ok) == Cleanup(cfg, Retire(old(Books()), t.token), P.Releases(t.leases, 0), acks, again)
      ensures ranks.calls == old(ranks.calls) + ReleaseCalls(cfg, old(Books()), t, acks, again)
      ensures ok ==> retry == [] && !cleanupLost
      ensures forall e :: e in old(retry) ==> e in retry || Done(ranks.s, e) || cleanupLost
      ensures forall at :: Owns(t, at) && at in ranks.s.held ==> Entry.Release(at) in retry || cleanupLost
      ensures StaysDone(old(ranks.s), ranks.s)
    {
      hide Drain, Replay, Done, InHand, Moves, EntryOk, Calls, Made, Retire, Sane, StaysDone, LogOk, Tried, Replays, Budget,
        Cleanup, Cleanups, P.Releases, P.Rollbacks;
      ghost var c0, s0 := Books(), ranks.s;
      var actual := if t.token in tickets then tickets[t.token] else t;
      ActualIs(cfg, c0, s0, before, issued, t);
      if t.token in tickets {
        retiring := retiring + {t.token};
        valid := valid - {t.token};
      }
      ghost var c1 := Books();
      RetiredBooks(c0, c1, t.token);
      Retired(cfg, c0, s0, before, issued, t);
      RollbacksAreReleases(t.leases, 0);
      var direct, done;
      direct, acks := RollBack(AsAnswers(actual.leases), {}, t.pair);
      ghost var c2, s2 := Books(), ranks.s;
      done, again := RetryCleanup({}, t.pair);
      ok := done && direct;
      ghost var c3, s3 := Books(), ranks.s;
      StaysDoneTwice(s0, s2, s3);
      SameTwice(c1, c2, c3);
      AllDone(cfg, c1, c2, s2, c3, s3, t, acks, direct);
      CleanupIs(cfg, c1, c2, s2, P.Releases(t.leases, 0), acks, direct, again);
      RetiredLogOf(c0, t.token);
      Released(cfg, c1, c3, s0, s3, before, issued, t.pair);
    }

    /** `_release`. Success means that no rank holds any of the ticket's leases any more, and that nothing
        logged before is left to do; only then is the ticket dropped. A lease that some rank may still
        hold afterwards is in the log, unless a receipt was lost. */
    method Release(t: Ticket, drop: bool) returns (ok: bool, ghost acks: seq<bool>, ghost again: seq<bool>)
      requires Valid() && t in issued
      modifies this, ranks
      ensures Valid() && issued == old(issued)
      ensures |acks| == |P.Releases(t.leases, 0)| && |again| == cfg.drainLimit
      ensures (Books(), ok) == ReleaseBooks(cfg, old(Books()), t, drop, acks, again)
      ensures ranks.calls == old(ranks.calls) + ReleaseCalls(cfg, old(Books()), t, acks, again)
      ensures ok ==> retry == [] && !cleanupLost && forall e :: e in old(retry) ==> Done(ranks.s, e)
      ensures ok ==> forall at :: Owns(t, at) ==> at !in ranks.s.held
      ensures forall at :: Owns(t, at) && at in ranks.s.held ==> Entry.Release(at) in retry || cleanupLost
      ensures ok && drop ==> t.token !in tickets
      ensures StaysDone(old(ranks.s), ranks.s)
    {
      hide Done, Cleanup, Sane, Retire, Drop;
      ok, acks, again := Recall(t);
      if ok && drop {
        Dropped(cfg, Books(), ranks.s, before, issued, t);
        DropTicket(t.token);
      }
    }

    // ---- invalidations --------------------------------------------------------------------------------

    /** `invalidate`. The veto stands before any rank is called. Success means that no rank holds a
        writing lease of the pair any more and that nothing logged is left to do; a rank that may still
        hold one is in the log, unless a receipt was lost. */
    method Invalidate(p: Pair) returns (ok: bool, ghost acks: seq<bool>, ghost again: seq<bool>)
      requires Valid()
      modifies this, ranks
      ensures Valid() && issued == old(issued)
      ensures |acks| == |P.Invalidations(cfg.ranks, p, 0)| && |again| == cfg.drainLimit
      ensures !P.InvalidateWellFormed(p) ==>
        !ok && Books() == old(Books()) && ranks.s == old(ranks.s) && ranks.calls == old(ranks.calls)
      ensures P.InvalidateWellFormed(p) ==>
        && (Books(), ok) == InvalidateBooks(cfg, old(Books()), p, acks, again)
        && ranks.calls == old(ranks.calls) + InvalidateCalls(cfg, old(Books()), p, acks, again)
      ensures P.InvalidateWellFormed(p) && p !in old(invalid) && |old(invalid)| >= cfg.maxKeys ==>
        !ok && closed && invalid == old(invalid) && ranks.calls == old(ranks.calls)
      ensures ok ==> retry == [] && !cleanupLost && forall r: nat :: r < cfg.ranks ==> Writers(ranks.s, r, p) == {}
      ensures P.InvalidateWellFormed(p) && RaiseOk(cfg, old(Books()), p) ==>
        forall r: nat :: r < cfg.ranks ==> Writers(ranks.s, r, p) == {} || Entry.Invalidate(r, p) in retry || cleanupLost
      ensures StaysDone(old(ranks.s), ranks.s)
    {
      hide Done, Cleanup, Sane, ClearVeto, Writers, P.Invalidations, StaysDone;
      acks, again := seq(|P.Invalidations(cfg.ranks, p, 0)|, _ => false), Padded([], cfg.drainLimit);
      ok := false;
      StaysHere(ranks.s);
      if P.InvalidateWellFormed(p) {
        ghost var c0 := Books();
        if p !in invalid && |invalid| >= cfg.maxKeys {
          closed := true;
          Shut(cfg, c0, ranks.s, before, issued);
        } else {
          invalid := invalid + {p};
          RaisedVeto(cfg, c0, ranks.s, before, issued, p);
          ok, acks, again := Banish(p);
          if ok {
            ghost var d := Books();
            invalidateAcked := invalidateAcked + {p};
            ClearVetoIfDrained(p);
            Acknowledged(cfg, d, ranks.s, before, issued, p);
          }
        }
      }
    }

    // The part of an invalidation that calls the ranks.
    method Banish(p: Pair) returns (ok: bool, ghost acks: seq<bool>, ghost again: seq<bool>)
      requires Valid() && p in invalid
      modifies this, ranks
      ensures Valid() && issued == old(issued) && p in invalid
      ensures |acks| == |P.Invalidations(cfg.ranks, p, 0)| && |again| == cfg.drainLimit
      ensures (Books(), ok) == Cleanup(cfg, old(Books()), P.Invalidations(cfg.ranks, p, 0), acks, again)
      ensures ranks.calls == old(ranks.calls) + Cleanups(cfg, old(Books()), P.Invalidations(cfg.ranks, p, 0), acks, again)
      ensures ok ==> retry == [] && !cleanupLost
      ensures forall r: nat :: r < cfg.ranks ==>
        Writers(ranks.s, r, p) == {} || Entry.Invalidate(r, p) in retry || cleanupLost
      ensures StaysDone(old(ranks.s), ranks.s)
    {
      hide Drain, Replay, Done, InHand, Moves, Calls, Made, Sane, StaysDone, LogOk, EntryOk, Writers, P.Invalidations;
      ghost var c0, s0 := Books(), ranks.s;
      SaneParts(cfg, c0, s0, before, issued);
      StaysHere(s0);
      var direct, done := true, false;
      acks := [];
      NoneBanished(cfg, c0, s0, p);
      for rank := 0 to |ranks.seconds|
        invariant Kept({}, p) && issued == old(issued) && SameBut(c0, Books())
        invariant Made(cfg, c0, Books(), ranks.s, P.Invalidations(rank, p, 0), acks, direct)
        invariant |acks| == |P.Invalidations(rank, p, 0)|
        invariant ranks.calls == old(ranks.calls) + Tried(P.Invalidations(rank, p, 0), acks)
        invariant StaysDone(s0, ranks.s)
      {
        ghost var c, s := Books(), ranks.s;
        var e := Entry.Invalidate(rank, p);
        InvalidationsMore(rank, p, 0);
        Vetoed(c, s, rank, p);
        var ack := Make(e, {}, p);
        StaysDoneTwice(s0, s, ranks.s);
        MadeOneMore(cfg, c0, c, s, ranks.s, P.Invalidations(rank, p, 0), acks, direct, e, ack);
        TriedMore(P.Invalidations(rank, p, 0), acks, e, ack);
        acks := acks + [ack];
        if !ack {
          direct := false;
          ghost var v := ranks.s;
          Vetoed(c, v, rank, p);
          ReplayLater(e);
          ReplayOk(cfg, c, e);
          SameHand(cfg, c, Books(), v, before, {}, p);
          LogMore(c, Books(), v, e);
        }
      }
      ghost var c2, s2 := Books(), ranks.s;
      done, again := RetryCleanup({}, p);
      ok := done && direct;
      ghost var c3, s3 := Books(), ranks.s;
      StaysDoneTwice(s0, s2, s3);
      SameTwice(c0, c2, c3);
      AllBanished(cfg, c0, c2, s2, c3, s3, p, acks, direct);
      Released(cfg, c0, c3, s0, s3, before, issued, p);
    }

    // ---- renewals ---------------------------------------------------------------------------------------

    // Every rank is asked to renew; `start` is taken before the first call.
    method RenewAll(t: Ticket) returns (start: real, all: bool, ghost replies: seq<Reply>)
      requires Valid() && t.token in tickets && tickets[t.token] == t
      modifies ranks
      ensures Valid() && old(ranks.s).now <= start <= ranks.s.now
      ensures all ==> forall r :: 0 <= r < cfg.ranks ==> Backed(ranks.s, At(r, t.leases[r]), start + cfg.ttl)
      ensures |replies| == cfg.ranks == |t.leases| && (all <==> forall r :: 0 <= r < cfg.ranks ==> replies[r].Yes?)
      ensures ranks.calls == old(ranks.calls) + [Clock(start)] + Renewals(t.leases, replies)
    {
      hide Sane, Moves, Backed;
      ghost var c, s := Books(), ranks.s;
      SaneParts(cfg, c, s, before, issued);
      start := ranks.Time();
      Waited(cfg, c, s, ranks.s, before, issued);
      all, replies := true, [];
      assert Renewals(t.leases, replies) == [];
      for rank := 0 to |ranks.seconds|
        invariant Valid() && old(ranks.s).now <= start <= ranks.s.now
        invariant all ==> forall r :: 0 <= r < rank ==> Backed(ranks.s, At(r, t.leases[r]), start + cfg.ttl)
        invariant |replies| == rank && (all <==> forall r :: 0 <= r < rank ==> replies[r].Yes?)
        invariant ranks.calls == old(ranks.calls) + [Clock(start)] + Renewals(t.leases, replies)
      {
        s := ranks.s;
        SaneSound(cfg, c, s, before, issued);
        var answer := ranks.Renew(rank, t.leases[rank]);
        Waited(cfg, c, s, ranks.s, before, issued);
        if all {
          StillBacked(s, ranks.s, t.leases, rank, start + cfg.ttl);
        }
        if answer.Yes? {
          BackedLess(ranks.s, At(rank, t.leases[rank]), s.now + ranks.seconds[rank], start + cfg.ttl);
        } else {
          all := false;
        }
        RenewedMore(t.leases, replies, answer);
        ghost var more := replies + [answer];
        assert more[rank] == answer && forall r :: 0 <= r < rank ==> more[r] == replies[r];
        replies := more;
      }
    }

    /** `renew`. Inside the window already proved no rank is asked; otherwise the window moves exactly if
        every rank renewed its lease and the window, counted from before the first call, is still
        open. Nothing but the window and the log changes. */
    method Renew(t: Ticket) returns (renewed: bool, ghost rn: Renewal)
      requires Valid()
      modifies this, ranks
      ensures Valid() && issued == old(issued) && SameBut(old(Books()).(valid := valid), Books())
      ensures old(closed) || t.token !in old(tickets) || old(tickets)[t.token] != t || t.token in old(retiring)
              || t.pair in old(invalid) ==>
        !renewed && Books() == old(Books()) && ranks.s == old(ranks.s) && ranks.calls == old(ranks.calls)
      ensures !old(closed) && t.token in old(tickets) && old(tickets)[t.token] == t && t.token !in old(retiring)
              && t.pair !in old(invalid) ==>
        && |rn.replies| == cfg.ranks == |t.leases| && |rn.again| == cfg.drainLimit && t.token in old(valid)
        && old(ranks.s).now <= rn.first <= rn.start <= rn.checked
        && (renewed <==>
              || rn.first < old(valid)[t.token]
              || ((forall r :: 0 <= r < cfg.ranks ==> rn.replies[r].Yes?) && rn.checked < rn.start + cfg.ttl - cfg.margin))
        && (rn.first < old(valid)[t.token] ==> Books() == old(Books()))
        && (!(rn.first < old(valid)[t.token]) && renewed ==>
              valid == old(valid)[t.token := rn.start + cfg.ttl - cfg.margin])
        && renewed == Renews(cfg, old(Books()), t, rn) && Books() == RenewBooks(cfg, old(Books()), t, rn)
        && ranks.calls == old(ranks.calls) + RenewCalls(cfg, old(Books()), t, rn)
      ensures !renewed ==> valid == old(valid)
      ensures old(cleanupLost) ==> cleanupLost
      ensures forall e :: e in old(retry) ==> e in retry || Done(ranks.s, e) || cleanupLost
    {
      hide Sane, Done, LogOk, Drain, Renews, RenewBooks, RenewCalls, Inside, SameBut;
      rn := Renewal(0.0, 0.0, [], 0.0, []);
      renewed := false;
      SameBooksStay(Books());
      if !closed && t.token in tickets && tickets[t.token] == t && t.token !in retiring && t.pair !in invalid {
        renewed, rn := RenewLive(t);
      }
    }

    // The renewal of a ticket that is neither being released nor vetoed.
    method RenewLive(t: Ticket) returns (renewed: bool, ghost rn: Renewal)
      requires Valid() && !closed && t.token in tickets && tickets[t.token] == t && t.token !in retiring && t.pair !in invalid
      modifies this, ranks
      ensures Valid() && issued == old(issued) && SameBut(old(Books()).(valid := valid), Books())
      ensures |rn.replies| == cfg.ranks == |t.leases| && |rn.again| == cfg.drainLimit && t.token in old(valid)
      ensures old(ranks.s).now <= rn.first <= rn.start <= rn.checked
      ensures renewed <==>
        || rn.first < old(valid)[t.token]
        || ((forall r :: 0 <= r < cfg.ranks ==> rn.replies[r].Yes?) && rn.checked < rn.start + cfg.ttl - cfg.margin)
      ensures rn.first < old(valid)[t.token] ==> Books() == old(Books())
      ensures !(rn.first < old(valid)[t.token]) && renewed ==>
        valid == old(valid)[t.token := rn.start + cfg.ttl - cfg.margin]
      ensures renewed == Renews(cfg, old(Books()), t, rn) && Books() == RenewBooks(cfg, old(Books()), t, rn)
      ensures ranks.calls == old(ranks.calls) + RenewCalls(cfg, old(Books()), t, rn)
      ensures !renewed ==> valid == old(valid)
      ensures old(cleanupLost) ==> cleanupLost
      ensures forall e :: e in old(retry) ==> e in retry || Done(ranks.s, e) || cleanupLost
    {
      hide Sane, Moves, Done, InHand, Backed, LogOk, Drain, StaysDone, Replays, Renewals, Renews, RenewBooks, RenewCalls,
        Inside, WithWindow, Budget, Sound;
      ghost var c, s := Books(), ranks.s;
      SaneParts(cfg, c, s, before, issued);
      var now := ranks.Time();
      Waited(cfg, c, s, ranks.s, before, issued);
      var until := if t.token in valid then valid[t.token] else 0.0;
      if now < until {
        rn := Renewal(now, now, seq(cfg.ranks, _ => No), now, Padded([], cfg.drainLimit));
        RenewInside(cfg, c, t, rn);
        return true, rn;
      }
      var start, checked;
      ghost var replies, again;
      renewed, start, replies, checked := Extend(t);
      ghost var c2, s2 := Books(), ranks.s;
      SaneParts(cfg, c2, s2, before, issued);
      var done;
      done, again := RetryCleanup({}, t.pair);
      Released(cfg, c2, Books(), s2, ranks.s, before, issued, t.pair);
      rn := Renewal(now, start, replies, checked, again);
      RenewOutside(cfg, c, t, rn, c2);
    }

    // The part of a renewal that asks the ranks.
    method Extend(t: Ticket) returns (renewed: bool, start: real, ghost replies: seq<Reply>, checked: real)
      requires Valid() && !closed && t.token in tickets && tickets[t.token] == t && t.token !in retiring && t.pair !in invalid
      modifies this`valid, ranks
      ensures Valid() && old(ranks.s).now <= start <= checked
      ensures |replies| == cfg.ranks == |t.leases|
      ensures renewed <==> (forall r :: 0 <= r < cfg.ranks ==> replies[r].Yes?) && checked < start + cfg.ttl - cfg.margin
      ensures valid == if renewed then old(valid)[t.token := start + cfg.ttl - cfg.margin] else old(valid)
      ensures ranks.calls == old(ranks.calls) + [Clock(start)] + Renewals(t.leases, replies) + [Clock(checked)]
    {
      hide Sane, Moves, Backed, Renewals;
      ghost var c := Books();
      var all;
      start, all, replies := RenewAll(t);
      ghost var s := ranks.s;
      SaneSound(cfg, c, s, before, issued);
      checked := ranks.Time();
      Waited(cfg, c, s, ranks.s, before, issued);
      var until := start + cfg.ttl - cfg.margin;
      renewed := all && !closed && t.token in tickets && t.token !in retiring && t.pair !in invalid && checked < until;
      if renewed {
        StillBacked(s, ranks.s, t.leases, cfg.ranks, start + cfg.ttl);
        valid := valid[t.token := until];
        Extended(cfg, c, ranks.s, before, issued, t, until);
      }
    }

    /** The deadline of a ticket. Whoever acts before it finds every rank still holding the lease, and for
        at least the margin longer, as long as no store has failed. */
    method LeaseDeadline(t: Ticket) returns (deadline: Option<real>)
      requires Valid()
      ensures deadline == Deadline(Books(), t)
      ensures deadline.Some? && !ranks.s.down && ranks.s.now < deadline.value ==>
        && |t.leases| == cfg.ranks
        && forall at :: Owns(t, at) ==> at in ranks.s.held && deadline.value + cfg.margin <= ranks.s.held[at].expiry
    {
      hide LeasesOk, B.BooksOk, LogOk, IssuedOk;
      if closed || t.token in retiring || t.pair in invalid || t.token !in tickets || tickets[t.token] != t {
        return None;
      }
      deadline := if t.token in valid then Some(valid[t.token]) else None;
      if deadline.Some? && !ranks.s.down && ranks.s.now < deadline.value {
        WindowHolds(cfg, Books(), ranks.s, before, t);
      }
    }

    // Every rank is asked whether it has the object; anything but a yes counts as no.
    method AllExist(pair: Pair) returns (all: bool, ghost yes: seq<bool>)
      requires Valid()
      modifies ranks
      ensures Valid() && StaysDone(old(ranks.s), ranks.s)
      ensures |yes| == cfg.ranks && (all <==> forall r :: 0 <= r < cfg.ranks ==> yes[r])
      ensures ranks.calls == old(ranks.calls) + Looks(pair, yes)
    {
      hide Sane, Moves, Done, StaysDone;
      all, yes := true, [];
      assert Looks(pair, yes) == [];
      StaysHere(ranks.s);
      for rank := 0 to |ranks.seconds|
        invariant Valid() && StaysDone(old(ranks.s), ranks.s)
        invariant |yes| == rank && (all <==> forall r :: 0 <= r < rank ==> yes[r])
        invariant ranks.calls == old(ranks.calls) + Looks(pair, yes)
      {
        ghost var s := ranks.s;
        SaneSound(cfg, Books(), s, before, issued);
        var reply := ranks.Exists(rank, pair);
        Waited(cfg, Books(), s, ranks.s, before, issued);
        StillDone(s, ranks.s);
        StaysDoneTwice(old(ranks.s), s, ranks.s);
        if !reply.Yes? {
          all := false;
        }
        ghost var more := yes + [reply.Yes?];
        assert Looks(pair, more) == Looks(pair, yes) + [Looked(rank, pair, reply.Yes?)];
        assert more[rank] == reply.Yes? && forall r :: 0 <= r < rank ==> more[r] == yes[r];
        yes := more;
      }
    }

    // The veto of a store that is not durable; `accepted` if every rank acknowledged it, or none was due.
    method Veto(p: Pair, due: bool) returns (accepted: bool, ghost acks: seq<bool>, ghost again: seq<bool>)
      requires Valid()
      modifies this, ranks
      ensures Valid() && issued == old(issued) && StaysDone(old(ranks.s), ranks.s)
      ensures |acks| == |P.Invalidations(cfg.ranks, p, 0)| && |again| == cfg.drainLimit
      ensures !due ==> accepted && Books() == old(Books()) && ranks.calls == old(ranks.calls)
      ensures due && !P.InvalidateWellFormed(p) ==> !accepted && Books() == old(Books()) && ranks.calls == old(ranks.calls)
      ensures due && P.InvalidateWellFormed(p) ==> (Books(), accepted) == InvalidateBooks(cfg, old(Books()), p, acks, again)
      ensures (Books(), accepted) == VetoBooks(cfg, old(Books()), p, due, acks, again)
      ensures ranks.calls == old(ranks.calls) + VetoCalls(cfg, old(Books()), p, due, acks, again)
      ensures due && accepted ==> forall r: nat :: r < cfg.ranks ==> Writers(ranks.s, r, p) == {}
    {
      hide Sane, Done, StaysDone, Writers, InvalidateBooks, InvalidateCalls, P.Invalidations;
      if due {
        accepted, acks, again := Invalidate(p);
      } else {
        StaysHere(ranks.s);
        accepted, acks, again := true, seq(|P.Invalidations(cfg.ranks, p, 0)|, _ => false), Padded([], cfg.drainLimit);
      }
    }

    /** `complete_store`. A store that is not successful or that some rank does not have is vetoed, and no
        other is; the veto comes before the ticket is released, and the ticket is dropped only if the
        veto was acknowledged everywhere. Success means that the ticket is gone and no rank holds its
        leases, and after a veto no rank holds a writing lease of the pair. */
    method CompleteStore(t: Ticket, success: bool) returns (ok: bool, ghost vetoed: bool, ghost m: Completion)
      requires Valid() && t in issued
      modifies this, ranks
      ensures Valid() && issued == old(issued)
      ensures success ==> |m.yes| == cfg.ranks
      ensures !success ==> m.yes == []
      ensures vetoed <==> !success || exists r :: 0 <= r < cfg.ranks && !m.yes[r]
      ensures |m.vetoAcks| == |P.Invalidations(cfg.ranks, t.pair, 0)| && |m.vetoAgain| == |m.again| == cfg.drainLimit
      ensures |m.acks| == |P.Releases(t.leases, 0)|
      ensures
        var (c, accepted) := VetoBooks(cfg, old(Books()), t.pair, vetoed, m.vetoAcks, m.vetoAgain);
        var (d, released) := ReleaseBooks(cfg, c, t, accepted, m.acks, m.again);
        && Books() == d && ok == (accepted && released)
        && ranks.calls == old(ranks.calls) + Looks(t.pair, m.yes)
             + VetoCalls(cfg, old(Books()), t.pair, vetoed, m.vetoAcks, m.vetoAgain) + ReleaseCalls(cfg, c, t, m.acks, m.again)
      ensures ok ==> t.token !in tickets && retry == [] && !cleanupLost
      ensures ok ==> forall at :: Owns(t, at) ==> at !in ranks.s.held
      ensures ok && vetoed ==> forall r: nat :: r < cfg.ranks ==> Writers(ranks.s, r, t.pair) == {}
      ensures vetoed && t.token in tickets && P.InvalidateWellFormed(t.pair) && RaiseOk(cfg, old(Books()), t.pair) ==>
        t.pair in invalid
      ensures forall at :: Owns(t, at) && at in ranks.s.held ==> Entry.Release(at) in retry || cleanupLost
      ensures StaysDone(old(ranks.s), ranks.s)
    {
      hide Sane, Done, StaysDone, Writers, ReleaseBooks, VetoBooks, VetoCalls, ReleaseCalls, Looks;
      ghost var s0, c0 := ranks.s, Books();
      StaysHere(s0);
      var durable := success;
      ghost var yes := [];
      NoLooks(t.pair);
      if success {
        durable, yes := AllExist(t.pair);
      }
      ghost var s1 := ranks.s;
      vetoed := !durable;
      var accepted;
      ghost var vetoAcks, vetoAgain;
      accepted, vetoAcks, vetoAgain := Veto(t.pair, !durable);
      VetoLasts(cfg, c0, t.pair, vetoed, vetoAcks, vetoAgain);
      ghost var s2, c2 := ranks.s, Books();
      StaysDoneTwice(s0, s1, s2);
      ghost var acks, again;
      ok, acks, again := Release(t, accepted);
      DropOnly(cfg, c2, t, accepted, acks, again);
      StaysDoneTwice(s0, s2, ranks.s);
      ActualIs(cfg, Books(), ranks.s, before, issued, t);
      if vetoed && accepted {
        forall r: nat | r < cfg.ranks ensures Writers(ranks.s, r, t.pair) == {} {
          WritersStay(s2, ranks.s, r, t.pair);
        }
      }
      ok := ok && accepted;
      m := Completion(yes, vetoAcks, vetoAgain, acks, again);
    }

    // ---- reservations ------------------------------------------------------------------------------------

    // Every rank is asked; never stop at one that refuses, as later ranks may grant. `start` is
    // taken before the first call, `now` after the last answer.
    method FanOut(id: Identity, sizes: seq<nat>) returns (answers: seq<P.Answer>, start: real, now: real)
      requires Kept({}, id.pair) && |sizes| == cfg.ranks
      modifies ranks
      ensures |answers| == cfg.ranks && P.Answered(answers) && old(ranks.s).now <= start <= now
      ensures ranks.calls == old(ranks.calls) + [Clock(start)] + Asks(id, sizes, answers) + [Clock(now)]
      ensures Kept(P.SeenLeases(answers), id.pair) && now == ranks.s.now
      ensures old(ranks.s).granted <= ranks.s.granted
      ensures forall at :: P.Sees(answers, at) ==> at !in old(ranks.s).granted && Backed(ranks.s, at, start + cfg.ttl)
      ensures forall at :: at in ranks.s.granted && at !in old(ranks.s).granted ==> P.Sees(answers, at) || at in ranks.s.unseen
    {
      hide InHand, Moves, Backed, LogOk, P.SeenLeases;
      ghost var c, s := Books(), ranks.s;
      InHandSound(cfg, c, s, before, {}, id.pair);
      start := ranks.Time();
      NoneSpent(c);
      AskedNothing(cfg, c, s, ranks.s, before, {}, id.pair);
      answers := [];
      assert P.SeenLeases(answers) == {};
      assert Asks(id, sizes, answers) == [];
      for rank := 0 to |ranks.seconds|
        invariant |answers| == rank && P.Answered(answers)
        invariant ranks.calls == old(ranks.calls) + [Clock(start)] + Asks(id, sizes, answers)
        invariant Kept(P.SeenLeases(answers), id.pair) && old(ranks.s).now <= start <= ranks.s.now && Books() == c
        invariant old(ranks.s).granted <= ranks.s.granted
        invariant forall at :: P.Sees(answers, at) ==> at !in old(ranks.s).granted && Backed(ranks.s, at, start + cfg.ttl)
        invariant forall at :: at in ranks.s.granted && at !in old(ranks.s).granted ==>
          P.Sees(answers, at) || at in ranks.s.unseen
      {
        s := ranks.s;
        InHandSound(cfg, c, s, before, P.SeenLeases(answers), id.pair);
        var lease := ranks.Reserve(rank, id, if id.writing then Some(sizes[rank]) else None);
        var answer := if lease.Some? then P.Got(lease.value) else P.Missing;
        Asked(cfg, c, s, ranks.s, before, answers, id.pair, answer);
        StillSeen(s, ranks.s, answers, start + cfg.ttl);
        SeesMore(answers, answer);
        if lease.Some? {
          BackedLess(ranks.s, At(rank, lease.value), s.now + ranks.seconds[rank], start + cfg.ttl);
        }
        AskedMore(id, sizes, answers, answer);
        answers := answers + [answer];
      }
      s := ranks.s;
      InHandSound(cfg, c, s, before, P.SeenLeases(answers), id.pair);
      now := ranks.Time();
      AskedNothing(cfg, c, s, ranks.s, before, P.SeenLeases(answers), id.pair);
      StillSeen(s, ranks.s, answers, start + cfg.ttl);
    }

    // What a reservation that was granted nothing, or not everything, gives back.
    method Refund(id: Identity, answers: seq<P.Answer>) returns (ghost acks: seq<bool>, ghost again: seq<bool>)
      requires Kept(P.SeenLeases(answers), id.pair)
      modifies this, ranks
      ensures Kept({}, id.pair) && issued == old(issued)
      ensures |acks| == |P.Rollbacks(answers, 0)| && |again| == cfg.drainLimit && SameBut(old(Books()), Books())
      ensures Books() == Cleanup(cfg, old(Books()), P.Rollbacks(answers, 0), acks, again).0
      ensures ranks.calls == old(ranks.calls) + Cleanups(cfg, old(Books()), P.Rollbacks(answers, 0), acks, again)
      ensures StaysDone(old(ranks.s), ranks.s)
      ensures forall at :: P.Sees(answers, at) && at in ranks.s.held ==> Entry.Release(at) in retry || cleanupLost
    {
      hide Drain, Replay, Done, InHand, Moves, EntryOk, Calls, Made, StaysDone, LogOk, P.SeenLeases;
      ghost var c1, s1, hand := Books(), ranks.s, P.SeenLeases(answers);
      HandEntries(cfg, c1, s1, before, hand, id.pair);
      var acked, done;
      acked, acks := RollBack(answers, hand, id.pair);
      ghost var c2, s2 := Books(), ranks.s;
      InHandGone(cfg, c2, s2, before, hand, id.pair);
      InHandStart(cfg, c2, s2, before, id.pair);
      done, again := RetryCleanup({}, id.pair);
      StaysDoneTwice(s1, s2, ranks.s);
      SameTwice(c1, c2, Books());
      AllReturned(cfg, c1, c2, s2, Books(), ranks.s, answers, acks, acked);
    }

    // An admitted reservation that comes to nothing; `c0` and `s0` are the books and the ranks before it
    // was admitted.
    method Decline(id: Identity, answers: seq<P.Answer>, ghost c0: Coord, ghost s0: Store)
      returns (ghost acks: seq<bool>, ghost again: seq<bool>)
      requires Kept(P.SeenLeases(answers), id.pair) && Books() == Admit(cfg, c0, id) && Sane(cfg, c0, s0, before, issued)
      requires AdmitOk(cfg, c0, id) && s0.granted <= ranks.s.granted
      requires forall at :: at in ranks.s.granted && at !in s0.granted ==> P.Sees(answers, at) || at in ranks.s.unseen
      modifies this, ranks
      ensures Valid() && issued == old(issued) && SameBut(c0, Books())
      ensures |acks| == |P.Rollbacks(answers, 0)| && |again| == cfg.drainLimit
      ensures Books() == RefuseBooks(cfg, Admit(cfg, c0, id), id, answers, acks, again)
      ensures ranks.calls == old(ranks.calls) + Cleanups(cfg, Admit(cfg, c0, id), P.Rollbacks(answers, 0), acks, again)
      ensures forall at :: at in ranks.s.held && at !in s0.granted ==>
        at in ranks.s.unseen || Entry.Release(at) in retry || cleanupLost
    {
      hide Sane, InHand, Moves, Backed, LogOk, Done, Cleanup, Cleanups, StaysDone, P.SeenLeases, P.Rollbacks,
        Admit, AdmitOk, Charge, ClearVeto, Abandon, P.Sees, SameBut;
      ghost var c1, s1 := Books(), ranks.s;
      acks, again := Refund(id, answers);
      ghost var c2, s2 := Books(), ranks.s;
      pending := pending - {id};
      bytes := bytes - Charge(cfg, id);
      ghost var c3 := Books();
      Unseen(s1, s2);
      Refunded(cfg, c0, s0, c1, c2, s1, s2, c3, before, issued, id, answers);
      ClearVetoIfDrained(id.pair);
    }

    // An admitted reservation that every rank granted becomes a ticket.
    method Mint(t: Ticket, end: real, id: Identity, ghost answers: seq<P.Answer>, ghost c0: Coord, ghost s0: Store)
      requires Kept(P.SeenLeases(answers), id.pair) && Books() == Admit(cfg, c0, id) && Sane(cfg, c0, s0, before, issued)
      requires AdmitOk(cfg, c0, id) && Known(cfg, id) && id !in c0.identities && s0.granted <= ranks.s.granted
      requires forall k :: k in issued ==> k.token != t.token
      requires P.Complete(answers) && |answers| == cfg.ranks && t.leases == P.LeasesOf(answers)
      requires t.Id() == id && t.sizes == Sizes(cfg, id)
      requires forall at :: P.Sees(answers, at) ==> at !in s0.granted && Backed(ranks.s, at, end + cfg.margin)
      modifies this
      ensures Valid() && issued == old(issued) + {t} && Books() == Commit(Admit(cfg, c0, id), t, end)
      ensures (forall at :: Owns(t, at) ==> at !in s0.granted) && t.token !in c0.retiring
    {
      hide Sane, InHand, Backed, LogOk, P.SeenLeases, Known, Sizes, Admit, AdmitOk, P.Sees, P.Complete;
      Minted(cfg, c0, s0, Books(), ranks.s, before, issued, id, t, end, answers);
      tickets := tickets[t.token := t];
      identities := identities[t.Id() := t.token];
      valid := valid[t.token := end];
      pending := pending - {id};
      issued := issued + {t};
    }

    // An admitted reservation, to its end; `c0` are the books before it was admitted.
    method Settle(id: Identity, token: Token, ghost c0: Coord) returns (out: Option<Ticket>, ghost a: Attempt)
      requires Kept({}, id.pair) && Books() == Admit(cfg, c0, id) && Sane(cfg, c0, ranks.s, before, issued)
      requires AdmitOk(cfg, c0, id) && Known(cfg, id) && id !in c0.identities
      requires forall k :: k in issued ==> k.token != token
      modifies this, ranks
      ensures Valid() && a.Fits(cfg) && |Sizes(cfg, id)| == cfg.ranks && old(ranks.s).now <= a.start <= a.now
      ensures out.Some? <==> P.Complete(a.answers) && a.now < a.start + cfg.ttl - cfg.margin
      ensures ranks.calls == old(ranks.calls) + AttemptCalls(cfg, Admit(cfg, c0, id), id, Sizes(cfg, id), a, out.Some?)
      ensures out.Some? ==>
        && out.value == Ticket(token, id.pair, P.LeasesOf(a.answers), Sizes(cfg, id), id.owner, id.writing)
        && token !in c0.retiring && issued == old(issued) + {out.value} && ranks.s.now == a.now
        && Books() == Commit(Admit(cfg, c0, id), out.value, a.start + cfg.ttl - cfg.margin)
        && forall at :: Owns(out.value, at) ==> at !in old(ranks.s).granted
      ensures out.None? ==>
        && issued == old(issued) && SameBut(c0, Books())
        && Books() == RefuseBooks(cfg, Admit(cfg, c0, id), id, a.answers, a.acks, a.again)
        && forall at :: at in ranks.s.held && at !in old(ranks.s).granted ==>
             at in ranks.s.unseen || Entry.Release(at) in retry || cleanupLost
    {
      hide Sane, InHand, Moves, Backed, LogOk, Done, Cleanup, Cleanups, StaysDone, P.SeenLeases, Known, Sizes, P.Rollbacks,
        Admit, AdmitOk, Charge, ClearVeto, Abandon, P.Sees, SameBut, RefuseBooks, Asks, AttemptCalls, P.Complete, P.Answered,
        Commit;
      ghost var c1, s0 := Books(), ranks.s;
      KnownFits(cfg, id);
      var got, start, now := FanOut(id, Sizes(cfg, id));
      ghost var s1 := ranks.s;
      ghost var acks, again := seq(|P.Rollbacks(got, 0)|, _ => false), Padded([], cfg.drainLimit);
      var end := start + cfg.ttl - cfg.margin;
      if P.Complete(got) && !closed && id.pair !in invalid && now < end {
        var t := Ticket(token, id.pair, P.LeasesOf(got), Sizes(cfg, id), id.owner, id.writing);
        Mint(t, end, id, got, c0, s0);
        a := Attempt(start, got, now, acks, again);
        AttemptWon(cfg, c1, id, Sizes(cfg, id), a);
        return Some(t), a;
      }
      StaysOpen(cfg, c0, c1, id);
      out := None;
      acks, again := Decline(id, got, c0, s0);
      a := Attempt(start, got, now, acks, again);
      AttemptLost(cfg, c1, id, Sizes(cfg, id), a);
    }

    /** The part of `_reserve` for an identity without a usable ticket; `token` is a new uuid. Credits are
        taken before any rank is called, exactly if there is room; a ticket is recorded exactly if then
        every rank granted and the window, counted from before the first call, is still open. Otherwise
        the books are as before, and a lease some rank may still hold was never seen or is in the log,
        unless a receipt was lost. */
    method Obtain(id: Identity, token: Token) returns (out: Option<Ticket>, ghost admitted: bool, ghost a: Attempt)
      requires Valid() && Known(cfg, id) && (closed || id.pair in invalid || id !in identities)
      requires forall k :: k in issued ==> k.token != token
      modifies this, ranks
      ensures Valid()
      ensures AttemptIs(cfg, old(Books()), id, token, out, admitted, a, Books(), old(ranks.calls), ranks.calls)
      ensures !admitted ==> ranks.s == old(ranks.s)
      ensures admitted ==> old(ranks.s).now <= a.start <= a.now
      ensures out.Some? ==>
        && out.value.Id() == id && token !in old(retiring) && issued == old(issued) + {out.value} && ranks.s.now == a.now
        && Deadline(Books(), out.value) == Some(a.start + cfg.ttl - cfg.margin)
        && forall at :: Owns(out.value, at) ==> at !in old(ranks.s).granted
      ensures out.None? ==>
        && issued == old(issued) && SameBut(old(Books()), Books())
        && forall at :: at in ranks.s.held && at !in old(ranks.s).granted ==>
             at in ranks.s.unseen || Entry.Release(at) in retry || cleanupLost
    {
      hide Sane, InHand, Moves, Backed, LogOk, Done, Cleanup, Cleanups, StaysDone, P.SeenLeases, Known, Sizes, P.Rollbacks,
        Admit, AdmitOk, Charge, ClearVeto, Abandon, P.Sees, SameBut, RefuseBooks, AttemptCalls, Commit, AttemptIs, Deadline,
        P.Complete;
      ghost var c0, s0, calls := Books(), ranks.s, ranks.calls;
      SaneParts(cfg, c0, s0, before, issued);
      NoStraysNew(s0);
      AdmitIs(cfg, c0, id);
      NoAttempt(cfg, c0, id, token, calls);
      out, admitted, a := None, false, Attempt(0.0, [], 0.0, [], []);
      var charge := Charge(cfg, id);
      if closed || id.pair in invalid {
        return;
      }
      if id in pending || |tickets| + |pending| >= cfg.maxKeys || bytes + charge > cfg.maxBytes {
        return;
      }
      admitted := true;
      pending := pending + {id};
      bytes := bytes + charge;
      CreditsTaken(cfg, c0, Books(), s0, before, id);
      out, a := Settle(id, token, c0);
      AttemptMade(cfg, c0, id, token, out, a, Books(), calls, ranks.calls);
      if out.Some? {
        ObtainedIs(cfg, c0, id, out.value, a.start + cfg.ttl - cfg.margin);
      }
    }

    // A reservation that found a ticket; not done if the ticket was renewed but is no longer good on a
    // second look.
    method Again(t: Ticket, id: Identity)
      returns (out: Option<Ticket>, done: bool, ghost rn: Renewal, ghost acks: seq<bool>, ghost again: seq<bool>)
      requires Valid() && t in issued && t.Id() == id && t.token in tickets && tickets[t.token] == t
      requires !closed && t.token !in retiring && id.pair !in invalid && id in identities && identities[id] == t.token
      modifies this, ranks
      ensures Valid() && issued == old(issued)
      ensures |rn.replies| == cfg.ranks == |t.leases| && |rn.again| == |again| == cfg.drainLimit
      ensures |acks| == |P.Releases(t.leases, 0)|
      ensures
        var c := old(Books());
        var d := RenewBooks(cfg, c, t, rn);
        if Renews(cfg, c, t, rn) then
          && Books() == d && ranks.calls == old(ranks.calls) + RenewCalls(cfg, c, t, rn)
          && (if d.closed then out == None && !done else out == Some(t) && done && Deadline(d, t).Some?)
        else
          && out == None && done && Books() == ReleaseBooks(cfg, d, t, true, acks, again).0
          && ranks.calls == old(ranks.calls) + RenewCalls(cfg, c, t, rn) + ReleaseCalls(cfg, d, t, acks, again)
      ensures forall x :: x in tickets ==> x in old(tickets) && tickets[x] == old(tickets)[x]
      ensures !done ==> SameBut(old(Books()).(valid := valid), Books())
    {
      hide Sane, InHand, Moves, Done, StaysDone, ReleaseBooks, LogOk, Deadline, Renews, RenewBooks, RenewCalls, ReleaseCalls,
        Inside;
      var renewed;
      renewed, rn := Renew(t);
      SaneParts(cfg, Books(), ranks.s, before, issued);
      acks, again := seq(|P.Releases(t.leases, 0)|, _ => false), Padded([], cfg.drainLimit);
      if !renewed {
        ghost var c1 := Books();
        var ok;
        ok, acks, again := Release(t, true);
        DropOnly(cfg, c1, t, true, acks, again);
        return None, true, rn, acks, again;
      }
      if id in identities && identities[id] == t.token && t.token !in retiring && id.pair !in invalid && !closed {
        DeadlineIs(Books(), t);
        return Some(t), true, rn, acks, again;
      }
      return None, false, rn, acks, again;
    }

    /** `_reserve`. An identity that has a ticket gets that ticket again exactly if it can be renewed and is
        still good on a second look, and otherwise gives it up; a new ticket needs every rank. A ticket
        that is returned is good: its window is proved, so every rank holds its lease until the
        deadline and beyond (`LeaseDeadline`). */
    method Reserve(id: Identity, sizes: seq<nat>, token: Token)
      returns (out: Option<Ticket>, ghost rn: Renewal, ghost acks: seq<bool>, ghost again: seq<bool>,
               ghost admitted: bool, ghost a: Attempt)
      requires Valid() && forall k :: k in issued ==> k.token != token
      modifies this, ranks
      ensures Valid()
      ensures !(Known(cfg, id) && sizes == Sizes(cfg, id)) || old(closed) || id.pair in old(invalid)
              || (id in old(identities) && old(identities)[id] in old(retiring)) ==>
        out == None && Books() == old(Books()) && ranks.s == old(ranks.s) && ranks.calls == old(ranks.calls)
      ensures Known(cfg, id) && sizes == Sizes(cfg, id) && !old(closed) && id.pair !in old(invalid)
              && id in old(identities) && old(identities)[id] !in old(retiring) ==>
        && old(identities)[id] in old(tickets)
        && var c, t := old(Books()), old(tickets)[old(identities)[id]];
        && |rn.replies| == cfg.ranks == |t.leases| && |rn.again| == |again| == cfg.drainLimit
        && |acks| == |P.Releases(t.leases, 0)|
        && var d := RenewBooks(cfg, c, t, rn);
        && (Renews(cfg, c, t, rn) && !d.closed <==> out == Some(t))
        && (Renews(cfg, c, t, rn) ==> Books() == d && ranks.calls == old(ranks.calls) + RenewCalls(cfg, c, t, rn))
        && (!Renews(cfg, c, t, rn) ==>
              && Books() == ReleaseBooks(cfg, d, t, true, acks, again).0
              && ranks.calls == old(ranks.calls) + RenewCalls(cfg, c, t, rn) + ReleaseCalls(cfg, d, t, acks, again))
        && (out == Some(t) || out == None)
      ensures Known(cfg, id) && sizes == Sizes(cfg, id) && !old(closed) && id.pair !in old(invalid) && id !in old(identities) ==>
        && AttemptIs(cfg, old(Books()), id, token, out, admitted, a, Books(), old(ranks.calls), ranks.calls)
        && (!admitted ==> ranks.s == old(ranks.s))
        && (admitted ==> old(ranks.s).now <= a.start <= a.now)
        && (out.Some? ==> issued == old(issued) + {out.value})
      ensures out.Some? ==> out.value.Id() == id && out.value in issued && Deadline(Books(), out.value).Some?
      ensures out.None? ==>
        && issued == old(issued)
        && forall x :: x in tickets ==> x in old(tickets) && tickets[x] == old(tickets)[x]
    {
      hide Sane, InHand, Moves, Done, StaysDone, Known, Sizes, ReleaseBooks, LogOk, Deadline, AttemptIs, Renews, RenewBooks,
        RenewCalls, ReleaseCalls;
      ghost var c0, s0 := Books(), ranks.s;
      SaneParts(cfg, c0, s0, before, issued);
      if id in identities {
        IdentityIs(cfg, c0, s0, before, issued, id);
      }
      acks, again, admitted := [], [], false;
      rn, a := Renewal(0.0, 0.0, [], 0.0, []), Attempt(0.0, [], 0.0, [], []);
      if !Known(cfg, id) || sizes != Sizes(cfg, id) || closed || id.pair in invalid {
        return None, rn, acks, again, admitted, a;
      }
      if id in identities {
        var found := identities[id];
        if found in retiring {
          return None, rn, acks, again, admitted, a;
        }
        var done;
        out, done, rn, acks, again := Again(tickets[found], id);
        if done {
          return out, rn, acks, again, admitted, a;
        }
      }
      ghost var c2, calls := Books(), ranks.calls;
      out, admitted, a := Obtain(id, token);
      ClosedAttempt(cfg, c2, id, token, out, admitted, a, Books(), calls, ranks.calls);
    }
  }

  // How a reservation without a usable ticket ends: it is admitted exactly if there is room, and then
  // becomes a ticket exactly if every rank granted and the window is still open.
  ghost predicate AttemptIs(cfg: Config, c: Coord, id: Identity, token: Token, out: Option<Ticket>, admitted: bool, a: Attempt,
                            d: Coord, calls: seq<Call>, after: seq<Call>)
  {
    && 0 < cfg.retryCap
    && (admitted <==>
          && !c.closed && id.pair !in c.invalid && id !in c.pending
          && |c.tickets| + |c.pending| < cfg.maxKeys && c.bytes + MaxOf(Sizes(cfg, id)) <= cfg.maxBytes)
    && if !admitted then out == None && d == c && after == calls else
      && a.Fits(cfg) && |Sizes(cfg, id)| == cfg.ranks
      && (out.Some? <==> P.Complete(a.answers) && a.now < a.start + cfg.ttl - cfg.margin)
      && after == calls + AttemptCalls(cfg, Admit(cfg, c, id), id, Sizes(cfg, id), a, out.Some?)
      && if out.Some? then
        && out.value == Ticket(token, id.pair, P.LeasesOf(a.answers), Sizes(cfg, id), id.owner, id.writing)
        && d == Commit(Admit(cfg, c, id), out.value, a.start + cfg.ttl - cfg.margin)
      else
        d == RefuseBooks(cfg, Admit(cfg, c, id), id, a.answers, a.acks, a.again)
  }

  lemma AttemptWon(cfg: Config, c: Coord, id: Identity, sizes: seq<nat>, a: Attempt)
    requires 0 < cfg.retryCap && |a.answers| <= |sizes| && |a.acks| == |P.Rollbacks(a.answers, 0)| && cfg.drainLimit <= |a.again|
    ensures AttemptCalls(cfg, c, id, sizes, a, true) == [Clock(a.start)] + Asks(id, sizes, a.answers) + [Clock(a.now)]
  {
    hide Asks, Cleanups, P.Rollbacks;
  }

  lemma AttemptLost(cfg: Config, c: Coord, id: Identity, sizes: seq<nat>, a: Attempt)
    requires 0 < cfg.retryCap && |a.answers| <= |sizes| && |a.acks| == |P.Rollbacks(a.answers, 0)| && cfg.drainLimit <= |a.again|
    ensures AttemptCalls(cfg, c, id, sizes, a, false) ==
      [Clock(a.start)] + Asks(id, sizes, a.answers) + [Clock(a.now)] + Cleanups(cfg, c, P.Rollbacks(a.answers, 0), a.acks, a.again)
  {
    hide Asks, Cleanups, P.Rollbacks;
  }

  lemma NoAttempt(cfg: Config, c: Coord, id: Identity, token: Token, calls: seq<Call>)
    requires 0 < cfg.retryCap
    ensures !AdmitOk(cfg, c, id) ==>
      forall a :: AttemptIs(cfg, c, id, token, None, false, a, c, calls, calls)
  {
  }

  lemma AttemptMade(cfg: Config, c: Coord, id: Identity, token: Token, out: Option<Ticket>, a: Attempt,
                    d: Coord, calls: seq<Call>, after: seq<Call>)
    requires 0 < cfg.retryCap && AdmitOk(cfg, c, id) && a.Fits(cfg) && |Sizes(cfg, id)| == cfg.ranks
    requires out.Some? <==> P.Complete(a.answers) && a.now < a.start + cfg.ttl - cfg.margin
    requires after == calls + AttemptCalls(cfg, Admit(cfg, c, id), id, Sizes(cfg, id), a, out.Some?)
    requires out.Some? ==>
      && out.value == Ticket(token, id.pair, P.LeasesOf(a.answers), Sizes(cfg, id), id.owner, id.writing)
      && d == Commit(Admit(cfg, c, id), out.value, a.start + cfg.ttl - cfg.margin)
    requires out.None? ==> d == RefuseBooks(cfg, Admit(cfg, c, id), id, a.answers, a.acks, a.again)
    ensures AttemptIs(cfg, c, id, token, out, true, a, d, calls, after)
  {
    hide AttemptCalls, Admit, Commit, RefuseBooks, P.LeasesOf, Sizes;
    ChargeIs(cfg, id);
  }

  lemma ClosedAttempt(cfg: Config, c: Coord, id: Identity, token: Token, out: Option<Ticket>, admitted: bool, a: Attempt,
                      d: Coord, calls: seq<Call>, after: seq<Call>)
    requires AttemptIs(cfg, c, id, token, out, admitted, a, d, calls, after)
    ensures c.closed ==> !admitted && out == None && d == c && after == calls
  {
  }

  // ---- lemmas of the reservations ----------------------------------------------------------------------

  lemma NoneSpent(c: Coord)
    ensures Harmless(c, {})
  {
  }

  // Time passed, or a rank was asked and granted nothing that was seen.
  lemma AskedNothing(cfg: Config, c: Coord, s: Store, v: Store, before: set<RankLease>, hand: set<RankLease>, pair: Pair)
    requires InHand(cfg, c, s, before, hand, pair) && Moves(s, v, {}) && LogOk(c, s)
    requires v.unseen == s.unseen + (v.granted - s.granted)
    ensures InHand(cfg, c, v, before, hand, pair) && LogOk(c, v) && s.now <= v.now && s.granted <= v.granted
  {
    hide InHand, LogOk;
    LogLater(c, s, v);
    InHandSound(cfg, c, s, before, hand, pair);
    NoneSpent(c);
    InHandMove(cfg, c, s, v, before, hand, pair, {});
  }

  lemma SeesMore(answers: seq<P.Answer>, answer: P.Answer)
    ensures forall at :: P.Sees(answers + [answer], at) <==>
      P.Sees(answers, at) || (answer.Got? && at == At(|answers|, answer.lease))
    ensures P.SeenLeases(answers + [answer]) ==
      P.SeenLeases(answers) + (if answer.Got? then {At(|answers|, answer.lease)} else {})
  {
    hide P.SeenLeases;
  }

  lemma Asked(cfg: Config, c: Coord, s: Store, v: Store, before: set<RankLease>, answers: seq<P.Answer>, pair: Pair,
              answer: P.Answer)
    requires InHand(cfg, c, s, before, P.SeenLeases(answers), pair) && Moves(s, v, {}) && LogOk(c, s)
    requires answer.Got? ==>
      var at := At(|answers|, answer.lease);
      at !in s.granted && v.granted == s.granted + {at} && (at in v.held ==> v.held[at].pair == pair)
    requires !answer.Got? ==> v.unseen == s.unseen + (v.granted - s.granted)
    ensures InHand(cfg, c, v, before, P.SeenLeases(answers + [answer]), pair) && LogOk(c, v)
    ensures s.now <= v.now && s.granted <= v.granted && s.unseen <= v.unseen
  {
    hide InHand, LogOk, P.SeenLeases;
    LogLater(c, s, v);
    SeesMore(answers, answer);
    if answer.Got? {
      InHandMore(cfg, c, s, v, before, P.SeenLeases(answers), pair, At(|answers|, answer.lease));
    } else {
      AskedNothing(cfg, c, s, v, before, P.SeenLeases(answers), pair);
      assert P.SeenLeases(answers + [answer]) == P.SeenLeases(answers);
    }
  }

  lemma AskedMore(id: Identity, sizes: seq<nat>, answers: seq<P.Answer>, answer: P.Answer)
    requires |answers| < |sizes|
    ensures Asks(id, sizes, answers + [answer]) ==
      Asks(id, sizes, answers) +
      [Reserved(|answers|, id, if id.writing then Some(sizes[|answers|]) else None,
                if answer.Got? then Some(answer.lease) else None)]
  {
  }

  lemma StillSeen(s: Store, v: Store, answers: seq<P.Answer>, until: real)
    requires Moves(s, v, {}) && forall at :: P.Sees(answers, at) ==> Backed(s, at, until)
    ensures forall at :: P.Sees(answers, at) ==> Backed(v, at, until)
  {
    forall at | P.Sees(answers, at) ensures Backed(v, at, until) {
      BackedOn(s, v, {}, at, until);
    }
  }

  // Leases in hand may be given back.
  lemma HandEntries(cfg: Config, c: Coord, s: Store, before: set<RankLease>, hand: set<RankLease>, pair: Pair)
    requires InHand(cfg, c, s, before, hand, pair)
    ensures forall at :: at in hand ==> EntryOk(c, s, Release(at))
  {
    hide WindowsOk, OwnersOk;
    forall at | at in hand ensures EntryOk(c, s, Release(at)) {
      assert !Owned(c, at);
    }
  }

  lemma {:induction false} RollbacksAt(answers: seq<P.Answer>, from: nat, r: nat) returns (i: nat)
    requires from <= r < |answers| && answers[r].Got?
    ensures i < |P.Rollbacks(answers, from)| && P.Rollbacks(answers, from)[i] == Release(At(r, answers[r].lease))
    decreases |answers| - from
  {
    if from == r {
      i := 0;
    } else {
      i := RollbacksAt(answers, from + 1, r);
      if answers[from].Got? {
        i := i + 1;
      }
    }
  }

  lemma AllReturned(cfg: Config, c1: Coord, c2: Coord, s2: Store, c3: Coord, s3: Store, answers: seq<P.Answer>,
                    acks: seq<bool>, acked: bool)
    requires Made(cfg, c1, c2, s2, P.Rollbacks(answers, 0), acks, acked) && StaysDone(s2, s3)
    requires forall e :: e in c2.retry ==> e in c3.retry || Done(s3, e) || c3.lost
    requires c2.lost ==> c3.lost
    ensures forall at :: P.Sees(answers, at) && at in s3.held ==> Release(at) in c3.retry || c3.lost
    ensures |acks| == |P.Rollbacks(answers, 0)| && 0 < cfg.retryCap
    ensures (c2, acked) == Calls(cfg, c1, P.Rollbacks(answers, 0), acks)
  {
    hide Calls;
    CallsVerdict(cfg, c1, P.Rollbacks(answers, 0), acks);
    forall at | P.Sees(answers, at) && at in s3.held ensures Release(at) in c3.retry || c3.lost {
      var i := RollbacksAt(answers, 0, at.rank);
      if acks[i] {
        assert Done(s2, Release(at)) && Done(s3, Release(at));
      } else if !c2.lost {
        assert Release(at) in c2.retry;
        assert !Done(s3, Release(at));
      }
    }
  }

  // Credits were taken; nothing else changed.
  lemma CreditsTaken(cfg: Config, c: Coord, d: Coord, s: Store, before: set<RankLease>, id: Identity)
    requires InHand(cfg, c, s, before, {}, id.pair) && LogOk(c, s)
    requires d == c.(pending := c.pending + {id}, bytes := d.bytes)
    ensures InHand(cfg, d, s, before, {}, id.pair) && LogOk(d, s)
  {
    hide InHand, LogOk;
    SameHand(cfg, c, d, s, before, {}, id.pair);
    SameLog(c, d, s);
  }

  lemma Unseen(s: Store, v: Store)
    requires StaysDone(s, v)
    ensures v.unseen == s.unseen && v.granted == s.granted
  {
  }

  // The admission check and its effect, where no reservation is in progress.
  lemma AdmitIs(cfg: Config, c: Coord, id: Identity)
    ensures SameBut(c, c)
    ensures AdmitOk(cfg, c, id) <==>
      && !c.closed && id.pair !in c.invalid && id !in c.pending
      && |c.tickets| + |c.pending| < cfg.maxKeys && c.bytes + Charge(cfg, id) <= cfg.maxBytes
    ensures AdmitOk(cfg, c, id) ==>
      Admit(cfg, c, id) == c.(pending := c.pending + {id}, bytes := c.bytes + Charge(cfg, id))
  {
    hide Charge;
  }

  lemma NoStraysNew(s: Store)
    requires Sound(s)
    ensures forall at :: at in s.held ==> at in s.granted
  {
  }

  lemma AdmitCommit(cfg: Config, c: Coord, id: Identity, t: Ticket, until: real)
    requires AdmitOk(cfg, c, id) && c.pending == {} && t.Id() == id && t.sizes == Sizes(cfg, id)
    ensures Commit(Admit(cfg, c, id), t, until) == B.Step(cfg, c, B.Granted(t, until))
  {
    hide MaxOf, Sizes;
    assert {id} - {id} == {};
  }

  lemma KnownFits(cfg: Config, id: Identity)
    requires Known(cfg, id)
    ensures B.InGeometry(cfg, id) && Sizes(cfg, id) == cfg.sizeByGroup[GroupOf(id.pair.key)]
  {
  }

  // A reservation that every rank granted becomes a ticket.
  lemma Minted(cfg: Config, c0: Coord, s0: Store, c1: Coord, s1: Store, before: set<RankLease>, issued: set<Ticket>,
               id: Identity, t: Ticket, until: real, answers: seq<P.Answer>)
    requires cfg.Valid() && Sane(cfg, c0, s0, before, issued) && AdmitOk(cfg, c0, id) && c1 == Admit(cfg, c0, id)
    requires Known(cfg, id) && id !in c0.identities && forall k :: k in issued ==> k.token != t.token
    requires P.Complete(answers) && |answers| == cfg.ranks && t.leases == P.LeasesOf(answers)
    requires t.Id() == id && t.sizes == Sizes(cfg, id) && s0.granted <= s1.granted
    requires InHand(cfg, c1, s1, before, P.SeenLeases(answers), id.pair)
    requires forall at :: P.Sees(answers, at) ==> at !in s0.granted && Backed(s1, at, until + cfg.margin)
    ensures
      var d := Commit(c1, t, until);
      Sane(cfg, d, s1, before, issued + {t}) && d.pending == c1.pending - {id}
    ensures (forall at :: Owns(t, at) ==> at !in s0.granted) && t.token !in c0.retiring
  {
    hide LeasesOk, B.BooksOk, LogOk, InHand, Backed, Sizes, Known, P.SeenLeases, IssuedOk, B.Step, Commit, MaxOf;
    var d := Commit(c1, t, until);
    assert forall at :: Owns(t, at) <==> P.Sees(answers, at);
    SaneParts(cfg, c0, s0, before, issued);
    AdmitCommit(cfg, c0, id, t, until);
    KnownFits(cfg, id);
    TokenNew(c0, s0, issued, t);
    AdmitSame(cfg, c0, id);
    SameHand(cfg, c1, c0, s1, before, P.SeenLeases(answers), id.pair);
    InHandGrant(cfg, c0, s1, before, P.SeenLeases(answers), t, until);
    MintAllowed(cfg, c0, id, t, until);
    B.StepKeeps(cfg, c0, B.Granted(t, until));
    MintShape(cfg, c0, id, t, until);
    MintLog(c0, d, s0, s1, t);
    MintIssued(c0, d, s0, s1, issued, t);
  }

  lemma TokenNew(c: Coord, s: Store, issued: set<Ticket>, t: Ticket)
    requires IssuedOk(c, s, issued) && forall k :: k in issued ==> k.token != t.token
    requires forall x :: x in c.tickets ==> c.tickets[x].token == x
    ensures t.token !in c.tickets
  {
    assert forall x :: x in c.tickets ==> c.tickets[x] in issued && c.tickets[x].token == x;
  }

  lemma AdmitSame(cfg: Config, c: Coord, id: Identity)
    ensures
      var d := Admit(cfg, c, id);
      d.tickets == c.tickets && d.valid == c.valid && d.invalid == c.invalid
  {
    hide Charge, AdmitOk;
  }

  lemma MintAllowed(cfg: Config, c: Coord, id: Identity, t: Ticket, until: real)
    requires AdmitOk(cfg, c, id) && id !in c.identities && B.InGeometry(cfg, id) && t.Id() == id
    requires Sizes(cfg, id) == cfg.sizeByGroup[GroupOf(id.pair.key)] && t.sizes == Sizes(cfg, id)
    requires t.token !in c.tickets && |t.leases| == cfg.ranks
    ensures B.Allowed(cfg, c, B.Granted(t, until))
  {
    hide MaxOf, GroupOf, Sizes;
  }

  lemma MintShape(cfg: Config, c: Coord, id: Identity, t: Ticket, until: real)
    ensures
      var d := Commit(Admit(cfg, c, id), t, until);
      && d.tickets == c.tickets[t.token := t] && d.valid == c.valid[t.token := until]
      && d.retiring == c.retiring && d.invalid == c.invalid && d.retry == c.retry
      && d.pending == Admit(cfg, c, id).pending - {t.Id()}
  {
    hide AdmitOk, Charge;
  }

  lemma MintLog(c: Coord, d: Coord, s0: Store, s1: Store, t: Ticket)
    requires LogOk(c, s0) && s0.granted <= s1.granted && forall at :: Owns(t, at) ==> at !in s0.granted
    requires d.tickets == c.tickets[t.token := t] && d.retiring == c.retiring && d.invalid == c.invalid && d.retry == c.retry
    ensures LogOk(d, s1)
  {
    forall e | e in d.retry ensures EntryOk(d, s1, e) {
      assert EntryOk(c, s0, e);
    }
  }

  lemma MintIssued(c: Coord, d: Coord, s0: Store, s1: Store, issued: set<Ticket>, t: Ticket)
    requires IssuedOk(c, s0, issued) && s0.granted <= s1.granted && d.tickets == c.tickets[t.token := t]
    requires forall k :: k in issued ==> k.token != t.token
    requires forall at :: Owns(t, at) ==> at !in s0.granted && at in s1.granted
    ensures IssuedOk(d, s1, issued + {t})
  {
  }

  // A reservation that came to nothing leaves the books as they were, but for the log.
  lemma Refunded(cfg: Config, c0: Coord, s0: Store, c1: Coord, c2: Coord, s1: Store, s2: Store, c3: Coord,
                 before: set<RankLease>, issued: set<Ticket>, id: Identity, answers: seq<P.Answer>)
    requires Sane(cfg, c0, s0, before, issued) && AdmitOk(cfg, c0, id) && c1 == Admit(cfg, c0, id)
    requires SameBut(c1, c2) && StaysDone(s1, s2) && s0.granted <= s1.granted
    requires c3 == c2.(pending := c2.pending - {id}, bytes := c2.bytes - Charge(cfg, id))
    requires InHand(cfg, c2, s2, before, {}, id.pair) && LogOk(c2, s2)
    requires forall at :: P.Sees(answers, at) && at in s2.held ==> Release(at) in c2.retry || c2.lost
    requires forall at :: at in s1.granted && at !in s0.granted ==> P.Sees(answers, at) || at in s1.unseen
    requires s1.unseen <= s2.unseen
    ensures Abandon(cfg, c2, id) == c3 == ClearVeto(c3, id.pair) && SameBut(c0, c3)
    ensures Sane(cfg, c3, s2, before, issued)
    ensures forall at :: at in s2.held && at !in s0.granted ==> at in s2.unseen || Release(at) in c3.retry || c3.lost
  {
    hide LeasesOk, B.BooksOk, LogOk, InHand, Done, Charge, IssuedOk;
    SaneParts(cfg, c0, s0, before, issued);
    InHandSound(cfg, c2, s2, before, {}, id.pair);
    assert c0.pending + {id} - {id} == c0.pending;
    SameHand(cfg, c2, c3, s2, before, {}, id.pair);
    InHandGone(cfg, c3, s2, before, {}, id.pair);
    SameLog(c2, c3, s2);
    SameBooks(cfg, c0, c3);
    SameIssued(c0, c3, s0, s2, issued);
  }

  lemma SameIssued(c: Coord, d: Coord, s: Store, v: Store, issued: set<Ticket>)
    requires IssuedOk(c, s, issued) && d.tickets == c.tickets && s.granted <= v.granted
    ensures IssuedOk(d, v, issued)
  {
  }

  lemma LookupIs(c: Coord, id: Identity)
    ensures Lookup(c, id).Refused? <==> c.closed || id.pair in c.invalid || (id in c.identities && c.identities[id] in c.retiring)
    ensures Lookup(c, id).Existing? ==>
      id in c.identities && c.identities[id] in c.tickets && Lookup(c, id).ticket == c.tickets[c.identities[id]]
    ensures id in c.identities && c.identities[id] in c.tickets ==> !Lookup(c, id).Absent?
  {
  }

  lemma DeadlineIs(c: Coord, t: Ticket)
    requires !c.closed && t.token !in c.retiring && t.pair !in c.invalid
    requires t.token in c.tickets && c.tickets[t.token] == t && t.token in c.valid
    ensures Deadline(c, t) == Some(c.valid[t.token])
  {
  }

  lemma ObtainedIs(cfg: Config, c: Coord, id: Identity, t: Ticket, until: real)
    requires t.Id() == id && t.token !in c.retiring && AdmitOk(cfg, c, id)
    ensures
      var d := Commit(Admit(cfg, c, id), t, until);
      Deadline(d, t) == Some(until)
  {
    hide Charge;
  }

  lemma ChargeIs(cfg: Config, id: Identity)
    ensures Charge(cfg, id) == MaxOf(Sizes(cfg, id))
  {
  }

  // Taking credits closes nothing and vetoes nothing.
  lemma StaysOpen(cfg: Config, c: Coord, d: Coord, id: Identity)
    requires AdmitOk(cfg, c, id) && d == Admit(cfg, c, id)
    ensures !d.closed && id.pair !in d.invalid
  {
  }

  lemma SameBooksStay(c: Coord)
    ensures SameBut(c.(valid := c.valid), c)
  {
  }

  lemma RenewInside(cfg: Config, c: Coord, t: Ticket, rn: Renewal)
    requires 0 < cfg.retryCap && cfg.drainLimit <= |rn.again| && |rn.replies| <= |t.leases|
    requires t.token in c.valid && rn.first < c.valid[t.token]
    ensures Renews(cfg, c, t, rn) && RenewBooks(cfg, c, t, rn) == c && RenewCalls(cfg, c, t, rn) == [Clock(rn.first)]
  {
    hide Replays, Drain, Renewals;
  }

  lemma RenewOutside(cfg: Config, c: Coord, t: Ticket, rn: Renewal, d: Coord)
    requires 0 < cfg.retryCap && cfg.drainLimit <= |rn.again| && |rn.replies| <= |t.leases|
    requires t.token in c.valid && !(rn.first < c.valid[t.token])
    requires
      var until := rn.start + cfg.ttl - cfg.margin;
      d == if (forall r :: 0 <= r < |rn.replies| ==> rn.replies[r].Yes?) && rn.checked < until
           then c.(valid := c.valid[t.token := until]) else c
    ensures Renews(cfg, c, t, rn) <==>
      (forall r :: 0 <= r < |rn.replies| ==> rn.replies[r].Yes?) && rn.checked < rn.start + cfg.ttl - cfg.margin
    ensures RenewBooks(cfg, c, t, rn) == Drain(cfg, d, Budget(cfg, d), rn.again).0
    ensures d.retry == c.retry && Budget(cfg, d) == Budget(cfg, c)
    ensures RenewCalls(cfg, c, t, rn) ==
      [Clock(rn.first), Clock(rn.start)] + Renewals(t.leases, rn.replies) + [Clock(rn.checked)]
      + Replays(d.retry, Budget(cfg, d), rn.again)
  {
    hide Replays, Drain, Renewals;
  }

  // An indexed identity has its ticket.
  lemma IdentityIs(cfg: Config, c: Coord, s: Store, before: set<RankLease>, issued: set<Ticket>, id: Identity)
    requires Sane(cfg, c, s, before, issued) && id in c.identities
    ensures c.identities[id] in c.tickets && c.tickets[c.identities[id]].Id() == id
    ensures c.tickets[c.identities[id]] in issued && c.tickets[c.identities[id]].token == c.identities[id]
  {
    hide LeasesOk, LogOk;
  }

  lemma StillDone(s: Store, v: Store)
    requires Moves(s, v, {}) && v.granted == s.granted && v.unseen == s.unseen
    ensures StaysDone(s, v)
  {
    hide Moves, Done;
    forall e | Done(s, e) ensures Done(v, e) {
      DoneStays(s, v, {}, e);
    }
  }

  lemma WritersStay(s: Store, v: Store, rank: nat, p: Pair)
    requires StaysDone(s, v) && Writers(s, rank, p) == {}
    ensures Writers(v, rank, p) == {}
  {
    hide Writers;
    assert Done(s, Invalidate(rank, p)) && Done(v, Invalidate(rank, p));
  }

  // An invalidation leaves its veto standing, unless nothing of the pair is left.
  lemma NoLooks(pair: Pair)
    ensures Looks(pair, []) == []
  {
  }

  lemma VetoLasts(cfg: Config, c: Coord, p: Pair, due: bool, acks: seq<bool>, again: seq<bool>)
    requires 0 < cfg.retryCap && |acks| == |P.Invalidations(cfg.ranks, p, 0)| && cfg.drainLimit <= |again|
    ensures
      var d := VetoBooks(cfg, c, p, due, acks, again).0;
      due && P.InvalidateWellFormed(p) && RaiseOk(cfg, c, p) ==>
        p in d.invalid || forall t :: t in d.tickets ==> d.tickets[t].pair != p
  {
    CleanupShape(cfg, Raise(cfg, c, p), P.Invalidations(cfg.ranks, p, 0), acks, again);
    hide Cleanup, P.Invalidations;
  }

  lemma DropOnly(cfg: Config, c: Coord, t: Ticket, drop: bool, acks: seq<bool>, again: seq<bool>)
    requires 0 < cfg.retryCap && |acks| == |P.Releases(t.leases, 0)| && cfg.drainLimit <= |again|
    ensures
      var d := ReleaseBooks(cfg, c, t, drop, acks, again).0;
      && (forall x :: x in d.tickets ==> x in c.tickets && d.tickets[x] == c.tickets[x])
      && (t.token in d.tickets && t.pair in c.invalid && d.tickets[t.token].pair == t.pair ==> t.pair in d.invalid)
  {
    CleanupShape(cfg, Retire(c, t.token), P.Releases(t.leases, 0), acks, again);
    hide Cleanup, P.Releases;
    var e := Cleanup(cfg, Retire(c, t.token), P.Releases(t.leases, 0), acks, again).0;
    DropLifts(e, t.token);
  }

  lemma DropLifts(c: Coord, t: Token)
    ensures
      var d := Drop(c, t);
      && (forall x :: x in d.tickets ==> x in c.tickets && d.tickets[x] == c.tickets[x])
      && (forall x, p :: x in d.tickets && d.tickets[x].pair == p && p in c.invalid ==> p in d.invalid)
  {
    hide MaxOf;
  }

  lemma CleanupShape(cfg: Config, c: Coord, work: seq<Entry>, acks: seq<bool>, again: seq<bool>)
    requires 0 < cfg.retryCap && |acks| == |work| && cfg.drainLimit <= |again|
    ensures SameBut(c, Cleanup(cfg, c, work, acks, again).0)
  {
    hide Calls, Drain;
    CallsVerdict(cfg, c, work, acks);
    var d := Calls(cfg, c, work, acks).0;
    DrainShape(cfg, d, Budget(cfg, d), again);
  }

  lemma StaysHere(s: Store)
    ensures StaysDone(s, s)
  {
  }

  // ---- lemmas of the invalidations ---------------------------------------------------------------------

  // Too many vetoes: the coordinator is shut.
  lemma Shut(cfg: Config, c: Coord, s: Store, before: set<RankLease>, issued: set<Ticket>)
    requires Sane(cfg, c, s, before, issued)
    ensures Sane(cfg, c.(closed := true), s, before, issued)
  {
    var d := c.(closed := true);
    hide LeasesOk, B.BooksOk, LogOk;
    SameBooks(cfg, c, d);
    SaneParts(cfg, c, s, before, issued);
    SameHand(cfg, c, d, s, before, {}, Pair([], []));
    InHandGone(cfg, d, s, before, {}, Pair([], []));
    SameLog(c, d, s);
  }

  lemma SameLog(c: Coord, d: Coord, s: Store)
    requires LogOk(c, s) && d.retry == c.retry && d.tickets == c.tickets && d.retiring == c.retiring && c.invalid <= d.invalid
    ensures LogOk(d, s)
  {
    forall e | e in d.retry ensures EntryOk(d, s, e) {
      assert EntryOk(c, s, e);
    }
  }

  lemma RaisedVeto(cfg: Config, c: Coord, s: Store, before: set<RankLease>, issued: set<Ticket>, p: Pair)
    requires Sane(cfg, c, s, before, issued) && RaiseOk(cfg, c, p)
    ensures Sane(cfg, c.(invalid := c.invalid + {p}), s, before, issued)
    ensures c.(invalid := c.invalid + {p}) == Raise(cfg, c, p)
  {
    var d := c.(invalid := c.invalid + {p});
    hide LeasesOk, B.BooksOk, LogOk, Less;
    B.RaiseKeeps(cfg, c, p);
    LessStep(cfg, c, B.Quarantined(p, false));
    LeasesLess(cfg, c, d, s, before);
    SameLog(c, d, s);
  }

  lemma Acknowledged(cfg: Config, c: Coord, s: Store, before: set<RankLease>, issued: set<Ticket>, p: Pair)
    requires Sane(cfg, c, s, before, issued) && p in c.invalid && c.retry == []
    ensures
      var d := Acknowledge(c, p);
      Sane(cfg, d, s, before, issued) && d.retry == [] && d.lost == c.lost && d == ClearVeto(c.(acked := c.acked + {p}), p)
  {
    hide LeasesOk, B.BooksOk;
    B.RaiseKeeps(cfg, c, p);
    assert Raise(cfg, c, p) == c by { assert c.invalid + {p} == c.invalid; }
    AckLeases(cfg, c, s, before, p);
  }

  lemma NoneBanished(cfg: Config, c: Coord, s: Store, p: Pair)
    requires 0 < cfg.retryCap
    ensures Made(cfg, c, c, s, P.Invalidations(0, p, 0), [], true)
  {
  }

  lemma Vetoed(c: Coord, s: Store, rank: nat, p: Pair)
    ensures p in c.invalid ==> EntryOk(c, s, Invalidate(rank, p))
  {
  }

  lemma {:induction false} InvalidationsAt(ranks: nat, p: Pair, from: nat, r: nat)
    requires from <= r < ranks
    ensures
      var work := P.Invalidations(ranks, p, from);
      r - from < |work| && work[r - from] == Invalidate(r, p)
    decreases ranks - from
  {
    if from < r {
      InvalidationsAt(ranks, p, from + 1, r);
    }
  }

  lemma AllBanished(cfg: Config, c1: Coord, c2: Coord, s2: Store, c3: Coord, s3: Store, p: Pair, acks: seq<bool>, direct: bool)
    requires Made(cfg, c1, c2, s2, P.Invalidations(cfg.ranks, p, 0), acks, direct) && StaysDone(s2, s3)
    requires forall e :: e in c2.retry ==> e in c3.retry || Done(s3, e) || c3.lost
    requires c2.lost ==> c3.lost
    ensures forall r: nat :: r < cfg.ranks ==> Writers(s3, r, p) == {} || Invalidate(r, p) in c3.retry || c3.lost
    ensures |acks| == |P.Invalidations(cfg.ranks, p, 0)| && 0 < cfg.retryCap
    ensures (c2, direct) == Calls(cfg, c1, P.Invalidations(cfg.ranks, p, 0), acks)
  {
    hide Calls, Writers;
    CallsVerdict(cfg, c1, P.Invalidations(cfg.ranks, p, 0), acks);
    forall r: nat | r < cfg.ranks ensures Writers(s3, r, p) == {} || Invalidate(r, p) in c3.retry || c3.lost {
      InvalidationsAt(cfg.ranks, p, 0, r);
      if acks[r] {
        assert Done(s2, Invalidate(r, p)) && Done(s3, Invalidate(r, p));
      } else if !c2.lost && !c3.lost && Invalidate(r, p) !in c3.retry {
        assert Invalidate(r, p) in c2.retry && Done(s3, Invalidate(r, p));
      }
    }
  }

  // ---- lemmas of the renewals ----------------------------------------------------------------------------

  // Time passed, or a rank was asked something harmless.
  lemma Waited(cfg: Config, c: Coord, s: Store, v: Store, before: set<RankLease>, issued: set<Ticket>)
    requires Sane(cfg, c, s, before, issued) && Moves(s, v, {}) && v.granted == s.granted
    ensures Sane(cfg, c, v, before, issued) && s.now <= v.now
  {
    hide LeasesOk, B.BooksOk, LogOk;
    Quiet(cfg, c, s, v, before);
    LogLater(c, s, v);
  }

  lemma LogLater(c: Coord, s: Store, v: Store)
    requires LogOk(c, s) && s.granted <= v.granted
    ensures LogOk(c, v)
  {
    forall e | e in c.retry ensures EntryOk(c, v, e) {
      assert EntryOk(c, s, e);
    }
  }

  lemma SaneSound(cfg: Config, c: Coord, s: Store, before: set<RankLease>, issued: set<Ticket>)
    requires Sane(cfg, c, s, before, issued)
    ensures Sound(s)
  {
  }

  lemma BackedLess(s: Store, at: RankLease, longer: real, until: real)
    requires Backed(s, at, longer) && until <= longer
    ensures Backed(s, at, until)
  {
  }

  lemma Extended(cfg: Config, c: Coord, s: Store, before: set<RankLease>, issued: set<Ticket>, t: Ticket, until: real)
    requires Sane(cfg, c, s, before, issued) && RenewOk(c, t) && cfg.Valid()
    requires forall r :: 0 <= r < cfg.ranks ==> Backed(s, At(r, t.leases[r]), until + cfg.margin)
    requires |t.leases| == cfg.ranks
    ensures Sane(cfg, c.(valid := c.valid[t.token := until]), s, before, issued)
  {
    hide LeasesOk, B.BooksOk, LogOk, Backed;
    B.WindowKeeps(cfg, c, t.token, until);
    LeasesExtend(cfg, c, s, before, t.token, until);
    SameLog(c, c.(valid := c.valid[t.token := until]), s);
  }

  lemma RetiredLogOf(c: Coord, t: Token)
    ensures Retire(c, t).retry == c.retry && Retire(c, t).lost == c.lost
  {
  }

  lemma Granted(s: Store, v: Store)
    requires StaysDone(s, v)
    ensures v.granted == s.granted
  {
  }

  lemma RetiredBooks(c: Coord, d: Coord, t: Token)
    requires d == if t in c.tickets then c.(retiring := c.retiring + {t}, valid := c.valid - {t}) else c
    ensures d == Retire(c, t)
  {
  }

  lemma ActualIs(cfg: Config, c: Coord, s: Store, before: set<RankLease>, issued: set<Ticket>, t: Ticket)
    requires Sane(cfg, c, s, before, issued) && t in issued
    ensures t.token in c.tickets ==> c.tickets[t.token] == t
  {
    SaneParts(cfg, c, s, before, issued);
  }

  lemma SameTwice(c: Coord, d: Coord, e: Coord)
    requires SameBut(c, d) && SameBut(d, e)
    ensures SameBut(c, e)
  {
  }

  // A ticket whose validity was withdrawn: its leases may be called back.
  lemma Retired(cfg: Config, c: Coord, s: Store, before: set<RankLease>, issued: set<Ticket>, t: Ticket)
    requires Sane(cfg, c, s, before, issued) && t in issued
    ensures
      var d := Retire(c, t.token);
      && Sane(cfg, d, s, before, issued) && LogOk(d, s) && InHand(cfg, d, s, before, {}, t.pair)
      && d.valid.Keys <= d.tickets.Keys - d.retiring && (t.token in d.tickets ==> t.token in d.retiring)
      && forall r :: 0 <= r < |t.leases| ==> EntryOk(d, s, Release(At(r, t.leases[r])))
  {
    var d := Retire(c, t.token);
    assert Sane(cfg, d, s, before, issued) by {
      hide LeasesOk, B.BooksOk, LogOk, IssuedOk;
      B.RetireKeeps(cfg, c, t.token);
      RetireLeases(cfg, c, s, before, t.token);
      RetiredLog(c, s, t.token);
      RetiredIssued(c, s, issued, t.token);
      hide Retire;
      RetiredWindows(c, t.token);
    }
    assert t.token in d.tickets ==> t.token in d.retiring;
    hide Sane, InHand, EntryOk, LogOk, Retire;
    SaneParts(cfg, d, s, before, issued);
    forall r | 0 <= r < |t.leases| ensures EntryOk(d, s, Release(At(r, t.leases[r]))) {
      ReleaseEntry(cfg, d, s, before, issued, t, At(r, t.leases[r]));
    }
  }

  lemma RetiredWindows(c: Coord, t: Token)
    requires c.tickets.Keys - c.retiring <= c.valid.Keys
    ensures Retire(c, t).tickets.Keys - Retire(c, t).retiring <= Retire(c, t).valid.Keys
  {
  }

  lemma RetiredIssued(c: Coord, s: Store, issued: set<Ticket>, t: Token)
    requires IssuedOk(c, s, issued)
    ensures IssuedOk(Retire(c, t), s, issued)
  {
  }

  lemma RetiredLog(c: Coord, s: Store, t: Token)
    requires LogOk(c, s)
    ensures LogOk(Retire(c, t), s)
  {
    forall e | e in Retire(c, t).retry ensures EntryOk(Retire(c, t), s, e) {
      assert EntryOk(c, s, e);
    }
  }

  // What the calls of a release and the pass over the log come to at the ranks.
  lemma AllDone(cfg: Config, c1: Coord, c2: Coord, s2: Store, c3: Coord, s3: Store, t: Ticket, acks: seq<bool>, direct: bool)
    requires Made(cfg, c1, c2, s2, P.Releases(t.leases, 0), acks, direct) && StaysDone(s2, s3)
    requires forall e :: e in c2.retry ==> e in c3.retry || Done(s3, e) || c3.lost
    requires c2.lost ==> c3.lost
    ensures forall at :: Owns(t, at) && at in s3.held ==> Release(at) in c3.retry || c3.lost
    ensures forall e :: e in c1.retry ==> e in c3.retry || Done(s3, e) || c3.lost
    ensures c1.lost ==> c3.lost
    ensures |acks| == |P.Releases(t.leases, 0)| && 0 < cfg.retryCap
    ensures (c2, direct) == Calls(cfg, c1, P.Releases(t.leases, 0), acks)
  {
    hide Calls;
    CallsVerdict(cfg, c1, P.Releases(t.leases, 0), acks);
    forall at | Owns(t, at) && at in s3.held ensures Release(at) in c3.retry || c3.lost {
      ReleasesAt(t.leases, 0, at.rank);
      var i := at.rank;
      if acks[i] {
        assert Done(s2, Release(at)) && Done(s3, Release(at));
      } else if !c2.lost {
        assert Release(at) in c2.retry;
        assert !Done(s3, Release(at));
      }
    }
  }

  lemma {:induction false} ReleasesAt(leases: seq<Lease>, from: nat, r: nat)
    requires from <= r < |leases|
    ensures
      var work := P.Releases(leases, from);
      r - from < |work| && work[r - from] == Release(At(r, leases[r]))
    decreases |leases| - from
  {
    if from < r {
      ReleasesAt(leases, from + 1, r);
    }
  }

  // After the calls only the log differs.
  lemma Released(cfg: Config, c1: Coord, c3: Coord, s0: Store, s3: Store, before: set<RankLease>, issued: set<Ticket>,
                 pair: Pair)
    requires Sane(cfg, c1, s0, before, issued) && SameBut(c1, c3) && InHand(cfg, c3, s3, before, {}, pair)
    requires LogOk(c3, s3) && StaysDone(s0, s3)
    ensures Sane(cfg, c3, s3, before, issued)
  {
    hide InHand, LeasesOk, B.BooksOk, LogOk, Done;
    SameBooks(cfg, c1, c3);
    InHandGone(cfg, c3, s3, before, {}, pair);
    assert IssuedOk(c3, s3, issued);
  }

  lemma Dropped(cfg: Config, c: Coord, s: Store, before: set<RankLease>, issued: set<Ticket>, t: Ticket)
    requires Sane(cfg, c, s, before, issued) && c.retry == []
    requires t in issued && (t.token in c.tickets ==> t.token in c.retiring && c.tickets[t.token] == t)
    requires forall at :: Owns(t, at) ==> at !in s.held
    ensures
      var d := Drop(c, t.token);
      Sane(cfg, d, s, before, issued) && d.retry == [] && d.lost == c.lost && t.token !in d.tickets
  {
    hide B.BooksOk, LeasesOk, Drop;
    B.DropKeeps(cfg, c, t.token);
    DropLog(c, t.token);
    if t.token in c.tickets {
      DropLeases(cfg, c, s, before, t.token);
    }
  }

  lemma DropLog(c: Coord, t: Token)
    ensures
      var d := Drop(c, t);
      && d.retry == c.retry && d.lost == c.lost && d.tickets == c.tickets - {t} && (t !in c.tickets ==> d == c)
      && d.valid == c.valid && (t in c.tickets ==> d.retiring == c.retiring - {t})
  {
    hide MaxOf, Drained;
    if t !in c.tickets {
      assert c.tickets - {t} == c.tickets;
    }
  }

  lemma LogLess(c: Coord, d: Coord, s: Store, e: Entry)
    requires LogOk(c, s) && c.retry == [e] + d.retry && d == c.(retry := d.retry)
    ensures LogOk(d, s) && EntryOk(d, s, e)
  {
    assert e in c.retry;
    forall x | x in d.retry || x == e ensures EntryOk(d, s, x) {
      assert x in c.retry;
      SameEntry(c, d, s, s, x);
    }
  }

  lemma LogMore(c: Coord, d: Coord, s: Store, e: Entry)
    requires SameBut(c, d) && LogOk(c, s) && EntryOk(c, s, e) && forall x :: x in d.retry ==> x == e || x in c.retry
    ensures LogOk(d, s)
  {
    forall x | x in d.retry ensures EntryOk(d, s, x) {
      SameEntry(c, d, s, s, x);
    }
  }

  lemma NothingMade(cfg: Config, c: Coord, s: Store, answers: seq<P.Answer>)
    requires 0 < cfg.retryCap
    ensures Made(cfg, c, c, s, P.Rollbacks(answers[..0], 0), [], true)
  {
  }

  lemma ReleasedOrRefused(s: Store, answers: seq<P.Answer>)
    requires forall r :: 0 <= r < |answers| && answers[r].Got? ==>
      Done(s, Release(At(r, answers[r].lease))) || At(r, answers[r].lease) in s.refused
    ensures forall r :: 0 <= r < |answers| && answers[r].Got? ==>
      At(r, answers[r].lease) !in s.held || At(r, answers[r].lease) in s.refused
  {
  }

  // Draining from the start with these acknowledgements first comes to where the log is now.
  ghost predicate ComesTo(cfg: Config, c0: Coord, limit: nat, acks: seq<bool>, c: Coord, made: seq<Call>) {
    && 0 < cfg.retryCap && |acks| <= limit
    && forall f: seq<bool> :: |f| >= limit - |acks| ==>
         && Drain(cfg, c0, limit, acks + f) == Drain(cfg, c, limit - |acks|, f)
         && Replays(c0.retry, limit, acks + f) == made + Replays(c.retry, limit - |acks|, f)
  }

  // Every call that was logged is still logged, or was carried out, unless a receipt was lost.
  ghost predicate Followed(log: seq<Entry>, c: Coord, s: Store) {
    forall e :: e in log ==> e in c.retry || Done(s, e) || c.lost
  }

  lemma FollowedStart(c: Coord, s: Store)
    ensures Followed(c.retry, c, s) && StaysDone(s, s)
  {
  }

  lemma FollowedIs(log: seq<Entry>, c: Coord, s: Store)
    requires Followed(log, c, s)
    ensures forall e :: e in log ==> e in c.retry || Done(s, e) || c.lost
  {
  }

  lemma FollowedOn(log: seq<Entry>, c: Coord, s: Store, d: Coord, v: Store)
    requires Followed(log, c, s) && StaysDone(s, v) && Followed(c.retry, d, v) && (c.lost ==> d.lost)
    ensures Followed(log, d, v)
  {
    hide Done;
  }

  lemma StartsThere(cfg: Config, c: Coord, limit: nat)
    requires 0 < cfg.retryCap
    ensures ComesTo(cfg, c, limit, [], c, [])
  {
    hide Drain, Replays;
    assert forall f: seq<bool> :: [] + f == f;
    assert forall m: seq<Call> :: [] + m == m;
  }

  lemma ComesToNext(cfg: Config, c0: Coord, limit: nat, acks: seq<bool>, c: Coord, made: seq<Call>)
    requires ComesTo(cfg, c0, limit, acks, c, made) && |acks| < limit && c.retry != []
    ensures ComesTo(cfg, c0, limit, acks + [true], c.(retry := c.retry[1..]), made + [Cleaned(c.retry[0], true)])
  {
    var more := made + [Cleaned(c.retry[0], true)];
    forall f: seq<bool> | |f| >= limit - |acks + [true]|
      ensures Drain(cfg, c0, limit, acks + [true] + f) ==
              Drain(cfg, c.(retry := c.retry[1..]), limit - |acks + [true]|, f)
      ensures Replays(c0.retry, limit, acks + [true] + f) == more + Replays(c.retry[1..], limit - |acks + [true]|, f)
    {
      assert acks + [true] + f == acks + ([true] + f);
      assert ([true] + f)[1..] == f;
      assert made + ([Cleaned(c.retry[0], true)] + Replays(c.retry[1..], limit - |acks + [true]|, f)) ==
             more + Replays(c.retry[1..], limit - |acks + [true]|, f);
    }
  }

  function Padded(acks: seq<bool>, n: nat): (again: seq<bool>)
    ensures |again| == if |acks| < n then n else |acks|
    ensures again == acks + again[|acks|..] && forall i :: |acks| <= i < |again| ==> !again[i]
  {
    acks + seq(if |acks| < n then n - |acks| else 0, _ => false)
  }

  lemma ComesToEmpty(cfg: Config, c0: Coord, limit: nat, acks: seq<bool>, c: Coord, made: seq<Call>, again: seq<bool>)
    requires ComesTo(cfg, c0, limit, acks, c, made) && c.retry == [] && |acks| < limit <= |again|
    requires again == acks + again[|acks|..]
    ensures Drain(cfg, c0, limit, again) == (c, !c.lost) && Replays(c0.retry, limit, again) == made
  {
    assert Drain(cfg, c0, limit, acks + again[|acks|..]) == Drain(cfg, c, limit - |acks|, again[|acks|..]);
  }

  lemma ComesToRefusal(cfg: Config, c0: Coord, limit: nat, acks: seq<bool>, c: Coord, made: seq<Call>, again: seq<bool>)
    requires ComesTo(cfg, c0, limit, acks, c, made) && c.retry != [] && |acks| < limit <= |again|
    requires again == acks + again[|acks|..] && !again[|acks|]
    ensures Drain(cfg, c0, limit, again) == (Replay(cfg, c.(retry := c.retry[1..]), c.retry[0]), false)
    ensures Replays(c0.retry, limit, again) == made + [Cleaned(c.retry[0], false)]
  {
    hide Replay, Drain, Replays;
    assert Drain(cfg, c0, limit, acks + again[|acks|..]) == Drain(cfg, c, limit - |acks|, again[|acks|..]);
    RefusedAtOnce(cfg, c, limit - |acks|, again[|acks|..]);
  }

  lemma RefusedAtOnce(cfg: Config, c: Coord, budget: nat, acks: seq<bool>)
    requires 0 < cfg.retryCap && c.retry != [] && 0 < budget <= |acks| && !acks[0]
    ensures Drain(cfg, c, budget, acks) == (Replay(cfg, c.(retry := c.retry[1..]), c.retry[0]), false)
    ensures Replays(c.retry, budget, acks) == [Cleaned(c.retry[0], false)]
  {
    hide Replay;
  }

  lemma ComesToEnd(cfg: Config, c0: Coord, limit: nat, acks: seq<bool>, c: Coord, made: seq<Call>, again: seq<bool>)
    requires ComesTo(cfg, c0, limit, acks, c, made) && |acks| == limit <= |again| && again == acks + again[|acks|..]
    ensures Drain(cfg, c0, limit, again) == (c, c.retry == [] && !c.lost) && Replays(c0.retry, limit, again) == made
  {
    assert Drain(cfg, c0, limit, acks + again[|acks|..]) == Drain(cfg, c, limit - |acks|, again[|acks|..]);
  }

  lemma HandOwners(cfg: Config, c: Coord, s: Store, before: set<RankLease>, hand: set<RankLease>, pair: Pair)
    requires InHand(cfg, c, s, before, hand, pair)
    ensures OwnersOk(c, s)
  {
  }

  lemma NoneNew(s: Store, v: Store, spent: set<RankLease>)
    requires Moves(s, v, spent) && v.granted == s.granted
    ensures forall at :: at in v.held ==> at in s.held
    ensures s.refused <= v.refused
  {
  }
}
