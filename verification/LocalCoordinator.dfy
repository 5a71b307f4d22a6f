/** The in-process coordinator as an object over its stores: credits, leases, windows and vetoes. */
module LocalCoordinator {
  import opened Basics
  import opened Coordination
  import opened LocalStores
  import opened LocalBooks
  import opened StoreLeases

  datatype Outcome = Holds(ticket: Ticket) | Nothing | Failed

  // ---- what the stores are asked ---------------------------------------------------------------------

  // Stores are asked in order, up to the first that says anything but yes.
  ghost predicate InTurn(n: nat, yes: seq<bool>) {
    && |yes| <= n && (forall r :: 0 <= r < |yes| - 1 ==> yes[r])
    && (|yes| == n || (yes != [] && !yes[|yes| - 1]))
  }

  function IsYes(replies: seq<Reply>): (yes: seq<bool>)
    ensures |yes| == |replies| && forall r :: 0 <= r < |yes| ==> yes[r] == replies[r].Yes?
  {
    Map(replies, (reply: Reply) => reply.Yes?)
  }

  // What a renewal meets: the clock before the first call, the replies, and the clock after the last.
  datatype Renewal = Renewal(start: real, replies: seq<Reply>, checked: real)
  {
    ghost predicate Whole(n: nat) { |replies| == n && forall r :: 0 <= r < n ==> replies[r].Yes? }
  }

  ghost function RenewalCalls(n: nat, t: Ticket, rn: Renewal): seq<Call>
    requires |rn.replies| <= |t.leases|
  {
    [Clock(rn.start)] + Renewals(t.leases, rn.replies) + if rn.Whole(n) then [Clock(rn.checked)] else []
  }

  // What a reservation meets: the clock before the first call, the leases that were granted, the clock
  // after the last, and the acknowledgements of what is given back if it comes to nothing.
  datatype Attempt = Attempt(start: real, leases: seq<Lease>, now: real, acks: seq<bool>)

  // The calls up to the decision; the store after the last that granted refused.
  function Asks(n: nat, id: Identity, sizes: seq<nat>, start: real, leases: seq<Lease>, now: real): seq<Call>
    requires |leases| <= n == |sizes|
  {
    [Clock(start)] + Grants(id, sizes, leases) +
    if |leases| == n then [Clock(now)] else [Reserved(|leases|, id, SizeFor(id, sizes, |leases|), None)]
  }

  class LocalCoordinator {
    const cfg: Config
    const ranks: Ranks
    ghost const before: set<RankLease>   // granted to others before this coordinator was made
    var tickets: map<Token, Ticket>
    var identities: map<Identity, Token>
    var valid: map<Token, real>
    var retiring: set<Token>
    var invalid: set<Pair>
    var invalidateAcked: set<Pair>
    var bytes: int
    var closed: bool

    function Books(): Coord
      reads this
    {
      Coord(tickets, identities, valid, {}, retiring, invalid, invalidateAcked, bytes, [], false, closed)
    }

    // What the constructor establishes for good.
    ghost predicate Made() {
      && 0 < cfg.ranks == |ranks.seconds|
      && (forall g :: 0 <= g < |cfg.sizeByGroup| ==> |cfg.sizeByGroup[g]| == cfg.ranks)
      && (cfg.ttl - cfg.margin > 0.0 ==> 0.0 < cfg.margin)
      && forall r :: 0 <= r < cfg.ranks ==> cfg.ttl <= ranks.seconds[r]
    }

    ghost predicate Valid()
      reads this, ranks
    {
      Made() && BooksOk(cfg, Books()) && LeasesOk(cfg, Books(), ranks.s, before)
    }

    constructor (ranks: Ranks, sizeByGroup: seq<seq<nat>>, maxKeys: nat, maxBytes: nat)
      requires ranks.seconds != [] && Sound(ranks.s)
      requires forall g :: 0 <= g < |sizeByGroup| ==> |sizeByGroup[g]| == |ranks.seconds|
      ensures Valid() && this.ranks == ranks && Books() == Empty() && before == ranks.s.granted
      ensures cfg.sizeByGroup == sizeByGroup && cfg.maxKeys == maxKeys && cfg.maxBytes == maxBytes
      ensures cfg.ttl == MinOf(ranks.seconds) && cfg.margin == Margin(cfg.ttl)
    {
      var ttl := MinOf(ranks.seconds);
      cfg := Config(|ranks.seconds|, sizeByGroup, maxKeys, maxBytes, ttl, Margin(ttl), 1, 0);
      this.ranks, before := ranks, ranks.s.granted;
      tickets, identities, valid, retiring := map[], map[], map[], {};
      invalid, invalidateAcked, bytes, closed := {}, {}, 0, false;
      new;
      EmptyOk(cfg);
    }

    // `_clear_veto_if_drained`
    method ClearVetoIfDrained(pair: Pair)
      modifies this
      ensures Books() == ClearVeto(old(Books()), pair)
    {
      if pair !in invalidateAcked {
        return;
      }
      var tokens := tickets.Keys;
      while tokens != {}
        invariant tokens <= tickets.Keys && Books() == old(Books())
        invariant forall t :: t in tickets && t !in tokens ==> tickets[t].pair != pair
        decreases tokens
      {
        var t :| t in tokens;
        if tickets[t].pair == pair {
          return;
        }
        tokens := tokens - {t};
      }
      invalid := invalid - {pair};
      invalidateAcked := invalidateAcked - {pair};
    }

    // The end of a release every store acknowledged.
    method DropTicket(actual: Ticket)
      requires actual.token in tickets && tickets[actual.token] == actual
      modifies this
      ensures Books() == Drop(old(Books()), actual.token)
    {
      tickets := tickets - {actual.token};
      identities := identities - {actual.Id()};
      retiring := retiring - {actual.token};
      bytes := bytes - MaxOf(actual.sizes);
      assert ClearVeto(Books(), actual.pair) == Drop(old(Books()), actual.token);
      ClearVetoIfDrained(actual.pair);
    }

    method Release(t: Ticket, drop: bool) returns (ok: bool, ghost acks: seq<bool>)
      requires Valid()
      modifies this, ranks
      ensures t.token !in old(tickets) ==> acks == [] && ranks.calls == old(ranks.calls)
      ensures t.token in old(tickets) ==>
        && |acks| == |old(tickets)[t.token].leases| && (ok <==> forall r :: 0 <= r < |acks| ==> acks[r])
        && ranks.calls == old(ranks.calls) + Recalls(old(tickets)[t.token].leases, acks)
      ensures Valid() && Books() == Step(cfg, old(Books()), Released(t.token, ok, drop))
      ensures t.token !in old(tickets) ==> ok && ranks.s == old(ranks.s)
      ensures ok && drop ==> t.token !in tickets
      ensures Lasting(old(Books()), old(ranks.s), Books(), ranks.s)
      ensures ok && t.token in old(tickets) ==>
        forall at :: Owns(old(tickets)[t.token], at) ==> at !in ranks.s.held
    {
      hide BooksOk, LeasesOk, Moves, Drop, MaxOf;
      hide Lasting;
      ghost var c0, s0 := Books(), ranks.s;
      LastingBooks(c0, c0, s0);
      if t.token !in tickets {
        NothingOut(cfg, c0, t.token, drop);
        return true, [];
      }
      LastingStep(cfg, c0, Released(t.token, false, false), s0);
      TicketAt(cfg, c0, t.token);
      RetireLeases(cfg, c0, ranks.s, before, t.token);
      var actual := tickets[t.token];
      retiring := retiring + {t.token};
      valid := valid - {t.token};
      ghost var c := Books();
      ok, acks := true, [];
      OneMoreCall(t.pair, actual.leases, acks, ok);
      for rank := 0 to |actual.leases|
        invariant |acks| == rank && (ok <==> forall r :: 0 <= r < rank ==> acks[r])
        invariant ranks.calls == old(ranks.calls) + Recalls(actual.leases, acks)
        invariant Books() == c && LeasesOk(cfg, c, ranks.s, before) && Lasting(c0, s0, c, ranks.s)
        invariant ok ==> forall r :: 0 <= r < rank ==> At(r, actual.leases[r]) !in ranks.s.held
      {
        ghost var s := ranks.s;
        IsSound(cfg, c, s, before);
        var reply := ranks.Release(rank, actual.leases[rank]);
        Releasing(cfg, c, s, ranks.s, before, t.token, At(rank, actual.leases[rank]));
        NotRelied(cfg, c, s, before, t.token, At(rank, actual.leases[rank]));
        LastingStores(c, s, ranks.s, {At(rank, actual.leases[rank])});
        LastingTwice(c0, s0, c, s, c, ranks.s);
        OneMoreCall(t.pair, actual.leases, acks, reply.Yes?);
        acks := acks + [reply.Yes?];
        if !reply.Yes? {
          ok := false;
        }
        if ok {
          forall r | 0 <= r < rank ensures At(r, actual.leases[r]) !in ranks.s.held {
            GrantedTo(cfg, c, s, before, t.token, At(r, actual.leases[r]));
            GoneStays(s, ranks.s, {At(rank, actual.leases[rank])}, At(r, actual.leases[r]));
          }
        }
      }
      if ok && drop {
        DropLeases(cfg, c, ranks.s, before, t.token);
        LessDrop(c, t.token);
        LiveDrop(c, t.token);
        LastingBooks(c, Drop(c, t.token), ranks.s);
        LastingTwice(c0, s0, c, ranks.s, Drop(c, t.token), ranks.s);
        DropTicket(actual);
      }
      StepKeeps(cfg, c0, Released(t.token, ok, drop));
    }

    method Invalidate(p: Pair) returns (ok: bool, ghost acks: seq<bool>)
      requires Valid()
      modifies this, ranks
      ensures p !in old(invalid) && |old(invalid)| >= cfg.maxKeys ==> !ok && acks == [] && ranks.calls == old(ranks.calls)
      ensures p in old(invalid) || |old(invalid)| < cfg.maxKeys ==>
        && |acks| == cfg.ranks && (ok <==> forall r :: 0 <= r < cfg.ranks ==> acks[r])
        && ranks.calls == old(ranks.calls) + Vetoes(p, acks)
      ensures Valid() && Books() == Step(cfg, old(Books()), Quarantined(p, ok))
      ensures Allowed(cfg, old(Books()), Quarantined(p, ok))
      ensures !RaiseOk(cfg, old(Books()), p) ==> !ok && closed && ranks.s == old(ranks.s)
      ensures ok ==> forall rank :: 0 <= rank < |ranks.seconds| ==> Writers(ranks.s, rank, p) == {}
      ensures Lasting(old(Books()), old(ranks.s), Books(), ranks.s)
    {
      hide BooksOk, LeasesOk, Moves, ClearVeto, Lasting, Writers;
      ghost var c0, s0 := Books(), ranks.s;
      LastingStep(cfg, c0, Quarantined(p, false), s0);
      if p !in invalid && |invalid| >= cfg.maxKeys {
        closed := true;
        StepKeeps(cfg, c0, Quarantined(p, false));
        StepLeases(cfg, c0, ranks.s, before, Quarantined(p, false));
        return false, [];
      }
      invalid := invalid + {p};
      ghost var c := Books();
      StepLeases(cfg, c0, ranks.s, before, Quarantined(p, false));
      ok, acks := true, [];
      OneMoreCall(p, [], acks, ok);
      for rank := 0 to |ranks.seconds|
        invariant |acks| == rank && (ok <==> forall r :: 0 <= r < rank ==> acks[r])
        invariant ranks.calls == old(ranks.calls) + Vetoes(p, acks)
        invariant Books() == c && LeasesOk(cfg, c, ranks.s, before) && Lasting(c0, s0, c, ranks.s)
        invariant ok ==> forall r :: 0 <= r < rank ==> Writers(ranks.s, r, p) == {}
      {
        ghost var s := ranks.s;
        IsSound(cfg, c, s, before);
        var reply := ranks.Invalidate(rank, p);
        VetoedNotRelied(cfg, c, s, before, rank, p);
        LastingStores(c, s, ranks.s, Writers(s, rank, p));
        LastingTwice(c0, s0, c, s, c, ranks.s);
        forall r | 0 <= r < rank && ok ensures Writers(ranks.s, r, p) == {} {
          WritersGone(s, ranks.s, Writers(s, rank, p), r, p);
        }
        Invalidating(cfg, c, s, ranks.s, before, rank, p);
        OneMoreCall(p, [], acks, reply.Yes?);
        acks := acks + [reply.Yes?];
        if !reply.Yes? {
          ok := false;
        }
      }
      if ok {
        invalidateAcked := invalidateAcked + {p};
        ghost var a := Books();
        ClearVetoIfDrained(p);
        AckLeases(cfg, c, ranks.s, before, p);
        LiveAck(c, p);
        LastingBooks(c, Acknowledge(c, p), ranks.s);
        LastingTwice(c0, s0, c, ranks.s, Acknowledge(c, p), ranks.s);
      }
      StepKeeps(cfg, c0, Quarantined(p, ok));
    }

    // Every store has the object; an exception counts as no.
    method AllExist(pair: Pair) returns (all: bool, ghost yes: seq<bool>)
      requires Valid()
      modifies ranks
      ensures Valid() && Lasting(Books(), old(ranks.s), Books(), ranks.s)
      ensures InTurn(cfg.ranks, yes) && (all <==> |yes| == cfg.ranks && forall r :: 0 <= r < cfg.ranks ==> yes[r])
      ensures ranks.calls == old(ranks.calls) + Looks(pair, yes)
    {
      hide BooksOk, LeasesOk, Moves, Lasting;
      LastingBooks(Books(), Books(), ranks.s);
      all, yes := true, [];
      OneMoreCall(pair, [], yes, all);
      var rank := 0;
      while all && rank < |ranks.seconds|
        invariant LeasesOk(cfg, Books(), ranks.s, before) && Lasting(Books(), old(ranks.s), Books(), ranks.s)
        invariant |yes| == rank <= |ranks.seconds| && (forall r :: 0 <= r < rank - 1 ==> yes[r])
        invariant (rank == 0 && all) || (0 < rank && all == yes[rank - 1])
        invariant ranks.calls == old(ranks.calls) + Looks(pair, yes)
        decreases |ranks.seconds| - rank
      {
        ghost var s := ranks.s;
        IsSound(cfg, Books(), s, before);
        var reply := ranks.Exists(rank, pair);
        Quiet(cfg, Books(), s, ranks.s, before);
        LastingStores(Books(), s, ranks.s, {});
        LastingTwice(Books(), old(ranks.s), Books(), s, Books(), ranks.s);
        OneMoreCall(pair, [], yes, reply.Yes?);
        yes := yes + [reply.Yes?];
        all := reply.Yes?;
        rank := rank + 1;
      }
    }

    // `complete_store`: a store that is not durable on every rank is vetoed before the ticket is
    // released, and the ticket is dropped only if that veto was acknowledged.
    method CompleteStore(t: Ticket, success: bool)
      returns (ok: bool, ghost vetoed: Option<bool>, released: bool, ghost yes: seq<bool>, ghost vetoAcks: seq<bool>,
               ghost acks: seq<bool>)
      requires Valid()
      modifies this, ranks
      ensures Valid()
      ensures if success then InTurn(cfg.ranks, yes) else yes == []
      ensures vetoed.None? <==> success && |yes| == cfg.ranks && forall r :: 0 <= r < cfg.ranks ==> yes[r]
      ensures
        var room := t.pair in old(invalid) || |old(invalid)| < cfg.maxKeys;
        && |vetoAcks| == (if vetoed.Some? && room then cfg.ranks else 0)
        && (vetoed.Some? ==> vetoed.value == (room && forall r :: 0 <= r < |vetoAcks| ==> vetoAcks[r]))
      ensures if t.token in old(tickets) then |acks| == |old(tickets)[t.token].leases| else acks == []
      ensures released <==> forall r :: 0 <= r < |acks| ==> acks[r]
      ensures ranks.calls == old(ranks.calls) + Looks(t.pair, yes) + Vetoes(t.pair, vetoAcks)
        + if t.token in old(tickets) then Recalls(old(tickets)[t.token].leases, acks) else []
      ensures vetoed.Some? ==> Allowed(cfg, old(Books()), Quarantined(t.pair, vetoed.value))
      ensures
        var c := if vetoed.Some? then Step(cfg, old(Books()), Quarantined(t.pair, vetoed.value)) else old(Books());
        Books() == Step(cfg, c, Released(t.token, released, vetoed != Some(false)))
      ensures ok <==> released && vetoed != Some(false)
      ensures ok ==> t.token !in tickets
      ensures Lasting(old(Books()), old(ranks.s), Books(), ranks.s)
    {
      hide BooksOk, LeasesOk, Step, Allowed, Lasting, Looks, Vetoes, Recalls;
      ghost var c0, s0 := Books(), ranks.s;
      LastingBooks(c0, c0, s0);
      var durable := success;
      yes, vetoAcks := [], [];
      OneMoreCall(t.pair, [], [], true);
      if success {
        durable, yes := AllExist(t.pair);
      }
      ghost var s1 := ranks.s;
      LastingBooks(c0, c0, s1);
      var accepted := true;
      vetoed := None;
      if !durable {
        accepted, vetoAcks := Invalidate(t.pair);
        vetoed := Some(accepted);
        SameOut(cfg, c0, t.pair, accepted);
      }
      ghost var c2, s2 := Books(), ranks.s;
      LastingTwice(c0, s0, c0, s1, c2, s2);
      released, acks := Release(t, accepted);
      LastingTwice(c0, s0, c2, s2, Books(), ranks.s);
      ok := accepted && released;
    }

    method CanStore() returns (can: bool)
      ensures can <==> !closed && !ranks.s.down
    {
      can := !closed && !ranks.s.down;
    }

    /** Whoever acts before the deadline finds every rank still holding the lease, and holding it
        for at least the margin longer. */
    method LeaseDeadline(t: Ticket) returns (deadline: Option<real>)
      requires Valid()
      ensures deadline == if ranks.s.down then None else Deadline(Books(), t)
      ensures deadline.Some? && ranks.s.now < deadline.value ==>
        |t.leases| == cfg.ranks && 0.0 < cfg.margin &&
        forall r :: 0 <= r < cfg.ranks ==>
          var at := At(r, t.leases[r]);
          at in ranks.s.held && deadline.value + cfg.margin <= ranks.s.held[at].expiry
    {
      hide BooksOk, LeasesOk;
      if closed || t.token in retiring || t.pair in invalid || t.token !in tickets || tickets[t.token] != t || ranks.s.down {
        return None;
      }
      deadline := if t.token in valid then Some(valid[t.token]) else None;
      if deadline.Some? && ranks.s.now < deadline.value {
        WindowHolds(cfg, Books(), ranks.s, before, t);
        assert forall r :: 0 <= r < cfg.ranks ==> Owns(t, At(r, t.leases[r]));
      }
    }

    // `renew`. A good ticket's stores are asked in turn; its window moves exactly if all of them renewed and
    // the window, counted from before the first call, is still open. Otherwise it lapses, unless a
    // store raised.
    method Renew(t: Ticket) returns (reply: Reply, ghost e: Option<Event>, ghost rn: Renewal)
      requires Valid()
      modifies this, ranks
      ensures Valid()
      ensures Books() == if e.Some? then Step(cfg, old(Books()), e.value) else old(Books())
      ensures e.Some? ==> Allowed(cfg, old(Books()), e.value)
      ensures old(closed) || t.token !in old(tickets) || old(tickets)[t.token] != t || t.token in old(retiring)
              || t.pair in old(invalid) ==>
        reply.No? && e == None && ranks.s == old(ranks.s) && ranks.calls == old(ranks.calls)
      ensures !old(closed) && t.token in old(tickets) && old(tickets)[t.token] == t && t.token !in old(retiring)
              && t.pair !in old(invalid) ==>
        && |t.leases| == cfg.ranks && InTurn(cfg.ranks, IsYes(rn.replies)) && old(ranks.s).now <= rn.start
        && ranks.calls == old(ranks.calls) + RenewalCalls(cfg.ranks, t, rn)
        && (reply.Yes? <==> rn.Whole(cfg.ranks) && rn.checked < rn.start + cfg.ttl - cfg.margin)
        && (reply.Raised? <==> rn.replies != [] && rn.replies[|rn.replies| - 1].Raised?)
        && e == (match reply
                 case Yes => Some(Extended(t.token, rn.start + cfg.ttl - cfg.margin))
                 case No => Some(Lapsed(t.token))
                 case Raised => None)
      ensures reply.Yes? ==> ranks.s.now < e.value.until
      ensures Lasting(old(Books()), old(ranks.s), Books(), ranks.s)
    {
      hide BooksOk, LeasesOk, Moves, Lasting, Step, Allowed, Renewals;
      ghost var c, s0 := Books(), ranks.s;
      LastingBooks(c, c, s0);
      e, rn := None, Renewal(s0.now, [], s0.now);
      if closed || t.token !in tickets || tickets[t.token] != t || t.token in retiring || t.pair in invalid {
        return No, None, rn;
      }
      var start, whole, raised;
      ghost var replies;
      start, whole, raised, replies := Extend(t);
      rn := Renewal(start, replies, ranks.s.now);
      if raised {
        return Raised, None, rn;
      }
      var until := start + cfg.ttl - cfg.margin;
      if whole {
        ghost var s := ranks.s;
        IsSound(cfg, c, s, before);
        var now := ranks.Time();
        rn := Renewal(start, replies, now);
        Quiet(cfg, c, s, ranks.s, before);
        LastingStores(c, s, ranks.s, {});
        LastingTwice(c, s0, c, s, c, ranks.s);
        if now < until {
          StillBacked(s, ranks.s, t.leases, cfg.ranks, start + cfg.ttl);
          valid := valid[t.token := until];
          reply, e := Yes, Some(Extended(t.token, until));
          ExtendedIs(cfg, c, t.token, until);
          LeasesExtend(cfg, c, ranks.s, before, t.token, until);
          StepKeeps(cfg, c, e.value);
          LastingStep(cfg, c, e.value, ranks.s);
          LastingTwice(c, s0, c, ranks.s, Books(), ranks.s);
          return;
        }
      }
      valid := valid - {t.token};
      reply, e := No, Some(Lapsed(t.token));
      LapsedIs(cfg, c, t.token);
      StepLeases(cfg, c, ranks.s, before, e.value);
      StepKeeps(cfg, c, e.value);
      LastingStep(cfg, c, e.value, ranks.s);
      LastingTwice(c, s0, c, ranks.s, Books(), ranks.s);
    }

    // The part of a renewal that asks the stores.
    method Extend(t: Ticket) returns (start: real, whole: bool, raised: bool, ghost replies: seq<Reply>)
      requires Valid() && t.token in tickets && tickets[t.token] == t
      modifies ranks
      ensures LeasesOk(cfg, Books(), ranks.s, before) && Lasting(Books(), old(ranks.s), Books(), ranks.s)
      ensures old(ranks.s).now <= start <= ranks.s.now && |t.leases| == cfg.ranks
      ensures InTurn(cfg.ranks, IsYes(replies))
      ensures whole <==> |replies| == cfg.ranks && forall r :: 0 <= r < cfg.ranks ==> replies[r].Yes?
      ensures raised <==> replies != [] && replies[|replies| - 1].Raised?
      ensures ranks.calls == old(ranks.calls) + [Clock(start)] + Renewals(t.leases, replies)
      ensures whole ==> forall r :: 0 <= r < cfg.ranks ==> Backed(ranks.s, At(r, t.leases[r]), start + cfg.ttl)
    {
      hide BooksOk, LeasesOk, Moves, Lasting;
      ghost var c, s0 := Books(), ranks.s;
      LastingBooks(c, c, s0);
      TicketAt(cfg, c, t.token);
      IsSound(cfg, c, ranks.s, before);
      ghost var s := ranks.s;
      start := ranks.Time();
      Quiet(cfg, c, s, ranks.s, before);
      LastingStores(c, s, ranks.s, {});
      whole, raised, replies := true, false, [];
      assert Renewals(t.leases, replies) == [];
      var rank := 0;
      while whole && rank < |ranks.seconds|
        invariant |replies| == rank <= |ranks.seconds| && LeasesOk(cfg, c, ranks.s, before)
        invariant Lasting(c, s0, c, ranks.s)
        invariant s0.now <= start <= ranks.s.now
        invariant forall r :: 0 <= r < rank - 1 ==> replies[r].Yes?
        invariant if rank == 0 then whole && !raised else whole == replies[rank - 1].Yes? && raised == replies[rank - 1].Raised?
        invariant ranks.calls == old(ranks.calls) + [Clock(start)] + Renewals(t.leases, replies)
        invariant whole ==> forall r :: 0 <= r < rank ==> Backed(ranks.s, At(r, t.leases[r]), start + cfg.ttl)
        decreases |ranks.seconds| - rank
      {
        s := ranks.s;
        IsSound(cfg, c, s, before);
        var answer := ranks.Renew(rank, t.leases[rank]);
        Quiet(cfg, c, s, ranks.s, before);
        LastingStores(c, s, ranks.s, {});
        LastingTwice(c, s0, c, s, c, ranks.s);
        RenewedMore(t.leases, replies, answer);
        replies := replies + [answer];
        whole, raised := answer.Yes?, answer.Raised?;
        StillBacked(s, ranks.s, t.leases, rank, start + cfg.ttl);
        rank := rank + 1;
      }
    }

    // Ask the stores in rank order, until one refuses or fails.
    method Collect(id: Identity, sizes: seq<nat>) returns (leases: seq<Lease>, all: bool, start: real)
      requires Valid() && |sizes| == cfg.ranks
      modifies ranks
      ensures InHand(cfg, Books(), ranks.s, before, LeaseSet(leases), id.pair)
      ensures |leases| <= cfg.ranks && (all <==> |leases| == cfg.ranks) && old(ranks.s).now <= start <= ranks.s.now
      ensures old(ranks.s).granted <= ranks.s.granted && Lasting(Books(), old(ranks.s), Books(), ranks.s)
      ensures forall at :: at in LeaseSet(leases) ==> at !in old(ranks.s).granted
      ensures forall r :: 0 <= r < |leases| ==> Backed(ranks.s, At(r, leases[r]), start + cfg.ttl)
      ensures ranks.calls == old(ranks.calls) + [Clock(start)] + Grants(id, sizes, leases)
        + if all then [] else [Reserved(|leases|, id, SizeFor(id, sizes, |leases|), None)]
    {
      hide BooksOk, LeasesOk, InHand, Moves, Lasting, Grants;
      ghost var s0 := ranks.s;
      LastingBooks(Books(), Books(), s0);
      IsSound(cfg, Books(), s0, before);
      InHandStart(cfg, Books(), s0, before, id.pair);
      leases, all := [], true;
      start := ranks.Time();
      GrantedMore(id, sizes, [], 0);
      InHandMove(cfg, Books(), s0, ranks.s, before, {}, id.pair, {});
      hide LeaseSet;
      LastingStores(Books(), s0, ranks.s, {});
      while all && |leases| < cfg.ranks
        invariant |leases| <= cfg.ranks && (!all ==> |leases| < cfg.ranks)
        invariant InHand(cfg, Books(), ranks.s, before, LeaseSet(leases), id.pair)
        invariant ranks.calls == old(ranks.calls) + [Clock(start)] + Grants(id, sizes, leases)
          + if all then [] else [Reserved(|leases|, id, SizeFor(id, sizes, |leases|), None)]
        invariant s0.granted <= ranks.s.granted && s0.now <= start <= ranks.s.now && Lasting(Books(), s0, Books(), ranks.s)
        invariant forall at :: at in LeaseSet(leases) ==> at !in s0.granted
        invariant forall r :: 0 <= r < |leases| ==> Backed(ranks.s, At(r, leases[r]), start + cfg.ttl)
        decreases cfg.ranks - |leases|, all
      {
        ghost var s := ranks.s;
        InHandSound(cfg, Books(), s, before, LeaseSet(leases), id.pair);
        var lease := ranks.Reserve(|leases|, id, SizeFor(id, sizes, |leases|));
        StillBacked(s, ranks.s, leases, |leases|, start + cfg.ttl);
        LastingStores(Books(), s, ranks.s, {});
        LastingTwice(Books(), s0, Books(), s, Books(), ranks.s);
        if lease.None? {
          all := false;
          InHandMove(cfg, Books(), s, ranks.s, before, LeaseSet(leases), id.pair, {});
        } else {
          InHandMore(cfg, Books(), s, ranks.s, before, LeaseSet(leases), id.pair, At(|leases|, lease.value));
          assert LeaseSet(leases + [lease.value]) == LeaseSet(leases) + {At(|leases|, lease.value)};
          GrantedMore(id, sizes, leases, lease.value);
          leases := leases + [lease.value];
        }
      }
    }

    // All leases that are granted, and whether that is every one within the window, which ends at `end`.
    method Gather(id: Identity, sizes: seq<nat>)
      returns (leases: seq<Lease>, all: bool, end: real, ghost start: real, ghost now: real)
      requires Valid() && |sizes| == cfg.ranks
      modifies ranks
      ensures InHand(cfg, Books(), ranks.s, before, LeaseSet(leases), id.pair) && |leases| <= cfg.ranks
      ensures old(ranks.s).now <= start && end == start + cfg.ttl - cfg.margin
      ensures all <==> |leases| == cfg.ranks && now < end
      ensures ranks.calls == old(ranks.calls) + Asks(cfg.ranks, id, sizes, start, leases, now)
      ensures old(ranks.s).granted <= ranks.s.granted && Lasting(Books(), old(ranks.s), Books(), ranks.s)
      ensures forall at :: at in LeaseSet(leases) ==> at !in old(ranks.s).granted
      ensures all ==>
        && |leases| == cfg.ranks && ranks.s.now < end && 0.0 < cfg.margin
        && forall r :: 0 <= r < |leases| ==> Backed(ranks.s, At(r, leases[r]), end + cfg.margin)
    {
      hide BooksOk, LeasesOk, InHand, Moves, Lasting, LeaseSet, Grants;
      ghost var s0 := ranks.s;
      var began;
      leases, all, began := Collect(id, sizes);
      start, now := began, began;
      end := began + cfg.ttl - cfg.margin;
      if all {
        ghost var s := ranks.s;
        InHandSound(cfg, Books(), s, before, LeaseSet(leases), id.pair);
        var t := ranks.Time();
        now := t;
        InHandMove(cfg, Books(), s, ranks.s, before, LeaseSet(leases), id.pair, {});
        LastingStores(Books(), s, ranks.s, {});
        LastingTwice(Books(), s0, Books(), s, Books(), ranks.s);
        StillBacked(s, ranks.s, leases, |leases|, began + cfg.ttl);
        all := t < end;
      }
    }

    // Give back what a failed reservation was granted; what is not acknowledged stays with its rank.
    method GiveBack(leases: seq<Lease>, pair: Pair) returns (ghost acks: seq<bool>)
      requires Made() && InHand(cfg, Books(), ranks.s, before, LeaseSet(leases), pair)
      modifies ranks
      ensures |acks| == |leases| && ranks.calls == old(ranks.calls) + Recalls(leases, acks)
      ensures LeasesOk(cfg, Books(), ranks.s, before) && Lasting(Books(), old(ranks.s), Books(), ranks.s)
    {
      hide InHand, Moves, LeasesOk, Lasting;
      LastingBooks(Books(), Books(), ranks.s);
      acks := [];
      OneMoreCall(pair, leases, acks, true);
      for rank := 0 to |leases|
        invariant |acks| == rank && ranks.calls == old(ranks.calls) + Recalls(leases, acks)
        invariant InHand(cfg, Books(), ranks.s, before, LeaseSet(leases), pair) && Lasting(Books(), old(ranks.s), Books(), ranks.s)
        invariant forall r :: 0 <= r < rank ==> At(r, leases[r]) !in ranks.s.held || At(r, leases[r]) in ranks.s.refused
      {
        ghost var s, at := ranks.s, At(rank, leases[rank]);
        InHandSound(cfg, Books(), s, before, LeaseSet(leases), pair);
        var reply := ranks.Release(rank, leases[rank]);
        OneMoreCall(pair, leases, acks, reply.Yes?);
        acks := acks + [reply.Yes?];
        HandHarmless(cfg, Books(), s, before, LeaseSet(leases), pair, {at});
        InHandMove(cfg, Books(), s, ranks.s, before, LeaseSet(leases), pair, {at});
        InHandFree(cfg, Books(), s, before, LeaseSet(leases), pair, at);
        LastingStores(Books(), s, ranks.s, {at});
        LastingTwice(Books(), old(ranks.s), Books(), s, Books(), ranks.s);
        forall r | 0 <= r < rank ensures At(r, leases[r]) !in ranks.s.held || At(r, leases[r]) in ranks.s.refused {
          InHandKept(cfg, Books(), s, ranks.s, before, LeaseSet(leases), pair, {at}, At(r, leases[r]));
        }
      }
      InHandGone(cfg, Books(), ranks.s, before, LeaseSet(leases), pair);
    }

    // The end of a reservation every store granted.
    method Record(t: Ticket, until: real, charge: nat)
      requires charge == MaxOf(t.sizes)
      modifies this
      ensures Books() == Step(cfg, old(Books()), Granted(t, until))
    {
      tickets := tickets[t.token := t];
      valid := valid[t.token := until];
      identities := identities[t.Id() := t.token];
      bytes := bytes + charge;
    }

    // The part of `_reserve` that asks the stores; `token` is a new uuid. They are asked exactly if there is
    // room, and a ticket is made exactly if then all of them granted and the window is still open.
    method Grant(id: Identity, sizes: seq<nat>, token: Token) returns (t: Option<Ticket>, ghost a: Attempt)
      requires Valid() && Lookup(Books(), id) == Absent && token !in tickets
      requires InGeometry(cfg, id) && sizes == cfg.sizeByGroup[GroupOf(id.pair.key)]
      modifies this, ranks
      ensures Valid()
      ensures
        var until := a.start + cfg.ttl - cfg.margin;
        var room := |old(tickets)| < cfg.maxKeys && old(bytes) + MaxOf(sizes) <= cfg.maxBytes;
        && room == Admissible(cfg, old(Books()), id) && |a.leases| <= cfg.ranks == |sizes|
        && (t.Some? <==> room && |a.leases| == cfg.ranks && a.now < until)
        && (!room ==> ranks.s == old(ranks.s) && ranks.calls == old(ranks.calls))
        && (room ==> (
              && old(ranks.s).now <= a.start && |a.acks| == |a.leases|
              && ranks.calls == old(ranks.calls) + Asks(cfg.ranks, id, sizes, a.start, a.leases, a.now)
                   + if t.Some? then [] else Recalls(a.leases, a.acks)))
        && (t.Some? ==>
              && t.value == Ticket(token, id.pair, a.leases, sizes, id.owner, id.writing) && ranks.s.now < until
              && Allowed(cfg, old(Books()), Granted(t.value, until))
              && Books() == Step(cfg, old(Books()), Granted(t.value, until))
              && forall at :: Owns(t.value, at) ==> at !in old(ranks.s).granted)
      ensures t.None? ==>
        && Books() == old(Books())
        && forall at :: at in ranks.s.held && at !in old(ranks.s).granted ==> at in ranks.s.unseen || at in ranks.s.refused
      ensures Lasting(old(Books()), old(ranks.s), Books(), ranks.s)
    {
      hide BooksOk, LeasesOk, Lookup, InHand, MaxOf, GroupOf, Moves, Step, Lasting, Asks, Recalls;
      LastingBooks(Books(), Books(), ranks.s);
      ghost var c, s0 := Books(), ranks.s;
      t, a := None, Attempt(0.0, [], 0.0, []);
      var charge := MaxOf(sizes);
      if |tickets| >= cfg.maxKeys || bytes + charge > cfg.maxBytes {
        OnlyStrays(cfg, c, s0, s0, before);
        return;
      }
      var leases, all, end;
      ghost var start, now;
      leases, all, end, start, now := Gather(id, sizes);
      if !all {
        ghost var s1 := ranks.s;
        ghost var acks := GiveBack(leases, id.pair);
        a := Attempt(start, leases, now, acks);
        LastingTwice(c, s0, c, s1, c, ranks.s);
        OnlyStrays(cfg, c, s0, ranks.s, before);
        return;
      }
      t, a := Some(Ticket(token, id.pair, leases, sizes, id.owner, id.writing)),
        Attempt(start, leases, now, seq(|leases|, _ => false));
      InHandGrant(cfg, c, ranks.s, before, LeaseSet(leases), t.value, end);
      StepKeeps(cfg, c, Granted(t.value, end));
      LastingGrant(cfg, c, s0, t.value, end, ranks.s);
      Record(t.value, end, charge);
    }

    /** `_reserve`. An identity that has a ticket gets that ticket again exactly if it can be renewed, and
        otherwise gives it up unless a store raised; a new ticket is made only for an identity that has
        none, exactly if there is room, every store grants and the window is still open. */
    method Reserve(id: Identity, sizes: seq<nat>, token: Token)
      returns (out: Outcome, ghost es: seq<Event>, ghost rn: Renewal, ghost acks: seq<bool>, ghost a: Attempt)
      requires Valid() && token !in tickets
      requires InGeometry(cfg, id) && sizes == cfg.sizeByGroup[GroupOf(id.pair.key)]
      modifies this, ranks
      ensures Valid() && History(cfg, old(Books()), es) && Books() == After(cfg, old(Books()), es)
      ensures AnsweredAs(cfg, old(Books()), id, sizes, token, out, es, rn, acks, a, old(ranks.calls), ranks.calls)
      ensures old(closed) || id.pair in old(invalid) || (id in old(identities) && old(identities)[id] in old(retiring)) ==>
        ranks.s == old(ranks.s)
      ensures id !in old(identities) && (|old(tickets)| >= cfg.maxKeys || old(bytes) + MaxOf(sizes) > cfg.maxBytes) ==>
        ranks.s == old(ranks.s)
      ensures out.Holds? ==> forall until :: es == [Granted(out.ticket, until)] || es == [Extended(out.ticket.token, until)] ==>
        ranks.s.now < until
      ensures Lasting(old(Books()), old(ranks.s), Books(), ranks.s)
    {
      hide BooksOk, LeasesOk, Moves, Step, Allowed, Admissible, MaxOf, GroupOf, InGeometry, Lasting, Asks, Recalls, RenewalCalls;
      ghost var c := Books();
      LastingBooks(c, c, ranks.s);
      es, rn, acks, a := [], Renewal(0.0, [], 0.0), [], Attempt(0.0, [], 0.0, []);
      if closed || id.pair in invalid {
        return Nothing, [], rn, acks, a;
      }
      if id in identities {
        var existing := identities[id];
        PairedAt(cfg, c, id);
        if existing in retiring {
          return Nothing, [], rn, acks, a;
        }
        out, es, rn, acks := Again(tickets[existing]);
        return;
      }
      var t;
      t, a := Grant(id, sizes, token);
      if t.None? {
        return Nothing, [], rn, acks, a;
      }
      ghost var until := a.start + cfg.ttl - cfg.margin;
      Append(cfg, c, [], Granted(t.value, until));
      assert [] + [Granted(t.value, until)] == [Granted(t.value, until)];
      return Holds(t.value), [Granted(t.value, until)], rn, acks, a;
    }

    // A reservation for an identity that already has a good ticket.
    method Again(t: Ticket) returns (out: Outcome, ghost es: seq<Event>, ghost rn: Renewal, ghost acks: seq<bool>)
      requires Valid() && !closed && t.token in tickets && tickets[t.token] == t && t.token !in retiring && t.pair !in invalid
      modifies this, ranks
      ensures Valid() && History(cfg, old(Books()), es) && Books() == After(cfg, old(Books()), es)
      ensures RenewedAs(cfg, t, out, es, rn, acks, old(ranks.calls), ranks.calls)
      ensures out.Holds? ==> ranks.s.now < rn.start + cfg.ttl - cfg.margin
      ensures Lasting(old(Books()), old(ranks.s), Books(), ranks.s)
    {
      hide BooksOk, LeasesOk, Moves, Step, Allowed, Lasting, Recalls;
      ghost var c, s0 := Books(), ranks.s;
      es, acks := [], [];
      var reply;
      ghost var e;
      reply, e, rn := Renew(t);
      ghost var c1, s1 := Books(), ranks.s;
      if e.Some? {
        Append(cfg, c, [], e.value);
        es := [e.value];
        assert [] + [e.value] == es;
      }
      if reply.Yes? {
        return Holds(t), es, rn, acks;
      }
      if reply.Raised? {
        return Failed, es, rn, acks;
      }
      LapsedIs(cfg, c, t.token);
      var acked;
      acked, acks := Release(t, true);
      LastingTwice(c, s0, c1, s1, Books(), ranks.s);
      ghost var r := Released(t.token, acked, true);
      assert Allowed(cfg, After(cfg, c, es), r) by { AlwaysAllowed(cfg, After(cfg, c, es), r); }
      Append(cfg, c, es, r);
      es := es + [r];
      assert es == [Lapsed(t.token), Released(t.token, acked, true)];
      return Nothing, es, rn, acks;
    }

    /** `reserve_load`: a key outside the geometry gets nothing. */
    method ReserveLoad(pair: Pair, owner: seq<Byte>, token: Token)
      returns (out: Outcome, ghost es: seq<Event>, ghost rn: Renewal, ghost acks: seq<bool>, ghost a: Attempt)
      requires Valid() && token !in tickets
      modifies this, ranks
      ensures Valid() && History(cfg, old(Books()), es) && Books() == After(cfg, old(Books()), es)
      ensures
        var id := Identity(pair, owner, false);
        if !InGeometry(cfg, id) then out == Nothing && es == [] && ranks.calls == old(ranks.calls)
        else AnsweredAs(cfg, old(Books()), id, cfg.sizeByGroup[GroupOf(pair.key)], token, out, es, rn, acks, a, old(ranks.calls), ranks.calls)
      ensures Lasting(old(Books()), old(ranks.s), Books(), ranks.s)
    {
      hide BooksOk, LeasesOk, Step, Allowed, GroupOf, Lasting, AnsweredAs;
      LastingBooks(Books(), Books(), ranks.s);
      var group := GroupOf(pair.key);
      if group >= |cfg.sizeByGroup| {
        return Nothing, [], Renewal(0.0, [], 0.0), [], Attempt(0.0, [], 0.0, []);
      }
      out, es, rn, acks, a := Reserve(Identity(pair, owner, false), cfg.sizeByGroup[group], token);
    }

    /** `reserve_store`: so does one whose sizes are not those of its group. */
    method ReserveStore(pair: Pair, owner: seq<Byte>, sizes: seq<nat>, token: Token)
      returns (out: Outcome, ghost es: seq<Event>, ghost rn: Renewal, ghost acks: seq<bool>, ghost a: Attempt)
      requires Valid() && token !in tickets
      modifies this, ranks
      ensures Valid() && History(cfg, old(Books()), es) && Books() == After(cfg, old(Books()), es)
      ensures
        var id := Identity(pair, owner, true);
        if !InGeometry(cfg, id) || sizes != cfg.sizeByGroup[GroupOf(pair.key)]
        then out == Nothing && es == [] && ranks.calls == old(ranks.calls)
        else AnsweredAs(cfg, old(Books()), id, sizes, token, out, es, rn, acks, a, old(ranks.calls), ranks.calls)
      ensures Lasting(old(Books()), old(ranks.s), Books(), ranks.s)
    {
      hide BooksOk, LeasesOk, Step, Allowed, GroupOf, Lasting, AnsweredAs;
      LastingBooks(Books(), Books(), ranks.s);
      var group := GroupOf(pair.key);
      if group >= |cfg.sizeByGroup| || sizes != cfg.sizeByGroup[group] {
        return Nothing, [], Renewal(0.0, [], 0.0), [], Attempt(0.0, [], 0.0, []);
      }
      out, es, rn, acks, a := Reserve(Identity(pair, owner, true), sizes, token);
    }
  }

  // How a reservation that found a good ticket ends.
  ghost predicate RenewedAs(cfg: Config, t: Ticket, out: Outcome, es: seq<Event>, rn: Renewal, acks: seq<bool>,
                          calls: seq<Call>, after: seq<Call>)
  {
    && |t.leases| == cfg.ranks && InTurn(cfg.ranks, IsYes(rn.replies))
    && var asked := calls + RenewalCalls(cfg.ranks, t, rn);
    if rn.Whole(cfg.ranks) && rn.checked < rn.start + cfg.ttl - cfg.margin then
      out == Holds(t) && es == [Extended(t.token, rn.start + cfg.ttl - cfg.margin)] && after == asked
    else if rn.replies != [] && rn.replies[|rn.replies| - 1].Raised? then
      out == Failed && es == [] && after == asked
    else
      && |acks| == cfg.ranks && out == Nothing && after == asked + Recalls(t.leases, acks)
      && es == [Lapsed(t.token), Released(t.token, forall r :: 0 <= r < cfg.ranks ==> acks[r], true)]
  }

  // How a reservation ends, and what the stores were asked.
  ghost predicate AnsweredAs(cfg: Config, c: Coord, id: Identity, sizes: seq<nat>, token: Token, out: Outcome, es: seq<Event>,
                          rn: Renewal, acks: seq<bool>, a: Attempt, calls: seq<Call>, after: seq<Call>)
  {
    if c.closed || id.pair in c.invalid || (id in c.identities && c.identities[id] in c.retiring) then
      out == Nothing && es == [] && after == calls
    else if id in c.identities then
      && c.identities[id] in c.tickets && c.tickets[c.identities[id]].Id() == id
      && RenewedAs(cfg, c.tickets[c.identities[id]], out, es, rn, acks, calls, after)
    else if |c.tickets| >= cfg.maxKeys || c.bytes + MaxOf(sizes) > cfg.maxBytes then
      out == Nothing && es == [] && after == calls
    else
      && |a.acks| == |a.leases| <= cfg.ranks == |sizes|
      && var asked := calls + Asks(cfg.ranks, id, sizes, a.start, a.leases, a.now);
      if |a.leases| == cfg.ranks && a.now < a.start + cfg.ttl - cfg.margin then
        && out == Holds(Ticket(token, id.pair, a.leases, sizes, id.owner, id.writing))
        && es == [Granted(out.ticket, a.start + cfg.ttl - cfg.margin)] && after == asked
      else
        out == Nothing && es == [] && after == asked + Recalls(a.leases, a.acks)
  }

  /** The constructor's checks: some store, positive bounds, and a positive size for every rank in
      every group. */
  method Create(ranks: Ranks, sizeByGroup: seq<seq<nat>>, maxKeys: int, maxBytes: int)
    returns (coordinator: Option<LocalCoordinator>)
    requires Sound(ranks.s)
    ensures coordinator.Some? <==>
      && ranks.seconds != [] && 0 < maxKeys && 0 < maxBytes
      && forall g :: 0 <= g < |sizeByGroup| ==> |sizeByGroup[g]| == |ranks.seconds| && 0 !in sizeByGroup[g]
    ensures coordinator.Some? ==> coordinator.value.Valid() && coordinator.value.Books() == Empty()
  {
    if ranks.seconds == [] || maxKeys <= 0 || maxBytes <= 0 {
      return None;
    }
    for g := 0 to |sizeByGroup|
      invariant forall h :: 0 <= h < g ==> |sizeByGroup[h]| == |ranks.seconds| && 0 !in sizeByGroup[h]
    {
      if |sizeByGroup[g]| != |ranks.seconds| || 0 in sizeByGroup[g] {
        return None;
      }
    }
    var made := new LocalCoordinator(ranks, sizeByGroup, maxKeys, maxBytes);
    return Some(made);
  }
}
