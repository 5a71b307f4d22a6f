/** Every step of the remote coordinator keeps the invariant. */
module RemoteSteps {
  import opened Basics
  import opened Coordination
  import opened RemoteProtocol
  import opened RemoteInvariant
  import opened Credits

  lemma EventStep(cfg: Config, w: World, e: Event)
    requires Inv(cfg, w) && EventEnabled(w, e)
    ensures Inv(cfg, ApplyEvent(w, e))
  {
    if e.Close? {
      BookStep(cfg, w, ApplyEvent(w, e));
    } else {
      EventGrows(cfg, w, e);
      hide OpsOk, Apart, PendingOk, TicketsOk, LeasesOk, ValidOk, CreditsOk, LogOk, NothingForgotten;
      RankStep(cfg, w, ApplyEvent(w, e));
    }
  }

  lemma EventGrows(cfg: Config, w: World, e: Event)
    requires LeasesOk(w) && EventEnabled(w, e) && !e.Close?
    ensures
      var v := ApplyEvent(w, e);
      Grows(w, v) && v.leases.Keys <= v.granted && v.sent <= w.withdrawn
  {
  }

  lemma CallStep(cfg: Config, w: World, o: OpId, call: Call)
    requires Inv(cfg, w) && CallEnabled(w, o, call)
    ensures Inv(cfg, ApplyCall(cfg, w, o, call))
  {
    hide OpsOk, Apart, PendingOk, LeasesOk, ValidOk, CreditsOk, LogOk, NothingForgotten;
    match call
    case Reserve(id, sizes) =>
      if Known(cfg, id) && sizes == Sizes(cfg, id) {
        LookupSection(cfg, w, o, id);
      } else {
        QuietEnd(cfg, w, o);
      }
    case Quarantine(pair) =>
      if InvalidateWellFormed(pair) {
        QuietPut(cfg, w, o, Vetoing(pair, None));
      } else {
        QuietEnd(cfg, w, o);
      }
    case GiveBack(t) => QuietPut(cfg, w, o, Retiring(t, true));
    case Renew(t) => QuietPut(cfg, w, o, RenewChecking(t, None));
    case CompleteStore(t, durable) =>
      QuietPut(cfg, w, o, if durable then Retiring(t, true) else Vetoing(t.pair, Some(t)));
  }

  lemma LookupSection(cfg: Config, w: World, o: OpId, id: Identity)
    requires Inv(cfg, w) && o !in w.ops && Known(cfg, id)
    ensures Inv(cfg, ApplyLookup(w, o, id))
  {
    hide OpsOk, Apart, PendingOk, LeasesOk, ValidOk, CreditsOk, LogOk, NothingForgotten;
    match Lookup(w.c, id)
    case Refused => QuietEnd(cfg, w, o);
    case Existing(t) =>
      assert t in w.issued;
      QuietPut(cfg, w, o, RenewChecking(t, Some(id)));
    case Absent => QuietPut(cfg, w, o, Admitting(id));
  }

  // ---- reservations -----------------------------------------------------------

  lemma AdmitSection(cfg: Config, w: World, o: OpId, id: Identity)
    requires Inv(cfg, w) && o in w.ops && w.ops[o] == Admitting(id) && AdmitOk(cfg, w.c, id)
    ensures Inv(cfg, Put(w.(c := Admit(cfg, w.c, id)), o, Starting(id)))
  {
    hide OpsOk, Apart, PendingOk, TicketsOk, LeasesOk, ValidOk, CreditsOk, LogOk, NothingForgotten;
    var v := Put(w.(c := Admit(cfg, w.c, id)), o, Starting(id));
    AdmitCredits(cfg, w.c, id);
    AdmitOps(cfg, w, v, o, id);
    PendingMove(w, v, o, Some(Starting(id)));
    CreditStatic(cfg, w, v);
    LedgerMove(w, v, o, Some(Starting(id)));
  }

  // Only operations and credits of pending reservations differ.
  lemma CreditStatic(cfg: Config, w: World, v: World)
    requires v == w.(c := w.c.(pending := v.c.pending, bytes := v.c.bytes), ops := v.ops, used := v.used)
    requires TicketsOk(cfg, w) && LeasesOk(w) && ValidOk(cfg, w) && LogOk(cfg, w)
    ensures TicketsOk(cfg, v) && LeasesOk(v) && ValidOk(cfg, v) && LogOk(cfg, v)
  {
    ValidKept(cfg, w, v);
  }

  lemma AdmitCredits(cfg: Config, c: Coord, id: Identity)
    requires CreditsOk(cfg, c) && AdmitOk(cfg, c, id)
    ensures CreditsOk(cfg, Admit(cfg, c, id))
  {
    ChargeAdded(cfg, c.pending, id);
  }

  lemma AdmitOps(cfg: Config, w: World, v: World, o: OpId, id: Identity)
    requires OpsOk(cfg, w) && Apart(w) && LeasesOk(w) && id !in w.c.pending
    requires o in w.ops && w.ops[o] == Admitting(id)
    requires v == Put(w.(c := w.c.(pending := w.c.pending + {id}, bytes := v.c.bytes)), o, Starting(id))
    ensures OpsOk(cfg, v) && Apart(v)
  {
    forall x | x in w.ops ensures Undisturbed(w, v, w.ops[x]) && HoldOk(cfg, w, w.ops[x]) {
      assert OpOk(cfg, w, w.ops[x]);
    }
    assert OpOk(cfg, w, w.ops[o]);
    OpsMove(cfg, w, v, o, Some(Starting(id)));
    ApartMove(w, v, o, Some(Starting(id)));
  }

  lemma DeniedStep(cfg: Config, w: World, o: OpId, op: Op, rank: nat)
    requires Inv(cfg, w) && o in w.ops && w.ops[o] == op && StepEnabled(cfg, w, op, Denied(rank))
    ensures Inv(cfg, ApplyStep(cfg, w, o, op, Denied(rank)))
  {
    var next := Reserving(op.id, op.started, op.answers[rank := Missing]);
    assert OpOk(cfg, w, op) && StateOk(cfg, w, op);
    forall at | Sees(next.answers, at) ensures Sees(op.answers, at) {}
    QuietPut(cfg, w, o, next);
  }

  lemma GrantedStep(cfg: Config, w: World, o: OpId, op: Op, at: RankLease, expiry: real, seen: bool)
    requires Inv(cfg, w) && o in w.ops && w.ops[o] == op
    requires StepEnabled(cfg, w, op, Granted(at, expiry, seen))
    ensures Inv(cfg, ApplyGranted(w, o, op, at, expiry, seen))
  {
    hide Apart, PendingOk, TicketsOk, ValidOk, CreditsOk, LogOk, NothingForgotten, OpsOk;
    var u := w.(leases := w.leases[at := expiry], granted := w.granted + {at},
                writes := if op.id.writing then w.writes[at := op.id.pair] else w.writes);
    RankStep(cfg, w, u);
    hide LeasesOk;
    var v := ApplyGranted(w, o, op, at, expiry, seen);
    GrantedOps(cfg, w, u, v, o, op, at, v.ops[o]);
    StaticKept(cfg, u, v);
    PendingMove(u, v, o, Some(v.ops[o]));
    LedgerMove(u, v, o, Some(v.ops[o]));
  }

  lemma GrantedOps(cfg: Config, w: World, u: World, v: World, o: OpId, op: Op, at: RankLease, next: Op)
    requires OpsOk(cfg, w) && OpsOk(cfg, u) && LeasesOk(w) && LeasesOk(u) && Apart(u)
    requires u == w.(leases := u.leases, granted := w.granted + {at}, writes := u.writes) && at !in w.granted
    requires at in u.leases && w.now + cfg.ttl <= u.leases[at]
    requires o in w.ops && w.ops[o] == op && op.Reserving? && next.Reserving?
    requires at.rank < |op.answers| && op.answers[at.rank].Waiting?
    requires next.id == op.id && next.started == op.started
    requires next.answers == op.answers[at.rank := Got(at.lease)] || next.answers == op.answers[at.rank := Missing]
    requires v == Put(u, o, next)
    ensures OpsOk(cfg, v) && Apart(v)
  {
    assert OpOk(cfg, w, op) && OpOk(cfg, u, op);
    forall x, y | x in w.ops && x != o && Awaits(w.ops[x], y) ensures y in w.granted && !Awaits(next, y) {
      assert OpOk(cfg, w, w.ops[x]);
      assert Awaits(next, y) && y != at ==> Awaits(op, y);
    }
    GrantedOk(cfg, w, u, op, at, next);
    ApartMove(u, v, o, Some(next));
    forall x | x in u.ops ensures Undisturbed(u, v, u.ops[x]) {
      assert OpOk(cfg, u, u.ops[x]);
    }
    assert Undisturbed(u, v, next);
    OpKept(cfg, u, v, next);
    OpsMove(cfg, u, v, o, Some(next));
  }

  lemma GrantedOk(cfg: Config, w: World, u: World, op: Op, at: RankLease, next: Op)
    requires OpOk(cfg, u, op) && LeasesOk(w)
    requires u == w.(leases := u.leases, granted := w.granted + {at}, writes := u.writes) && at !in w.granted
    requires at in u.leases && w.now + cfg.ttl <= u.leases[at]
    requires op.Reserving? && next.Reserving?
    requires at.rank < |op.answers| && op.answers[at.rank].Waiting?
    requires next.id == op.id && next.started == op.started
    requires next.answers == op.answers[at.rank := Got(at.lease)] || next.answers == op.answers[at.rank := Missing]
    ensures OpOk(cfg, u, next)
  {
    forall x | Sees(next.answers, x) && x != at ensures Sees(op.answers, x) {}
    assert ReservingOk(cfg, u, op.started, op.answers);
  }

  lemma CommitRefused(cfg: Config, w: World, o: OpId, op: Op)
    requires Inv(cfg, w) && o in w.ops && w.ops[o] == op && op.Reserving?
    ensures Inv(cfg, Put(w.(withdrawn := w.withdrawn + SeenLeases(op.answers)), o,
                         Calling(GiveUp(op.id), Rollbacks(op.answers, 0), true)))
  {
    var next := Calling(GiveUp(op.id), Rollbacks(op.answers, 0), true);
    var v := Put(w.(withdrawn := w.withdrawn + SeenLeases(op.answers)), o, next);
    RollbacksAll(op.answers, 0);
    assert OpOk(cfg, w, op);
    RefusedOps(cfg, w, v, o, op, next);
    PendingMove(w, v, o, Some(next));
    RefusedStatic(cfg, w, v, op);
    LedgerMove(w, v, o, Some(next));
  }

  lemma RefusedOps(cfg: Config, w: World, v: World, o: OpId, op: Op, next: Op)
    requires OpsOk(cfg, w) && LeasesOk(w) && Apart(w) && o in w.ops && w.ops[o] == op && op.Reserving?
    requires v == Put(w.(withdrawn := w.withdrawn + SeenLeases(op.answers)), o, next)
    requires next.Calling? && next.goal == GiveUp(op.id)
    requires forall e :: e in next.work ==> e.Release? && Sees(op.answers, e.at)
    ensures OpsOk(cfg, v) && Apart(v)
  {
    assert OpOk(cfg, w, op);
    forall x | x in w.ops && x != o ensures Undisturbed(w, v, w.ops[x]) {
      assert OpOk(cfg, w, w.ops[x]);
      forall at | Awaits(w.ops[x], at) ensures at !in v.withdrawn {
        assert !Awaits(op, at);
      }
    }
    OpsMove(cfg, w, v, o, Some(next));
    ApartMove(w, v, o, Some(next));
  }

  lemma RefusedStatic(cfg: Config, w: World, v: World, op: Op)
    requires TicketsOk(cfg, w) && LeasesOk(w) && ValidOk(cfg, w) && LogOk(cfg, w)
    requires OpOk(cfg, w, op) && op.Reserving?
    requires v == w.(withdrawn := w.withdrawn + SeenLeases(op.answers), ops := v.ops, used := v.used)
    ensures TicketsOk(cfg, v) && LeasesOk(v) && ValidOk(cfg, v) && LogOk(cfg, v)
  {
    assert ReservingOk(cfg, w, op.started, op.answers);
    ValidKept(cfg, w, v);
  }

  lemma {:induction false} RollbacksAll(answers: seq<Answer>, from: nat)
    requires from <= |answers|
    ensures forall e :: e in Rollbacks(answers, from) <==> e.Release? && from <= e.at.rank && Sees(answers, e.at)
    decreases |answers| - from
  {
    if from < |answers| {
      RollbacksAll(answers, from + 1);
    }
  }

  lemma {:induction false} ReleasesAll(t: Ticket, from: nat)
    requires from <= |t.leases|
    ensures forall e :: e in Releases(t.leases, from) <==> e.Release? && from <= e.at.rank && Owns(t, e.at)
    decreases |t.leases| - from
  {
    if from < |t.leases| {
      ReleasesAll(t, from + 1);
    }
  }

  lemma {:induction false} InvalidationsAll(ranks: nat, pair: Pair, from: nat)
    requires from <= ranks
    ensures forall e :: e in Invalidations(ranks, pair, from) <==>
      e.Invalidate? && from <= e.rank < ranks && e.pair == pair
    decreases ranks - from
  {
    if from < ranks {
      InvalidationsAll(ranks, pair, from + 1);
    }
  }

  // ---- a reservation becomes a ticket -----------------------------------------

  lemma CommitAccepted(cfg: Config, w: World, o: OpId, op: Op, token: Token)
    requires Inv(cfg, w) && o in w.ops && w.ops[o] == op && op.Reserving?
    requires forall t :: t in w.issued ==> t.token != token
    requires Complete(op.answers) && op.id.pair !in w.c.invalid
    ensures
      var t := Minted(cfg, token, op.id, op.answers);
      var until := op.started + cfg.ttl - cfg.margin;
      Inv(cfg, End(w.(c := Commit(w.c, t, until), issued := w.issued + {t},
                      origin := w.origin[token := o]), o))
  {
    hide Apart, PendingOk, CreditsOk, NothingForgotten, LogOk, OpsOk, TicketsOk, LeasesOk, ValidOk;
    var t := Minted(cfg, token, op.id, op.answers);
    var until := op.started + cfg.ttl - cfg.margin;
    var v := End(w.(c := Commit(w.c, t, until), issued := w.issued + {t},
                    origin := w.origin[token := o]), o);
    assert OpOk(cfg, w, op) by { OpIsOk(cfg, w, o); }
    CommitCredits(cfg, w, t);
    CommitOps(cfg, w, v, o, op, t);
    CommitStatic(cfg, w, v, op, t, until);
    assert LogOk(cfg, v) by { CommitLog(cfg, w, v); }
    PendingMove(w, v, o, None);
    LedgerMove(w, v, o, None);
  }

  lemma Unissued(cfg: Config, w: World, token: Token)
    requires TicketsOk(cfg, w) && forall k :: k in w.issued ==> k.token != token
    ensures token !in w.c.tickets
  {
    forall x | x in w.c.tickets ensures x != token {
      assert w.c.tickets[x] in w.issued && w.c.tickets[x].token == x;
    }
  }

  lemma CommitLog(cfg: Config, w: World, v: World)
    requires LogOk(cfg, w) && w.withdrawn == v.withdrawn
    requires v.c.retry == w.c.retry && v.c.lost == w.c.lost && v.c.closed == w.c.closed
    ensures LogOk(cfg, v)
  {
  }

  lemma CommitCredits(cfg: Config, w: World, t: Ticket)
    requires CreditsOk(cfg, w.c) && TicketsOk(cfg, w) && t.Id() in w.c.pending
    requires t.sizes == Sizes(cfg, t.Id()) && forall k :: k in w.issued ==> k.token != t.token
    ensures forall until :: CreditsOk(cfg, Commit(w.c, t, until))
  {
    Unissued(cfg, w, t.token);
    TicketAdded(w.c.tickets, t);
    ChargeRemoved(cfg, w.c.pending, t.Id());
  }

  lemma CommitOps(cfg: Config, w: World, v: World, o: OpId, op: Op, t: Ticket)
    requires OpsOk(cfg, w) && LeasesOk(w) && Apart(w)
    requires o in w.ops && w.ops[o] == op && op.Reserving? && Complete(op.answers)
    requires t.leases == LeasesOf(op.answers) && Grows(w, v)
    requires Moves(w, v, o, None) && v.issued == w.issued + {t} && v.withdrawn == w.withdrawn
    requires v.c.pending == w.c.pending - {op.id}
    ensures OpsOk(cfg, v) && Apart(v)
  {
    forall x | x in w.ops && x != o ensures Undisturbed(w, v, w.ops[x]) {
      assert OpOk(cfg, w, w.ops[x]);
      assert Holds(op) == Some(op.id);
      forall at | Awaits(w.ops[x], at) ensures !Owns(t, at) {
        assert Owns(t, at) ==> Awaits(op, at);
      }
    }
    OpsMove(cfg, w, v, o, None);
    ApartMove(w, v, o, None);
  }

  lemma CommitStatic(cfg: Config, w: World, v: World, op: Op, t: Ticket, until: real)
    requires TicketsOk(cfg, w) && LeasesOk(w) && ValidOk(cfg, w) && op.Reserving?
    requires ReservingOk(cfg, w, op.started, op.answers) && Complete(op.answers) && Known(cfg, op.id)
    requires t == Minted(cfg, t.token, op.id, op.answers) && until == op.started + cfg.ttl - cfg.margin
    requires forall k :: k in w.issued ==> k.token != t.token
    requires v == w.(c := Commit(w.c, t, until), issued := w.issued + {t}, origin := v.origin,
                     ops := v.ops, used := v.used)
    ensures TicketsOk(cfg, v) && LeasesOk(v) && ValidOk(cfg, v)
  {
    Unissued(cfg, w, t.token);
    assert t.Id() == op.id;
    assert forall at :: Owns(t, at) <==> Sees(op.answers, at);
    assert TicketsOk(cfg, v) by { hide LeasesOk, ValidOk, ReservingOk; }
    hide TicketsOk, Sizes;
    assert LeasesOk(v) by {
      hide ValidOk, ReservingOk;
      CommitLeases(cfg, w, v, op, t);
    }
    hide LeasesOk;
    CommitWindows(cfg, w, v, op, t, until);
  }

  lemma CommitWindows(cfg: Config, w: World, v: World, op: Op, t: Ticket, until: real)
    requires ValidOk(cfg, w) && op.Reserving? && ReservingOk(cfg, w, op.started, op.answers)
    requires forall at :: Owns(t, at) <==> Sees(op.answers, at)
    requires until == op.started + cfg.ttl - cfg.margin
    requires v.now == w.now && v.leases == w.leases && v.taken == w.taken
    requires v.c.tickets == w.c.tickets[t.token := t] && v.c.valid == w.c.valid[t.token := until]
    ensures ValidOk(cfg, v)
  {
    forall x, at | x in v.c.valid && x in v.c.tickets && Owns(v.c.tickets[x], at)
      ensures Alive(v, at, v.c.valid[x] + cfg.margin)
    {
      if x == t.token {
        assert Alive(w, at, op.started + cfg.ttl);
      } else {
        assert Alive(w, at, w.c.valid[x] + cfg.margin);
      }
    }
  }

  lemma CommitLeases(cfg: Config, w: World, v: World, op: Op, t: Ticket)
    requires LeasesOk(w) && op.Reserving? && ReservingOk(cfg, w, op.started, op.answers)
    requires forall at :: Owns(t, at) <==> Sees(op.answers, at)
    requires t.token !in w.c.retiring && forall k :: k in w.issued ==> k.token != t.token
    requires v.leases == w.leases && v.granted == w.granted && v.sent == w.sent && v.withdrawn == w.withdrawn
    requires v.issued == w.issued + {t} && v.c.retiring == w.c.retiring
    requires v.c.tickets == w.c.tickets[t.token := t]
    ensures LeasesOk(v)
  {
    forall k | k in w.issued ensures Live(v.c, k) == Live(w.c, k) {}
  }

  // ---- cleanup calls and the replay log ---------------------------------------

  lemma DeliverStep(cfg: Config, w: World, e: Entry, effect: bool, trails: bool)
    requires Inv(cfg, w) && EntryOk(w, e)
    ensures Inv(cfg, Deliver(w, e, effect, trails))
  {
    RankStep(cfg, w, Deliver(w, e, effect, trails));
  }

  lemma ReplyStep(cfg: Config, w: World, o: OpId, op: Op, ack: bool, effect: bool, trails: bool)
    requires Inv(cfg, w) && o in w.ops && w.ops[o] == op && op.Calling? && op.work != []
    requires ack ==> effect
    ensures Inv(cfg, ApplyReply(w, o, op, ack, effect, trails))
  {
    hide OpsOk, Apart, PendingOk, TicketsOk, LeasesOk, ValidOk, CreditsOk, LogOk, NothingForgotten;
    var e, rest := op.work[0], op.work[1..];
    assert op.work == [e] + rest;
    assert OpOk(cfg, w, op) by { OpIsOk(cfg, w, o); }
    DeliverStep(cfg, w, e, effect, trails);
    var u := Deliver(w, e, effect, trails);
    assert OpOk(cfg, u, op) by { OpIsOk(cfg, u, o); }
    QuietPut(cfg, u, o, if ack then Calling(op.goal, rest, op.acked) else Queueing(op.goal, rest, e));
  }

  lemma OpIsOk(cfg: Config, w: World, o: OpId)
    requires OpsOk(cfg, w) && o in w.ops
    ensures OpOk(cfg, w, w.ops[o])
  {
  }

  lemma ReplayStep(cfg: Config, w: World, o: OpId, op: Op, ack: bool, effect: bool, trails: bool)
    requires Inv(cfg, w) && o in w.ops && w.ops[o] == op && op.Replaying? && (ack ==> effect)
    ensures Inv(cfg, ApplyReplay(w, o, op, ack, effect, trails))
  {
    hide OpsOk, Apart, PendingOk, TicketsOk, LeasesOk, ValidOk, CreditsOk, LogOk, NothingForgotten;
    assert OpOk(cfg, w, op) by { OpIsOk(cfg, w, o); }
    DeliverStep(cfg, w, op.entry, effect, trails);
    var u := Deliver(w, op.entry, effect, trails);
    assert OpOk(cfg, u, op) by { OpIsOk(cfg, u, o); }
    QuietPut(cfg, u, o, if ack then Draining(op.goal, op.acked, op.budget)
                        else Requeueing(op.goal, op.entry));
  }

  // Logging a call: it is in the log afterwards, and so is every older one unless a receipt
  // was lost.
  lemma ReplaySection(cfg: Config, w: World, e: Entry)
    requires Inv(cfg, w) && EntryOk(w, e)
    ensures Inv(cfg, w.(c := Replay(cfg, w.c, e))) && e in Replay(cfg, w.c, e).retry
  {
    hide OpsOk, Apart, PendingOk, TicketsOk, LeasesOk, ValidOk, CreditsOk, LogOk, NothingForgotten;
    assert |w.c.invalid| <= cfg.maxKeys by { VetoesBounded(cfg, w.c); }
    ReplayLog(cfg, w, e);
    BookStep(cfg, w, w.(c := Replay(cfg, w.c, e)));
  }

  lemma ReplayLog(cfg: Config, w: World, e: Entry)
    requires 0 < cfg.retryCap && LogOk(cfg, w) && EntryOk(w, e)
    ensures LogOk(cfg, w.(c := Replay(cfg, w.c, e)))
  {
    var v := w.(c := Replay(cfg, w.c, e));
    forall x | x in v.c.retry ensures EntryOk(v, x) {
      assert x == e || x in w.c.retry;
      assert EntryOk(w, x);
    }
  }

  lemma LoggedOk(cfg: Config, w: World, e: Entry)
    requires LogOk(cfg, w) && e in w.c.retry
    ensures EntryOk(w, e)
  {
  }

  lemma PopLog(cfg: Config, w: World, v: World)
    requires LogOk(cfg, w) && w.c.retry != [] && v == w.(c := w.c.(retry := w.c.retry[1..]))
    ensures LogOk(cfg, v)
  {
    forall x | x in v.c.retry ensures EntryOk(v, x) {
      assert x in w.c.retry && EntryOk(w, x);
    }
  }

  lemma VetoesBounded(cfg: Config, c: Coord)
    requires CreditsOk(cfg, c)
    ensures |c.invalid| <= cfg.maxKeys
  {
  }

  lemma QueueSection(cfg: Config, w: World, o: OpId, op: Op)
    requires Inv(cfg, w) && o in w.ops && w.ops[o] == op && (op.Queueing? || op.Requeueing?)
    ensures Inv(cfg, Put(w.(c := Replay(cfg, w.c, op.entry)), o,
                         if op.Queueing? then Calling(op.goal, op.work, false) else Settled(op.goal, false)))
  {
    hide OpsOk, Apart, PendingOk, TicketsOk, LeasesOk, ValidOk, CreditsOk, LogOk, NothingForgotten;
    assert OpOk(cfg, w, op) by { OpIsOk(cfg, w, o); }
    ReplaySection(cfg, w, op.entry);
    var u := w.(c := Replay(cfg, w.c, op.entry));
    assert OpOk(cfg, u, op) by { OpIsOk(cfg, u, o); }
    QuietPut(cfg, u, o, if op.Queueing? then Calling(op.goal, op.work, false) else Settled(op.goal, false));
  }

  lemma PopSection(cfg: Config, w: World, o: OpId, goal: Goal, acked: bool, budget: nat)
    requires Inv(cfg, w) && o in w.ops && w.ops[o] == Draining(goal, acked, budget)
    ensures Inv(cfg, ApplyPop(w, o, goal, acked, budget))
  {
    hide Inv;
    if 0 < budget && w.c.retry != [] {
      PopFirst(cfg, w, o, Replaying(goal, acked, budget - 1, w.c.retry[0]));
    } else {
      PopNothing(cfg, w, o, acked && w.c.retry == [] && !w.c.lost);
    }
  }

  lemma PopNothing(cfg: Config, w: World, o: OpId, all: bool)
    requires Inv(cfg, w) && o in w.ops && w.ops[o].Draining? && (all ==> w.ops[o].acked)
    ensures Inv(cfg, Put(w, o, Settled(w.ops[o].goal, all)))
  {
    hide OpsOk, Apart, PendingOk, TicketsOk, LeasesOk, ValidOk, CreditsOk, LogOk, NothingForgotten;
    assert OpOk(cfg, w, w.ops[o]) by { OpIsOk(cfg, w, o); }
    QuietPut(cfg, w, o, Settled(w.ops[o].goal, all));
  }

  lemma PopFirst(cfg: Config, w: World, o: OpId, next: Op)
    requires Inv(cfg, w) && o in w.ops && w.ops[o].Draining? && w.c.retry != []
    requires next.Replaying? && next.goal == w.ops[o].goal && next.entry == w.c.retry[0]
    requires next.acked == w.ops[o].acked
    ensures Inv(cfg, Put(w.(c := w.c.(retry := w.c.retry[1..])), o, next))
  {
    hide OpsOk, Apart, PendingOk, TicketsOk, LeasesOk, ValidOk, CreditsOk, LogOk, NothingForgotten;
    var u := Put(w, o, next);
    assert Inv(cfg, u) by {
      assert OpOk(cfg, w, w.ops[o]) by { OpIsOk(cfg, w, o); }
      assert EntryOk(w, next.entry) by { LoggedOk(cfg, w, next.entry); }
      QuietPut(cfg, w, o, next);
    }
    hide OpOk, EntryOk;
    var v := Put(w.(c := w.c.(retry := w.c.retry[1..])), o, next);
    PopLog(cfg, u, v);
    assert |w.c.invalid| <= cfg.maxKeys by { VetoesBounded(cfg, w.c); }
    forall e | e in u.c.retry ensures Handed(v, e, []) || InLedger(v, e) {
      if e == next.entry {
        assert v.ops[o] == next && e in Owes(next);
      }
    }
    BookStep(cfg, u, v);
  }

  // ---- endings ----------------------------------------------------------------

  lemma AbandonSection(cfg: Config, w: World, o: OpId, id: Identity, acked: bool)
    requires Inv(cfg, w) && o in w.ops && w.ops[o] == Settled(GiveUp(id), acked)
    ensures Inv(cfg, End(w.(c := Abandon(cfg, w.c, id)), o))
  {
    hide OpsOk, Apart, PendingOk, TicketsOk, LeasesOk, ValidOk, CreditsOk, LogOk, NothingForgotten;
    var v := End(w.(c := Abandon(cfg, w.c, id)), o);
    assert OpOk(cfg, w, w.ops[o]) by { OpIsOk(cfg, w, o); }
    AbandonCredits(cfg, w.c, id);
    AbandonOps(cfg, w, v, o, id);
    VetoStatic(cfg, w, v);
    PendingMove(w, v, o, None);
    LedgerMove(w, v, o, None);
  }

  lemma AbandonCredits(cfg: Config, c: Coord, id: Identity)
    requires CreditsOk(cfg, c) && id in c.pending
    ensures CreditsOk(cfg, Abandon(cfg, c, id))
  {
    ChargeRemoved(cfg, c.pending, id);
  }

  lemma AbandonOps(cfg: Config, w: World, v: World, o: OpId, id: Identity)
    requires OpsOk(cfg, w) && LeasesOk(w) && Apart(w) && Grows(w, v)
    requires o in w.ops && Holds(w.ops[o]) == Some(id) && Moves(w, v, o, None)
    requires v.c.pending == w.c.pending - {id} && v.withdrawn == w.withdrawn && v.issued == w.issued
    ensures OpsOk(cfg, v) && Apart(v)
  {
    forall x | x in w.ops && x != o ensures Undisturbed(w, v, w.ops[x]) {
      assert OpOk(cfg, w, w.ops[x]);
    }
    OpsMove(cfg, w, v, o, None);
    ApartMove(w, v, o, None);
  }

  // Vetoes, operations and the credits of pending reservations may differ.
  lemma VetoStatic(cfg: Config, w: World, v: World)
    requires v == w.(c := v.c, ops := v.ops, used := v.used)
    requires v.c == w.c.(pending := v.c.pending, bytes := v.c.bytes, invalid := v.c.invalid, acked := v.c.acked)
    requires TicketsOk(cfg, w) && LeasesOk(w) && ValidOk(cfg, w) && LogOk(cfg, w)
    ensures TicketsOk(cfg, v) && LeasesOk(v) && ValidOk(cfg, v) && LogOk(cfg, v)
  {
    ValidKept(cfg, w, v);
  }

  lemma DropSection(cfg: Config, w: World, o: OpId, t: Ticket)
    requires Inv(cfg, w) && o in w.ops && w.ops[o] == Settled(LetGo(t, true), true)
    ensures Inv(cfg, End(w.(c := Drop(w.c, t.token)), o))
  {
    hide OpsOk, Apart, PendingOk, TicketsOk, LeasesOk, ValidOk, CreditsOk, LogOk, NothingForgotten;
    var v := End(w.(c := Drop(w.c, t.token)), o);
    assert OpOk(cfg, w, w.ops[o]) by { OpIsOk(cfg, w, o); }
    assert forall at :: Owns(t, at) ==> at !in w.leases;
    QuietGone(cfg, w, End(w, o), o);
    StaticKept(cfg, w, End(w, o));
    DropOps(cfg, End(w, o), v);
    DropCredits(cfg, w, t);
    DropStatic(cfg, w, v, t);
    PendingMove(w, v, o, None);
    LedgerMove(w, v, o, None);
  }

  lemma DropOps(cfg: Config, w: World, v: World)
    requires OpsOk(cfg, w) && LeasesOk(w) && Apart(w) && v == w.(c := v.c) && v.c.pending == w.c.pending
    ensures OpsOk(cfg, v) && Apart(v)
  {
    OpsStay(cfg, w, v);
  }

  lemma DropBooks(cfg: Config, c: Coord, t: Token)
    requires CreditsOk(cfg, c) && (t in c.tickets ==> c.tickets[t].token == t)
    ensures CreditsOk(cfg, Drop(c, t))
  {
    if t in c.tickets {
      TicketRemoved(c.tickets, t);
      assert (c.tickets - {t}).Keys == c.tickets.Keys - {t};
    }
  }

  lemma DropCredits(cfg: Config, w: World, t: Ticket)
    requires CreditsOk(cfg, w.c) && TicketsOk(cfg, w) && t in w.issued
    ensures CreditsOk(cfg, Drop(w.c, t.token))
  {
    hide CreditsOk, Drop;
    DropBooks(cfg, w.c, t.token);
  }

  lemma DropStatic(cfg: Config, w: World, v: World, t: Ticket)
    requires TicketsOk(cfg, w) && LeasesOk(w) && ValidOk(cfg, w) && LogOk(cfg, w)
    requires v == w.(c := Drop(w.c, t.token), ops := v.ops, used := v.used) && t in w.issued
    requires forall at :: Owns(t, at) ==> at !in w.leases && at in w.withdrawn
    requires 0 < cfg.ranks
    ensures TicketsOk(cfg, v) && LeasesOk(v) && ValidOk(cfg, v) && LogOk(cfg, v)
  {
    hide LeasesOk, ValidOk, LogOk, Drop;
    NotLive(cfg, w, t);
    DropShape(w.c, t.token);
    SameLeases(cfg, w, v, t);
    SameWindows(cfg, w, v);
    CommitLog(cfg, w, v);
  }

  lemma DropShape(c: Coord, t: Token)
    ensures
      var d := Drop(c, t);
      && d.tickets == c.tickets - {t} && d.valid == c.valid && d.pending == c.pending
      && d.retiring == (if t in c.tickets then c.retiring - {t} else c.retiring)
      && d.retry == c.retry && d.lost == c.lost && d.closed == c.closed
  {
    if t !in c.tickets {
      assert c.tickets - {t} == c.tickets;
    }
  }

  // A ticket with a withdrawn lease is retiring or gone.
  lemma NotLive(cfg: Config, w: World, t: Ticket)
    requires TicketsOk(cfg, w) && LeasesOk(w) && t in w.issued && 0 < cfg.ranks
    requires forall at :: Owns(t, at) ==> at in w.withdrawn
    ensures !Live(w.c, t)
  {
    assert Owns(t, At(0, t.leases[0]));
  }

  // Windows of tickets still out are unchanged.
  lemma SameWindows(cfg: Config, w: World, v: World)
    requires ValidOk(cfg, w) && v.leases == w.leases && v.now == w.now && v.taken == w.taken
    requires forall x :: x in v.c.valid ==> x in w.c.valid && v.c.valid[x] == w.c.valid[x]
    requires forall x :: x in v.c.tickets ==> x in w.c.tickets && v.c.tickets[x] == w.c.tickets[x]
    ensures ValidOk(cfg, v)
  {
    forall x, at | x in v.c.valid && x in v.c.tickets && Owns(v.c.tickets[x], at)
      ensures Alive(v, at, v.c.valid[x] + cfg.margin)
    {
      assert Alive(w, at, w.c.valid[x] + cfg.margin);
    }
  }

  lemma SameLeases(cfg: Config, w: World, v: World, t: Ticket)
    requires TicketsOk(cfg, w) && LeasesOk(w) && t in w.issued && !Live(w.c, t)
    requires v.leases == w.leases && v.granted == w.granted && v.sent == w.sent
    requires v.withdrawn == w.withdrawn && v.issued == w.issued
    requires v.c.tickets == w.c.tickets - {t.token} && v.c.retiring == w.c.retiring - {t.token}
    requires forall at :: Owns(t, at) ==> at !in w.leases
    ensures LeasesOk(v)
  {
    forall k | k in w.issued ensures Live(v.c, k) == Live(w.c, k) {
      assert k.token == t.token ==> k == t;
    }
  }

  // The vetoes change; tickets, windows, credits and the log do not.
  lemma VetoStep(cfg: Config, w: World, v: World)
    requires Inv(cfg, w) && v == w.(c := v.c)
    requires v.c == w.c.(invalid := v.c.invalid, acked := v.c.acked, closed := v.c.closed)
    requires |v.c.invalid| <= cfg.maxKeys && (w.c.closed ==> v.c.closed)
    ensures Inv(cfg, v)
  {
    hide OpsOk, Apart, PendingOk, TicketsOk, LeasesOk, ValidOk, CreditsOk, NothingForgotten;
    BookStep(cfg, w, v);
  }

  lemma AfterRenewStep(cfg: Config, w: World, o: OpId, ok: bool, t: Ticket, back: Option<Identity>)
    requires Inv(cfg, w) && AskedOk(cfg, w, t, back)
    requires o in w.ops && Holds(w.ops[o]) == None && Owes(w.ops[o]) == []
    ensures Inv(cfg, AfterRenew(w, o, ok, t, back))
  {
    hide OpsOk, Apart, PendingOk, TicketsOk, LeasesOk, ValidOk, CreditsOk, LogOk, NothingForgotten;
    if back.None? {
      QuietEnd(cfg, w, o);
    } else {
      QuietPut(cfg, w, o, if ok then Rechecking(t, back.value) else Retiring(t, true));
    }
  }

  lemma FinishSection(cfg: Config, w: World, o: OpId, goal: Goal, acked: bool)
    requires Inv(cfg, w) && o in w.ops && w.ops[o] == Settled(goal, acked)
    ensures Inv(cfg, ApplyFinish(cfg, w, o, goal, acked))
  {
    hide OpsOk, Apart, PendingOk, TicketsOk, LeasesOk, ValidOk, CreditsOk, LogOk, NothingForgotten;
    assert OpOk(cfg, w, w.ops[o]) by { OpIsOk(cfg, w, o); }
    match goal
    case GiveUp(id) => AbandonSection(cfg, w, o, id, acked);
    case LetGo(t, drop) =>
      if acked && drop { DropSection(cfg, w, o, t); } else { QuietEnd(cfg, w, o); }
    case Veto(pair, after) => AckSection(cfg, w, o, pair, after, acked);
    case Renewed(ok, t, back) => AfterRenewStep(cfg, w, o, ok, t, back);
  }

  lemma AckSection(cfg: Config, w: World, o: OpId, pair: Pair, after: Option<Ticket>, acked: bool)
    requires Inv(cfg, w) && o in w.ops && w.ops[o] == Settled(Veto(pair, after), acked)
    ensures Inv(cfg, ApplyFinish(cfg, w, o, Veto(pair, after), acked))
  {
    hide OpsOk, Apart, PendingOk, TicketsOk, LeasesOk, ValidOk, CreditsOk, LogOk, NothingForgotten;
    var u := if acked then w.(c := Acknowledge(w.c, pair)) else w;
    VetoesBounded(cfg, w.c);
    assert u.c.invalid <= w.c.invalid;
    Smaller(u.c.invalid, w.c.invalid);
    VetoStep(cfg, w, u);
    assert OpOk(cfg, u, u.ops[o]) by { OpIsOk(cfg, u, o); }
    if after.Some? {
      QuietPut(cfg, u, o, Retiring(after.value, acked));
    } else {
      QuietEnd(cfg, u, o);
    }
  }

  lemma Smaller<T>(a: set<T>, b: set<T>)
    requires a <= b
    ensures |a| <= |b|
  {
    assert b == a + (b - a);
  }

  // ---- releases, vetoes and renewals ------------------------------------------

  lemma RetireSection(cfg: Config, w: World, o: OpId, t: Ticket, drop: bool)
    requires Inv(cfg, w) && o in w.ops && w.ops[o] == Retiring(t, drop)
    ensures Inv(cfg, Put(Withdraw(w, t), o, Calling(LetGo(t, drop), Releases(t.leases, 0), true)))
  {
    hide OpsOk, Apart, PendingOk, TicketsOk, LeasesOk, ValidOk, CreditsOk, LogOk, NothingForgotten;
    var next := Calling(LetGo(t, drop), Releases(t.leases, 0), true);
    var v := Put(Withdraw(w, t), o, next);
    ReleasesAll(t, 0);
    assert OpOk(cfg, w, w.ops[o]) by { OpIsOk(cfg, w, o); }
    RetireOps(cfg, w, v, o, t, next);
    RetireStatic(cfg, w, v, t);
    assert CreditsOk(cfg, v.c) by { RetireCredits(cfg, w.c, v.c); }
    PendingMove(w, v, o, Some(next));
    LedgerMove(w, v, o, Some(next));
  }

  lemma RetireCredits(cfg: Config, c: Coord, d: Coord)
    requires CreditsOk(cfg, c) && d == c.(retiring := d.retiring, valid := d.valid)
    ensures CreditsOk(cfg, d)
  {
  }

  lemma RetireOps(cfg: Config, w: World, v: World, o: OpId, t: Ticket, next: Op)
    requires OpsOk(cfg, w) && LeasesOk(w) && Apart(w) && t in w.issued
    requires o in w.ops && w.ops[o].Retiring? && v == Put(Withdraw(w, t), o, next)
    requires next.Calling? && next.goal.LetGo? && next.goal.ticket == t
    requires forall e :: e in next.work <==> e.Release? && Owns(t, e.at)
    ensures OpsOk(cfg, v) && Apart(v)
  {
    forall x | x in w.ops && x != o ensures Undisturbed(w, v, w.ops[x]) {
      assert OpOk(cfg, w, w.ops[x]);
    }
    assert OpOk(cfg, v, next) by {
      forall at | Owns(t, at) ensures Release(at) in next.work {}
    }
    OpsMove(cfg, w, v, o, Some(next));
    ApartMove(w, v, o, Some(next));
  }

  lemma RetireStatic(cfg: Config, w: World, v: World, t: Ticket)
    requires TicketsOk(cfg, w) && LeasesOk(w) && ValidOk(cfg, w) && LogOk(cfg, w) && t in w.issued
    requires v == Withdraw(w, t).(ops := v.ops, used := v.used)
    ensures TicketsOk(cfg, v) && LeasesOk(v) && ValidOk(cfg, v) && LogOk(cfg, v)
  {
    hide LeasesOk, ValidOk;
    RetireLeases(cfg, w, v, t);
    SameWindows(cfg, w, v);
  }

  lemma RetireLeases(cfg: Config, w: World, v: World, t: Ticket)
    requires TicketsOk(cfg, w) && LeasesOk(w) && t in w.issued
    requires v.leases == w.leases && v.granted == w.granted && v.sent == w.sent && v.issued == w.issued
    requires v.withdrawn == w.withdrawn + LeaseSet(t.leases) && v.c == Retire(w.c, t.token)
    ensures LeasesOk(v)
  {
    hide LeaseSet, Retire, Live, TicketsOk;
    RetireLives(cfg, w, t);
    RetireShape(w.c, t.token);
  }

  lemma RetireShape(c: Coord, t: Token)
    ensures Retire(c, t).tickets == c.tickets
  {
  }

  lemma RetireLives(cfg: Config, w: World, t: Ticket)
    requires TicketsOk(cfg, w) && t in w.issued
    ensures forall k :: k in w.issued ==> (Live(Retire(w.c, t.token), k) <==> Live(w.c, k) && k != t)
  {
  }

  lemma RaiseSection(cfg: Config, w: World, o: OpId, pair: Pair, after: Option<Ticket>)
    requires Inv(cfg, w) && o in w.ops && w.ops[o] == Vetoing(pair, after)
    ensures Inv(cfg, ApplyRaise(cfg, w, o, pair, after))
  {
    hide OpsOk, Apart, PendingOk, TicketsOk, LeasesOk, ValidOk, CreditsOk, LogOk, NothingForgotten;
    var u := w.(c := Raise(cfg, w.c, pair));
    VetoesBounded(cfg, w.c);
    VetoStep(cfg, w, u);
    assert OpOk(cfg, u, u.ops[o]) by { OpIsOk(cfg, u, o); }
    if RaiseOk(cfg, w.c, pair) {
      InvalidationsAll(cfg.ranks, pair, 0);
      QuietPut(cfg, u, o, Calling(Veto(pair, after), Invalidations(cfg.ranks, pair, 0), true));
    } else if after.Some? {
      QuietPut(cfg, u, o, Retiring(after.value, false));
    } else {
      QuietEnd(cfg, u, o);
    }
  }

  lemma RenewReplyStep(cfg: Config, w: World, o: OpId, op: Op, rank: nat, ok: bool, effect: bool, expiry: real)
    requires Inv(cfg, w) && o in w.ops && w.ops[o] == op
    requires StepEnabled(cfg, w, op, RenewReplied(rank, ok, effect, expiry))
    ensures Inv(cfg, ApplyRenewReply(w, o, op, rank, ok, effect, expiry))
  {
    hide OpsOk, Apart, PendingOk, TicketsOk, ValidOk, CreditsOk, LogOk, NothingForgotten;
    var at := At(rank, op.ticket.leases[rank]);
    var u := w.(leases := if effect then w.leases[at := expiry] else w.leases);
    RankStep(cfg, w, u);
    var next := Renewing(op.ticket, op.back, op.started, op.replies[rank := if ok then Yes else No]);
    assert OpOk(cfg, u, op) by { OpIsOk(cfg, u, o); }
    assert RenewingOk(cfg, u, op.ticket, op.started, next.replies) by {
      forall x | Owns(op.ticket, x) && x.rank < |next.replies| && next.replies[x.rank].Yes?
        ensures x in u.withdrawn || Alive(u, x, op.started + cfg.ttl)
      {
        if x.rank == rank { assert x == at; }
      }
    }
    QuietPut(cfg, u, o, next);
  }

  lemma RenewCommitSection(cfg: Config, w: World, o: OpId, op: Op)
    requires Inv(cfg, w) && o in w.ops && w.ops[o] == op && op.Renewing?
    ensures Inv(cfg, ApplyRenewCommit(cfg, w, o, op.ticket, op.back, op.started, op.replies))
  {
    hide OpsOk, Apart, PendingOk, TicketsOk, LeasesOk, ValidOk, CreditsOk, LogOk, NothingForgotten;
    var v := ApplyRenewCommit(cfg, w, o, op.ticket, op.back, op.started, op.replies);
    assert OpOk(cfg, w, op) by { OpIsOk(cfg, w, o); }
    var u := w.(c := v.c);
    if v.c != w.c {
      ExtendWindow(cfg, w, op.ticket, op.started, op.replies);
    }
    assert OpOk(cfg, u, op) by { OpIsOk(cfg, u, o); }
    assert v.ops == u.ops[o := v.ops[o]];
    QuietPut(cfg, u, o, v.ops[o]);
  }

  // A renewal every rank confirmed moves the window of a live ticket.
  lemma ExtendWindow(cfg: Config, w: World, t: Ticket, started: real, replies: seq<Reply>)
    requires Inv(cfg, w) && t in w.issued && Live(w.c, t) && RenewingOk(cfg, w, t, started, replies)
    requires forall r :: 0 <= r < |replies| ==> replies[r].Yes?
    ensures Inv(cfg, w.(c := w.c.(valid := w.c.valid[t.token := started + cfg.ttl - cfg.margin])))
  {
    hide OpsOk, Apart, PendingOk, TicketsOk, LeasesOk, ValidOk, CreditsOk, LogOk, NothingForgotten;
    var v := w.(c := w.c.(valid := w.c.valid[t.token := started + cfg.ttl - cfg.margin]));
    OpsStay(cfg, w, v);
    PendingStay(w, v);
    CommitLog(cfg, w, v);
    RetireCredits(cfg, w.c, v.c);
    LedgerStay(w, v);
    WindowMoved(cfg, w, v, t, started, replies);
  }

  lemma WindowMoved(cfg: Config, w: World, v: World, t: Ticket, started: real, replies: seq<Reply>)
    requires TicketsOk(cfg, w) && LeasesOk(w) && ValidOk(cfg, w)
    requires t in w.issued && Live(w.c, t) && RenewingOk(cfg, w, t, started, replies)
    requires forall r :: 0 <= r < |replies| ==> replies[r].Yes?
    requires v == w.(c := w.c.(valid := w.c.valid[t.token := started + cfg.ttl - cfg.margin]))
    ensures TicketsOk(cfg, v) && LeasesOk(v) && ValidOk(cfg, v)
  {
    assert w.c.tickets[t.token] == t;
    WindowProved(cfg, w, v, t, started, replies);
  }

  lemma WindowProved(cfg: Config, w: World, v: World, t: Ticket, started: real, replies: seq<Reply>)
    requires ValidOk(cfg, w) && t.token in w.c.tickets && w.c.tickets[t.token] == t && |t.leases| == cfg.ranks
    requires RenewingOk(cfg, w, t, started, replies) && forall r :: 0 <= r < |replies| ==> replies[r].Yes?
    requires forall at :: Owns(t, at) ==> at !in w.withdrawn
    requires v == w.(c := w.c.(valid := w.c.valid[t.token := started + cfg.ttl - cfg.margin]))
    ensures ValidOk(cfg, v)
  {
    forall x, at | x in v.c.valid && x in v.c.tickets && Owns(v.c.tickets[x], at)
      ensures Alive(v, at, v.c.valid[x] + cfg.margin)
    {
      if x == t.token {
        assert Alive(w, at, started + cfg.ttl);
      } else {
        assert Alive(w, at, w.c.valid[x] + cfg.margin);
      }
    }
  }

  lemma RenewCheckSection(cfg: Config, w: World, o: OpId, t: Ticket, back: Option<Identity>)
    requires Inv(cfg, w) && o in w.ops && w.ops[o] == RenewChecking(t, back)
    ensures Inv(cfg, ApplyGo(cfg, w, o, w.ops[o], 0))
  {
    hide OpsOk, Apart, PendingOk, TicketsOk, LeasesOk, ValidOk, CreditsOk, LogOk, NothingForgotten;
    assert OpOk(cfg, w, w.ops[o]) by { OpIsOk(cfg, w, o); }
    if !RenewOk(w.c, t) {
      AfterRenewStep(cfg, w, o, false, t, back);
    } else if RenewCached(w.c, t, w.now) {
      AfterRenewStep(cfg, w, o, true, t, back);
    } else {
      QuietPut(cfg, w, o, RenewSending(t, back));
    }
  }

  // ---- all steps --------------------------------------------------------------

  predicate Cleaning(op: Op) {
    op.Calling? || op.Queueing? || op.Draining? || op.Requeueing? || op.Settled?
  }

  lemma CleaningSection(cfg: Config, w: World, o: OpId, op: Op, token: Token)
    requires Inv(cfg, w) && o in w.ops && w.ops[o] == op && StepEnabled(cfg, w, op, Go(token))
    requires Cleaning(op)
    ensures Inv(cfg, ApplyGo(cfg, w, o, op, token))
  {
    hide OpsOk, Apart, PendingOk, TicketsOk, LeasesOk, ValidOk, CreditsOk, LogOk, NothingForgotten;
    assert OpOk(cfg, w, op) by { OpIsOk(cfg, w, o); }
    match op
    case Calling(goal, work, acked) => QuietPut(cfg, w, o, ApplyGo(cfg, w, o, op, token).ops[o]);
    case Queueing(goal, work, e) => QueueSection(cfg, w, o, op);
    case Draining(goal, acked, budget) => PopSection(cfg, w, o, goal, acked, budget);
    case Requeueing(goal, e) => QueueSection(cfg, w, o, op);
    case Settled(goal, acked) => FinishSection(cfg, w, o, goal, acked);
  }

  lemma WorkingSection(cfg: Config, w: World, o: OpId, op: Op, token: Token)
    requires Inv(cfg, w) && o in w.ops && w.ops[o] == op && StepEnabled(cfg, w, op, Go(token))
    requires !Cleaning(op)
    ensures Inv(cfg, ApplyGo(cfg, w, o, op, token))
  {
    hide OpsOk, Apart, PendingOk, TicketsOk, LeasesOk, ValidOk, CreditsOk, LogOk, NothingForgotten;
    assert OpOk(cfg, w, op) by { OpIsOk(cfg, w, o); }
    hide ApplyRetire, ApplyRaise, ApplyRenewCheck, ApplyRenewCommit;
    match op
    case Admitting(id) =>
      if AdmitOk(cfg, w.c, id) { AdmitSection(cfg, w, o, id); } else { QuietEnd(cfg, w, o); }
    case Starting(id) => QuietPut(cfg, w, o, Reserving(id, w.now, seq(cfg.ranks, _ => Waiting)));
    case Reserving(id, started, answers) =>
      if CommitOk(w.c, id.pair, Complete(answers), w.now, started + cfg.ttl - cfg.margin) {
        CommitAccepted(cfg, w, o, op, token);
      } else {
        CommitRefused(cfg, w, o, op);
      }
    case Retiring(t, drop) => RetireSection(cfg, w, o, t, drop);
    case Vetoing(pair, after) => RaiseSection(cfg, w, o, pair, after);
    case RenewChecking(t, back) => RenewCheckSection(cfg, w, o, t, back);
    case RenewSending(t, back) =>
      QuietPut(cfg, w, o, Renewing(t, back, w.now, seq(cfg.ranks, _ => Unknown)));
    case Renewing(t, back, started, replies) => RenewCommitSection(cfg, w, o, op);
    case Rechecking(t, id) =>
      if RecheckOk(w.c, id, t) { QuietEnd(cfg, w, o); } else { QuietPut(cfg, w, o, Admitting(id)); }
  }

  lemma StepKeeps(cfg: Config, w: World, a: Act)
    requires Inv(cfg, w) && Enabled(cfg, w, a)
    ensures Inv(cfg, Apply(cfg, w, a))
  {
    hide OpsOk, Apart, PendingOk, TicketsOk, LeasesOk, ValidOk, CreditsOk, LogOk, NothingForgotten;
    match a
    case Outside(e) => EventStep(cfg, w, e);
    case Begin(o, call) => CallStep(cfg, w, o, call);
    case Advance(o, step) =>
      var op := w.ops[o];
      match step
      case Granted(at, expiry, seen) => GrantedStep(cfg, w, o, op, at, expiry, seen);
      case Denied(rank) => DeniedStep(cfg, w, o, op, rank);
      case Replied(ack, effect, trails) =>
        if op.Calling? { ReplyStep(cfg, w, o, op, ack, effect, trails); } else { ReplayStep(cfg, w, o, op, ack, effect, trails); }
      case RenewReplied(rank, ok, effect, expiry) => RenewReplyStep(cfg, w, o, op, rank, ok, effect, expiry);
      case Go(token) =>
        if Cleaning(op) { CleaningSection(cfg, w, o, op, token); } else { WorkingSection(cfg, w, o, op, token); }
  }
}
