/** What the remote coordinator guarantees on every run. */
module RemoteTheorems {
  import opened Basics
  import opened Coordination
  import opened RemoteProtocol
  import opened Credits
  import opened RemoteInvariant
  import opened RemoteSteps

  ghost predicate Reachable(cfg: Config, w: World)
    requires cfg.Valid()
  {
    exists ws: seq<World>, acts: seq<Act> :: Run(cfg, ws, acts) && ws[0] == Init() && ws[|acts|] == w
  }

  lemma StepOf(cfg: Config, ws: seq<World>, acts: seq<Act>, i: nat)
    requires cfg.Valid() && Run(cfg, ws, acts) && i < |acts|
    ensures Enabled(cfg, ws[i], acts[i]) && ws[i+1] == Apply(cfg, ws[i], acts[i])
  {
  }

  lemma {:induction false} InvAlong(cfg: Config, ws: seq<World>, acts: seq<Act>, i: nat)
    requires cfg.Valid() && Run(cfg, ws, acts) && Inv(cfg, ws[0]) && i <= |acts|
    ensures Inv(cfg, ws[i])
  {
    hide Inv, Enabled, Apply;
    if i > 0 {
      InvAlong(cfg, ws, acts, i - 1);
      StepOf(cfg, ws, acts, i - 1);
      StepKeeps(cfg, ws[i - 1], acts[i - 1]);
    }
  }

  lemma ReachableInv(cfg: Config, w: World)
    requires cfg.Valid() && Reachable(cfg, w)
    ensures Inv(cfg, w)
  {
    var ws: seq<World>, acts: seq<Act> :| Run(cfg, ws, acts) && ws[0] == Init() && ws[|acts|] == w;
    InitInv(cfg);
    InvAlong(cfg, ws, acts, |acts|);
  }

  lemma ReachableNext(cfg: Config, w: World, a: Act)
    requires cfg.Valid() && Reachable(cfg, w) && Enabled(cfg, w, a)
    ensures Reachable(cfg, Apply(cfg, w, a))
  {
    var ws: seq<World>, acts: seq<Act> :| Run(cfg, ws, acts) && ws[0] == Init() && ws[|acts|] == w;
    var v := Apply(cfg, w, a);
    assert Run(cfg, ws + [v], acts + [a]);
  }

  lemma ReachableInit(cfg: Config)
    requires cfg.Valid()
    ensures Reachable(cfg, Init())
  {
    assert Run(cfg, [Init()], []);
  }

  // ---- credits ----------------------------------------------------------------

  /** At every instant the byte counter is exactly what the tickets and the reservations in
      progress were charged, both bounds hold, and every pending credit belongs to an
      operation that is still running. */
  lemma CreditConservation(cfg: Config, w: World)
    requires cfg.Valid() && Reachable(cfg, w)
    ensures w.c.bytes == TicketCharges(w.c.tickets) + PendingCharges(cfg, w.c.pending)
    ensures |w.c.tickets| + |w.c.pending| <= cfg.maxKeys && w.c.bytes <= cfg.maxBytes
    ensures forall id :: id in w.c.pending <==> Held(w, id)
  {
    ReachableInv(cfg, w);
    forall id | Held(w, id) ensures id in w.c.pending {
      var o :| o in w.ops && Holds(w.ops[o]) == Some(id);
      assert OpOk(cfg, w, w.ops[o]);
    }
  }

  /** A ticket leaves the books, and its credits come back, only after no rank holds any of
      its leases. */
  lemma ChargedWhileHeld(cfg: Config, w: World, t: Ticket, at: RankLease)
    requires cfg.Valid() && Reachable(cfg, w)
    requires t in w.issued && Owns(t, at) && at in w.leases
    ensures t.token in w.c.tickets && w.c.tickets[t.token] == t
  {
    ReachableInv(cfg, w);
  }

  // ---- vetoes -----------------------------------------------------------------

  // How the books may move in one step, whichever operation takes it.
  ghost predicate Onward(c: Coord, d: Coord, issued: set<Ticket>) {
    && (c.lost ==> d.lost) && (c.closed ==> d.closed)
    && (forall p :: p in c.invalid ==> p in d.invalid || Drained(d, p))
    && (forall x :: x in d.tickets ==>
          || (x in c.tickets && d.tickets[x] == c.tickets[x])
          || (!c.closed && d.tickets[x].pair !in c.invalid && forall k :: k in issued ==> k.token != x))
  }

  ghost predicate Forward(w: World, v: World) {
    w.issued <= v.issued && Onward(w.c, v.c, w.issued)
  }

  lemma OnwardPlain(c: Coord, d: Coord, issued: set<Ticket>)
    requires d.tickets == c.tickets && c.invalid <= d.invalid && (c.lost ==> d.lost) && (c.closed ==> d.closed)
    ensures Onward(c, d, issued)
  {
  }

  // Only a drained pair loses its veto.
  lemma OnwardClear(c: Coord, d: Coord, pair: Pair, issued: set<Ticket>)
    requires d.tickets == c.tickets && c.invalid == d.invalid && c.lost == d.lost && c.closed == d.closed
    ensures Onward(c, ClearVeto(d, pair), issued)
  {
  }

  lemma OnwardDrop(c: Coord, t: Token, issued: set<Ticket>)
    ensures Onward(c, Drop(c, t), issued)
  {
    DropShape(c, t);
  }

  lemma OnwardCommit(c: Coord, t: Ticket, until: real, issued: set<Ticket>)
    requires !c.closed && t.pair !in c.invalid && forall k :: k in issued ==> k.token != t.token
    ensures Onward(c, Commit(c, t, until), issued)
  {
  }

  lemma ForwardFinish(cfg: Config, w: World, o: OpId, goal: Goal, acked: bool)
    requires cfg.Valid()
    ensures Forward(w, ApplyFinish(cfg, w, o, goal, acked))
  {
    hide Onward, Drop, ClearVeto;
    match goal
    case GiveUp(id) =>
      OnwardClear(w.c, w.c.(pending := w.c.pending - {id}, bytes := w.c.bytes - Charge(cfg, id)), id.pair, w.issued);
    case LetGo(t, drop) =>
      OnwardDrop(w.c, t.token, w.issued);
      OnwardPlain(w.c, w.c, w.issued);
    case Veto(pair, after) =>
      OnwardClear(w.c, w.c.(acked := w.c.acked + {pair}), pair, w.issued);
      OnwardPlain(w.c, w.c, w.issued);
    case Renewed(ok, t, back) => OnwardPlain(w.c, w.c, w.issued);
  }

  // A section that touches no other operation, leaves the tickets alone and lifts no veto.
  ghost predicate Tame(w: World, v: World, o: OpId) {
    && Alone(w, v, o) && SameRanks(w, v) && w.withdrawn <= v.withdrawn
    && v.issued == w.issued && v.origin == w.origin
    && v.c.tickets == w.c.tickets && v.c.identities == w.c.identities && w.c.invalid <= v.c.invalid
    && (w.c.lost ==> v.c.lost) && (w.c.closed ==> v.c.closed)
  }

  // Nothing happens at the ranks, and no time passes.
  ghost predicate SameRanks(w: World, v: World) {
    && v.now == w.now && v.leases == w.leases && v.granted == w.granted && v.sent == w.sent
    && v.writes == w.writes && v.taken == w.taken && v.late == w.late
  }

  // A step of one operation does not touch the others.
  ghost predicate Alone(w: World, v: World, o: OpId) {
    && w.used <= v.used && v.used <= w.used + {o}
    && v.ops.Keys <= w.ops.Keys + {o} && w.ops.Keys <= v.ops.Keys + {o}
    && (forall x :: x in w.ops && x != o ==> v.ops[x] == w.ops[x])
    && (forall x :: x in v.origin ==> (x in w.origin && v.origin[x] == w.origin[x]) || v.origin[x] == o)
  }

  ghost predicate TameBooks(c: Coord, d: Coord) {
    && d.tickets == c.tickets && d.identities == c.identities
    && c.invalid <= d.invalid && (c.lost ==> d.lost) && (c.closed ==> d.closed)
  }

  lemma TamePut(w: World, d: Coord, given: set<RankLease>, o: OpId, op: Op)
    requires o in w.ops && TameBooks(w.c, d) && w.withdrawn <= given
    ensures Tame(w, Put(w.(c := d, withdrawn := given), o, op), o)
    ensures Tame(w, End(w.(c := d, withdrawn := given), o), o)
  {
  }

  lemma TameReserve(cfg: Config, w: World, o: OpId, t: Ticket, id: Identity)
    requires o in w.ops
    ensures Tame(w, ApplyAdmit(cfg, w, o, id), o)
    ensures Tame(w, ApplyStart(cfg, w, o, id), o)
    ensures Tame(w, ApplyRecheck(w, o, t, id), o)
  {
    hide AdmitOk, Charge, RecheckOk, Tame;
    TamePut(w, w.c, w.withdrawn, o, Admitting(id));
    TamePut(w, Admit(cfg, w.c, id), w.withdrawn, o, Starting(id));
    TamePut(w, w.c, w.withdrawn, o, Reserving(id, w.now, seq(cfg.ranks, _ => Waiting)));
    TamePut(w, w.c, w.withdrawn, o, ApplyStart(cfg, w, o, id).ops[o]);
  }

  lemma TameClean(cfg: Config, w: World, o: OpId, goal: Goal, acked: bool, budget: nat, work: seq<Entry>, e: Entry)
    requires o in w.ops && 0 < cfg.retryCap
    ensures Tame(w, ApplyDrain(cfg, w, o, goal, acked), o)
    ensures Tame(w, ApplyPop(w, o, goal, acked, budget), o)
    ensures Tame(w, ApplyQueue(cfg, w, o, goal, work, e), o)
    ensures Tame(w, ApplyRequeue(cfg, w, o, goal, e), o)
  {
    TamePop(w, o, goal, acked, budget);
    hide Tame, ApplyPop, TameBooks;
    assert TameBooks(w.c, w.c) && TameBooks(w.c, Replay(cfg, w.c, e)) by { TameReplay(cfg, w.c, e); }
    hide Replay;
    TamePut(w, w.c, w.withdrawn, o, ApplyDrain(cfg, w, o, goal, acked).ops[o]);
    TamePut(w, Replay(cfg, w.c, e), w.withdrawn, o, Calling(goal, work, false));
    TamePut(w, Replay(cfg, w.c, e), w.withdrawn, o, Settled(goal, false));
  }

  lemma TameReplay(cfg: Config, c: Coord, e: Entry)
    requires 0 < cfg.retryCap
    ensures TameBooks(c, c) && TameBooks(c, Replay(cfg, c, e))
  {
  }

  lemma TamePop(w: World, o: OpId, goal: Goal, acked: bool, budget: nat)
    requires o in w.ops
    ensures Tame(w, ApplyPop(w, o, goal, acked, budget), o)
  {
    hide Tame;
    if budget == 0 || w.c.retry == [] {
      TamePut(w, w.c, w.withdrawn, o, Settled(goal, acked && w.c.retry == [] && !w.c.lost));
    } else {
      TamePut(w, w.c.(retry := w.c.retry[1..]), w.withdrawn, o, Replaying(goal, acked, budget - 1, w.c.retry[0]));
    }
  }

  lemma TameRetire(cfg: Config, w: World, o: OpId, t: Ticket, drop: bool, pair: Pair, after: Option<Ticket>)
    requires o in w.ops
    ensures Tame(w, ApplyRetire(w, o, t, drop), o)
    ensures cfg.Valid() ==> Tame(w, ApplyRaise(cfg, w, o, pair, after), o)
  {
    hide Tame, Releases, Invalidations, RaiseOk;
    var u := Withdraw(w, t);
    TamePut(w, u.c, u.withdrawn, o, Calling(LetGo(t, drop), Releases(t.leases, 0), true));
    var d := Raise(cfg, w.c, pair);
    TamePut(w, d, w.withdrawn, o, Calling(Veto(pair, after), Invalidations(cfg.ranks, pair, 0), true));
    if after.Some? {
      TamePut(w, d, w.withdrawn, o, Retiring(after.value, false));
    }
  }

  lemma TameRenew(cfg: Config, w: World, o: OpId, t: Ticket, back: Option<Identity>, started: real, replies: seq<Reply>)
    requires o in w.ops
    ensures Tame(w, ApplyRenewCheck(w, o, t, back), o)
    ensures Tame(w, ApplyRenewSend(cfg, w, o, t, back), o)
    ensures Tame(w, ApplyRenewCommit(cfg, w, o, t, back, started, replies), o)
  {
    hide Tame, RenewOk, RenewCached, AfterRenew, ApplyRenewCommit;
    TamePut(w, w.c, w.withdrawn, o, RenewSending(t, back));
    TameAfter(w, o, true, t, back);
    TameAfter(w, o, false, t, back);
    TamePut(w, w.c, w.withdrawn, o, ApplyRenewSend(cfg, w, o, t, back).ops[o]);
    TameRenewed(cfg, w, o, t, back, started, replies);
  }

  lemma TameAfter(w: World, o: OpId, ok: bool, t: Ticket, back: Option<Identity>)
    requires o in w.ops
    ensures Tame(w, AfterRenew(w, o, ok, t, back), o)
  {
    hide Tame;
    TamePut(w, w.c, w.withdrawn, o, Retiring(t, true));
    if back.Some? {
      TamePut(w, w.c, w.withdrawn, o, Rechecking(t, back.value));
    }
  }

  lemma TameRenewed(cfg: Config, w: World, o: OpId, t: Ticket, back: Option<Identity>, started: real, replies: seq<Reply>)
    requires o in w.ops
    ensures Tame(w, ApplyRenewCommit(cfg, w, o, t, back, started, replies), o)
  {
    hide Tame, RenewCommitOk;
    var v := ApplyRenewCommit(cfg, w, o, t, back, started, replies);
    TamePut(w, v.c, w.withdrawn, o, v.ops[o]);
  }

  lemma TameGo(cfg: Config, w: World, o: OpId, op: Op, token: Token)
    requires cfg.Valid() && o in w.ops && StepEnabled(cfg, w, op, Go(token)) && !op.Reserving? && !op.Settled?
    ensures Tame(w, ApplyGo(cfg, w, o, op, token), o)
  {
    hide Tame, ApplyAdmit, ApplyStart, ApplyRecheck, ApplyDrain, ApplyPop, ApplyQueue, ApplyRequeue, ApplyRetire,
      ApplyRaise, ApplyRenewCheck, ApplyRenewSend, ApplyRenewCommit, ApplyCommit, ApplyFinish;
    match op
    case Admitting(id) => TameReserve(cfg, w, o, Ticket(0, id.pair, [], [], [], false), id);
    case Starting(id) => TameReserve(cfg, w, o, Ticket(0, id.pair, [], [], [], false), id);
    case Rechecking(t, id) => TameReserve(cfg, w, o, t, id);
    case Calling(goal, work, acked) => TameClean(cfg, w, o, goal, acked, 0, work, Release(At(0, 0)));
    case Queueing(goal, work, e) => TameClean(cfg, w, o, goal, false, 0, work, e);
    case Draining(goal, acked, budget) => TameClean(cfg, w, o, goal, acked, budget, [], Release(At(0, 0)));
    case Requeueing(goal, e) => TameClean(cfg, w, o, goal, false, 0, [], e);
    case Retiring(t, drop) => TameRetire(cfg, w, o, t, drop, t.pair, None);
    case Vetoing(pair, after) => TameRetire(cfg, w, o, Ticket(0, pair, [], [], [], false), false, pair, after);
    case RenewChecking(t, back) => TameRenew(cfg, w, o, t, back, 0.0, []);
    case RenewSending(t, back) => TameRenew(cfg, w, o, t, back, 0.0, []);
    case Renewing(t, back, started, replies) => TameRenew(cfg, w, o, t, back, started, replies);
  }

  // What an operation turns into in its next critical section, unless it ends there.
  ghost predicate Next(cfg: Config, w: World, op: Op, d: Coord, next: Op) {
    match op
    case Admitting(id) => AdmitOk(cfg, w.c, id) && next == Starting(id)
    case Starting(id) => next == Reserving(id, w.now, seq(cfg.ranks, _ => Waiting))
    case Reserving(id, started, answers) =>
      && !CommitOk(w.c, id.pair, Complete(answers), w.now, started + cfg.ttl - cfg.margin)
      && next == Calling(GiveUp(id), Rollbacks(answers, 0), true)
    case Calling(goal, _, acked) => next.Draining? && next.goal == goal && next.acked == acked
    case Queueing(goal, work, _) => next == Calling(goal, work, false)
    case Draining(goal, acked, budget) =>
      && (next.Settled? || next.Replaying?) && next.goal == goal && (next.acked ==> acked)
      && (next.Settled? && next.acked ==> w.c.retry == [] && !w.c.lost)
      && (next.Replaying? ==> next.acked == acked && w.c.retry != [] && next.entry == w.c.retry[0])
    case Replaying(_, _, _, _) => false
    case Requeueing(goal, _) => next == Settled(goal, false)
    case Settled(goal, acked) =>
      match goal {
        case Veto(_, after) => after.Some? && next == Retiring(after.value, acked)
        case Renewed(ok, t, back) => back.Some? && next == if ok then Rechecking(t, back.value) else Retiring(t, true)
        case _ => false
      }
    case Retiring(t, drop) => next == Calling(LetGo(t, drop), Releases(t.leases, 0), true)
    case Vetoing(pair, after) =>
      if RaiseOk(cfg, w.c, pair) then
        pair in d.invalid && next == Calling(Veto(pair, after), Invalidations(cfg.ranks, pair, 0), true)
      else after.Some? && next == Retiring(after.value, false)
    case RenewChecking(t, back) =>
      || (RenewOk(w.c, t) && next == RenewSending(t, back))
      || (RenewOk(w.c, t) && back.Some? && next == Rechecking(t, back.value))
      || (!RenewOk(w.c, t) && back.Some? && next == Retiring(t, true))
    case RenewSending(t, back) => next == Renewing(t, back, w.now, seq(cfg.ranks, _ => Unknown))
    case Renewing(t, back, _, _) =>
      next.Calling? && next.goal.Renewed? && next.goal.ticket == t && next.goal.back == back && next.work == [] && next.acked
    case Rechecking(t, id) => !RecheckOk(w.c, id, t) && next == Admitting(id)
  }

  lemma GoNext(cfg: Config, w: World, o: OpId, op: Op, token: Token)
    requires cfg.Valid() && o in w.ops && StepEnabled(cfg, w, op, Go(token))
    ensures
      var v := ApplyGo(cfg, w, o, op, token);
      o in v.ops ==> Next(cfg, w, op, v.c, v.ops[o])
  {
    hide ApplyAdmit, ApplyStart, ApplyRecheck, ApplyDrain, ApplyPop, ApplyQueue, ApplyRequeue, ApplyRetire,
      ApplyRaise, ApplyRenewCheck, ApplyRenewSend, ApplyRenewCommit, ApplyCommit, ApplyFinish;
    match op
    case Admitting(id) => NextReserve(cfg, w, o, Ticket(0, id.pair, [], [], [], false), id);
    case Starting(id) => NextReserve(cfg, w, o, Ticket(0, id.pair, [], [], [], false), id);
    case Rechecking(t, id) => NextReserve(cfg, w, o, t, id);
    case Reserving(id, started, answers) => NextCommit(cfg, w, o, id, started, answers, token);
    case Calling(goal, work, acked) => NextClean(cfg, w, o, goal, acked, 0, work, Release(At(0, 0)));
    case Queueing(goal, work, e) => NextClean(cfg, w, o, goal, false, 0, work, e);
    case Draining(goal, acked, budget) => NextClean(cfg, w, o, goal, acked, budget, [], Release(At(0, 0)));
    case Requeueing(goal, e) => NextClean(cfg, w, o, goal, false, 0, [], e);
    case Settled(goal, acked) => NextFinish(cfg, w, o, goal, acked);
    case Retiring(t, drop) => NextRetire(cfg, w, o, t, drop);
    case Vetoing(pair, after) => NextRaise(cfg, w, o, pair, after);
    case RenewChecking(t, back) => NextCheck(w, o, t, back);
    case RenewSending(t, back) => NextSend(cfg, w, o, t, back);
    case Renewing(t, back, started, replies) => NextRenew(cfg, w, o, t, back, started, replies);
  }

  lemma NextReserve(cfg: Config, w: World, o: OpId, t: Ticket, id: Identity)
    ensures
      var v := ApplyAdmit(cfg, w, o, id);
      o in v.ops ==> AdmitOk(cfg, w.c, id) && v.ops[o] == Starting(id)
    ensures
      var v := ApplyStart(cfg, w, o, id);
      o in v.ops && v.ops[o] == Reserving(id, w.now, seq(cfg.ranks, _ => Waiting))
    ensures
      var v := ApplyRecheck(w, o, t, id);
      o in v.ops ==> v.ops[o] == Admitting(id) && !RecheckOk(w.c, id, t)
  {
    hide AdmitOk, Charge, RecheckOk;
  }

  lemma NextCommit(cfg: Config, w: World, o: OpId, id: Identity, started: real, answers: seq<Answer>, token: Token)
    ensures
      var v := ApplyCommit(cfg, w, o, id, started, answers, token);
      o in v.ops ==>
        && !CommitOk(w.c, id.pair, Complete(answers), w.now, started + cfg.ttl - cfg.margin)
        && v.ops[o] == Calling(GiveUp(id), Rollbacks(answers, 0), true)
  {
    hide Rollbacks, SeenLeases, Commit, Minted;
  }

  // The goal of a cleanup does not change on the way.
  lemma NextClean(cfg: Config, w: World, o: OpId, goal: Goal, acked: bool, budget: nat, work: seq<Entry>, e: Entry)
    requires cfg.Valid()
    ensures
      var v := ApplyDrain(cfg, w, o, goal, acked);
      o in v.ops && v.ops[o].Draining? && v.ops[o].goal == goal && v.ops[o].acked == acked
    ensures
      var v := ApplyQueue(cfg, w, o, goal, work, e);
      o in v.ops && v.ops[o] == Calling(goal, work, false)
    ensures
      var v := ApplyRequeue(cfg, w, o, goal, e);
      o in v.ops && v.ops[o] == Settled(goal, false)
    ensures
      var v := ApplyPop(w, o, goal, acked, budget);
      o in v.ops && Next(cfg, w, Draining(goal, acked, budget), v.c, v.ops[o])
  {
    hide Replay;
  }

  lemma NextFinish(cfg: Config, w: World, o: OpId, goal: Goal, acked: bool)
    requires cfg.Valid()
    ensures
      var v := ApplyFinish(cfg, w, o, goal, acked);
      o in v.ops ==> Next(cfg, w, Settled(goal, acked), v.c, v.ops[o])
  {
    hide Abandon, Drop, Acknowledge;
  }

  lemma NextRetire(cfg: Config, w: World, o: OpId, t: Ticket, drop: bool)
    ensures
      var v := ApplyRetire(w, o, t, drop);
      o in v.ops ==> v.ops[o] == Calling(LetGo(t, drop), Releases(t.leases, 0), true)
  {
    hide Releases, LeaseSet;
  }

  lemma NextRaise(cfg: Config, w: World, o: OpId, pair: Pair, after: Option<Ticket>)
    requires cfg.Valid()
    ensures
      var v := ApplyRaise(cfg, w, o, pair, after);
      o in v.ops ==> Next(cfg, w, Vetoing(pair, after), v.c, v.ops[o])
  {
    hide Invalidations, RaiseOk;
  }

  lemma NextCheck(w: World, o: OpId, t: Ticket, back: Option<Identity>)
    ensures
      var v := ApplyRenewCheck(w, o, t, back);
      o in v.ops ==>
        || (RenewOk(w.c, t) && v.ops[o] == RenewSending(t, back))
        || (RenewOk(w.c, t) && back.Some? && v.ops[o] == Rechecking(t, back.value))
        || (!RenewOk(w.c, t) && back.Some? && v.ops[o] == Retiring(t, true))
  {
    hide RenewOk, RenewCached;
  }

  lemma NextSend(cfg: Config, w: World, o: OpId, t: Ticket, back: Option<Identity>)
    ensures
      var v := ApplyRenewSend(cfg, w, o, t, back);
      o in v.ops && v.ops[o] == Renewing(t, back, w.now, seq(cfg.ranks, _ => Unknown))
  {
  }

  lemma NextRenew(cfg: Config, w: World, o: OpId, t: Ticket, back: Option<Identity>, started: real, replies: seq<Reply>)
    ensures
      var v := ApplyRenewCommit(cfg, w, o, t, back, started, replies);
      o in v.ops ==>
        var next := v.ops[o];
        next.Calling? && next.goal.Renewed? && next.goal.ticket == t && next.goal.back == back && next.work == [] && next.acked
  {
    hide RenewCommitOk;
  }

  // Only a reservation, a finished operation, a refused call or a second look ends.
  lemma GoStays(cfg: Config, w: World, o: OpId, op: Op, token: Token)
    requires cfg.Valid() && StepEnabled(cfg, w, op, Go(token)) && !op.Reserving? && !op.Settled?
    ensures
      var v := ApplyGo(cfg, w, o, op, token);
      Holds(op).Some? ==> o in v.ops && o in v.used
  {
    hide ApplyAdmit, ApplyRecheck, ApplyRetire, ApplyRaise, ApplyRenewCheck, ApplyRenewSend, ApplyRenewCommit,
      ApplyCommit, ApplyFinish, Replay;
  }

  // Only logging and replaying touch the log.
  lemma SameLogFinish(cfg: Config, w: World, o: OpId, goal: Goal, acked: bool)
    requires cfg.Valid()
    ensures ApplyFinish(cfg, w, o, goal, acked).c.retry == w.c.retry
  {
    hide Drained, Charge, Retire;
    match goal
    case GiveUp(id) =>
    case LetGo(t, drop) => DropShape(w.c, t.token); hide Drop;
    case Veto(pair, after) =>
    case Renewed(ok, t, back) =>
  }

  lemma SameLog(cfg: Config, w: World, o: OpId, op: Op, token: Token)
    requires cfg.Valid() && StepEnabled(cfg, w, op, Go(token))
    ensures op.Reserving? ==> ApplyCommit(cfg, w, o, op.id, op.started, op.answers, token).c.retry == w.c.retry
    ensures op.Vetoing? ==> ApplyRaise(cfg, w, o, op.pair, op.after).c.retry == w.c.retry
    ensures op.Renewing? ==>
      ApplyRenewCommit(cfg, w, o, op.ticket, op.back, op.started, op.replies).c.retry == w.c.retry
    ensures op.RenewChecking? ==> forall ok :: AfterRenew(w, o, ok, op.ticket, op.back).c.retry == w.c.retry
  {
    hide Drained, Invalidations, Rollbacks, RenewCommitOk, RaiseOk, Charge, CommitOk, Commit;
    hide ApplyCommit, AfterRenew, ApplyRenewCommit, ApplyRaise;
    if op.Reserving? {
      SameLogCommit(cfg, w, o, op, token);
    } else if op.Vetoing? {
      SameLogRaise(cfg, w, o, op);
    } else if op.Renewing? {
      SameLogRenew(cfg, w, o, op);
    } else if op.RenewChecking? {
      SameLogAfter(w, o, op);
    }
  }

  lemma SameLogCommit(cfg: Config, w: World, o: OpId, op: Op, token: Token)
    requires op.Reserving?
    ensures ApplyCommit(cfg, w, o, op.id, op.started, op.answers, token).c.retry == w.c.retry
  {
    hide Rollbacks, Charge;
  }

  lemma SameLogRaise(cfg: Config, w: World, o: OpId, op: Op)
    requires op.Vetoing?
    ensures ApplyRaise(cfg, w, o, op.pair, op.after).c.retry == w.c.retry
  {
    hide Invalidations, RaiseOk, Raise;
    RaiseLog(cfg, w.c, op.pair);
  }

  lemma RaiseLog(cfg: Config, c: Coord, p: Pair)
    ensures Raise(cfg, c, p).retry == c.retry
  {
  }

  lemma SameLogAfter(w: World, o: OpId, op: Op)
    requires op.RenewChecking? || op.Renewing?
    ensures forall ok :: AfterRenew(w, o, ok, op.ticket, op.back).c.retry == w.c.retry
  {
  }

  lemma SameLogRenew(cfg: Config, w: World, o: OpId, op: Op)
    requires op.Renewing?
    ensures ApplyRenewCommit(cfg, w, o, op.ticket, op.back, op.started, op.replies).c.retry == w.c.retry
  {
    hide RenewCommitOk;
  }

  // A critical section does nothing at the ranks.
  lemma GoRanks(cfg: Config, w: World, o: OpId, op: Op, token: Token)
    requires cfg.Valid() && o in w.ops && StepEnabled(cfg, w, op, Go(token))
    ensures
      var v := ApplyGo(cfg, w, o, op, token);
      SameRanks(w, v) && w.withdrawn <= v.withdrawn && w.issued <= v.issued
  {
    if op.Reserving? {
      RanksCommit(cfg, w, o, op, token);
    } else if op.Settled? {
      RanksFinish(cfg, w, o, op, token);
    } else {
      hide ApplyGo;
      TameGo(cfg, w, o, op, token);
    }
  }

  lemma RanksCommit(cfg: Config, w: World, o: OpId, op: Op, token: Token)
    requires cfg.Valid() && op.Reserving?
    ensures
      var v := ApplyGo(cfg, w, o, op, token);
      SameRanks(w, v) && w.withdrawn <= v.withdrawn && w.issued <= v.issued
  {
    hide Rollbacks, Minted, Commit, CommitOk;
  }

  lemma RanksFinish(cfg: Config, w: World, o: OpId, op: Op, token: Token)
    requires cfg.Valid() && op.Settled?
    ensures
      var v := ApplyGo(cfg, w, o, op, token);
      SameRanks(w, v) && w.withdrawn <= v.withdrawn && w.issued <= v.issued
  {
    hide ApplyFinish;
    FinishShape(cfg, w, o, op.goal, op.acked);
  }

  lemma GoSettled(cfg: Config, w: World, o: OpId, op: Op, token: Token)
    requires cfg.Valid() && op.Settled?
    ensures ApplyGo(cfg, w, o, op, token) == ApplyFinish(cfg, w, o, op.goal, op.acked)
  {
  }

  // The last section of an operation changes the books and the operation.
  lemma FinishShape(cfg: Config, w: World, o: OpId, goal: Goal, acked: bool)
    requires cfg.Valid()
    ensures
      var v := ApplyFinish(cfg, w, o, goal, acked);
      && v == w.(c := v.c, ops := v.ops, used := w.used + {o})
      && v.ops == (if o in v.ops then w.ops[o := v.ops[o]] else w.ops - {o})
  {
    hide Abandon, Drop, Acknowledge, AfterRenew;
    if goal.Renewed? {
      AfterShape(w, o, goal.ok, goal.ticket, goal.back);
    }
  }

  lemma AfterShape(w: World, o: OpId, ok: bool, t: Ticket, back: Option<Identity>)
    ensures
      var v := AfterRenew(w, o, ok, t, back);
      && v == w.(ops := v.ops, used := w.used + {o})
      && v.ops == (if o in v.ops then w.ops[o := v.ops[o]] else w.ops - {o})
  {
  }

  lemma ForwardGo(cfg: Config, w: World, o: OpId, op: Op, token: Token)
    requires cfg.Valid() && o in w.ops && StepEnabled(cfg, w, op, Go(token))
    ensures Forward(w, ApplyGo(cfg, w, o, op, token))
  {
    hide Onward, Commit, ApplyFinish, Rollbacks;
    if op.Reserving? {
      OnwardPlain(w.c, w.c, w.issued);
      if Complete(op.answers) && !w.c.closed && op.id.pair !in w.c.invalid {
        OnwardCommit(w.c, Minted(cfg, token, op.id, op.answers), op.started + cfg.ttl - cfg.margin, w.issued);
      }
    } else if op.Settled? {
      ForwardFinish(cfg, w, o, op.goal, op.acked);
    } else {
      TameGo(cfg, w, o, op, token);
      hide ApplyGo;
      OnwardPlain(w.c, ApplyGo(cfg, w, o, op, token).c, w.issued);
    }
  }

  // A reply reaches operation `o`: only the ranks and that operation change.
  ghost predicate Answers(w: World, v: World, o: OpId) {
    && v.c == w.c && v.issued == w.issued && v.origin == w.origin && v.withdrawn == w.withdrawn
    && o in v.ops && v.ops == w.ops[o := v.ops[o]] && v.used == w.used + {o}
  }

  lemma DeliverShape(w: World, e: Entry, effect: bool, trails: bool)
    ensures
      var u := Deliver(w, e, effect, trails);
      && u.c == w.c && u.issued == w.issued && u.origin == w.origin && u.withdrawn == w.withdrawn
      && u.ops == w.ops && u.used == w.used && u.now == w.now && u.granted == w.granted && u.writes == w.writes
  {
    hide Victims;
  }

  lemma StepAnswers(cfg: Config, w: World, o: OpId, op: Op, step: Step)
    requires cfg.Valid() && o in w.ops && w.ops[o] == op && StepEnabled(cfg, w, op, step) && !step.Go?
    ensures Answers(w, ApplyStep(cfg, w, o, op, step), o)
  {
    hide ApplyGo, Deliver;
    if step.Replied? {
      DeliverShape(w, if op.Calling? then op.work[0] else op.entry, step.effect, step.trails);
    }
  }

  // Outside the coordinator's own steps only the ranks, the clock and its shutdown change.
  lemma EventShape(w: World, e: Event)
    ensures
      var v := ApplyEvent(w, e);
      && v.ops == w.ops && v.used == w.used && v.issued == w.issued && v.origin == w.origin
      && v.withdrawn == w.withdrawn && v.c == w.c.(closed := v.c.closed) && (w.c.closed ==> v.c.closed)
  {
    hide Victims;
  }

  // A call changes nothing but the list of operations.
  lemma CallShape(cfg: Config, w: World, o: OpId, call: Call)
    ensures
      var v := ApplyCall(cfg, w, o, call);
      && v == w.(ops := v.ops, used := w.used + {o})
      && v.ops == (if o in v.ops then w.ops[o := v.ops[o]] else w.ops - {o})
  {
    hide Lookup, InvalidateWellFormed, Known, Sizes;
  }

  // How a call starts its operation, if it does not end at once.
  ghost predicate Begun(w: World, call: Call, op: Op) {
    match call
    case Reserve(id, _) =>
      || (Lookup(w.c, id).Existing? && op == RenewChecking(Lookup(w.c, id).ticket, Some(id)))
      || (Lookup(w.c, id).Absent? && op == Admitting(id))
    case GiveBack(t) => op == Retiring(t, true)
    case Quarantine(pair) => op == Vetoing(pair, None)
    case CompleteStore(t, durable) => op == if durable then Retiring(t, true) else Vetoing(t.pair, Some(t))
    case Renew(t) => op == RenewChecking(t, None)
  }

  lemma CallBegins(cfg: Config, w: World, o: OpId, call: Call)
    requires o !in w.ops
    ensures o in ApplyCall(cfg, w, o, call).ops ==> Begun(w, call, ApplyCall(cfg, w, o, call).ops[o])
  {
    hide Lookup, InvalidateWellFormed, Known, Sizes;
  }

  lemma ForwardStep(cfg: Config, w: World, a: Act)
    requires cfg.Valid() && Enabled(cfg, w, a)
    ensures Forward(w, Apply(cfg, w, a))
  {
    hide ApplyGo, Drained, ApplyEvent, ApplyCall, ApplyStep;
    match a
    case Advance(o, step) =>
      if step.Go? {
        ForwardGo(cfg, w, o, w.ops[o], step.token);
        StepGo(cfg, w, o, w.ops[o], step.token);
      } else {
        StepAnswers(cfg, w, o, w.ops[o], step);
      }
    case Outside(e) => EventShape(w, e);
    case Begin(o, call) => CallShape(cfg, w, o, call);
  }

  lemma StepGo(cfg: Config, w: World, o: OpId, op: Op, token: Token)
    requires cfg.Valid() && StepEnabled(cfg, w, op, Go(token))
    ensures ApplyStep(cfg, w, o, op, Go(token)) == ApplyGo(cfg, w, o, op, token)
  {
  }

  // The ticket is vetoed, or it is no longer out.
  ghost predicate Spent(w: World, t: Ticket) {
    t in w.issued && (t.pair in w.c.invalid || t.token !in w.c.tickets)
  }

  lemma SpentStays(cfg: Config, w: World, a: Act, t: Ticket)
    requires Inv(cfg, w) && Enabled(cfg, w, a) && Spent(w, t)
    ensures Spent(Apply(cfg, w, a), t)
  {
    ForwardStep(cfg, w, a);
    var v := Apply(cfg, w, a);
    if t.token in v.c.tickets {
      assert w.c.tickets[t.token] == t;
    }
  }

  lemma {:induction false} SpentAlong(cfg: Config, ws: seq<World>, acts: seq<Act>, i: nat, j: nat, t: Ticket)
    requires cfg.Valid() && Run(cfg, ws, acts) && Inv(cfg, ws[0]) && i <= j <= |acts|
    requires Spent(ws[i], t)
    ensures Spent(ws[j], t)
    decreases j
  {
    hide Inv, Enabled, Apply, Spent;
    if i < j {
      SpentAlong(cfg, ws, acts, i, j - 1, t);
      InvAlong(cfg, ws, acts, j - 1);
      StepOf(cfg, ws, acts, j - 1);
      SpentStays(cfg, ws[j - 1], acts[j - 1], t);
    }
  }

  /** Once a pair is vetoed, a ticket already out for it never again has a deadline and never
      again passes a renewal check, first or last, in any later world. */
  lemma VetoDoomsTicket(cfg: Config, ws: seq<World>, acts: seq<Act>, i: nat, j: nat, t: Ticket)
    requires cfg.Valid() && Run(cfg, ws, acts) && ws[0] == Init() && i <= j <= |acts|
    requires t in ws[i].issued && t.pair in ws[i].c.invalid
    ensures Deadline(ws[j].c, t) == None && !RenewOk(ws[j].c, t)
    ensures forall now, until :: !RenewCommitOk(ws[j].c, t, now, until)
  {
    InitInv(cfg);
    SpentAlong(cfg, ws, acts, i, j, t);
  }

  /** The same for a deadline whose fields are read one after the other, each in a later
      world than the one before. */
  lemma VetoDoomsTornRead(cfg: Config, ws: seq<World>, acts: seq<Act>, i: nat, j: nat, l: nat, t: Ticket)
    requires cfg.Valid() && Run(cfg, ws, acts) && ws[0] == Init() && i <= j <= l <= |acts|
    requires t in ws[i].issued && t.pair in ws[i].c.invalid
    requires t.pair !in ws[j].c.invalid          // the read of the vetoes
    ensures t.token !in ws[l].c.tickets          // the later read of the tickets
  {
    InitInv(cfg);
    SpentAlong(cfg, ws, acts, i, j, t);
    GoneAlong(cfg, ws, acts, j, l, t);
  }

  lemma {:induction false} GoneAlong(cfg: Config, ws: seq<World>, acts: seq<Act>, i: nat, j: nat, t: Ticket)
    requires cfg.Valid() && Run(cfg, ws, acts) && i <= j <= |acts|
    requires t in ws[i].issued && t.token !in ws[i].c.tickets
    ensures t in ws[j].issued && t.token !in ws[j].c.tickets
    decreases j
  {
    hide Enabled, Apply, Drained;
    if i < j {
      GoneAlong(cfg, ws, acts, i, j - 1, t);
      StepOf(cfg, ws, acts, j - 1);
      ForwardStep(cfg, ws[j - 1], acts[j - 1]);
    }
  }

  // Operation `o` holds credits for a vetoed pair, or is over.
  ghost predicate Doomed(w: World, o: OpId, id: Identity) {
    && o in w.used
    && (o in w.ops ==> Holds(w.ops[o]) == Some(id) && id.pair in w.c.invalid)
  }

  lemma AloneGo(cfg: Config, w: World, o: OpId, op: Op, token: Token)
    requires cfg.Valid() && o in w.ops && StepEnabled(cfg, w, op, Go(token))
    ensures Alone(w, ApplyGo(cfg, w, o, op, token), o)
  {
    hide ApplyGo, Alone;
    if op.Reserving? {
      AloneCommit(cfg, w, o, op, token);
    } else if op.Settled? {
      AloneFinish(cfg, w, o, op, token);
    } else {
      TameGo(cfg, w, o, op, token);
    }
  }

  lemma AloneCommit(cfg: Config, w: World, o: OpId, op: Op, token: Token)
    requires cfg.Valid() && o in w.ops && op.Reserving?
    ensures Alone(w, ApplyGo(cfg, w, o, op, token), o)
  {
    hide Rollbacks, Minted, Commit;
  }

  lemma AloneFinish(cfg: Config, w: World, o: OpId, op: Op, token: Token)
    requires cfg.Valid() && o in w.ops && op.Settled?
    ensures Alone(w, ApplyGo(cfg, w, o, op, token), o)
  {
    hide ApplyFinish;
    FinishShape(cfg, w, o, op.goal, op.acked);
  }

  lemma AloneStep(cfg: Config, w: World, a: Act, o: OpId)
    requires cfg.Valid() && Enabled(cfg, w, a) && (a.Begin? || a.Advance?) && a.o == o
    ensures Alone(w, Apply(cfg, w, a), o)
  {
    hide ApplyGo, ApplyCall, ApplyStep;
    if a.Advance? && a.step.Go? {
      AloneGo(cfg, w, o, w.ops[o], a.step.token);
      StepGo(cfg, w, o, w.ops[o], a.step.token);
    } else if a.Advance? {
      StepAnswers(cfg, w, o, w.ops[o], a.step);
    } else {
      CallShape(cfg, w, o, a.call);
    }
  }

  // Nobody but `o` itself moves `o` or mints a ticket in its name.
  lemma OthersStay(cfg: Config, w: World, a: Act, o: OpId)
    requires cfg.Valid() && Enabled(cfg, w, a) && o in w.used && (a.Advance? ==> a.o != o)
    ensures
      var v := Apply(cfg, w, a);
      && o in v.used && (o in v.ops <==> o in w.ops) && (o in w.ops ==> v.ops[o] == w.ops[o])
      && forall x :: x in v.origin && v.origin[x] == o ==> x in w.origin && w.origin[x] == o
  {
    hide ApplyEvent, ApplyCall, ApplyStep;
    if a.Outside? {
      EventShape(w, a.event);
    } else {
      assert a.Begin? ==> a.o != o;
      AloneStep(cfg, w, a, a.o);
    }
  }

  lemma DoomedGo(cfg: Config, w: World, o: OpId, id: Identity, token: Token)
    requires cfg.Valid() && o in w.ops && StepEnabled(cfg, w, w.ops[o], Go(token))
    requires Holds(w.ops[o]) == Some(id) && id.pair in w.c.invalid
    ensures
      var v := ApplyGo(cfg, w, o, w.ops[o], token);
      && v.origin == w.origin && o in v.used
      && (o in v.ops ==> Holds(v.ops[o]) == Some(id) && id.pair in v.c.invalid)
  {
    hide ApplyGo;
    var op := w.ops[o];
    if op.Reserving? {
      DoomedCommit(cfg, w, o, op, token);
    } else if op.Settled? {
      DoomedFinish(cfg, w, o, op, token);
    } else {
      TameGo(cfg, w, o, op, token);
      HoldsOn(cfg, w, o, op, token);
    }
  }

  lemma DoomedCommit(cfg: Config, w: World, o: OpId, op: Op, token: Token)
    requires cfg.Valid() && op.Reserving? && op.id.pair in w.c.invalid
    ensures
      var v := ApplyGo(cfg, w, o, op, token);
      && v.origin == w.origin && o in v.used && o in v.ops && Holds(v.ops[o]) == Some(op.id)
      && v.c == w.c
  {
    hide Rollbacks, Minted, Commit, SeenLeases;
  }

  lemma DoomedFinish(cfg: Config, w: World, o: OpId, op: Op, token: Token)
    requires cfg.Valid() && op.Settled? && op.goal.GiveUp?
    ensures
      var v := ApplyGo(cfg, w, o, op, token);
      v.origin == w.origin && o in v.used && o !in v.ops
  {
    hide Abandon;
  }

  // A reservation keeps its credits until its last step.
  lemma HoldsOn(cfg: Config, w: World, o: OpId, op: Op, token: Token)
    requires cfg.Valid() && o in w.ops && StepEnabled(cfg, w, op, Go(token)) && !op.Reserving? && !op.Settled? && Holds(op).Some?
    ensures
      var v := ApplyGo(cfg, w, o, op, token);
      o in v.ops && Holds(v.ops[o]) == Holds(op) && o in v.used
  {
    hide ApplyGo;
    GoStays(cfg, w, o, op, token);
    GoNext(cfg, w, o, op, token);
  }

  lemma DoomedSelf(cfg: Config, w: World, o: OpId, id: Identity, step: Step)
    requires cfg.Valid() && o in w.ops && Doomed(w, o, id) && StepEnabled(cfg, w, w.ops[o], step)
    ensures
      var v := ApplyStep(cfg, w, o, w.ops[o], step);
      && v.origin == w.origin && Doomed(v, o, id)
  {
    hide ApplyGo;
    if step.Go? {
      DoomedGo(cfg, w, o, id, step.token);
    }
  }

  lemma DoomedStays(cfg: Config, w: World, a: Act, o: OpId, id: Identity)
    requires Inv(cfg, w) && Enabled(cfg, w, a) && Doomed(w, o, id)
    ensures Doomed(Apply(cfg, w, a), o, id)
    ensures forall x :: x in Apply(cfg, w, a).origin && Apply(cfg, w, a).origin[x] == o ==>
      x in w.origin && w.origin[x] == o
  {
    hide Apart, PendingOk, TicketsOk, LeasesOk, ValidOk, CreditsOk, LogOk, NothingForgotten, ApplyStep,
      ApplyCall, ApplyEvent;
    var v := Apply(cfg, w, a);
    if a.Advance? && a.o == o {
      DoomedSelf(cfg, w, o, id, a.step);
    } else {
      ForwardStep(cfg, w, a);
      StepKeeps(cfg, w, a);
      OthersStay(cfg, w, a, o);
      if o in v.ops {
        assert OpOk(cfg, v, v.ops[o]);
      }
    }
  }

  /** A reservation that holds credits when its pair is vetoed never becomes a ticket. */
  lemma {:induction false} VetoDoomsReservation(
    cfg: Config, ws: seq<World>, acts: seq<Act>, i: nat, j: nat, o: OpId, id: Identity)
    requires cfg.Valid() && Run(cfg, ws, acts) && ws[0] == Init() && i <= j <= |acts|
    requires o in ws[i].ops && Holds(ws[i].ops[o]) == Some(id) && id.pair in ws[i].c.invalid
    ensures Doomed(ws[j], o, id)
    ensures forall x :: x in ws[j].origin && ws[j].origin[x] == o ==> x in ws[i].origin && ws[i].origin[x] == o
    decreases j
  {
    hide Enabled, Apply, Apart, PendingOk, TicketsOk, LeasesOk, ValidOk, CreditsOk, LogOk, NothingForgotten;
    InitInv(cfg);
    InvAlong(cfg, ws, acts, i);
    if i < j {
      VetoDoomsReservation(cfg, ws, acts, i, j - 1, o, id);
      InvAlong(cfg, ws, acts, j - 1);
      StepOf(cfg, ws, acts, j - 1);
      DoomedStays(cfg, ws[j - 1], acts[j - 1], o, id);
    }
  }
}
