/** What every step of the remote coordinator keeps, whatever is in progress beside it. */
module RemoteInvariant {
  import opened Basics
  import opened Coordination
  import opened RemoteProtocol
  import opened Credits

  // ---- operations -------------------------------------------------------------

  // As long as the clock is before `until`, the rank still holds the lease that long, unless an
  // invalidation has revoked it.
  ghost predicate Alive(w: World, at: RankLease, until: real) {
    w.now < until && at !in w.taken ==> at in w.leases && until <= w.leases[at]
  }

  // The identity an operation holds credits for.
  function Holds(op: Op): Option<Identity> {
    match op
    case Starting(id) => Some(id)
    case Reserving(id, _, _) => Some(id)
    case Calling(GiveUp(id), _, _) => Some(id)
    case Queueing(GiveUp(id), _, _) => Some(id)
    case Draining(GiveUp(id), _, _) => Some(id)
    case Replaying(GiveUp(id), _, _, _) => Some(id)
    case Requeueing(GiveUp(id), _) => Some(id)
    case Settled(GiveUp(id), _) => Some(id)
    case _ => None
  }

  // The cleanup calls an operation still has to make or to log.
  function Owes(op: Op): seq<Entry> {
    match op
    case Calling(_, work, _) => work
    case Queueing(_, work, e) => [e] + work
    case Replaying(_, _, _, e) => [e]
    case Requeueing(_, e) => [e]
    case _ => []
  }

  predicate Awaits(op: Op, at: RankLease) { op.Reserving? && Sees(op.answers, at) }

  // The ticket whose release this operation may still report as done on every rank.
  function Promises(op: Op): Option<Ticket> {
    match op
    case Calling(LetGo(t, _), _, true) => Some(t)
    case Draining(LetGo(t, _), true, _) => Some(t)
    case Replaying(LetGo(t, _), true, _, _) => Some(t)
    case Settled(LetGo(t, _), true) => Some(t)
    case _ => None
  }

  ghost predicate EntryOk(w: World, e: Entry) { e.Release? ==> e.at in w.withdrawn }

  ghost predicate GoalOk(cfg: Config, w: World, goal: Goal) {
    match goal
    case GiveUp(id) => true
    case LetGo(t, _) => t in w.issued && forall at :: Owns(t, at) ==> at in w.withdrawn
    case Veto(_, after) => after.Some? ==> after.value in w.issued
    case Renewed(_, t, back) => AskedOk(cfg, w, t, back)
  }

  // The leases a reservation has seen are its own and outlast the window it will ask for.
  ghost predicate ReservingOk(cfg: Config, w: World, started: real, answers: seq<Answer>) {
    && |answers| == cfg.ranks && started <= w.now
    && (forall at :: Sees(answers, at) ==> at in w.granted && at !in w.withdrawn)
    && (forall at, k :: Sees(answers, at) && k in w.issued ==> !Owns(k, at))
    && (forall at :: Sees(answers, at) ==> Alive(w, at, started + cfg.ttl))
  }

  ghost predicate RenewingOk(cfg: Config, w: World, t: Ticket, started: real, replies: seq<Reply>) {
    && |replies| == cfg.ranks && started <= w.now
    && (forall at :: Owns(t, at) && at.rank < |replies| && replies[at.rank].Yes? ==>
          at in w.withdrawn || Alive(w, at, started + cfg.ttl))
  }

  ghost predicate AskedOk(cfg: Config, w: World, t: Ticket, back: Option<Identity>) {
    t in w.issued && (back.Some? ==> Known(cfg, back.value))
  }

  ghost predicate StateOk(cfg: Config, w: World, op: Op) {
    match op
    case Admitting(id) => Known(cfg, id)
    case Starting(id) => true
    case Reserving(id, started, answers) => ReservingOk(cfg, w, started, answers)
    case Calling(goal, _, _) => GoalOk(cfg, w, goal)
    case Queueing(goal, _, _) => GoalOk(cfg, w, goal)
    case Draining(goal, _, _) => GoalOk(cfg, w, goal)
    case Replaying(goal, _, _, _) => GoalOk(cfg, w, goal)
    case Requeueing(goal, _) => GoalOk(cfg, w, goal)
    case Settled(goal, _) => GoalOk(cfg, w, goal)
    case Retiring(t, _) => t in w.issued
    case Vetoing(_, after) => after.Some? ==> after.value in w.issued
    case RenewChecking(t, back) => AskedOk(cfg, w, t, back)
    case RenewSending(t, back) => AskedOk(cfg, w, t, back)
    case Renewing(t, back, started, replies) =>
      AskedOk(cfg, w, t, back) && RenewingOk(cfg, w, t, started, replies)
    case Rechecking(t, id) => t in w.issued && Known(cfg, id)
  }

  // Everything a release still promises is either gone at the rank or still to be called.
  ghost predicate PromiseOk(w: World, op: Op) {
    Promises(op).Some? ==>
      forall at :: Owns(Promises(op).value, at) && at in w.leases ==> Release(at) in Owes(op)
  }

  ghost predicate HoldOk(cfg: Config, w: World, op: Op) {
    Holds(op).Some? ==> Holds(op).value in w.c.pending && Known(cfg, Holds(op).value)
  }

  ghost predicate OpOk(cfg: Config, w: World, op: Op) {
    && HoldOk(cfg, w, op) && PromiseOk(w, op) && StateOk(cfg, w, op)
    && (forall e :: e in Owes(op) ==> EntryOk(w, e))
  }

  ghost predicate OpsOk(cfg: Config, w: World) {
    && w.ops.Keys <= w.used
    && forall o :: o in w.ops ==> OpOk(cfg, w, w.ops[o])
  }

  // No two operations hold credits for one identity or wait on one lease.
  ghost predicate Apart(w: World) {
    && (forall o1, o2, at | o1 in w.ops && o2 in w.ops && o1 != o2 ::
          !(Awaits(w.ops[o1], at) && Awaits(w.ops[o2], at)))
    && (forall o1, o2 | o1 in w.ops && o2 in w.ops && o1 != o2 ::
          Holds(w.ops[o1]).Some? ==> Holds(w.ops[o1]) != Holds(w.ops[o2]))
  }

  ghost predicate Held(w: World, id: Identity) {
    exists o :: o in w.ops && Holds(w.ops[o]) == Some(id)
  }

  ghost predicate PendingOk(w: World) {
    forall id :: id in w.c.pending ==> Held(w, id)
  }

  // ---- tickets, leases and credits --------------------------------------------

  predicate Live(c: Coord, t: Ticket) { t.token in c.tickets && t.token !in c.retiring }

  ghost predicate TicketsOk(cfg: Config, w: World) {
    && (forall t :: t in w.c.tickets ==> w.c.tickets[t].token == t && w.c.tickets[t] in w.issued)
    && (forall k :: k in w.issued ==>
          |k.leases| == cfg.ranks && Known(cfg, k.Id()) && k.sizes == Sizes(cfg, k.Id()))
    && (forall k1, k2 :: k1 in w.issued && k2 in w.issued && k1.token == k2.token ==> k1 == k2)
    && w.c.retiring <= w.c.tickets.Keys
    && w.c.valid.Keys <= w.c.tickets.Keys - w.c.retiring
  }

  // A ticket's leases are its own; they are withdrawn exactly when it stops being live,
  // and it is dropped only when no rank holds them any more.
  ghost predicate LeasesOk(w: World) {
    && w.leases.Keys <= w.granted && w.sent <= w.withdrawn <= w.granted
    && (forall k, at :: k in w.issued && Owns(k, at) ==> at in w.granted)
    && (forall k1, k2, at :: k1 in w.issued && k2 in w.issued && Owns(k1, at) && Owns(k2, at) ==> k1 == k2)
    && (forall k, at :: k in w.issued && Owns(k, at) ==> (at in w.withdrawn <==> !Live(w.c, k)))
    && (forall k, at :: k in w.issued && Owns(k, at) && k.token !in w.c.tickets ==> at !in w.leases)
  }

  ghost predicate ValidOk(cfg: Config, w: World) {
    forall t, at :: t in w.c.valid && t in w.c.tickets && Owns(w.c.tickets[t], at) ==>
      Alive(w, at, w.c.valid[t] + cfg.margin)
  }

  ghost predicate CreditsOk(cfg: Config, c: Coord) {
    && c.bytes == TicketCharges(c.tickets) + PendingCharges(cfg, c.pending)
    && |c.tickets| + |c.pending| <= cfg.maxKeys
    && c.bytes <= cfg.maxBytes
    && |c.invalid| <= cfg.maxKeys
  }

  // ---- the cleanup ledger -----------------------------------------------------

  ghost predicate Distinct(s: seq<Entry>) {
    forall i, j :: 0 <= i < j < |s| ==> s[i] != s[j]
  }

  ghost predicate LogOk(cfg: Config, w: World) {
    && |w.c.retry| <= cfg.retryCap && Distinct(w.c.retry)
    && (w.c.lost ==> w.c.closed)
    && (forall e :: e in w.c.retry ==> EntryOk(w, e))
  }

  // A call that still has to reach its rank is remembered somewhere.
  ghost predicate InLedger(w: World, e: Entry) {
    e in w.c.retry || exists o :: o in w.ops && e in Owes(w.ops[o])
  }

  // A lease that was given up but that its rank still holds is never forgotten.
  ghost predicate NothingForgotten(w: World) {
    forall at :: at in w.withdrawn && at in w.leases && !w.c.lost ==> InLedger(w, Release(at))
  }

  ghost predicate Inv(cfg: Config, w: World) {
    && cfg.Valid()
    && OpsOk(cfg, w) && Apart(w) && PendingOk(w)
    && TicketsOk(cfg, w) && LeasesOk(w) && ValidOk(cfg, w)
    && CreditsOk(cfg, w.c) && LogOk(cfg, w) && NothingForgotten(w)
  }

  lemma InitCredits(cfg: Config)
    ensures CreditsOk(cfg, Empty())
  {
    var c := Empty();
    assert ChargeMap(c.tickets) == map[];
    assert (map id | id in c.pending :: Charge(cfg, id)) == map[];
  }

  lemma InitInv(cfg: Config)
    requires cfg.Valid()
    ensures Inv(cfg, Init())
  {
    InitCredits(cfg);
  }

  // ---- framing: what a step may change under the other operations -------------

  // Time and knowledge only grow; leases still relied on are kept until they expire, and
  // leases once granted do not come back.
  ghost predicate Grows(w: World, v: World) {
    && w.now <= v.now
    && w.granted <= v.granted && w.withdrawn <= v.withdrawn && w.issued <= v.issued && w.taken <= v.taken
    && (forall at :: at in w.leases && at !in v.withdrawn && at !in v.taken && v.now < w.leases[at] ==>
          at in v.leases && w.leases[at] <= v.leases[at])
    && (forall at :: at in v.leases && at in w.granted ==> at in w.leases)
  }

  ghost predicate Undisturbed(w: World, v: World, op: Op) {
    && (Holds(op).Some? ==> Holds(op).value in v.c.pending)
    && (forall at :: Awaits(op, at) ==> at !in v.withdrawn)
    && (forall at, k :: Awaits(op, at) && k in v.issued && k !in w.issued ==> !Owns(k, at))
  }

  lemma AliveKept(w: World, v: World, at: RankLease, until: real)
    requires Grows(w, v) && Alive(w, at, until) && at !in v.withdrawn
    ensures Alive(v, at, until)
  {
  }

  lemma StateKept(cfg: Config, w: World, v: World, op: Op)
    requires StateOk(cfg, w, op) && Grows(w, v) && Undisturbed(w, v, op)
    ensures StateOk(cfg, v, op)
  {
    match op
    case Reserving(id, started, answers) =>
      forall at | Sees(answers, at) ensures at !in v.withdrawn && Alive(v, at, started + cfg.ttl) {
        assert Awaits(op, at);
        AliveKept(w, v, at, started + cfg.ttl);
      }
      forall at, k | Sees(answers, at) && k in v.issued ensures !Owns(k, at) {
        assert Awaits(op, at);
      }
    case Renewing(t, back, started, replies) =>
      forall at | Owns(t, at) && at.rank < |replies| && replies[at.rank].Yes? && at !in v.withdrawn
        ensures Alive(v, at, started + cfg.ttl)
      {
        AliveKept(w, v, at, started + cfg.ttl);
      }
    case _ =>
  }

  lemma PromiseKept(cfg: Config, w: World, v: World, op: Op)
    requires PromiseOk(w, op) && StateOk(cfg, w, op) && Grows(w, v) && LeasesOk(w)
    ensures PromiseOk(v, op)
  {
  }

  lemma OpKept(cfg: Config, w: World, v: World, op: Op)
    requires OpOk(cfg, w, op) && LeasesOk(w) && Grows(w, v) && Undisturbed(w, v, op)
    ensures OpOk(cfg, v, op)
  {
    StateKept(cfg, w, v, op);
    PromiseKept(cfg, w, v, op);
  }

  // `changed` is None when the operation ends.
  ghost predicate Moves(w: World, v: World, o: OpId, changed: Option<Op>) {
    && v.ops == (if changed.Some? then w.ops[o := changed.value] else w.ops - {o})
    && v.used == w.used + {o}
  }

  ghost predicate ApartFrom(w: World, o: OpId, op: Op) {
    && (forall x, at :: x in w.ops && x != o && Awaits(w.ops[x], at) ==> !Awaits(op, at))
    && (forall x :: x in w.ops && x != o && Holds(op).Some? ==> Holds(op) != Holds(w.ops[x]))
  }

  lemma OpsMove(cfg: Config, w: World, v: World, o: OpId, changed: Option<Op>)
    requires OpsOk(cfg, w) && LeasesOk(w) && Grows(w, v) && Moves(w, v, o, changed)
    requires forall x :: x in w.ops && x != o ==> Undisturbed(w, v, w.ops[x])
    requires changed.Some? ==> OpOk(cfg, v, changed.value)
    ensures OpsOk(cfg, v)
  {
    forall x | x in v.ops && x != o ensures OpOk(cfg, v, v.ops[x]) {
      OpKept(cfg, w, v, w.ops[x]);
    }
  }

  lemma ApartMove(w: World, v: World, o: OpId, changed: Option<Op>)
    requires Apart(w) && Moves(w, v, o, changed)
    requires changed.Some? ==> ApartFrom(w, o, changed.value)
    ensures Apart(v)
  {
  }

  lemma PendingMove(w: World, v: World, o: OpId, changed: Option<Op>)
    requires PendingOk(w) && Moves(w, v, o, changed)
    requires forall id :: id in v.c.pending ==>
      id in w.c.pending || (changed.Some? && Holds(changed.value) == Some(id))
    requires o in w.ops && Holds(w.ops[o]).Some? && Holds(w.ops[o]).value in v.c.pending ==>
      changed.Some? && Holds(changed.value) == Holds(w.ops[o])
    ensures PendingOk(v)
  {
    forall id | id in v.c.pending ensures Held(v, id) {
      if changed.Some? && Holds(changed.value) == Some(id) {
        assert v.ops[o] == changed.value;
      } else {
        var x :| x in w.ops && Holds(w.ops[x]) == Some(id);
        assert x != o && v.ops[x] == w.ops[x];
      }
    }
  }

  // A call leaves the ledger only when it reached its rank or the log overflowed.
  ghost predicate Handed(v: World, e: Entry, owes: seq<Entry>) {
    e.Release? ==> e in owes || e in v.c.retry || e.at !in v.leases || v.c.lost
  }

  lemma LedgerMove(w: World, v: World, o: OpId, changed: Option<Op>)
    requires NothingForgotten(w) && (w.c.lost ==> v.c.lost) && Moves(w, v, o, changed)
    requires forall at :: at in v.withdrawn && at in v.leases ==>
      (at in w.withdrawn && at in w.leases) || (changed.Some? && Release(at) in Owes(changed.value))
    requires forall e :: e in w.c.retry ==> Handed(v, e, if changed.Some? then Owes(changed.value) else [])
    requires o in w.ops ==> forall e :: e in Owes(w.ops[o]) ==>
      Handed(v, e, if changed.Some? then Owes(changed.value) else [])
    ensures NothingForgotten(v)
  {
    var owes := if changed.Some? then Owes(changed.value) else [];
    forall at | at in v.withdrawn && at in v.leases && !v.c.lost
      ensures InLedger(v, Release(at))
    {
      var e := Release(at);
      if e in owes {
        assert v.ops[o] == changed.value;
      } else {
        assert InLedger(w, e);
        if e in w.c.retry {
          assert Handed(v, e, owes);
        } else {
          var x :| x in w.ops && e in Owes(w.ops[x]);
          if x == o {
            assert Handed(v, e, owes);
          } else {
            assert v.ops[x] == w.ops[x];
          }
        }
      }
    }
  }

  // ---- steps that only move one operation on ----------------------------------

  // A step of `o` alone: it keeps its credits, waits on no new lease and forgets no call.
  ghost predicate Continues(w: World, o: OpId, op: Op) {
    if o in w.ops then
      && Holds(op) == Holds(w.ops[o])
      && (forall at :: Awaits(op, at) ==> Awaits(w.ops[o], at))
      && forall e :: e in Owes(w.ops[o]) ==> Handed(w, e, Owes(op))
    else Holds(op) == None && !op.Reserving?
  }

  // Only the operations differ.
  lemma StaticKept(cfg: Config, w: World, v: World)
    requires v == w.(ops := v.ops, used := v.used)
    requires TicketsOk(cfg, w) && LeasesOk(w) && ValidOk(cfg, w) && LogOk(cfg, w)
    ensures TicketsOk(cfg, v) && LeasesOk(v) && ValidOk(cfg, v) && LogOk(cfg, v)
  {
    forall t, at | t in v.c.valid && t in v.c.tickets && Owns(v.c.tickets[t], at)
      ensures Alive(v, at, v.c.valid[t] + cfg.margin)
    {
      assert Alive(w, at, w.c.valid[t] + cfg.margin);
    }
  }

  lemma QuietOps(cfg: Config, w: World, v: World, o: OpId, op: Op)
    requires OpsOk(cfg, w) && LeasesOk(w) && Apart(w)
    requires OpOk(cfg, w, op) && Continues(w, o, op) && v == Put(w, o, op)
    ensures OpsOk(cfg, v) && Apart(v)
  {
    forall x | x in w.ops ensures Undisturbed(w, v, w.ops[x]) {
      assert OpOk(cfg, w, w.ops[x]);
    }
    assert Undisturbed(w, v, op);
    OpKept(cfg, w, v, op);
    OpsMove(cfg, w, v, o, Some(op));
    ApartMove(w, v, o, Some(op));
  }

  lemma QuietPut(cfg: Config, w: World, o: OpId, op: Op)
    requires Inv(cfg, w) && OpOk(cfg, w, op) && Continues(w, o, op)
    ensures Inv(cfg, Put(w, o, op))
  {
    var v := Put(w, o, op);
    QuietOps(cfg, w, v, o, op);
    StaticKept(cfg, w, v);
    PendingMove(w, v, o, Some(op));
    LedgerMove(w, v, o, Some(op));
  }

  lemma QuietGone(cfg: Config, w: World, v: World, o: OpId)
    requires OpsOk(cfg, w) && LeasesOk(w) && Apart(w) && v == End(w, o)
    ensures OpsOk(cfg, v) && Apart(v)
  {
    forall x | x in w.ops ensures Undisturbed(w, v, w.ops[x]) {
      assert OpOk(cfg, w, w.ops[x]);
    }
    OpsMove(cfg, w, v, o, None);
    ApartMove(w, v, o, None);
  }

  lemma QuietEnd(cfg: Config, w: World, o: OpId)
    requires Inv(cfg, w)
    requires o in w.ops ==> Holds(w.ops[o]) == None && Owes(w.ops[o]) == []
    ensures Inv(cfg, End(w, o))
  {
    var v := End(w, o);
    QuietGone(cfg, w, v, o);
    StaticKept(cfg, w, v);
    PendingMove(w, v, o, None);
    LedgerMove(w, v, o, None);
  }

  // ---- steps that leave the operations alone ----------------------------------

  lemma OpsStay(cfg: Config, w: World, v: World)
    requires OpsOk(cfg, w) && LeasesOk(w) && Grows(w, v)
    requires v.ops == w.ops && v.used == w.used && v.c.pending == w.c.pending
    requires v.withdrawn == w.withdrawn && v.issued == w.issued
    ensures OpsOk(cfg, v)
  {
    forall o | o in v.ops ensures OpOk(cfg, v, v.ops[o]) {
      var op := w.ops[o];
      assert OpOk(cfg, w, op);
      assert Undisturbed(w, v, op);
      OpKept(cfg, w, v, op);
    }
  }

  lemma PendingStay(w: World, v: World)
    requires Apart(w) && PendingOk(w) && v.ops == w.ops && v.c.pending == w.c.pending
    ensures Apart(v) && PendingOk(v)
  {
    forall id | id in v.c.pending ensures Held(v, id) {
      var o :| o in w.ops && Holds(w.ops[o]) == Some(id);
      assert v.ops[o] == w.ops[o];
    }
  }

  lemma ValidKept(cfg: Config, w: World, v: World)
    requires ValidOk(cfg, w) && TicketsOk(cfg, w) && LeasesOk(w) && Grows(w, v)
    requires v.c.valid == w.c.valid && v.c.tickets == w.c.tickets
    requires forall k, at :: k in w.issued && Owns(k, at) && Live(w.c, k) ==> at !in v.withdrawn
    ensures ValidOk(cfg, v)
  {
    forall t, at | t in v.c.valid && t in v.c.tickets && Owns(v.c.tickets[t], at)
      ensures Alive(v, at, v.c.valid[t] + cfg.margin)
    {
      assert Live(w.c, w.c.tickets[t]);
      AliveKept(w, v, at, w.c.valid[t] + cfg.margin);
    }
  }

  lemma LedgerStay(w: World, v: World)
    requires NothingForgotten(w) && v.ops == w.ops && (w.c.lost ==> v.c.lost)
    requires forall at :: at in v.withdrawn && at in v.leases ==> at in w.withdrawn && at in w.leases
    requires forall e :: e in w.c.retry ==> Handed(v, e, []) || InLedger(v, e)
    ensures NothingForgotten(v)
  {
    forall at | at in v.withdrawn && at in v.leases && !v.c.lost ensures InLedger(v, Release(at)) {
      assert InLedger(w, Release(at));
      if Release(at) !in w.c.retry {
        var x :| x in w.ops && Release(at) in Owes(w.ops[x]);
        assert v.ops[x] == w.ops[x];
      }
    }
  }

  // The clock moves, ranks grant, extend or lose leases, cleanup calls are sent and arrive.
  lemma RankStep(cfg: Config, w: World, v: World)
    requires Inv(cfg, w) && Grows(w, v)
    requires v.leases.Keys <= v.granted && v.sent <= w.withdrawn
    requires v == w.(now := v.now, leases := v.leases, granted := v.granted, sent := v.sent, writes := v.writes,
                     taken := v.taken, late := v.late)
    ensures Inv(cfg, v)
  {
    OpsStay(cfg, w, v);
    PendingStay(w, v);
    ValidKept(cfg, w, v);
    LedgerStay(w, v);
  }

  // The books change, but no ticket, window or credit does.
  lemma BookStatic(cfg: Config, w: World, v: World)
    requires TicketsOk(cfg, w) && LeasesOk(w) && ValidOk(cfg, w) && CreditsOk(cfg, w.c)
    requires v == w.(c := v.c)
    requires v.c == w.c.(invalid := v.c.invalid, acked := v.c.acked, retry := v.c.retry,
                         lost := v.c.lost, closed := v.c.closed)
    requires |v.c.invalid| <= cfg.maxKeys
    ensures TicketsOk(cfg, v) && LeasesOk(v) && ValidOk(cfg, v) && CreditsOk(cfg, v.c)
  {
    ValidKept(cfg, w, v);
  }

  lemma BookStep(cfg: Config, w: World, v: World)
    requires Inv(cfg, w) && v == w.(c := v.c)
    requires v.c == w.c.(invalid := v.c.invalid, acked := v.c.acked, retry := v.c.retry,
                         lost := v.c.lost, closed := v.c.closed)
    requires |v.c.invalid| <= cfg.maxKeys && LogOk(cfg, v) && (w.c.lost ==> v.c.lost)
    requires forall e :: e in w.c.retry ==> Handed(v, e, []) || InLedger(v, e)
    ensures Inv(cfg, v)
  {
    hide OpsOk, TicketsOk, ValidOk, CreditsOk, LogOk, NothingForgotten;
    OpsStay(cfg, w, v);
    PendingStay(w, v);
    BookStatic(cfg, w, v);
    LedgerStay(w, v);
  }
}
